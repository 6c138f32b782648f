/**
 * Chat messages and the prompt the conversation chain sends to the model:
 * a system instruction, then the session's history, then the new human turn.
 */
module Messages {
  import opened Wrappers

  /** A stored chat message: what the user typed, or what the assistant replied. */
  datatype Message = User(text: string) | Assistant(text: string)

  /** The chat role a stored message is displayed under. */
  function DisplayRole(m: Message): (role: string)
    ensures role == "user" <==> m.User?
    ensures role == "user" || role == "assistant"
  {
    match m
    case User(_) => "user"
    case Assistant(_) => "assistant"
  }

  /** One role-tagged segment of a rendered prompt. */
  datatype Segment = System(content: string) | Human(content: string) | AI(content: string)

  type Prompt = seq<Segment>

  /** How a stored message is passed to the model: user text as a human turn, replies as AI turns. */
  function AsSegment(m: Message): (g: Segment)
    ensures !g.System? && g.content == m.text
    ensures g.Human? <==> m.User?
  {
    match m
    case User(t) => Human(t)
    case Assistant(t) => AI(t)
  }

  /** The stored message a history segment stands for; a system segment stands for none. */
  function AsMessage(g: Segment): (r: Option<Message>)
    ensures r.Some? <==> !g.System?
    ensures r.Some? ==> AsSegment(r.value) == g
  {
    match g
    case System(_) => None
    case Human(t) => Some(User(t))
    case AI(t) => Some(Assistant(t))
  }

  /** The history placeholder of the prompt template, filled in message by message. */
  function AsSegments(h: seq<Message>): (p: Prompt)
    ensures |p| == |h|
    ensures forall i :: 0 <= i < |h| ==> p[i] == AsSegment(h[i])
  {
    if h == [] then [] else [AsSegment(h[0])] + AsSegments(h[1..])
  }

  /** Reads a run of history segments back as messages; fails on a system segment. */
  function AsMessages(p: Prompt): Option<seq<Message>>
  {
    if p == [] then Some([])
    else match (AsMessage(p[0]), AsMessages(p[1..]))
      case (Some(m), Some(rest)) => Some([m] + rest)
      case _ => None
  }

  /**
   * The chat prompt template: the system instruction first, the whole
   * session history in order, and the new input as the last, human, turn.
   */
  function RenderPrompt(instruction: string, history: seq<Message>, input: string): (p: Prompt)
    ensures |p| == |history| + 2
    ensures p[0] == System(instruction)
    ensures forall i :: 0 <= i < |history| ==> p[i + 1] == AsSegment(history[i])
    ensures p[|p| - 1] == Human(input)
  {
    [System(instruction)] + AsSegments(history) + [Human(input)]
  }

  /** Splits a prompt into the instruction, the history and the input it was rendered from. */
  function Decompose(p: Prompt): Option<(string, seq<Message>, string)>
  {
    if |p| < 2 || !p[0].System? || !p[|p| - 1].Human? then None
    else match AsMessages(p[1..|p| - 1])
      case Some(h) => Some((p[0].content, h, p[|p| - 1].content))
      case None => None
  }

  lemma {:induction false} AsMessagesOfSegments(h: seq<Message>)
    ensures AsMessages(AsSegments(h)) == Some(h)
  {
    if h != [] {
      AsMessagesOfSegments(h[1..]);
      assert AsSegments(h)[1..] == AsSegments(h[1..]);
      assert [h[0]] + h[1..] == h;
    }
  }

  lemma {:induction false} SegmentsOfMessages(p: Prompt, h: seq<Message>)
    requires AsMessages(p) == Some(h)
    ensures AsSegments(h) == p
  {
    if p != [] {
      var rest := AsMessages(p[1..]).value;
      SegmentsOfMessages(p[1..], rest);
      assert h == [AsMessage(p[0]).value] + rest;
      assert h[1..] == rest;
    }
  }

  /** Rendering loses nothing: the prompt determines its instruction, history and input. */
  lemma RenderThenDecompose(instruction: string, history: seq<Message>, input: string)
    ensures Decompose(RenderPrompt(instruction, history, input)) == Some((instruction, history, input))
  {
    var p := RenderPrompt(instruction, history, input);
    assert p[1..|p| - 1] == AsSegments(history);
    AsMessagesOfSegments(history);
  }

  /** Every prompt that decomposes is the rendering of what it decomposes into. */
  lemma DecomposeThenRender(p: Prompt)
    requires Decompose(p).Some?
    ensures var (instruction, history, input) := Decompose(p).value;
            RenderPrompt(instruction, history, input) == p
  {
    var (instruction, history, input) := Decompose(p).value;
    SegmentsOfMessages(p[1..|p| - 1], history);
    assert p == [p[0]] + p[1..|p| - 1] + [p[|p| - 1]];
  }
}
