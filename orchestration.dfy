/**
 * What one visitor can do to the store through the application's page:
 * each rerun of the page initializes the store, and each rerun carries at
 * most one state-changing sidebar or chat action (a refused delete changes
 * nothing, so it may share a rerun with a chat input). The lemmas show that no sequence of such
 * actions can empty the store, lose the active id, or duplicate a name.
 */
module Orchestration {
  import opened Wrappers
  import opened Messages
  import opened SessionSpec
  import opened SessionStore

  datatype Action =
    | Select(selected: Id)                       // a pick in the session selector
    | NewSession(name: string, newId: Id)        // text typed into the "New Session" field
    | DeleteButton(newId: Id)                    // the delete button
    | Chat(input: string, reply: Option<string>) // a chat input and what the model returned

  lemma CommitKeepsNamesDistinct(s: State, id: Id, input: string, reply: Option<string>)
    requires Valid(s) && NamesDistinct(s)
    ensures NamesDistinct(Commit(s, id, input, reply))
  {
    if reply.Some? && id in s.sessions {
      var t := Commit(s, id, input, reply);
      forall a, b | a in t.sessions && b in t.sessions && a != b
        ensures t.sessions[a].name != t.sessions[b].name
      {
        assert t.sessions[a].name == s.sessions[a].name;
        assert t.sessions[b].name == s.sessions[b].name;
      }
    }
  }

  /**
   * The effect of one action on an initialized store; chat goes to the
   * active session. Every action keeps the store invariant and keeps the
   * session names pairwise distinct.
   */
  function Step(s: State, a: Action): (t: State)
    requires Valid(s) && s.initialized
    ensures Valid(t) && t.initialized
    ensures NamesDistinct(s) ==> NamesDistinct(t)
  {
    match a
    case Select(selected) =>
      SwitchValid(s, selected);
      Switch(s, selected)
    case NewSession(name, newId) =>
      var t := GuardedCreate(s, name, newId);
      assert Valid(t) && (NamesDistinct(s) ==> NamesDistinct(t)) by {
        if name != "" && name !in Names(s) {
          CreateValid(s, name, newId);
        }
        if NamesDistinct(s) {
          GuardedCreateKeepsNamesDistinct(s, name, newId);
        }
      }
      t
    case DeleteButton(newId) =>
      var t := GuardedDelete(s, newId);
      assert Valid(t) && (NamesDistinct(s) ==> NamesDistinct(t)) by {
        DeleteReassigns(s, s.active, newId);
        if NamesDistinct(s) {
          DeleteKeepsNamesDistinct(s, s.active, newId);
        }
      }
      t
    case Chat(input, reply) =>
      var t := Commit(s, s.active, input, reply);
      assert Valid(t) && (NamesDistinct(s) ==> NamesDistinct(t)) by {
        if reply.Some? {
          CommitAppendsTurn(s, s.active, input, reply.value);
        }
        if NamesDistinct(s) {
          CommitKeepsNamesDistinct(s, s.active, input, reply);
        }
      }
      t
  }

  /** A sequence of actions, applied in order. */
  function Run(s: State, actions: seq<Action>): (t: State)
    requires Valid(s) && s.initialized
    ensures Valid(t) && t.initialized
    ensures NamesDistinct(s) ==> NamesDistinct(t)
    decreases |actions|
  {
    if actions == [] then s
    else Run(Step(s, actions[0]), actions[1..])
  }

  /**
   * From a first visit, after the start-up initialization and any actions,
   * the store is non-empty, the active id is one of its keys and no two
   * sessions share a name.
   */
  lemma SessionLifetime(startId: Id, actions: seq<Action>)
    ensures var start := Initialize(Empty(), startId);
            && Valid(start) && start.initialized
            && var t := Run(start, actions);
               && t.sessions != map[] && t.active in t.sessions && NamesDistinct(t)
  {
    var start := Initialize(Empty(), startId);
    InitializeCreatesDefault(Empty(), startId);
    assert NamesDistinct(start);
  }

  /**
   * The walk-through of a typical visit, on the store object: the default
   * session, then "Work", one exchange in it, deleting the default session,
   * and a refused attempt to delete the last one.
   */
  method Walkthrough() returns (workHistory: seq<Message>, remaining: nat, refused: bool)
    ensures workHistory == [User("Hello"), Assistant("Hi there")]
    ensures remaining == 1 && refused
  {
    var store := new Store();
    store.InitializeSessionState("chat-1");
    assert store.sessions.Keys == {"chat-1"};
    store.CreateNewSession("Work", "work");
    assert store.active == "work" && |store.sessions| == 2;
    var reply := store.Send("work", "Hello", "instructions", (p: Prompt) => Some("Hi there"));
    store.DeleteSession("chat-1", "unused");
    assert store.sessions.Keys == {"work"} && store.active == "work";
    var deleted := store.RequestDelete("unused");
    workHistory := store.GetSessionHistory("work");
    remaining := |store.sessions|;
    refused := !deleted;
  }
}
