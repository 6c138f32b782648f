# ChatAI session store, in Dafny

A model of the core of ChatAI, a Streamlit chat application (`app.py`). The
application keeps, per visitor, a store of chat sessions (id to name and
message history) in insertion order, the id of the active session and a
display buffer. Sessions are created, looked up, deleted and switched
between from a sidebar. Every chat input goes through one conversation
chain: the prompt is a fixed system instruction, then the session's whole
history, then the new input. On a reply the chain appends the input and the
reply to that session's history. Uploaded files are routed by MIME type.

Modules:

- `Wrappers` (`wrappers.dfy`): `Option`.
- `Messages` (`messages.dfy`): the two message roles, the role-tagged prompt
  segments, prompt rendering and its exact inverse `Decompose`.
- `FileRouting` (`file_routing.dfy`): the MIME-type classifier.
- `SessionSpec` (`session_spec.dfy`): the store as a value (`State`), one
  function per store operation, the store invariant `Valid`, and the lemmas
  stating what the operations promise.
- `SessionStore` (`session_store.dfy`): class `Store`, whose fields are the
  store, the insertion order, the active id, the display buffer and whether
  the store exists yet. Each method is proved to change the fields exactly as
  the matching `SessionSpec` function says and to keep `Valid`.
- `Orchestration` (`orchestration.dfy`): the page's guarded actions as one
  step function, and the lemma that no sequence of them empties the store,
  loses the active id or duplicates a session name.

Modelling choices:

- A uuid4 draw is an `Id` parameter (`newId`). `create_new_session` is
  modelled as written even when that id is already a key: the entry is
  replaced in place and keeps its position. Freshness is only a hypothesis of
  `CreateAddsOne`.
- The language model is a parameter `client: Prompt -> Option<string>`;
  `None` is a call that raised (authentication, transport, rate limit).
- The system instruction's text is a parameter `instruction`.
- The model follows app.py:
  - after a delete, the active id is the first remaining key in insertion
    order. app.py:86 takes the first remaining key.
  - the duplicate-name check is made only by the sidebar (app.py:180).
    `create_new_session` itself accepts a duplicate name.
  - `delete_session` itself never refuses. On the last session it creates a
    new "Chat 1". Only the delete button refuses when one session is left
    (app.py:183-188).
- The session selector only offers keys of the store (app.py:166-171).
  `SelectSession` also answers `false` and changes nothing for any other id.

## Model

| member | source | states |
|---|---|---|
| Messages.DisplayRole | app.py:195-199 | a message is shown as "user" exactly when it is a user message, otherwise as "assistant" |
| Messages.AsSegment | app.py:117-122 | a stored message enters the prompt with its text unchanged, as a human turn exactly when the user wrote it, never as a system turn |
| Messages.AsMessage | app.py:120 | a history segment reads back as the message it was rendered from; a system segment is not a message |
| Messages.AsSegments | app.py:120 | the history placeholder holds one segment per stored message, in history order |
| Messages.RenderPrompt | app.py:117-122 | the prompt is the system instruction first, then every history message in order, then the new input as the last human turn |
| Messages.RenderThenDecompose | app.py:117-122 | the rendered prompt determines the instruction, the history and the input it came from |
| Messages.DecomposeThenRender | app.py:117-122 | every prompt that decomposes is exactly the rendering of its parts |
| Messages.AsMessagesOfSegments | app.py:120 | reading the rendered history back gives the history itself |
| Messages.SegmentsOfMessages | app.py:120 | a segment run that reads back as a history is that history's rendering |
| FileRouting.Classify | app.py:225-233 | every MIME type gets exactly one kind: pdf or plain text is a Document, a type with the "image/" prefix is an Image, anything else is Unsupported |
| FileRouting.DocumentTypesAreNotImages | app.py:225-228 | no document type has the "image/" prefix, so the two tests never overlap |
| FileRouting.ImageFamily | app.py:228 | every "image/..." type goes to the image handler |
| SessionSpec.Without | app.py:79 | deleting a key leaves exactly the other keys |
| SessionSpec.WithoutAbsent | app.py:78-79 | deleting a key that is not stored leaves the key order as it was |
| SessionSpec.WithoutSplit | app.py:79 | deleting a key that occurs once closes its slot and keeps the other keys in their order |
| SessionSpec.WithoutAt | app.py:79 | in a duplicate-free key list, deleting the key at one position leaves the keys before it, then the keys after it |
| SessionSpec.WithoutNoDup | app.py:79 | deleting a key keeps every remaining key listed once |
| SessionSpec.WithoutHead | app.py:86 | the first remaining key is the first key in insertion order other than the deleted one |
| SessionSpec.Options | app.py:162-171 | the selector offers each listed id with its session's name, in the listed order |
| SessionSpec.SelectorListsEverySession | app.py:162-171 | the selector lists every session, paired with its own name, and lists only stored ids, each exactly once |
| SessionSpec.Empty | app.py:46 | before the first run there is no store and it satisfies the invariant |
| SessionSpec.Create | app.py:52-63 | an empty session with the given name is stored under the new id and made active, the display buffer is cleared, every other entry is kept, and the id is appended to the insertion order unless it is already a key, whose slot it keeps |
| SessionSpec.Initialize | app.py:43-49 | after initialization the store exists |
| SessionSpec.History | app.py:66-72 | a known id gives its stored history, an unknown id an empty one |
| SessionSpec.Delete | app.py:75-86 | after a delete the store exists |
| SessionSpec.Commit | app.py:129-134 | committing a turn touches no key, no order, no active id and no display buffer |
| SessionSpec.GuardedCreate | app.py:180-182 | an empty or already used name changes nothing; otherwise a session with that name and an empty history is created, made active, and the display is cleared |
| SessionSpec.GuardedDelete | app.py:183-188 | with one session left the delete button changes nothing |
| SessionSpec.Switch | app.py:173-174 | selecting a stored id makes it active; the store flag, the sessions, the order and the display are kept; any other id changes nothing |
| SessionSpec.Turns | app.py:246-249 | N exchanges are 2N messages: each input as a user message followed by its reply |
| SessionSpec.CreateValid | app.py:52-63 | creating a session, even under an existing id, leaves the store non-empty with the active id a key |
| SessionSpec.InitializeCreatesDefault | app.py:43-49 | the first initialization yields exactly one session, "Chat 1" with an empty history, active, with an empty display |
| SessionSpec.InitializeIdempotent | app.py:46 | a second initialization changes nothing |
| SessionSpec.InitializeValid | app.py:43-49 | initialization establishes the store invariant |
| SessionSpec.CreateAddsOne | app.py:52-63 | creating under a fresh id adds exactly one entry, named as given, with an empty history, last in order; it becomes active, the display is cleared, every earlier entry is unchanged, and the name set grows by that name |
| SessionSpec.CollidingCreateKeepsSlot | app.py:56-60 | creating under an id that is already a key replaces that entry in place: same slot in the order, same number of sessions, the other entries kept |
| SessionSpec.HistoryOfUnknown | app.py:68-72 | an unknown id has an empty history, and a turn committed to it leaves the store unchanged |
| SessionSpec.DeleteReassigns | app.py:75-86 | deletion keeps the invariant and removes only that id; an emptied store becomes a single new "Chat 1", otherwise the active id is the first remaining key in insertion order, even when the deleted id was not active or not present |
| SessionSpec.DeleteKeepsOrder | app.py:78-86 | when sessions remain, the remaining keys keep their insertion order: the deleted key's slot closes up, and deleting an absent key keeps the order |
| SessionSpec.CommitAppendsTurn | app.py:129-134 | a reply appends exactly the user input and then the reply to that session; its name, the other sessions and the name set are unchanged |
| SessionSpec.FailedCallRecordsNothing | app.py:246-249 | a failed model call leaves the whole store unchanged |
| SessionSpec.SendAllAppends | app.py:246-249 | after N successful sends a stored session's history has grown by exactly those 2N messages in call order |
| SessionSpec.SendAllIsolated | app.py:129-134 | sends to one session keep the invariant, the keys and the active id, and leave every other session unchanged |
| SessionSpec.GuardedDeleteRemovesActive | app.py:183-186 | when the button deletes, it removes exactly the active session and another session becomes active |
| SessionSpec.SwitchValid | app.py:173-174 | switching keeps the store invariant |
| SessionSpec.DeleteKeepsNamesDistinct | app.py:75-86 | deletion never makes two sessions share a name |
| SessionSpec.GuardedCreateKeepsNamesDistinct | app.py:180-182 | the create guard keeps session names pairwise distinct |
| SessionStore.Store.constructor | app.py:46 | the first visit starts with no store |
| SessionStore.Store.InitializeSessionState | app.py:43-49 | the fields move as `Initialize` says and the invariant holds |
| SessionStore.Store.CreateNewSession | app.py:52-63 | the fields move as `Create` says and the invariant holds |
| SessionStore.Store.GetSessionHistory | app.py:66-72 | a known id gives its stored history, an unknown id an empty one; nothing is written |
| SessionStore.Store.DeleteSession | app.py:75-86 | the fields move as `Delete` says and the invariant holds |
| SessionStore.Store.Send | app.py:246-249 | the model is called once, on the prompt rendered from the instruction, the session's history before the call and the input; the store then moves as `Commit` says |
| SessionStore.Store.SelectSession | app.py:173-174 | a stored id other than the active one becomes active and is reported as switched; the state moves as `Switch` says |
| SessionStore.Store.RequestCreate | app.py:180-182 | creates exactly when the name is non-empty and unused, as `GuardedCreate` says |
| SessionStore.Store.RequestDelete | app.py:183-188 | deletes the active session exactly when more than one exists, as `GuardedDelete` says |
| Orchestration.CommitKeepsNamesDistinct | app.py:246-249 | a chat turn never makes two sessions share a name |
| Orchestration.Step | app.py:173-249 | every sidebar or chat action keeps the store invariant and keeps session names pairwise distinct |
| Orchestration.Run | app.py:141-188 | any sequence of actions keeps the store non-empty, the active id a key and the names distinct |
| Orchestration.SessionLifetime | app.py:147 | from a first visit, after start-up and any actions, the store is non-empty, the active id is a key, and names are distinct |
| Orchestration.Walkthrough | app.py:52-88 | default session, create "Work", one exchange, delete the default: "Work" holds the user message then the reply, one session is left, and deleting it is refused |

## Left out

- Streamlit rendering (title, sidebar widgets, chat bubbles, spinner, `st.image`, `st.audio`, `st.error`) and `st.rerun()`. A rerun only re-executes the page and changes no store state.
- Image loading with PIL at start-up: file I/O.
- `llm_model`: reading the API key from the environment or the secrets file and building the Groq client. The model is the `client` parameter.
- The `@st.cache_resource` memoization of the chain: framework caching. The chain is the pure function `RenderPrompt` plus one `client` call.
- The wording of the system instruction: it is the opaque `instruction` parameter.
- uuid4 randomness: modelled only as an id supplied by the caller.
- LangChain internals (prompt template, output parser, history wrapper). Only their observable contracts are modelled: the prompt's shape, a string reply, and append-on-success.
- Uploaded-file and audio contents: display-only stubs. Only the routing decision on the MIME type is modelled.
- The input text: `user_input.text` can be absent when only files are sent. Here the input is always a plain string.
- Concurrency: each store operation and each send runs to completion before the next one starts, as in a single Streamlit session.
- Messages.AsMessages and SessionSpec.SendAll carry no contract of their own. What they satisfy is stated in the round-trip lemmas (AsMessagesOfSegments, SegmentsOfMessages) and the send-run lemmas (SendAllAppends, SendAllIsolated).
- SessionSpec.GuardedDelete: its own ensures only state the refusal. What it does when it acts is stated in GuardedDeleteRemovesActive.
- SessionSpec.Initialize and SessionSpec.Delete: their own ensures only say the store exists afterwards. Their full effect is stated in InitializeCreatesDefault, InitializeIdempotent and DeleteReassigns.
