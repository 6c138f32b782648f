/**
 * The session store as the application keeps it: fields that the store
 * operations update in place. Each method is proved to move the store
 * exactly as the matching SessionSpec function says, and to keep the
 * store invariant.
 */
module SessionStore {
  import opened Wrappers
  import opened Messages
  import opened SessionSpec

  class Store {
    /** Whether the store key exists in the per-user state. */
    var initialized: bool
    /** The store's keys in insertion order. */
    var order: seq<Id>
    var sessions: map<Id, Session>
    /** The active session id. */
    var active: Id
    /** The transient display buffer. */
    var display: seq<Message>

    function View(): State
      reads this
    {
      State(initialized, order, sessions, active, display)
    }

    /** The per-user state of a first visit: nothing stored yet. */
    constructor ()
      ensures View() == Empty()
    {
      initialized, order, sessions, active, display := false, [], map[], "", [];
    }

    /** initialize_session_state: `newId` is the uuid the default session would get. */
    method InitializeSessionState(newId: Id)
      requires Valid(View())
      modifies this
      ensures View() == Initialize(old(View()), newId)
      ensures Valid(View()) && initialized
    {
      if !initialized {
        initialized, order, sessions := true, [], map[];
        CreateNewSession(DefaultName, newId);
      }
    }

    /** create_new_session: `newId` is the freshly drawn uuid. */
    method CreateNewSession(name: string, newId: Id)
      requires Indexed(View()) && initialized
      modifies this
      ensures View() == Create(old(View()), name, newId)
      ensures Valid(View())
    {
      CreateValid(View(), name, newId);
      if newId !in sessions {
        order := order + [newId];
      }
      sessions := sessions[newId := Session(name, [])];
      active := newId;
      display := [];
    }

    /** get_session_history: a lookup that never fails and never writes. */
    function GetSessionHistory(id: Id): (h: seq<Message>)
      reads this
      ensures id in sessions ==> h == sessions[id].history
      ensures id !in sessions ==> h == []
    {
      History(View(), id)
    }

    /** delete_session: `newId` is the uuid used if the store is left empty. */
    method DeleteSession(id: Id, newId: Id)
      requires Valid(View()) && initialized
      modifies this
      ensures View() == Delete(old(View()), id, newId)
      ensures Valid(View())
    {
      ghost var before := View();
      DeleteReassigns(before, id, newId);
      if id in sessions {
        WithoutNoDup(order, id);
        sessions := sessions - {id};
        order := Without(order, id);
      }
      if sessions == map[] {
        CreateNewSession(DefaultName, newId);
      } else {
        var k :| k in sessions;
        assert k in order;
        active := order[0];
      }
    }

    /**
     * One invocation of the conversation chain on session `id`: render the
     * prompt from the instruction, the session's history and the input, call
     * the model once, and on a reply commit the turn. `client` stands for
     * the model service; None is a failed call.
     */
    method Send(id: Id, input: string, instruction: string, client: Prompt -> Option<string>)
      returns (reply: Option<string>)
      requires Valid(View())
      modifies this
      ensures reply == client(RenderPrompt(instruction, History(old(View()), id), input))
      ensures View() == Commit(old(View()), id, input, reply)
      ensures Valid(View())
    {
      var history := GetSessionHistory(id);
      var prompt := RenderPrompt(instruction, history, input);
      reply := client(prompt);
      if reply.Some? && id in sessions {
        CommitAppendsTurn(View(), id, input, reply.value);
        var entry := sessions[id];
        sessions := sessions[id := entry.(history := entry.history + [User(input), Assistant(reply.value)])];
      }
    }

    /** The session selector: a different selected id becomes active. */
    method SelectSession(selected: Id) returns (switched: bool)
      requires Valid(View())
      modifies this
      ensures switched == (selected in old(sessions) && selected != old(active))
      ensures View() == Switch(old(View()), selected)
      ensures Valid(View())
    {
      switched := selected in sessions && selected != active;
      if switched {
        active := selected;
      }
    }

    /** The "New Session" field: creates only for a non-empty, unused name. */
    method RequestCreate(name: string, newId: Id) returns (created: bool)
      requires Valid(View()) && initialized
      modifies this
      ensures created == (name != "" && name !in Names(old(View())))
      ensures View() == GuardedCreate(old(View()), name, newId)
      ensures Valid(View())
    {
      created := name != "" && name !in Names(View());
      if created {
        CreateNewSession(name, newId);
      }
    }

    /** The delete button: deletes the active session unless it is the only one. */
    method RequestDelete(newId: Id) returns (deleted: bool)
      requires Valid(View()) && initialized
      modifies this
      ensures deleted == (|old(sessions)| > 1)
      ensures View() == GuardedDelete(old(View()), newId)
      ensures Valid(View())
    {
      deleted := |sessions| > 1;
      if deleted {
        DeleteSession(active, newId);
      }
    }
  }
}
