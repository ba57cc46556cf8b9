/** What the agents' adapters write to the shared store (agent/opencode_server.py, agent/codex_app_server.py):
    the sessions they create, the current one of each user, and the date of a session's last turn. */
module AgentSessions {
  import opened Wrappers
  import opened RecordIndexes
  import opened ControllerModel
  import opened FileStores
  import opened Persistence

  function NewSessionRef(id: string, scope: Scope, user: string, settings: Settings, now: Stamp): SessionRef {
    SessionRef(user, scope, settings.agentName, Some(id), id, settings.workspace, Some(settings.accessMode), "idle",
               now)
  }

  /** A session of the chat that agrees with the settings. */
  predicate Fits(s: SessionRef, scope: Scope, settings: Settings) {
    && s.chatId == scope && s.agent == settings.agentName && s.cwd == settings.workspace
    && s.accessMode == Some(settings.accessMode)
  }

  class AgentAdapter {
    const store: FileStore

    constructor (store: FileStore)
      ensures this.store == store
    {
      this.store := store;
    }

    /** A session with the id that the agent gave; it becomes the user's current one. */
    method CreateSession(
        scope: Scope, user: string, settings: Settings, id: string, now: Stamp, ghost port: FileRunPersistence)
        returns (session: Session)
      requires port.store == store && port.Valid()
      modifies store`sessions, store`sessionIndex, store`bindings
      ensures port.Valid()
      ensures store.sessions ==
                old(store.sessions)[id := Record(id, now, NewSessionRef(id, scope, user, settings, now))]
      ensures store.bindings == old(store.bindings)[user := id]
      ensures old(port.SessionsInStep()) && id !in port.agentSessions ==> port.SessionsInStep()
      ensures session == MakeSession(settings, scope, user, id)
    {
      var ref := Record(id, now, NewSessionRef(id, scope, user, settings, now));
      StoredSessionsAgree(store.sessions, port.agentSessions, ref);
      store.SaveSession(ref);
      store.SetCurrentSession(user, id);
      session := MakeSession(settings, scope, user, id);
    }

    /** The user's current session if it fits, else a new one; so the result always fits. */
    method GetOrCreateSession(
        scope: Scope, user: string, settings: Settings, id: string, now: Stamp, ghost port: FileRunPersistence)
        returns (session: Session, reused: bool)
      requires port.store == store && port.Valid()
      modifies store`sessions, store`sessionIndex, store`bindings
      ensures port.Valid()
      ensures var current := old(store.CurrentSession(user));
              && (reused <==> current.Some? && Fits(current.value.data, scope, settings))
              && (reused ==> store.sessions == old(store.sessions) && store.bindings == old(store.bindings)
                             && session.id == current.value.id && session.user == current.value.data.owner)
              && (!reused ==> session == MakeSession(settings, scope, user, id))
      ensures session == MakeSession(settings, scope, session.user, session.id)
      ensures old(port.SessionsInStep()) && id !in port.agentSessions ==> port.SessionsInStep()
    {
      if user in store.bindings && store.bindings[user] in store.sessions {
        var current := store.sessions[store.bindings[user]];
        if Fits(current.data, scope, settings) {
          session := Session(current.id, current.data.chatId, current.data.owner, current.data.agent, current.data.cwd,
                             current.data.accessMode.value);
          reused := true;
          return;
        }
      }
      reused := false;
      session := CreateSession(scope, user, settings, id, now, port);
    }

    /** A turn dates its session anew, if the store has it; nothing else about it changes but its status. */
    method StartTurn(id: string, now: Stamp, ghost port: FileRunPersistence)
      requires port.store == store && port.Valid()
      modifies store`sessions, store`sessionIndex
      ensures port.Valid()
      ensures store.sessions ==
              if id in old(store.sessions) then
                old(store.sessions)[id := Record(id, now, old(store.sessions)[id].data.(status := "running"))]
              else old(store.sessions)
      ensures old(port.SessionsInStep()) ==> port.SessionsInStep()
    {
      if id in store.sessions {
        var ref := Record(id, now, store.sessions[id].data.(status := "running"));
        StoredSessionsAgree(store.sessions, port.agentSessions, ref);
        store.SaveSession(ref);
      }
    }
  }
}
