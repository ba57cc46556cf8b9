/** Which session a turn is started in. */
module ControllerSessions {
  import opened Wrappers
  import opened AgentEvents
  import opened RunViews
  import opened MessageQueue
  import opened ControllerModel
  import opened ControllerInvariants

  /** A session of scope s that agrees with the controller's agent, workspace and access mode. */
  predicate Matches(session: Session, s: Scope, settings: Settings) {
    && session.scope == s && session.agentName == settings.agentName
    && session.workspace == settings.workspace && session.accessMode == settings.accessMode
  }

  predicate Coherent(c: Controller, s: Scope) {
    s in c.sessions.selected ==> Matches(c.sessions.selected[s], s, c.settings)
  }

  /** Every turn of s was started in a session that agreed with the settings of that moment. */
  ghost predicate TurnsMatch(c: Controller, s: Scope) {
    forall t <- c.history.turns :: t.scope == s ==> Matches(t.session, s, t.settings)
  }

  /** Another chat moves the workspace, which they all share, away under the selected session of s. */
  predicate Misplaces(c: Controller, step: Step, s: Scope) {
    && step.NewSession? && step.scope != s && s in c.sessions.selected
    && step.workspace.Some? && step.workspace.value != c.settings.workspace
  }

  /** The session of the next turn of s is one of those created after the first k, or yet to be. */
  ghost predicate NewOrDue(c: Controller, s: Scope, k: nat) {
    && k <= |c.history.created|
    && (s in c.sessions.freshScopes || (s in c.sessions.selected && c.sessions.selected[s] in c.history.created[k..]))
  }

  /** So it is, and so were those of all turns of s but the first j turns. */
  ghost predicate FreshFrom(c: Controller, s: Scope, k: nat, j: nat) {
    && NewOrDue(c, s, k) && j <= |c.history.turns|
    && (forall t <- c.history.turns[j..] :: t.scope == s ==> t.session in c.history.created[k..])
  }

  /** Nothing about sessions differs. */
  ghost predicate SameSessions(c: Controller, c1: Controller) {
    && c1.settings == c.settings && c1.sessions == c.sessions
    && c1.history.turns == c.history.turns && c1.history.created == c.history.created
  }

  // Steps that start no turn.

  lemma FinishSame(c: Controller, s: Scope, status: RunStatus, now: Stamp)
    requires s in c.runs
    ensures SameSessions(c, FinishRun(c, s, status, now))
  {
    DropFrame(c, s);
    CancelFrame(DropQueue(c, s), s);
  }

  lemma EndUnloggedSame(c: Controller, s: Scope, e: AgentEvent, status: RunStatus, now: Stamp)
    requires s in c.runs
    ensures SameSessions(c, EndUnlogged(c, s, e, status, now))
  {
    FinishSame(ReduceUnlogged(c, s, e), s, status, now);
  }

  lemma EndStreamSame(c: Controller, s: Scope, now: Stamp)
    ensures SameSessions(c, StreamEnds(c, s, now))
  {
    CancelFrame(c, s);
    if s in c.consuming && s in c.runs {
      EndUnloggedSame(CancelTimer(c, s), s, RunTimedOut, TimedOut, now);
      EndUnloggedSame(CancelTimer(c, s), s, RunInterrupted, Interrupted, now);
    }
  }

  lemma StopSame(c: Controller, s: Scope, user: string, now: Stamp)
    ensures SameSessions(c, StopRun(c, s, user, now))
  {
    if IsActiveFor(c, s, user) && c.runs[s].view.pending.Some? {
      EndUnloggedSame(Flag(c, s), s, RunInterrupted, Interrupted, now);
    }
  }

  lemma ReplySame(c: Controller, s: Scope)
    requires s in c.runs && c.runs[s].view.pending.Some?
    ensures SameSessions(c, ResolvePending(c, s))
  {
    ArmFrame(AnsweredState(c, s), s);
  }

  predicate StartsNoTurn(step: Step) {
    !step.Start? && !step.Consume? && !step.Clear? && !step.ResumeSession? && !step.NewSession?
  }

  lemma OthersSame(c: Controller, step: Step)
    requires StartsNoTurn(step)
    ensures SameSessions(c, Next(c, step))
  {
    match step
    case EndStream(s, now) => EndStreamSame(c, s, now);
    case Stop(s, user, now) => StopSame(c, s, user, now);
    case Queue(s, user, m) =>
    case Reply(s, user, kind, id) => if CanAnswer(c, s, user, kind, id) { ReplySame(c, s); }
    case Fire(t) =>
    case Timeout(s, seconds) => ArmFrame(c.(overrides := c.overrides[s := Some(seconds)]), s);
    case TimeoutOff(s) => CancelFrame(c.(overrides := c.overrides[s := None]), s);
    case TimeoutDefault(s) => ArmFrame(c.(overrides := c.overrides - {s}), s);
  }

  // Steps that may start a turn.

  /** c1 is c, or follows the start of a turn in c, as far as sessions are concerned. */
  ghost predicate AtMostATurn(c: Controller, c1: Controller, s: Scope, env: TurnEnv) {
    SameSessions(c, c1) || exists user, prompt :: SameSessions(BeginTurn(c, s, user, prompt, env).0, c1)
  }

  lemma StartsATurn(c: Controller, c1: Controller, s: Scope, user: string, prompt: string, env: TurnEnv)
    requires SameSessions(BeginTurn(c, s, user, prompt, env).0, c1)
    ensures AtMostATurn(c, c1, s, env)
  {
  }

  lemma StartTurn(c: Controller, s: Scope, user: string, text: string, env: TurnEnv)
    ensures AtMostATurn(c, StartTextRun(c, s, user, text, env), s, env)
  {
    if s !in c.runs {
      var (c1, run, session) := BeginTurn(c, s, user, text, env);
      ArmFrame(OpenRun(c1, s, NewRun(run, user, session, |c1.futures|)), s);
      StartsATurn(c, StartTextRun(c, s, user, text, env), s, user, text, env);
    }
  }

  lemma SameNewTurnSession(c: Controller, c0: Controller, s: Scope, user: string, env: TurnEnv)
    requires SameSessions(c, c0)
    ensures var (a, a0) := (SessionForNewTurn(c, s, user, env), SessionForNewTurn(c0, s, user, env));
            SameSessions(a.0, a0.0) && a.1 == a0.1
  {
  }

  lemma SameRecovery(c: Controller, c0: Controller, s: Scope, user: string, session: Session, env: TurnEnv)
    requires SameSessions(c, c0)
    ensures var (a, a0) := (RecoverSession(c, s, user, session, env), RecoverSession(c0, s, user, session, env));
            SameSessions(a.0, a0.0) && a.1 == a0.1
  {
  }

  lemma SameBegin(c: Controller, c0: Controller, s: Scope, user: string, prompt: string, env: TurnEnv)
    requires SameSessions(c, c0)
    ensures SameSessions(BeginTurn(c, s, user, prompt, env).0, BeginTurn(c0, s, user, prompt, env).0)
  {
    SameNewTurnSession(c, c0, s, user, env);
    var (a, first) := SessionForNewTurn(c, s, user, env);
    SameRecovery(a, SessionForNewTurn(c0, s, user, env).0, s, user, first, env);
  }

  /** Where the state differs in nothing that matters to a turn, neither does the turn. */
  lemma SameTurn(c: Controller, c0: Controller, c1: Controller, s: Scope, env: TurnEnv)
    requires SameSessions(c, c0) && AtMostATurn(c0, c1, s, env)
    ensures AtMostATurn(c, c1, s, env)
  {
    if !SameSessions(c0, c1) {
      var user, prompt :| SameSessions(BeginTurn(c0, s, user, prompt, env).0, c1);
      SameBegin(c, c0, s, user, prompt, env);
      StartsATurn(c, c1, s, user, prompt, env);
    }
  }

  lemma EndTurnTurn(c: Controller, s: Scope, env: TurnEnv)
    requires s in c.runs
    ensures AtMostATurn(c, EndTurn(c, s, env), s, env)
  {
    var c1 := CancelTimer(c, s);
    CancelFrame(c, s);
    if c1.runs[s].queue != [] {
      var merged := PopNext(c1.runs[s].queue, MERGE_WINDOW).value;
      StartsATurn(c1, StartQueuedNextTurn(c1, s, env), s, merged.userId, merged.prompt, env);
    } else {
      FinishSame(c1, s, c1.runs[s].view.status, env.now);
    }
    SameTurn(c, c1, EndTurn(c, s, env), s, env);
  }

  lemma ConsumeTurn(c: Controller, s: Scope, event: AgentEvent, env: TurnEnv)
    ensures AtMostATurn(c, ConsumeEvent(c, s, event, env), s, env)
  {
    if s in c.consuming && s in c.runs && !c.runs[s].timedOut {
      var e := Effective(c.runs[s], event);
      var c1 := Observe(c, s, e);
      if e.IsPause() {
        CancelFrame(c1, s);
      } else if c1.runs[s].view.status.IsTerminal() {
        EndTurnTurn(c1, s, env);
        SameTurn(c, c1, EndTurn(c1, s, env), s, env);
      } else {
        ArmFrame(c1, s);
      }
    }
  }

  // Coherence.

  lemma BegunCoherent(c: Controller, x: Scope, user: string, prompt: string, env: TurnEnv, s: Scope)
    requires Coherent(c, s) && TurnsMatch(c, s)
    ensures var c1 := BeginTurn(c, x, user, prompt, env).0; Coherent(c1, s) && TurnsMatch(c1, s)
  {
    var (c1, run, session) := BeginTurn(c, x, user, prompt, env);
    assert c1.history.turns == c.history.turns + [StartedTurn(x, env.runId, prompt, session, c.settings)];
    assert x == s ==> Matches(session, s, c.settings);
  }

  lemma TurnKeepsCoherence(c: Controller, c1: Controller, x: Scope, env: TurnEnv, s: Scope)
    requires AtMostATurn(c, c1, x, env) && Coherent(c, s) && TurnsMatch(c, s)
    ensures Coherent(c1, s) && TurnsMatch(c1, s)
  {
    if !SameSessions(c, c1) {
      var user, prompt :| SameSessions(BeginTurn(c, x, user, prompt, env).0, c1);
      BegunCoherent(c, x, user, prompt, env, s);
    }
  }

  /** A step keeps the selected session in agreement with the settings exactly if it is not another chat's
      change of workspace; and turns are started only in sessions that agree. */
  lemma StepCoherence(c: Controller, step: Step, s: Scope)
    requires Coherent(c, s) && TurnsMatch(c, s)
    ensures Coherent(Next(c, step), s) <==> !Misplaces(c, step, s)
    ensures TurnsMatch(Next(c, step), s)
  {
    if StartsNoTurn(step) {
      OthersSame(c, step);
    } else if step.Start? {
      StartTurn(c, step.scope, step.user, step.text, step.env);
      TurnKeepsCoherence(c, Next(c, step), step.scope, step.env, s);
    } else if step.Consume? {
      ConsumeTurn(c, step.scope, step.event, step.env);
      TurnKeepsCoherence(c, Next(c, step), step.scope, step.env, s);
    }
  }

  ghost predicate AlwaysCoherent(c: Controller, steps: seq<Step>, s: Scope) {
    Coherent(Execute(c, steps), s) && (steps != [] ==> AlwaysCoherent(c, steps[..|steps| - 1], s))
  }

  ghost predicate NeverMisplaced(c: Controller, steps: seq<Step>, s: Scope) {
    steps != [] ==>
      && !Misplaces(Execute(c, steps[..|steps| - 1]), steps[|steps| - 1], s)
      && NeverMisplaced(c, steps[..|steps| - 1], s)
  }

  /** Over any run, the selected session of a chat agrees with the settings in every state exactly if no
      other chat ever changes the workspace under it; then every turn is started in agreement too. */
  lemma {:induction false} CoherenceIff(c: Controller, steps: seq<Step>, s: Scope)
    requires Coherent(c, s) && TurnsMatch(c, s)
    ensures AlwaysCoherent(c, steps, s) <==> NeverMisplaced(c, steps, s)
    ensures NeverMisplaced(c, steps, s) ==> TurnsMatch(Execute(c, steps), s)
  {
    if steps != [] {
      var front := steps[..|steps| - 1];
      CoherenceIff(c, front, s);
      if NeverMisplaced(c, front, s) {
        StepCoherence(Execute(c, front), steps[|steps| - 1], s);
      }
    }
  }

  lemma {:induction false} OwnMovesMisplaceNothing(c: Controller, steps: seq<Step>, s: Scope)
    requires forall i :: 0 <= i < |steps| && steps[i].NewSession? && steps[i].workspace.Some? ==> steps[i].scope == s
    ensures NeverMisplaced(c, steps, s)
  {
    if steps != [] {
      OwnMovesMisplaceNothing(c, steps[..|steps| - 1], s);
    }
  }

  /** As long as only chat s changes the workspace, all is in agreement: through starts, queued turns,
      recovery from stale sessions, resets, `/cd` and `/resume`. */
  lemma OneChatIsCoherent(settings: Settings, steps: seq<Step>, s: Scope)
    requires forall i :: 0 <= i < |steps| && steps[i].NewSession? && steps[i].workspace.Some? ==> steps[i].scope == s
    ensures var c := NewController(settings); AlwaysCoherent(c, steps, s) && TurnsMatch(Execute(c, steps), s)
  {
    var c := NewController(settings);
    CoherenceIff(c, steps, s);
    OwnMovesMisplaceNothing(c, steps, s);
  }

  /** Two chats: the first one's selected session is left behind by the second one's `/cd`. */
  lemma TwoChatsDisagree(settings: Settings, env: TurnEnv)
    requires settings.workspace != "/b" && !env.notFound
    ensures var start, cd := Start("a", "u", "hi", env), NewSession("b", "v", Some("/b"), "n");
            var c := Execute(NewController(settings), [start, cd]);
            !Coherent(c, "a") && c.runs.Keys == {"a"}
  {
    var start, cd := Start("a", "u", "hi", env), NewSession("b", "v", Some("/b"), "n");
    var c0 := NewController(settings);
    var c1 := Next(c0, start);
    assert [start, cd][..1] == [start] && [start][..0] == [];
    assert Execute(c0, []) == c0;
    assert Execute(c0, [start]) == c1;
    assert Execute(c0, [start, cd]) == Next(c1, cd);
    StartTurn(c0, "a", "u", "hi", env);
    var (b1, run, session) := BeginTurn(c0, "a", "u", "hi", env);
    BeginTurnFrame(c0, "a", "u", "hi", env);
    ArmFrame(OpenRun(b1, "a", NewRun(run, "u", session, |b1.futures|)), "a");
    assert c1.sessions.selected["a"].workspace == settings.workspace;
  }

  /** The next turn of a chat that was left behind is started in the session that disagrees. */
  lemma LeftBehindSessionIsUsed(c: Controller, s: Scope, user: string, text: string, env: TurnEnv)
    requires !Coherent(c, s) && s !in c.sessions.freshScopes && s !in c.runs && !env.notFound
    ensures !TurnsMatch(Next(c, Start(s, user, text, env)), s)
  {
    var (c1, run, session) := BeginTurn(c, s, user, text, env);
    ArmFrame(OpenRun(c1, s, NewRun(run, user, session, |c1.futures|)), s);
    var t := StartedTurn(s, env.runId, text, session, c.settings);
    assert t in Next(c, Start(s, user, text, env)).history.turns && !Matches(t.session, s, t.settings);
  }

  // New sessions on request.

  lemma FreshSame(c: Controller, c1: Controller, s: Scope, k: nat, j: nat)
    requires FreshFrom(c, s, k, j) && SameSessions(c, c1)
    ensures FreshFrom(c1, s, k, j)
  {
  }

  lemma NewTurnSessionIsNew(c: Controller, x: Scope, user: string, env: TurnEnv, s: Scope, k: nat)
    requires NewOrDue(c, s, k)
    ensures var (c1, session) := SessionForNewTurn(c, x, user, env);
            && NewOrDue(c1, s, k) && c1.history.turns == c.history.turns && c.history.created <= c1.history.created
            && c1.settings == c.settings
            && (x == s ==> session in c1.history.created[k..])
  {
    var (c1, session) := SessionForNewTurn(c, x, user, env);
    if c1.history.created != c.history.created {
      assert c1.history.created == c.history.created + [session];
      assert c1.history.created[k..] == c.history.created[k..] + [session];
    }
  }

  lemma RecoveredSessionIsNew(c: Controller, x: Scope, user: string, first: Session, env: TurnEnv, s: Scope, k: nat)
    requires NewOrDue(c, s, k) && (x == s ==> first in c.history.created[k..])
    ensures var (c1, session) := RecoverSession(c, x, user, first, env);
            && NewOrDue(c1, s, k) && c1.history.turns == c.history.turns && c.history.created <= c1.history.created
            && c1.settings == c.settings
            && (x == s ==> session in c1.history.created[k..])
  {
    var (c1, session) := RecoverSession(c, x, user, first, env);
    if env.notFound {
      assert c1.history.created[k..] == c.history.created[k..] + [session];
    }
  }

  lemma BegunFresh(c: Controller, x: Scope, user: string, prompt: string, env: TurnEnv, s: Scope, k: nat, j: nat)
    requires FreshFrom(c, s, k, j)
    ensures FreshFrom(BeginTurn(c, x, user, prompt, env).0, s, k, j)
  {
    var (c1, first) := SessionForNewTurn(c, x, user, env);
    NewTurnSessionIsNew(c, x, user, env, s, k);
    var (c2, session) := RecoverSession(c1, x, user, first, env);
    RecoveredSessionIsNew(c1, x, user, first, env, s, k);
    var c3 := BeginTurn(c, x, user, prompt, env).0;
    assert c3.history.created == c2.history.created && c3.sessions == c2.sessions;
    TurnsStayNew(c.history.turns, c.history.created, c2.history.created,
                 StartedTurn(x, env.runId, prompt, session, c1.settings), s, k, j);
  }

  lemma TurnsStayNew(
      turns: seq<StartedTurn>, created: seq<Session>, created1: seq<Session>, t: StartedTurn, s: Scope, k: nat,
      j: nat)
    requires j <= |turns| && k <= |created| && created <= created1
    requires forall u <- turns[j..] :: u.scope == s ==> u.session in created[k..]
    requires t.scope == s ==> t.session in created1[k..]
    ensures forall u <- (turns + [t])[j..] :: u.scope == s ==> u.session in created1[k..]
  {
    assert (turns + [t])[j..] == turns[j..] + [t];
    assert created1[k..] == created[k..] + created1[|created|..];
  }

  lemma TurnKeepsFresh(c: Controller, c1: Controller, x: Scope, env: TurnEnv, s: Scope, k: nat, j: nat)
    requires AtMostATurn(c, c1, x, env) && FreshFrom(c, s, k, j)
    ensures FreshFrom(c1, s, k, j)
  {
    if !SameSessions(c, c1) {
      var user, prompt :| SameSessions(BeginTurn(c, x, user, prompt, env).0, c1);
      BegunFresh(c, x, user, prompt, env, s, k, j);
    }
  }

  lemma StepKeepsFresh(c: Controller, step: Step, s: Scope, k: nat, j: nat)
    requires FreshFrom(c, s, k, j) && !(step.ResumeSession? && step.scope == s)
    ensures FreshFrom(Next(c, step), s, k, j)
  {
    if StartsNoTurn(step) {
      OthersSame(c, step);
      FreshSame(c, Next(c, step), s, k, j);
    } else if step.Start? {
      StartTurn(c, step.scope, step.user, step.text, step.env);
      TurnKeepsFresh(c, Next(c, step), step.scope, step.env, s, k, j);
    } else if step.Consume? {
      ConsumeTurn(c, step.scope, step.event, step.env);
      TurnKeepsFresh(c, Next(c, step), step.scope, step.env, s, k, j);
    } else if step.NewSession? {
      var c1 := Next(c, step);
      assert c1.history.created == c.history.created + [c1.sessions.selected[step.scope]];
      assert c1.history.created[k..] == c.history.created[k..] + [c1.sessions.selected[step.scope]];
    }
  }

  /** After `/model use` or `/agent`, every turn is started in a session created since, until one is
      resumed by name. */
  lemma {:induction false} ClearedScopesStartAfresh(c: Controller, s: Scope, steps: seq<Step>)
    requires forall i :: 0 <= i < |steps| ==> !(steps[i].ResumeSession? && steps[i].scope == s)
    ensures FreshFrom(Execute(Next(c, Clear(s)), steps), s, |c.history.created|, |c.history.turns|)
  {
    if steps != [] {
      var front := steps[..|steps| - 1];
      ClearedScopesStartAfresh(c, s, front);
      StepKeepsFresh(Execute(Next(c, Clear(s)), front), steps[|steps| - 1], s, |c.history.created|, |c.history.turns|);
    }
  }
}
