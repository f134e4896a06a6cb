/** What a persisted suspend survives, and the one thing that makes the task forget it. */
module EngineSuspension {
  import opened Wrappers
  import opened EffectLog
  import opened EngineModel
  import opened EngineTheorems
  import opened EngineWalks

  /** The record says suspended at `s`, and no handler has been, or is about to be, entered since. */
  ghost predicate HeldBack(w: Workflow, c: Config, s: State) {
    && c.record.status == Suspended && c.record.state == Some(s) && c.record.snapshot.Some?
    && (c.pc.Idle? || c.pc.Boundary? || c.pc.SuspendedCheckpoint? || c.pc.Parked?
        || c.pc.Finishing? || c.pc.Stamping? || c.pc.TearingDown? || c.pc.Exited?)
    && (c.pc.Idle? ==> c.handle == FromRecord(c.record))
    && (InLoop(c.pc) ==> Target(c.pc) == Some(s) && (c.e.state == Suspended || c.e.state == Killed))
  }

  predicate Lifts(a: Action) { a.Resume? || a.Kill? }

  /** A terminal stamp landing. Short of a kill, that takes a park that could not be written down. */
  predicate Stamps(c: Config, a: Action) { c.pc.Stamping? && a == Stamp(true) }

  lemma HeldBackStep(w: Workflow, c: Config, s: State, a: Action)
    requires Persists(w) && EngineOk(w, c) && HeldBack(w, c, s) && c.e.state != Killed && !Lifts(a)
    ensures var n := After(w, c, a);
      && n.e.state != Killed && n.trail == c.trail
      && (HeldBack(w, n, s) <==> !Stamps(c, a))
  {
    if IsControl(a) {
    } else if IsLoop(a) {
      HeldBackByLoop(w, c, s, a);
    } else if IsExit(a) {
      HeldBackByExit(w, c, s, a);
    }
  }

  lemma HeldBackByLoop(w: Workflow, c: Config, s: State, a: Action)
    requires Persists(w) && HeldBack(w, c, s) && c.e.state != Killed && IsLoop(a)
    ensures var n := After(w, c, a); n.e.state != Killed && n.trail == c.trail && HeldBack(w, n, s)
  {
  }

  lemma HeldBackByExit(w: Workflow, c: Config, s: State, a: Action)
    requires EngineOk(w, c) && HeldBack(w, c, s) && c.e.state != Killed && IsExit(a)
    ensures var n := After(w, c, a);
      n.e.state != Killed && n.trail == c.trail && (HeldBack(w, n, s) <==> !Stamps(c, a))
  {
  }

  /** At every point of the run the task is held back. */
  ghost predicate HeldThroughout(w: Workflow, c: Config, s: State, actions: seq<Action>) {
    && HeldBack(w, Play(w, c, actions), s)
    && (actions != [] ==> HeldThroughout(w, c, s, actions[..|actions| - 1]))
  }

  /** At no point of the run does a terminal stamp land. */
  ghost predicate Unstamped(w: Workflow, c: Config, actions: seq<Action>) {
    actions != [] ==>
      Unstamped(w, c, actions[..|actions| - 1]) && !Stamps(Play(w, c, actions[..|actions| - 1]), actions[|actions| - 1])
  }

  /** A task whose record says suspended, while nobody resumes or kills it, stays out of every handler
      through any detaches, crashes, recoveries and failing writes, and stays recorded as suspended,
      for exactly as long as no terminal stamp lands. */
  lemma {:induction false} SuspendSurvives(w: Workflow, c: Config, s: State, actions: seq<Action>)
    requires Persists(w) && EngineOk(w, c) && HeldBack(w, c, s) && c.e.state != Killed
    requires forall i :: 0 <= i < |actions| ==> !Lifts(actions[i])
    ensures HeldThroughout(w, c, s, actions) <==> Unstamped(w, c, actions)
    ensures EngineOk(w, Play(w, c, actions))
    ensures HeldThroughout(w, c, s, actions) ==>
              Play(w, c, actions).trail == c.trail && Play(w, c, actions).e.state != Killed
  {
    if actions != [] {
      var init, a := actions[..|actions| - 1], actions[|actions| - 1];
      SuspendSurvives(w, c, s, init);
      EngineOkKept(w, Play(w, c, init), a);
      if HeldThroughout(w, c, s, init) { HeldBackStep(w, Play(w, c, init), s, a); }
    }
  }

  // ---------------------------------------------------------------- how a suspend is forgotten

  /** A recovered handle goes to park, and the park cannot be written down: the run fails. */
  function FailToPark(): seq<Action> { [Start, TakeBoundary] + [WriteSuspended(false)] }

  lemma FailsToPark(w: Workflow, c: Config, s: State)
    requires Persists(w) && EngineOk(w, c) && HeldBack(w, c, s) && c.pc.Idle? && c.e.state == NotStarted && !c.e.isSealed
    ensures var n := Play(w, c, FailToPark());
      && n.pc == Finishing(Some(StoreError)) && n.e.state == Suspended && !n.e.detachDone
      && n.record == c.record && n.trail == c.trail && n.run == c.run + 1
  {
    Two(w, c, Start, TakeBoundary);
    assert After(w, c, Start).pc == Boundary(Some(s)) && After(w, c, Start).e.state == Suspended;
    PlayOne(w, c, [Start, TakeBoundary], WriteSuspended(false));
  }

  /** The next handle over the failed record starts running, not parked. */
  lemma ComesBackRunning(w: Workflow, c: Config, s: State)
    requires c.pc.Exited? && c.record.status == Failed && c.record.state == Some(s) && c.record.snapshot.Some?
    ensures var n := Play(w, c, [Recover, Start]);
      n.pc == Boundary(Some(s)) && n.e.state == Running && n.trail == c.trail && n.run == c.run + 1
  {
    Two(w, c, Recover, Start);
    assert After(w, c, Recover) == Rehandled(c);
  }

  /** So the run ends failed, the suspend gone from the record. */
  lemma FailsForGood(w: Workflow, c: Config, s: State)
    requires Persists(w) && EngineOk(w, c) && HeldBack(w, c, s) && c.pc.Idle? && c.e.state == NotStarted && !c.e.isSealed
    ensures var n := Play(w, c, FailToPark() + WindUp());
      && n.pc.Exited? && n.record.status == Failed && n.record.state == Some(s) && n.record.snapshot.Some?
      && n.trail == c.trail && n.run == c.run + 1
  {
    PlayConcat(w, c, FailToPark(), WindUp());
    FailsToPark(w, c, s);
    WindsUp(w, Play(w, c, FailToPark()), StoreError);
  }

  function Forget(): seq<Action> { (FailToPark() + WindUp()) + ([Recover, Start] + GoIn()) }

  /** The stamp is what it takes. Every recovered suspended task whose state exists has a run with no
      resume and no kill that enters the state's handler: the park cannot be written down, the failed
      stamp lands over the suspended record, and the next handle runs on from it. */
  lemma FailedParkForgetsTheSuspend(w: Workflow, c: Config, s: State)
    requires Persists(w) && EngineOk(w, c) && HeldBack(w, c, s) && c.pc.Idle? && c.e.state == NotStarted && !c.e.isSealed
    requires s in w.states
    ensures forall i :: 0 <= i < |Forget()| ==> !Lifts(Forget()[i])
    ensures var n := Play(w, c, Forget());
      n.pc == InHandler(s) && n.trail == c.trail + [Entry(c.run + 2, s, None)]
  {
    PlayConcat(w, c, FailToPark() + WindUp(), [Recover, Start] + GoIn());
    FailsForGood(w, c, s);
    var stamped := Play(w, c, FailToPark() + WindUp());
    PlayConcat(w, stamped, [Recover, Start], GoIn());
    ComesBackRunning(w, stamped, s);
    GoesIn(w, Play(w, stamped, [Recover, Start]), s);
  }
}
