/** What each control call comes to, over whatever the run does next. */
module EngineControls {
  import opened Wrappers
  import opened EffectLog
  import opened EngineModel
  import opened EngineTheorems
  import opened EngineWalks

  // ---------------------------------------------------------------- kill

  predicate Killable(e: Engine) {
    (e.state == NotStarted || e.state == Running || e.state == Suspended) && !e.detachDone
  }

  lemma {:induction false} KilledStaysIdle(w: Workflow, c: Config, more: seq<Action>)
    requires c.pc.Idle? && c.e.state == Killed && SameHandle(more)
    ensures var n := Play(w, c, more); n.pc.Idle? && n.e.state == Killed && n.trail == c.trail && n.run == c.run
  {
    if more != [] { KilledStaysIdle(w, c, more[..|more| - 1]); }
  }

  /** A kill takes: whatever comes after it on this handle, the engine stays killed, at most the one
      handler already past its boundary is still entered, and a run not begun never begins. */
  lemma KillTakesEffect(w: Workflow, c: Config, more: seq<Action>)
    requires EngineOk(w, c) && Killable(c.e) && SameHandle(more)
    ensures var n := Play(w, c, [Kill] + more);
      && n.e.state == Killed && |n.trail| <= |c.trail| + 1
      && (!PastBoundary(c.pc) ==> |n.trail| <= |c.trail|)
      && (c.pc.Idle? ==> n.pc.Idle? && n.trail == c.trail && n.run == c.run)
  {
    var killed := c.(e := c.e.(state := Killed));
    PlayConcat(w, c, [Kill], more);
    One(w, c, Kill);
    assert After(w, c, Kill) == killed;
    KillStopsTheRun(w, killed, more);
    if c.pc.Idle? { KilledStaysIdle(w, killed, more); }
  }

  /** On a handle whose fate is settled it changes nothing. */
  lemma KillTooLate(w: Workflow, c: Config)
    requires Settled(c.e)
    ensures After(w, c, Kill) == c
  {
  }

  /** Inside the handler a kill finds, nothing is checkpointed any more: all that is written from
      then on is the outcome. */
  lemma {:induction false} KilledHandlerWritesNothing(w: Workflow, c: Config, more: seq<Action>)
    requires c.pc.InHandler? && Killable(c.e) && SameHandle(more)
    ensures var n := Play(w, c, [Kill] + more); n.record.state == c.record.state && n.record.snapshot == c.record.snapshot
  {
    PlayConcat(w, c, [Kill], more);
    One(w, c, Kill);
    UnwindingWritesNothing(w, After(w, c, Kill), more);
  }

  predicate Unwinding(c: Config) {
    c.e.state == Killed && (c.pc.InHandler? || c.pc.Boundary? || c.pc.Finishing? || c.pc.Stamping? || c.pc.TearingDown? || c.pc.Exited?)
  }

  lemma {:induction false} UnwindingWritesNothing(w: Workflow, c: Config, more: seq<Action>)
    requires Unwinding(c) && SameHandle(more)
    ensures var n := Play(w, c, more); Unwinding(n) && n.record.state == c.record.state && n.record.snapshot == c.record.snapshot
  {
    if more != [] {
      UnwindingWritesNothing(w, c, more[..|more| - 1]);
      UnwindingStep(w, Play(w, c, more[..|more| - 1]), more[|more| - 1]);
    }
  }

  lemma UnwindingStep(w: Workflow, c: Config, a: Action)
    requires Unwinding(c) && !a.Crash? && !a.Recover?
    ensures var n := After(w, c, a); Unwinding(n) && n.record.state == c.record.state && n.record.snapshot == c.record.snapshot
  {
  }

  // ---------------------------------------------------------------- suspend and resume

  predicate Unlifted(actions: seq<Action>) {
    forall i :: 0 <= i < |actions| ==> !actions[i].Resume? && !actions[i].Kill?
  }

  /** Suspended, or over without having been resumed. */
  predicate Held(c: Config) {
    !c.pc.Idle? && (c.e.state == Suspended || c.e.state == Failed || c.e.state == Done)
  }

  lemma HeldStep(w: Workflow, c: Config, a: Action)
    requires EngineOk(w, c) && Held(c) && !a.Crash? && !a.Recover? && !a.Resume? && !a.Kill?
    ensures var n := After(w, c, a); Held(n) && Committed(n) <= Committed(c)
  {
    if IsLoop(a) { HeldByLoop(w, c, a); } else if IsExit(a) { HeldByExit(w, c, a); }
  }

  lemma HeldByLoop(w: Workflow, c: Config, a: Action)
    requires EngineOk(w, c) && Held(c) && IsLoop(a)
    ensures var n := After(w, c, a); Held(n) && Committed(n) <= Committed(c)
  {
  }

  lemma HeldByExit(w: Workflow, c: Config, a: Action)
    requires EngineOk(w, c) && Held(c) && IsExit(a)
    ensures var n := After(w, c, a); Held(n) && Committed(n) <= Committed(c)
  {
  }

  lemma {:induction false} HeldOver(w: Workflow, c: Config, more: seq<Action>)
    requires EngineOk(w, c) && Held(c) && SameHandle(more) && Unlifted(more)
    ensures var n := Play(w, c, more); Held(n) && Committed(n) <= Committed(c)
  {
    if more != [] {
      HeldOver(w, c, more[..|more| - 1]);
      OutcomesAreAbsorbing(w, c, more[..|more| - 1]);
      HeldStep(w, Play(w, c, more[..|more| - 1]), more[|more| - 1]);
    }
  }

  /** A suspend takes: until a resume or a kill the engine does not run again, and at most the one
      handler already past its boundary is still entered. */
  lemma SuspendTakesEffect(w: Workflow, c: Config, more: seq<Action>)
    requires EngineOk(w, c) && c.e.state == Running && !c.e.detachWanted && SameHandle(more) && Unlifted(more)
    ensures var n := Play(w, c, [Suspend] + more);
      && n.e.state != Running && n.e.state != Killed && |n.trail| <= |c.trail| + 1
      && (!PastBoundary(c.pc) ==> |n.trail| <= |c.trail|)
  {
    var held := c.(e := c.e.(state := Suspended));
    PlayConcat(w, c, [Suspend], more);
    One(w, c, Suspend);
    EngineOkKept(w, c, Suspend);
    assert After(w, c, Suspend) == held;
    HeldOver(w, held, more);
  }

  /** A resume before the boundary leaves no trace of the suspend. */
  lemma ResumeUndoesSuspend(w: Workflow, c: Config)
    requires EngineOk(w, c) && c.e.state == Running && !c.e.detachWanted
    ensures Play(w, c, [Suspend, Resume]) == c
  {
    Two(w, c, Suspend, Resume);
    assert After(w, c, Suspend) == c.(e := c.e.(state := Suspended));
  }

  lemma Wakes(w: Workflow, c: Config, s: State)
    requires EngineOk(w, c) && c.pc == Parked(s) && c.e.state == Suspended && !c.e.detachWanted
    ensures Play(w, c, [Resume, Wake]) == c.(e := c.e.(state := Running), pc := Past(Some(s)))
  {
    Two(w, c, Resume, Wake);
    assert After(w, c, Resume) == c.(e := c.e.(state := Running));
  }

  /** One after it parked sends the run on into the state it was parked before. */
  lemma ResumeWakes(w: Workflow, c: Config, s: State)
    requires EngineOk(w, c) && c.pc == Parked(s) && c.e.state == Suspended && !c.e.detachWanted && s in w.states
    ensures var n := Play(w, c, ([Resume, Wake] + [Proceed(None)]) + [WriteRunning(true), Enter]);
      n.pc == InHandler(s) && n.e.state == Running && n.trail == c.trail + [Entry(c.run, s, None)]
  {
    var onward := c.(e := c.e.(state := Running), pc := RunningCheckpoint(s));
    PlayConcat(w, c, [Resume, Wake] + [Proceed(None)], [WriteRunning(true), Enter]);
    PlayOne(w, c, [Resume, Wake], Proceed(None));
    Wakes(w, c, s);
    assert Play(w, c, [Resume, Wake] + [Proceed(None)]) == onward;
    ChecksIn(w, onward, s);
  }

  // ---------------------------------------------------------------- detach

  predicate Calls(actions: seq<Action>) {
    forall i :: 0 <= i < |actions| ==> IsControl(actions[i]) && !actions[i].Kill?
  }

  lemma {:induction false} DetachHolds(w: Workflow, c: Config, calls: seq<Action>)
    requires c.e.state == Suspended && c.e.detachWanted && Calls(calls)
    ensures var n := Play(w, c, calls); n == c.(e := c.e.(isSealed := n.e.isSealed))
  {
    if calls != [] { DetachHolds(w, c, calls[..|calls| - 1]); }
  }

  /** A detach takes: a parked run ends detached, at the state it was parked before, whatever is called
      in between short of a kill; a resume comes too late. */
  lemma DetachEndsTheRun(w: Workflow, c: Config, s: State, calls: seq<Action>)
    requires EngineOk(w, c) && c.pc == Parked(s) && c.e.state == Suspended && Calls(calls)
    ensures var n := Play(w, c, ([Detach] + calls) + [Wake]);
      n.pc == Finishing(Some(Detached(Some(s)))) && n.e.detachDone && n.trail == c.trail && n.record == c.record
  {
    var wanted := c.(e := c.e.(detachWanted := true));
    PlayOne(w, c, [Detach] + calls, Wake);
    PlayConcat(w, c, [Detach], calls);
    One(w, c, Detach);
    assert After(w, c, Detach) == wanted;
    DetachHolds(w, wanted, calls);
  }

  /** It is for suspended runs only. */
  lemma DetachRefused(w: Workflow, c: Config)
    requires EngineOk(w, c) && (c.e.state != Suspended || c.e.detachDone)
    ensures After(w, c, Detach) == c
  {
  }

  // ---------------------------------------------------------------- seal

  lemma {:induction false} SealedNeverRuns(w: Workflow, c: Config, more: seq<Action>)
    requires c.e.isSealed && SameHandle(more) && forall i :: 0 <= i < |more| ==> !more[i].Unseal?
    ensures var n := Play(w, c, more); n.e.isSealed && n.run == c.run
  {
    if more != [] {
      SealedNeverRuns(w, c, more[..|more| - 1]);
      SealedStep(w, Play(w, c, more[..|more| - 1]), more[|more| - 1]);
    }
  }

  lemma SealedStep(w: Workflow, c: Config, a: Action)
    requires c.e.isSealed && !a.Crash? && !a.Recover? && !a.Unseal?
    ensures var n := After(w, c, a); n.e.isSealed && n.run == c.run
  {
  }

  /** A seal on an engine with no run under way takes: no run begins on it until it is unsealed. */
  lemma SealShutsOut(w: Workflow, c: Config, more: seq<Action>)
    requires c.e.detachDone || (c.e.state != Running && c.e.state != Suspended)
    requires SameHandle(more) && forall i :: 0 <= i < |more| ==> !more[i].Unseal?
    ensures var n := Play(w, c, [Seal] + more); n.e.isSealed && n.run == c.run
  {
    PlayConcat(w, c, [Seal], more);
    One(w, c, Seal);
    SealedNeverRuns(w, After(w, c, Seal), more);
  }

  /** With a run under way it is refused, and an unseal takes it back whole. */
  lemma SealsComeOff(w: Workflow, c: Config)
    requires EngineOk(w, c)
    ensures (c.e.state == Running || c.e.state == Suspended) && !c.e.detachDone ==> After(w, c, Seal) == c
    ensures !c.e.isSealed ==> Play(w, c, [Seal, Unseal]) == c
  {
    Two(w, c, Seal, Unseal);
  }

  // ---------------------------------------------------------------- tasks that are over

  /** A record stamped done or killed is final: no handle over it ever runs, through any calls,
      crashes and recoveries, and nothing writes it again. */
  lemma {:induction false} TerminalRecordsAreFinal(w: Workflow, c: Config, actions: seq<Action>)
    requires c.pc.Idle? && c.handle == FromRecord(c.record) && (c.record.status == Done || c.record.status == Killed)
    ensures var n := Play(w, c, actions);
      n.pc.Idle? && n.handle == c.handle && n.record == c.record && n.trail == c.trail && n.ran == c.ran && n.run == c.run
  {
    if actions != [] { TerminalRecordsAreFinal(w, c, actions[..|actions| - 1]); }
  }
}
