/** What every interleaving of a run, its control calls, crashes and recoveries keeps. */
module EngineTheorems {
  import opened Wrappers
  import opened EffectLog
  import opened EngineModel

  // ---------------------------------------------------------------- the engine's own fields

  predicate InLoop(pc: PC) {
    pc.Boundary? || pc.SuspendedCheckpoint? || pc.Parked? || pc.Past? || pc.RunningCheckpoint? || pc.Entering?
    || pc.InHandler? || pc.MidCheckpoint?
  }

  predicate IsDetached(err: Option<RunError>) { err.Some? && err.value.Detached? }

  predicate Settled(e: Engine) { e.state == Killed || e.state == Failed || e.state == Done || (e.state == Suspended && e.detachDone) }

  ghost predicate EngineOk(w: Workflow, c: Config) {
    && (c.pc.Idle? ==> (c.e.state == NotStarted || c.e.state == Killed) && !c.e.detachWanted && !c.e.detachDone && c.teardowns == 0)
    && (InLoop(c.pc) ==> (c.e.state == Running || c.e.state == Suspended || c.e.state == Killed) && !c.e.detachDone)
    && (c.pc.Finishing? ==>
          && (c.e.state == Running || c.e.state == Suspended || c.e.state == Killed)
          && (c.e.detachDone <==> IsDetached(c.pc.err)))
    && (c.e.detachDone ==> c.e.state == Suspended)
    && (c.pc.Stamping? ==> c.pc.outcome == c.e.state && !c.e.detachDone && Settled(c.e) && !IsDetached(c.pc.err))
    && (c.pc.TearingDown? || c.pc.Exited? ==> Settled(c.e) && (c.e.detachDone <==> IsDetached(c.pc.err)))
    && (c.pc.Stamping? || c.pc.TearingDown? || c.pc.Exited? ==>
          (c.e.state == Failed ==> c.pc.err.Some?) && (c.e.state == Done ==> c.pc.err.None?))
    && (!c.pc.Idle? ==> c.teardowns == if c.pc.Exited? then 1 else 0)
    && (c.pc.InHandler? ==> c.e.current == Some(c.pc.now))
    && (c.pc.MidCheckpoint? ==> c.pc.at == c.pc.now && c.e.current == Some(c.pc.now))
  }

  lemma EngineOkKept(w: Workflow, c: Config, a: Action)
    requires EngineOk(w, c)
    ensures EngineOk(w, After(w, c, a))
  {
    if IsControl(a) {
      EngineOkByControl(w, c, a);
    } else if IsLoop(a) {
      EngineOkByLoop(w, c, a);
    } else if IsHandler(a) {
      EngineOkByHandler(w, c, a);
    } else if IsExit(a) {
      EngineOkByExit(w, c, a);
    }
  }

  lemma EngineOkByControl(w: Workflow, c: Config, a: Action)
    requires EngineOk(w, c) && IsControl(a)
    ensures EngineOk(w, After(w, c, a))
  {
  }

  lemma EngineOkByLoop(w: Workflow, c: Config, a: Action)
    requires EngineOk(w, c) && IsLoop(a)
    ensures EngineOk(w, After(w, c, a))
  {
    if a.TakeBoundary? || a.Wake? || a.Proceed? { EngineOkByDecision(w, c, a); }
  }

  lemma EngineOkByDecision(w: Workflow, c: Config, a: Action)
    requires EngineOk(w, c) && (a.TakeBoundary? || a.Wake? || a.Proceed?)
    ensures EngineOk(w, After(w, c, a))
  {
  }

  lemma EngineOkByHandler(w: Workflow, c: Config, a: Action)
    requires EngineOk(w, c) && IsHandler(a)
    ensures EngineOk(w, After(w, c, a))
  {
  }

  lemma EngineOkByExit(w: Workflow, c: Config, a: Action)
    requires EngineOk(w, c) && IsExit(a)
    ensures EngineOk(w, After(w, c, a))
  {
  }

  // ---------------------------------------------------------------- the record and the effect log

  /** The durable log is part of the live one, and an unstarted handle holds the record as it stands. */
  ghost predicate LogOk(w: Workflow, c: Config) {
    && (!c.pc.Idle? ==> Within(Recorded(c.record.snapshot), c.inst.effects))
    && (c.pc.Idle? && c.handle.FromRecord? ==> c.handle.record == c.record)
    && (c.pc.Idle? && c.handle.FromInput? ==> c.record == Record(NotStarted, None, None, None) && c.trail == [])
    && (c.record.snapshot.Some? <==> c.record.state.Some?)
    && (!Persists(w) ==> c.record.snapshot.None?)
  }

  lemma EncodedLog(i: Instance)
    ensures Recorded(Some(Encode(i))) == i.effects
  {
  }

  lemma LogOkKept(w: Workflow, c: Config, a: Action)
    requires EngineOk(w, c) && LogOk(w, c)
    ensures LogOk(w, After(w, c, a))
  {
    if IsControl(a) {
      LogOkByControl(w, c, a);
    } else if IsLoop(a) {
      LogOkByLoop(w, c, a);
    } else if IsHandler(a) {
      LogOkByHandler(w, c, a);
    } else if IsExit(a) {
      LogOkByExit(w, c, a);
    }
  }

  lemma LogOkByControl(w: Workflow, c: Config, a: Action)
    requires LogOk(w, c) && IsControl(a)
    ensures LogOk(w, After(w, c, a))
  {
    EncodedLog(c.inst);
  }

  lemma LogOkByLoop(w: Workflow, c: Config, a: Action)
    requires LogOk(w, c) && IsLoop(a)
    ensures LogOk(w, After(w, c, a))
  {
    if a.WriteSuspended? || a.WriteRunning? { LogOkByWrite(w, c, a); } else { LogOkByMove(w, c, a); }
  }

  lemma LogOkByWrite(w: Workflow, c: Config, a: Action)
    requires LogOk(w, c) && (a.WriteSuspended? || a.WriteRunning?)
    ensures LogOk(w, After(w, c, a))
  {
    EncodedLog(c.inst);
  }

  lemma LogOkByMove(w: Workflow, c: Config, a: Action)
    requires LogOk(w, c) && IsLoop(a) && !a.WriteSuspended? && !a.WriteRunning?
    ensures LogOk(w, After(w, c, a))
  {
    assert After(w, c, a).record == c.record && After(w, c, a).inst == c.inst;
  }

  lemma LogOkByHandler(w: Workflow, c: Config, a: Action)
    requires LogOk(w, c) && IsHandler(a)
    ensures LogOk(w, After(w, c, a))
  {
    EncodedLog(c.inst);
  }

  lemma LogOkByExit(w: Workflow, c: Config, a: Action)
    requires LogOk(w, c) && IsExit(a)
    ensures LogOk(w, After(w, c, a))
  {
    EncodedLog(c.inst);
  }

  /** No step forgets or alters a durable effect, nor runs one again. */
  lemma DurableEffectsKept(w: Workflow, c: Config, a: Action, k: Key)
    requires LogOk(w, c) && k in Recorded(c.record.snapshot)
    ensures var n := After(w, c, a);
      && Within(Recorded(c.record.snapshot), Recorded(n.record.snapshot))
      && Times(n.ran, k) == Times(c.ran, k)
  {
    EncodedLog(c.inst);
  }

  // ---------------------------------------------------------------- the trail of entered states

  /** Within one run every entry follows the edge its predecessor took; a later run may instead
      begin by entering the predecessor's state again. */
  predicate Linked(x: Entry, y: Entry) {
    x.run <= y.run && (x.returned == Some(Some(y.state)) || (x.run < y.run && x.state == y.state))
  }

  ghost predicate IsPath(trail: seq<Entry>, initial: State) {
    && (trail != [] ==> trail[0].state == initial)
    && (forall i :: 0 < i < |trail| ==> Linked(trail[i - 1], trail[i]))
  }

  /** Where the loop is about to go, if anywhere. */
  function Target(pc: PC): Option<State> {
    match pc
    case Boundary(next) => next
    case SuspendedCheckpoint(s) => Some(s)
    case Parked(s) => Some(s)
    case Past(next) => next
    case RunningCheckpoint(s) => Some(s)
    case Entering(s) => Some(s)
    case _ => None
  }

  /** The state the record names: the last one entered, or the one it led to. */
  predicate NamesLast(trail: seq<Entry>, initial: State, named: Option<State>) {
    if trail == [] then named.None? || named.value == initial
    else
      var last := trail[|trail| - 1];
      named.Some? && (named.value == last.state || last.returned == Some(named))
  }

  ghost predicate HistoryOk(initial: State, trail: seq<Entry>, run: nat, named: Option<State>) {
    && IsPath(trail, initial)
    && (forall i :: 0 <= i < |trail| ==> trail[i].run <= run)
    && NamesLast(trail, initial, named)
  }

  /** The loop is heading where the last handler of this run sent it, or, before this run's first
      handler, where the record says. */
  predicate HeadingOk(initial: State, trail: seq<Entry>, run: nat, named: Option<State>, pc: PC) {
    && (pc.InHandler? || pc.MidCheckpoint? ==>
          trail != [] && trail[|trail| - 1] == Entry(run, pc.now, None) && named == Some(pc.now))
    && (Target(pc).Some? ==>
          if trail != [] && trail[|trail| - 1].run == run then trail[|trail| - 1].returned == Some(Target(pc))
          else if trail == [] then Target(pc).value == initial
          else named == Target(pc))
  }

  ghost predicate TrailOk(w: Workflow, c: Config) {
    && HistoryOk(w.initial, c.trail, c.run, c.record.state)
    && HeadingOk(w.initial, c.trail, c.run, c.record.state, c.pc)
    && (c.pc.Entering? ==>
          c.record.status == Running && c.record.state == Some(c.pc.to) && c.record.snapshot == Some(Encode(c.inst)))
  }

  lemma TrailOkKept(w: Workflow, c: Config, a: Action)
    requires Persists(w) && EngineOk(w, c) && LogOk(w, c) && TrailOk(w, c)
    ensures TrailOk(w, After(w, c, a))
  {
    if IsControl(a) {
      TrailOkByControl(w, c, a);
    } else if IsLoop(a) {
      TrailOkByLoop(w, c, a);
    } else if IsHandler(a) {
      TrailOkByHandler(w, c, a);
    } else if IsExit(a) {
      TrailOkByExit(w, c, a);
    }
  }

  lemma TrailOkByControl(w: Workflow, c: Config, a: Action)
    requires Persists(w) && EngineOk(w, c) && LogOk(w, c) && TrailOk(w, c) && IsControl(a)
    ensures TrailOk(w, After(w, c, a))
  {
  }

  lemma TrailOkByLoop(w: Workflow, c: Config, a: Action)
    requires Persists(w) && EngineOk(w, c) && LogOk(w, c) && TrailOk(w, c) && IsLoop(a)
    ensures TrailOk(w, After(w, c, a))
  {
    if a.Enter? {
      TrailOkByEnter(w, c);
    } else if a.TakeBoundary? || a.Wake? || a.Proceed? {
      TrailOkByDecision(w, c, a);
    } else {
      TrailOkByWrite(w, c, a);
    }
  }

  lemma TrailOkByWrite(w: Workflow, c: Config, a: Action)
    requires Persists(w) && EngineOk(w, c) && LogOk(w, c) && TrailOk(w, c) && (a.WriteSuspended? || a.WriteRunning?)
    ensures TrailOk(w, After(w, c, a))
  {
  }

  /** A decision writes nothing and enters nothing: it goes where it was going, or nowhere. */
  lemma DecisionShape(w: Workflow, c: Config, a: Action)
    requires a.TakeBoundary? || a.Wake? || a.Proceed?
    ensures var n := After(w, c, a);
      && n.trail == c.trail && n.record == c.record && n.run == c.run
      && (n == c || (!n.pc.Entering? && !n.pc.InHandler? && !n.pc.MidCheckpoint? && (Target(n.pc).None? || Target(n.pc) == Target(c.pc))))
  {
  }

  lemma TrailOkByDecision(w: Workflow, c: Config, a: Action)
    requires Persists(w) && TrailOk(w, c) && (a.TakeBoundary? || a.Wake? || a.Proceed?)
    ensures TrailOk(w, After(w, c, a))
  {
    DecisionShape(w, c, a);
    var n := After(w, c, a);
    if n != c { assert HeadingOk(w.initial, n.trail, n.run, n.record.state, n.pc); }
  }

  lemma TrailOkByEnter(w: Workflow, c: Config)
    requires Persists(w) && TrailOk(w, c)
    ensures TrailOk(w, After(w, c, Enter))
  {
    if c.pc.Entering? {
      var e := Entry(c.run, c.pc.to, None);
      if c.trail != [] { assert Linked(c.trail[|c.trail| - 1], e); }
    }
  }

  lemma TrailOkByHandler(w: Workflow, c: Config, a: Action)
    requires Persists(w) && EngineOk(w, c) && LogOk(w, c) && TrailOk(w, c) && IsHandler(a)
    ensures TrailOk(w, After(w, c, a))
  {
    if a.Return? { TrailOkByReturn(w, c, a.to); } else { TrailOkInside(w, c, a); }
  }

  lemma TrailOkByReturn(w: Workflow, c: Config, to: Option<State>)
    requires Persists(w) && EngineOk(w, c) && TrailOk(w, c)
    ensures TrailOk(w, After(w, c, Return(to)))
  {
    if c.pc.InHandler? {
      var n, last := After(w, c, Return(to)), |c.trail| - 1;
      assert forall i :: 0 <= i < last ==> n.trail[i] == c.trail[i];
      assert IsPath(n.trail, w.initial);
    }
  }

  lemma TrailOkInside(w: Workflow, c: Config, a: Action)
    requires Persists(w) && EngineOk(w, c) && TrailOk(w, c) && IsHandler(a) && !a.Return?
    ensures TrailOk(w, After(w, c, a))
  {
    var n := After(w, c, a);
    assert n.trail == c.trail && n.run == c.run && n.record.state == c.record.state;
  }

  lemma TrailOkByExit(w: Workflow, c: Config, a: Action)
    requires Persists(w) && EngineOk(w, c) && LogOk(w, c) && TrailOk(w, c) && IsExit(a)
    ensures TrailOk(w, After(w, c, a))
  {
  }

  ghost predicate Ok(w: Workflow, c: Config) {
    EngineOk(w, c) && LogOk(w, c) && (Persists(w) ==> TrailOk(w, c))
  }

  lemma {:induction false} PlayKeepsOk(w: Workflow, c: Config, actions: seq<Action>)
    requires Ok(w, c)
    ensures Ok(w, Play(w, c, actions))
  {
    if actions != [] {
      var before, a := Play(w, c, actions[..|actions| - 1]), actions[|actions| - 1];
      PlayKeepsOk(w, c, actions[..|actions| - 1]);
      EngineOkKept(w, before, a);
      LogOkKept(w, before, a);
      if Persists(w) { TrailOkKept(w, before, a); }
    }
  }

  // ---------------------------------------------------------------- crash recovery

  /** Recovery replays only the state in flight: over any runs cut by any crashes, failures and
      control calls, the states entered form a path of the edges handlers took, where only the
      first entry of a later run may repeat its predecessor; the record always names the last
      state entered or the one it led to; and a handler is about to be entered only once a
      running checkpoint of that very state, with the log as it stands, has landed. */
  lemma RecoveryReplaysOnlyInFlight(w: Workflow, input: Blob, actions: seq<Action>)
    requires Persists(w)
    ensures var c := Play(w, Created(input), actions);
      && IsPath(c.trail, w.initial)
      && NamesLast(c.trail, w.initial, c.record.state)
      && (c.pc.Entering? ==>
            c.record.status == Running && c.record.state == Some(c.pc.to) && c.record.snapshot == Some(Encode(c.inst)))
  {
    PlayKeepsOk(w, Created(input), actions);
  }

  lemma {:induction false} PlayConcat(w: Workflow, c: Config, first: seq<Action>, more: seq<Action>)
    ensures Play(w, c, first + more) == Play(w, Play(w, c, first), more)
  {
    if more == [] {
      assert first + more == first;
    } else {
      PlayConcat(w, c, first, more[..|more| - 1]);
      assert (first + more)[..|first + more| - 1] == first + more[..|more| - 1];
    }
  }

  lemma PlayOne(w: Workflow, c: Config, actions: seq<Action>, a: Action)
    ensures Play(w, c, actions + [a]) == After(w, Play(w, c, actions), a)
  {
    assert (actions + [a])[..|actions + [a]| - 1] == actions;
  }

  lemma {:induction false} DurableEffectsKeptOver(w: Workflow, c: Config, more: seq<Action>, k: Key)
    requires Ok(w, c) && k in Recorded(c.record.snapshot)
    ensures var n := Play(w, c, more);
      && Within(Recorded(c.record.snapshot), Recorded(n.record.snapshot))
      && Times(n.ran, k) == Times(c.ran, k)
  {
    if more != [] {
      var before, a := Play(w, c, more[..|more| - 1]), more[|more| - 1];
      DurableEffectsKeptOver(w, c, more[..|more| - 1], k);
      PlayKeepsOk(w, c, more[..|more| - 1]);
      DurableEffectsKept(w, before, a, k);
    }
  }

  /** Effects are at most once after durability: from the moment a checkpoint holding a key has
      landed, no continuation whatsoever runs that effect again, the durable log only grows, and
      every Do of that key in any later handler replays the recorded value. */
  lemma EffectsAtMostOnce(w: Workflow, input: Blob, before: seq<Action>, more: seq<Action>, k: Key)
    requires k in Recorded(Play(w, Created(input), before).record.snapshot)
    ensures var c := Play(w, Created(input), before);
      var n := Play(w, Created(input), before + more);
      && Times(n.ran, k) == Times(c.ran, k)
      && Within(Recorded(c.record.snapshot), Recorded(n.record.snapshot))
      && (n.pc.InHandler? ==>
            k in n.inst.effects && n.inst.effects[k] == Recorded(c.record.snapshot)[k]
            && forall v :: Step(w, n, RunEffect(k, v)).None?)
  {
    PlayConcat(w, Created(input), before, more);
    PlayKeepsOk(w, Created(input), before);
    DurableEffectsKeptOver(w, Play(w, Created(input), before), more, k);
    PlayKeepsOk(w, Created(input), before + more);
  }

  /** Between two checkpoints nothing repeats either, short of a crash or a new handle: within one
      run an effect already in the log is never run again. */
  lemma {:induction false} RecordedEffectsRunOnce(w: Workflow, c: Config, more: seq<Action>, k: Key)
    requires EngineOk(w, c) && !c.pc.Idle? && k in c.inst.effects && SameHandle(more)
    ensures var n := Play(w, c, more);
      !n.pc.Idle? && k in n.inst.effects && n.inst.effects[k] == c.inst.effects[k] && Times(n.ran, k) == Times(c.ran, k)
  {
    if more != [] {
      RecordedEffectsRunOnce(w, c, more[..|more| - 1], k);
      OutcomesAreAbsorbing(w, c, more[..|more| - 1]);
      RecordedEffectStep(w, Play(w, c, more[..|more| - 1]), more[|more| - 1], k);
    }
  }

  lemma LoopKeepsLog(w: Workflow, c: Config, a: Action)
    requires IsLoop(a) && !c.pc.Idle?
    ensures var n := After(w, c, a); n.inst == c.inst && n.ran == c.ran && !n.pc.Idle?
  {
  }

  lemma ExitKeepsLog(w: Workflow, c: Config, a: Action)
    requires IsExit(a) && !c.pc.Idle?
    ensures var n := After(w, c, a); n.inst == c.inst && n.ran == c.ran && !n.pc.Idle?
  {
  }

  lemma RecordedEffectStep(w: Workflow, c: Config, a: Action, k: Key)
    requires EngineOk(w, c) && !c.pc.Idle? && k in c.inst.effects && !a.Crash? && !a.Recover?
    ensures var n := After(w, c, a);
      !n.pc.Idle? && k in n.inst.effects && n.inst.effects[k] == c.inst.effects[k] && Times(n.ran, k) == Times(c.ran, k)
  {
    if IsLoop(a) {
      LoopKeepsLog(w, c, a);
    } else if IsExit(a) {
      ExitKeepsLog(w, c, a);
    }
  }

  // ---------------------------------------------------------------- lifecycle

  predicate SameHandle(actions: seq<Action>) {
    forall i :: 0 <= i < |actions| ==> !actions[i].Crash? && !actions[i].Recover?
  }

  /** What one step keeps of an engine's fate. */
  predicate FateKept(e: Engine, f: Engine, a: Action) {
    && (e.state != NotStarted ==> f.state != NotStarted)
    && (Settled(e) ==> f.state == e.state && f.detachDone == e.detachDone)
    && (e.isSealed && !Live(e) && !a.Unseal? ==> f.isSealed && !Live(f))
  }

  lemma FateStep(w: Workflow, c: Config, a: Action)
    requires EngineOk(w, c) && !a.Crash? && !a.Recover?
    ensures FateKept(c.e, After(w, c, a).e, a)
  {
    if IsControl(a) {
      FateByControl(c.e, a);
    } else if IsLoop(a) {
      FateByLoop(w, c, a);
    }
  }

  lemma FateByControl(e: Engine, a: Action)
    requires IsControl(a)
    ensures FateKept(e, ControlE(e, a), a)
  {
  }

  lemma FateByLoop(w: Workflow, c: Config, a: Action)
    requires EngineOk(w, c) && IsLoop(a)
    ensures FateKept(c.e, After(w, c, a).e, a)
  {
  }

  /** A handle's engine leaves not-started once and never returns; done, failed, killed and
      detached are for good; and a sealed engine that is not live never becomes live. */
  lemma {:induction false} OutcomesAreAbsorbing(w: Workflow, c: Config, actions: seq<Action>)
    requires EngineOk(w, c) && SameHandle(actions)
    ensures var n := Play(w, c, actions);
      && EngineOk(w, n)
      && (c.e.state != NotStarted ==> n.e.state != NotStarted)
      && (Settled(c.e) ==> n.e.state == c.e.state && n.e.detachDone == c.e.detachDone)
      && (c.e.isSealed && !Live(c.e) && (forall i :: 0 <= i < |actions| ==> !actions[i].Unseal?) ==> n.e.isSealed && !Live(n.e))
  {
    if actions != [] {
      var before, a := Play(w, c, actions[..|actions| - 1]), actions[|actions| - 1];
      OutcomesAreAbsorbing(w, c, actions[..|actions| - 1]);
      EngineOkKept(w, before, a);
      FateStep(w, before, a);
    }
  }

  /** Once a run has begun on a handle, wherever it stands by now, the handle may not be started
      again; and a Start on it, or on a sealed or already killed one, changes nothing at all. */
  lemma SecondStartIsRefused(w: Workflow, c: Config)
    requires Ok(w, c) && (!c.pc.Idle? || c.e.isSealed || c.e.state == Killed)
    ensures !Startable(w, c) && After(w, c, Start) == c
  {
  }

  /** A handler already past its boundary may still be entered. */
  predicate PastBoundary(pc: PC) {
    (pc.Past? && pc.next.Some?) || pc.RunningCheckpoint? || pc.Entering?
  }

  /** Handler entries made or still to come whatever the boundary says. */
  function Committed(c: Config): nat { |c.trail| + if PastBoundary(c.pc) then 1 else 0 }

  lemma KilledStep(w: Workflow, c: Config, a: Action)
    requires c.e.state == Killed && !a.Crash? && !a.Recover?
    ensures var n := After(w, c, a); n.e.state == Killed && Committed(n) <= Committed(c)
  {
    if IsLoop(a) { KilledByLoop(w, c, a); }
  }

  lemma KilledByLoop(w: Workflow, c: Config, a: Action)
    requires c.e.state == Killed && IsLoop(a)
    ensures var n := After(w, c, a); n.e.state == Killed && Committed(n) <= Committed(c)
  {
  }

  /** After a kill at most one further handler is entered: the one already past its boundary. */
  lemma {:induction false} KillStopsTheRun(w: Workflow, c: Config, actions: seq<Action>)
    requires c.e.state == Killed && SameHandle(actions)
    ensures var n := Play(w, c, actions); n.e.state == Killed && Committed(n) <= Committed(c) <= |c.trail| + 1
  {
    if actions != [] {
      KillStopsTheRun(w, c, actions[..|actions| - 1]);
      KilledStep(w, Play(w, c, actions[..|actions| - 1]), actions[|actions| - 1]);
    }
  }

  /** A kill wins over a pending detach: the run it ends is never a detached one. */
  lemma KillBeatsDetach(w: Workflow, c: Config, actions: seq<Action>)
    requires EngineOk(w, c) && c.e.state == Killed && !c.e.detachDone && SameHandle(actions)
    ensures var n := Play(w, c, actions); n.pc.Exited? ==> !IsDetached(n.pc.err)
  {
    OutcomesAreAbsorbing(w, c, actions);
  }

  /** The terminal stamp writes the run's own outcome and result: failed only with a run error, done
      only without one, killed whatever the error, and never for a detached run. */
  lemma StampsMatchOutcomes(w: Workflow, c: Config)
    requires Ok(w, c) && c.pc.Stamping?
    ensures var n := After(w, c, Stamp(true));
      && n.record == c.record.(status := c.e.state, output := c.pc.result)
      && (c.e.state == Failed || c.e.state == Done || c.e.state == Killed)
      && (c.e.state == Failed ==> c.pc.err.Some?)
      && (c.e.state == Done ==> c.pc.err.None?)
      && !c.e.detachDone && !IsDetached(c.pc.err)
  {
  }

  /** Only stamps write outcomes, and only checkpoints write the rest; once a run has detached,
      nothing writes its record at all. */
  lemma WhoWritesTheRecord(w: Workflow, c: Config, a: Action)
    requires Ok(w, c)
    ensures var n := After(w, c, a);
      && (n.record != c.record ==>
            || (a == Stamp(true) && c.pc.Stamping?)
            || (a == WriteSuspended(true) && n.record.status == Suspended && c.pc.SuspendedCheckpoint?)
            || ((a == WriteRunning(true) || a == WriteMid(true)) && n.record.status == Running && (c.pc.RunningCheckpoint? || c.pc.MidCheckpoint?)))
      && (c.e.detachDone ==> n.record == c.record)
  {
  }

  /** Teardown runs exactly once per started run that gets to its end, after the stamp. */
  lemma TornDownOnce(w: Workflow, input: Blob, actions: seq<Action>)
    ensures var c := Play(w, Created(input), actions);
      c.teardowns == if c.pc.Exited? then 1 else 0
  {
    PlayKeepsOk(w, Created(input), actions);
  }

  // ---------------------------------------------------------------- detach

  /** The record is a running checkpoint of the state last entered. */
  ghost predicate RunningAtLast(c: Config) {
    c.trail != [] && c.record.status == Running && c.record.state == Some(c.trail[|c.trail| - 1].state) && c.record.snapshot.Some?
  }

  /** What the record is once a run has decided to detach, until the next handle. */
  ghost predicate DetachOk(w: Workflow, c: Config) {
    && (c.pc.Parked? && Persists(w) ==>
          c.record.status == Suspended && c.record.state == Some(c.pc.to) && c.record.snapshot == Some(Encode(c.inst)))
    && ((c.pc.Finishing? || c.pc.TearingDown? || c.pc.Exited?) && IsDetached(c.pc.err) && Persists(w) ==>
          match c.pc.err.value.next
          case Some(s) => c.record.status == Suspended && c.record.state == Some(s) && c.record.snapshot == Some(Encode(c.inst))
          case None => RunningAtLast(c))
    && (Persists(w) && (c.pc.InHandler? || c.pc.MidCheckpoint? || ((c.pc.Boundary? || c.pc.Past?) && c.pc.next.None?)) ==>
          RunningAtLast(c))
  }

  lemma DetachOkKept(w: Workflow, c: Config, a: Action)
    requires Ok(w, c) && DetachOk(w, c)
    ensures DetachOk(w, After(w, c, a))
  {
    if IsControl(a) {
      DetachOkByControl(w, c, a);
    } else if IsLoop(a) {
      DetachOkByLoop(w, c, a);
    } else if IsHandler(a) {
      DetachOkByHandler(w, c, a);
    } else if IsExit(a) {
      DetachOkByExit(w, c, a);
    }
  }

  lemma DetachOkByControl(w: Workflow, c: Config, a: Action)
    requires Ok(w, c) && DetachOk(w, c) && IsControl(a)
    ensures DetachOk(w, After(w, c, a))
  {
  }

  lemma DetachOkByLoop(w: Workflow, c: Config, a: Action)
    requires Ok(w, c) && DetachOk(w, c) && IsLoop(a)
    ensures DetachOk(w, After(w, c, a))
  {
    if a.TakeBoundary? || a.Wake? || a.Proceed? { DetachOkByDecision(w, c, a); }
  }

  lemma DetachOkByDecision(w: Workflow, c: Config, a: Action)
    requires DetachOk(w, c) && (a.TakeBoundary? || a.Wake? || a.Proceed?)
    ensures DetachOk(w, After(w, c, a))
  {
  }

  lemma DetachOkByHandler(w: Workflow, c: Config, a: Action)
    requires EngineOk(w, c) && (Persists(w) ==> TrailOk(w, c)) && DetachOk(w, c) && IsHandler(a)
    ensures DetachOk(w, After(w, c, a))
  {
  }

  lemma DetachOkByExit(w: Workflow, c: Config, a: Action)
    requires Ok(w, c) && DetachOk(w, c) && IsExit(a)
    ensures DetachOk(w, After(w, c, a))
  {
  }

  lemma {:induction false} PlayKeepsDetachOk(w: Workflow, c: Config, actions: seq<Action>)
    requires Ok(w, c) && DetachOk(w, c)
    ensures DetachOk(w, Play(w, c, actions))
  {
    if actions != [] {
      PlayKeepsDetachOk(w, c, actions[..|actions| - 1]);
      PlayKeepsOk(w, c, actions[..|actions| - 1]);
      DetachOkKept(w, Play(w, c, actions[..|actions| - 1]), actions[|actions| - 1]);
    }
  }

  /** A detached run is recoverable: with a next state remaining, the record is the suspended
      checkpoint of that state, unstamped, and a recovered handle restores the log as it stood and
      goes to park there; with none remaining, the running checkpoint of the last state stands,
      unstamped, and a recovered handle goes to enter that state again. */
  lemma DetachIsRecoverable(w: Workflow, input: Blob, actions: seq<Action>)
    requires Persists(w)
    requires var c := Play(w, Created(input), actions); c.pc.Exited? && IsDetached(c.pc.err)
    ensures var c := Play(w, Created(input), actions);
      var again := Play(w, c, [Recover, Start]);
      && !again.pc.Idle? && again.inst.effects == Recorded(c.record.snapshot)
      && (match c.pc.err.value.next
          case Some(s) =>
            && c.record.status == Suspended && c.record.state == Some(s) && c.record.snapshot == Some(Encode(c.inst))
            && again.e.state == Suspended && again.pc == Boundary(Some(s)) && again.inst.effects == c.inst.effects
          case None => RunningAtLast(c) && again.e.state == Running && again.pc == Boundary(c.record.state))
  {
    var c := Play(w, Created(input), actions);
    PlayKeepsOk(w, Created(input), actions);
    PlayKeepsDetachOk(w, Created(input), actions);
    EncodedLog(c.inst);
    RecoverThenStart(w, c);
  }

  lemma RecoverThenStart(w: Workflow, c: Config)
    requires c.pc.Exited?
    ensures Play(w, c, [Recover, Start]) == StartC(w, Rehandled(c))
  {
    assert Play(w, c, []) == c;
    assert [Recover][..0] == [] && [Recover][0] == Recover;
    assert Play(w, c, [Recover]) == After(w, c, Recover) == Rehandled(c);
    assert [Recover, Start][..1] == [Recover] && [Recover, Start][1] == Start;
    assert After(w, Rehandled(c), Start) == StartC(w, Rehandled(c));
  }
}
