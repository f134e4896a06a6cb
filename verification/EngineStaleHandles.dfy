/** Why a handle must be started from the record as it stands: exactly when a handle over an earlier
    record runs an effect again, and a run in which it does. */
module EngineStaleHandles {
  import opened Wrappers
  import opened EffectLog
  import opened EngineModel
  import opened EngineTheorems
  import opened EngineWalks

  /** The handle can still come to enter a handler, once nothing seals it. */
  predicate Runnable(w: Workflow, c: Config, r: Record) {
    && c.e.state == NotStarted
    && r.status != NotStarted && !Terminal(r.status)
    && r.snapshot.Some? && r.state.Some? && r.state.value in w.states
  }

  // ---------------------------------------------------------------- a handle whose snapshot has the key

  /** The effect's key is in the log the run has, or will start with. */
  predicate Remembers(c: Config, r: Record, k: Key) {
    if c.pc.Idle? then c.handle == FromRecord(r) && k in Recorded(r.snapshot) else k in c.inst.effects
  }

  lemma RememberingStep(w: Workflow, c: Config, r: Record, k: Key, a: Action)
    requires EngineOk(w, c) && Remembers(c, r, k) && !a.Crash? && !a.Recover?
    ensures var n := After(w, c, a); Remembers(n, r, k) && Times(n.ran, k) == Times(c.ran, k)
  {
    if !c.pc.Idle? { RecordedEffectStep(w, c, a, k); }
  }

  lemma {:induction false} RememberingRuns(w: Workflow, c: Config, r: Record, k: Key, more: seq<Action>)
    requires EngineOk(w, c) && Remembers(c, r, k) && SameHandle(more)
    ensures var n := Play(w, c, more); Remembers(n, r, k) && Times(n.ran, k) == Times(c.ran, k)
  {
    if more != [] {
      RememberingRuns(w, c, r, k, more[..|more| - 1]);
      OutcomesAreAbsorbing(w, c, more[..|more| - 1]);
      RememberingStep(w, Play(w, c, more[..|more| - 1]), r, k, more[|more| - 1]);
    }
  }

  // ---------------------------------------------------------------- a handle that cannot run

  /** Heading for no handler: unstarted for good, over, or about to find its state unknown. */
  predicate Barren(w: Workflow, c: Config, r: Record) {
    && (c.pc.Idle? ==> c.handle == FromRecord(r) && !Runnable(w, c, r))
    && (InLoop(c.pc) ==>
          && (c.pc.Boundary? || c.pc.SuspendedCheckpoint? || c.pc.Parked? || c.pc.Past?)
          && Target(c.pc).Some? && Target(c.pc).value !in w.states)
  }

  lemma BarrenStep(w: Workflow, c: Config, r: Record, a: Action)
    requires EngineOk(w, c) && Barren(w, c, r) && !a.Crash? && !a.Recover?
    ensures var n := After(w, c, a); Barren(w, n, r) && n.ran == c.ran
  {
    if IsLoop(a) {
      BarrenByLoop(w, c, r, a);
    } else if IsControl(a) {
      BarrenByControl(w, c, r, a);
    }
  }

  lemma BarrenByLoop(w: Workflow, c: Config, r: Record, a: Action)
    requires Barren(w, c, r) && IsLoop(a)
    ensures var n := After(w, c, a); Barren(w, n, r) && n.ran == c.ran
  {
  }

  lemma BarrenByControl(w: Workflow, c: Config, r: Record, a: Action)
    requires EngineOk(w, c) && Barren(w, c, r) && IsControl(a)
    ensures var n := After(w, c, a); Barren(w, n, r) && n.ran == c.ran
  {
  }

  lemma {:induction false} BarrenRuns(w: Workflow, c: Config, r: Record, more: seq<Action>)
    requires EngineOk(w, c) && Barren(w, c, r) && SameHandle(more)
    ensures var n := Play(w, c, more); Barren(w, n, r) && n.ran == c.ran
  {
    if more != [] {
      BarrenRuns(w, c, r, more[..|more| - 1]);
      OutcomesAreAbsorbing(w, c, more[..|more| - 1]);
      BarrenStep(w, Play(w, c, more[..|more| - 1]), r, more[|more| - 1]);
    }
  }

  // ---------------------------------------------------------------- a handle that runs it again

  function Begin(): seq<Action> { [Unseal] + [Start, Resume] }

  lemma Begins(w: Workflow, c: Config, r: Record)
    requires EngineOk(w, c) && c.pc.Idle? && c.handle == FromRecord(r) && Runnable(w, c, r)
    ensures var n := Play(w, c, Begin());
      n.pc == Boundary(r.state) && n.e.state == Running && n.inst.effects == Recorded(r.snapshot) && n.ran == c.ran
  {
    var unsealed := c.(e := UnsealE(c.e));
    PlayConcat(w, c, [Unseal], [Start, Resume]);
    PlayOne(w, c, [], Unseal);
    assert [] + [Unseal] == [Unseal] && Play(w, c, [Unseal]) == unsealed;
    Two(w, unsealed, Start, Resume);
  }

  /** From an unstarted handle into its first handler. */
  function Entering(): seq<Action> { Begin() + GoIn() }

  lemma EntersFirst(w: Workflow, c: Config, r: Record)
    requires EngineOk(w, c) && c.pc.Idle? && c.handle == FromRecord(r) && Runnable(w, c, r)
    ensures var n := Play(w, c, Entering());
      n.pc.InHandler? && n.inst.effects == Recorded(r.snapshot) && n.ran == c.ran
  {
    PlayConcat(w, c, Begin(), GoIn());
    Begins(w, c, r);
    GoesIn(w, Play(w, c, Begin()), r.state.value);
  }

  lemma RunsAgain(w: Workflow, c: Config, r: Record, k: Key)
    requires EngineOk(w, c) && c.pc.Idle? && c.handle == FromRecord(r) && Runnable(w, c, r) && k !in Recorded(r.snapshot)
    ensures SameHandle(Entering() + [RunEffect(k, 0)])
    ensures Times(Play(w, c, Entering() + [RunEffect(k, 0)]).ran, k) == Times(c.ran, k) + 1
  {
    EntersFirst(w, c, r);
    PlayOne(w, c, Entering(), RunEffect(k, 0));
  }

  /** An unstarted handle never runs an effect again, in any run it may come to drive, exactly if
      its own snapshot has the effect's key or it can enter no handler at all: whatever the record
      holds by now does not enter into it. */
  lemma StaleHandleExactly(w: Workflow, c: Config, r: Record, k: Key)
    requires EngineOk(w, c) && c.pc.Idle? && c.handle == FromRecord(r)
    ensures (forall more :: SameHandle(more) ==> Times(Play(w, c, more).ran, k) == Times(c.ran, k))
            <==> k in Recorded(r.snapshot) || !Runnable(w, c, r)
  {
    if k in Recorded(r.snapshot) {
      forall more | SameHandle(more) ensures Times(Play(w, c, more).ran, k) == Times(c.ran, k) {
        RememberingRuns(w, c, r, k, more);
      }
    } else if !Runnable(w, c, r) {
      forall more | SameHandle(more) ensures Times(Play(w, c, more).ran, k) == Times(c.ran, k) {
        BarrenRuns(w, c, r, more);
      }
    } else {
      RunsAgain(w, c, r, k);
    }
  }

  // ---------------------------------------------------------------- such a handle, from a run

  /** One state, snapshots, a store, and an effect under key 7. */
  ghost function OneState(): Workflow {
    Workflow(1, {1}, (input: Option<Blob>) => None, true, true, false)
  }

  /** Into the first handler; the record is its first checkpoint. */
  function Before(): seq<Action> { [Start] + GoIn() }

  lemma FirstCheckpoint()
    ensures var c := Play(OneState(), Created(0), Before());
      && c.pc == InHandler(1) && c.e == UNSTARTED.(state := Running, current := Some(1))
      && c.inst == Instance(Some(0), map[], None) && c.ran == map[]
      && c.record == Record(Running, Some(1), Some(Encode(c.inst)), None)
  {
    var w, c := OneState(), Created(0);
    PlayConcat(w, c, [Start], GoIn());
    PlayOne(w, c, [], Start);
    assert [] + [Start] == [Start];
    GoesIn(w, Play(w, c, [Start]), 1);
  }

  /** The effect runs and is checkpointed; then the handler fails. */
  function Work(): seq<Action> { [RunEffect(7, 9), AskCheckpoint] + [WriteMid(true), Raise] }

  lemma Works(w: Workflow, c: Config)
    requires Persists(w) && c.pc == InHandler(1) && Live(c.e) && c.e.current == Some(1) && c.inst.effects == map[] && c.ran == map[]
    ensures var n := Play(w, c, Work());
      && n.pc == Finishing(Some(HandlerError)) && n.e == c.e && n.inst.effects == map[7 := 9] && n.ran == map[7 := 1]
      && n.record.snapshot == Some(Encode(n.inst))
  {
    PlayConcat(w, c, [RunEffect(7, 9), AskCheckpoint], [WriteMid(true), Raise]);
    Two(w, c, RunEffect(7, 9), AskCheckpoint);
    var asked := Play(w, c, [RunEffect(7, 9), AskCheckpoint]);
    assert asked == c.(inst := c.inst.(effects := map[7 := 9]), ran := map[7 := 1], pc := MidCheckpoint(1, 1));
    Two(w, asked, WriteMid(true), Raise);
  }

  function Since(): seq<Action> { Work() + WindUp() }

  lemma EffectThenEnd()
    ensures var c := Play(OneState(), Play(OneState(), Created(0), Before()), Since());
      c.pc.Exited? && Recorded(c.record.snapshot) == map[7 := 9] && Times(c.ran, 7) == 1
  {
    FirstCheckpoint();
    var w, c := OneState(), Play(OneState(), Created(0), Before());
    PlayConcat(w, c, Work(), WindUp());
    Works(w, c);
    var n := Play(w, c, Work());
    EncodedLog(n.inst);
    WindsUp(w, n, HandlerError);
  }

  /** It happens: a record read at the first checkpoint of a run, an effect run and made durable
      later in that run, and, the run over, a handle over the earlier record that runs it again. */
  lemma StaleHandleRepeats()
    ensures
      var w := OneState();
      var r := Play(w, Created(0), Before()).record;
      var c := Play(w, Created(0), Before() + Since());
      var stale := HandleOver(c, r);
      && AtRest(c) && 7 in Recorded(c.record.snapshot) && 7 !in Recorded(r.snapshot)
      && Startable(w, stale)
      && SameHandle(Entering() + [RunEffect(7, 0)])
      && Times(c.ran, 7) == 1 && Times(Play(w, stale, Entering() + [RunEffect(7, 0)]).ran, 7) == 2
  {
    var w := OneState();
    FirstCheckpoint();
    EffectThenEnd();
    PlayConcat(w, Created(0), Before(), Since());
    var r, c := Play(w, Created(0), Before()).record, Play(w, Created(0), Before() + Since());
    EncodedLog(Instance(Some(0), map[], None));
    RunsAgain(w, HandleOver(c, r), r, 7);
  }
}
