/** The run engine and the task that owns it, as they are written: fields changed step by step
    under a lock, with other goroutines' control calls let in between any two critical sections.
    Every method is proved to be a run of the transition system, so what holds of all its runs
    holds of this code. */
module RunEngine {
  import opened Wrappers
  import opened EffectLog
  import opened EngineModel
  import opened EngineTheorems
  import opened EngineOutcomes

  /** The task's row. Any write may fail, and then changes nothing. */
  class Repository {
    var record: Record
    /** How many writes it has been asked for. */
    ghost var writes: nat

    constructor (record: Record)
      ensures this.record == record
    {
      this.record, writes := record, 0;
    }

    method SaveCheckpoint(status: Status, state: State, snapshot: Envelope) returns (ok: bool)
      modifies this
      ensures record == if ok then old(record).(status := status, state := Some(state), snapshot := Some(snapshot)) else old(record)
      ensures writes == old(writes) + 1
    {
      ok, writes := *, writes + 1;
      if ok { record := record.(status := status, state := Some(state), snapshot := Some(snapshot)); }
    }

    method MarkTerminal(outcome: Status, output: Option<Blob>) returns (ok: bool)
      modifies this
      ensures record == if ok then old(record).(status := outcome, output := output) else old(record)
      ensures writes == old(writes) + 1
    {
      ok, writes := *, writes + 1;
      if ok { record := record.(status := outcome, output := output); }
    }
  }

  /** How a run ends for its caller. Lost is the process dying under it. */
  datatype RunResult = Refused(why: Refusal) | Ended(err: Option<RunError>, stamped: bool) | Lost

  datatype Refusal = TaskDeleted | AlreadyStarted | KilledBeforeStart | NoCheckpoint | AlreadyTerminal | NotRestorable

  lemma PlayFirst(w: Workflow, c: Config, a: Action) returns (acts: seq<Action>)
    requires !a.Crash? && !a.Recover?
    ensures SameHandle(acts) && Play(w, c, acts) == After(w, c, a)
  {
    acts := [] + [a];
    PlayOne(w, c, [], a);
  }

  lemma PlayStep(w: Workflow, c: Config, actions: seq<Action>, a: Action) returns (acts: seq<Action>)
    requires SameHandle(actions) && !a.Crash? && !a.Recover?
    ensures SameHandle(acts) && Play(w, c, acts) == After(w, Play(w, c, actions), a)
  {
    acts := actions + [a];
    PlayOne(w, c, actions, a);
  }

  lemma PlayOn(w: Workflow, c: Config, actions: seq<Action>, more: seq<Action>) returns (acts: seq<Action>)
    requires SameHandle(actions) && SameHandle(more)
    ensures SameHandle(acts) && Play(w, c, acts) == Play(w, Play(w, c, actions), more)
  {
    acts := actions + more;
    PlayConcat(w, c, actions, more);
  }

  class Runner {
    const w: Workflow
    const repo: Repository
    var state: Status
    var isSealed: bool
    var detachWanted: bool
    var detachDone: bool
    var current: Option<State>
    var output: Option<Blob>
    /** The instance the run drives, its handlers changing it only through Do and its durable state. */
    var inst: Instance
    ghost var pc: PC
    ghost const handle: Handle
    ghost var run: nat
    ghost var trail: seq<Entry>
    ghost var ran: map<Key, nat>
    ghost var teardowns: nat

    ghost function Fields(): Engine
      reads this
    {
      Engine(state, isSealed, detachWanted, detachDone, current, output)
    }

    ghost function View(): Config
      reads this, repo
    {
      Config(handle, Fields(), pc, inst, repo.record, run, trail, ran, teardowns)
    }

    /** The engine got here from `c` by these actions, none of them a crash or a new handle. */
    ghost predicate Ran(c: Config, acts: seq<Action>)
      reads this, repo
    {
      SameHandle(acts) && View() == Play(w, c, acts)
    }

    /** A fresh engine, for a new task or for one recovered after `past`. */
    constructor (w: Workflow, repo: Repository, ghost handle: Handle, ghost past: Config)
      ensures this.w == w && this.repo == repo && this.handle == handle
      ensures View() == past.(handle := handle, e := UNSTARTED, pc := Idle, inst := UNBUILT, record := repo.record, teardowns := 0)
    {
      this.w, this.repo, this.handle := w, repo, handle;
      state, isSealed, detachWanted, detachDone, current, output := NotStarted, false, false, false, None, None;
      inst, pc, run, trail, ran, teardowns := UNBUILT, Idle, past.run, past.trail, past.ran, 0;
    }

    // -------------------------------------------------------------- control calls

    method Suspend()
      modifies this
      ensures View() == After(w, old(View()), Action.Suspend)
      ensures old(state) == Running && !old(detachWanted) && !old(detachDone) ==> state == Suspended
      ensures old(state) != Running ==> state == old(state)
    {
      if detachWanted || detachDone { return; }
      if state == Running { state := Suspended; }
    }

    method Resume()
      modifies this
      ensures View() == After(w, old(View()), Action.Resume)
      ensures old(state) == Suspended && !old(detachWanted) && !old(detachDone) ==> state == Running
      ensures old(state) != Suspended || old(detachWanted) || old(detachDone) ==> state == old(state)
    {
      if detachWanted || detachDone { return; }
      if state == Suspended { state := Running; }
    }

    method Detach() returns (ok: bool)
      modifies this
      ensures View() == After(w, old(View()), Action.Detach)
      ensures ok <==> detachWanted || detachDone
      ensures ok <==> old(state) == Suspended || old(detachWanted) || old(detachDone)
    {
      if detachWanted || detachDone { return true; }
      if state != Suspended { return false; }
      detachWanted := true;
      ok := true;
    }

    method Kill()
      modifies this
      ensures View() == After(w, old(View()), Action.Kill)
      ensures !old(detachDone) && (old(state) == NotStarted || old(state) == Running || old(state) == Suspended) ==> state == Killed
      ensures old(detachDone) || (old(state) != NotStarted && old(state) != Running && old(state) != Suspended) ==> state == old(state)
    {
      if detachDone { return; }
      if state == NotStarted || state == Running || state == Suspended { state := Killed; }
    }

    method Seal() returns (ok: bool)
      modifies this
      ensures View() == After(w, old(View()), Action.Seal)
      ensures ok <==> old(detachDone) || (old(state) != Running && old(state) != Suspended)
      ensures ok ==> isSealed
    {
      if (state == Running || state == Suspended) && !detachDone { return false; }
      isSealed := true;
      ok := true;
    }

    method Unseal()
      modifies this
      ensures View() == After(w, old(View()), Action.Unseal)
    {
      isSealed := false;
    }

    /** Any control calls from elsewhere, while the run is between two critical sections. */
    method Interfere() returns (ghost acts: seq<Action>)
      modifies this
      ensures Ran(old(View()), acts)
      ensures View() == old(View()).(e := Fields()) && output == old(output)
      ensures old(Settled(Fields())) ==> Settled(Fields()) && state == old(state) && detachDone == old(detachDone)
    {
      acts := [];
      var calls: nat := *;
      while calls > 0
        invariant Ran(old(View()), acts)
        invariant View() == old(View()).(e := Fields()) && output == old(output)
        invariant old(Settled(Fields())) ==> Settled(Fields()) && state == old(state) && detachDone == old(detachDone)
      {
        ghost var a;
        var which: nat := *;
        if which == 0 { Suspend(); a := Action.Suspend; }
        else if which == 1 { Resume(); a := Action.Resume; }
        else if which == 2 { var _ := Detach(); a := Action.Detach; }
        else if which == 3 { Kill(); a := Action.Kill; }
        else if which == 4 { var _ := Seal(); a := Action.Seal; }
        else { Unseal(); a := Action.Unseal; }
        acts := PlayStep(w, old(View()), acts, a);
        calls := calls - 1;
      }
    }

    // -------------------------------------------------------------- checkpoints

    /** A no-op where the instance cannot snapshot or nothing stores. */
    method Checkpoint(status: Status, at: State) returns (ok: bool)
      modifies repo
      ensures View() == Checkpointed(w, old(View()), status, at, ok)
      ensures Landed(w, ok) <==> ok
      ensures repo.writes >= old(repo.writes) + (if ok then 0 else 1)
    {
      if !w.snapshots || !w.stores { return true; }
      var env := Encode(inst);
      ok := repo.SaveCheckpoint(status, at, env);
    }

    /** Under the lock: whether a state is executing, and which. */
    method BeginCheckpoint() returns (at: Option<State>)
      requires pc.InHandler?
      modifies this
      ensures View() == After(w, old(View()), AskCheckpoint)
      ensures at.Some? <==> Live(old(Fields())) && old(current).Some?
      ensures pc == if at.Some? then PC.MidCheckpoint(old(pc).now, at.value) else old(pc)
    {
      var live := (state == Running || state == Suspended) && !detachDone;
      at := if live then current else None;
      if at.Some? { pc := PC.MidCheckpoint(pc.now, at.value); }
    }

    method EndCheckpoint(at: State) returns (ok: bool)
      requires pc.MidCheckpoint? && pc.at == at
      modifies this, repo
      ensures View() == After(w, old(View()), WriteMid(ok))
      ensures pc == InHandler(old(pc).now) && inst == old(inst)
      ensures ok && Persists(w) ==> repo.record.snapshot == Some(Encode(inst))
      ensures repo.writes >= old(repo.writes) + (if ok then 0 else 1)
    {
      ok := Checkpoint(Running, at);
      pc := InHandler(pc.now);
    }

    /** The instance's own checkpoint: refused unless a state is executing, else stamped running
        at that state. */
    method MidCheckpoint() returns (ok: bool, ghost acts: seq<Action>)
      requires pc.InHandler?
      modifies this, repo
      ensures Ran(old(View()), acts)
      ensures pc == old(pc) && inst == old(inst)
      ensures ok && Persists(w) ==> repo.record.snapshot == Some(Encode(inst))
      ensures !Live(old(Fields())) || old(current).None? ==> !ok
      ensures repo.writes >= old(repo.writes)
      ensures !ok && Live(old(Fields())) && old(current).Some? ==> repo.writes > old(repo.writes)
    {
      var at := BeginCheckpoint();
      acts := PlayFirst(w, old(View()), AskCheckpoint);
      if at.None? { return false, acts; }
      ghost var between := Interfere();
      acts := PlayOn(w, old(View()), acts, between);
      ok := EndCheckpoint(at.value);
      acts := PlayStep(w, old(View()), acts, WriteMid(ok));
    }

    // -------------------------------------------------------------- handlers

    /** The effect itself: it fails without trace, or succeeds and is recorded in memory. */
    method RunIt(k: Key) returns (ok: bool, v: Blob)
      requires pc.InHandler? && k !in inst.effects
      modifies this
      ensures View() == After(w, old(View()), if ok then RunEffect(k, v) else FailEffect(k))
      ensures pc == old(pc) && (ok ==> k in inst.effects && inst.effects[k] == v)
    {
      ok, v := *, *;
      if ok { inst, ran := inst.(effects := inst.effects[k := v]), ran[k := Times(ran, k) + 1]; }
    }

    method Store(v: Blob) returns (ghost acts: seq<Action>)
      requires pc.InHandler?
      modifies this
      ensures Ran(old(View()), acts)
      ensures pc == old(pc)
    {
      acts := [];
      if inst.durable.Some? {
        inst := inst.(durable := Some(v));
        acts := PlayFirst(w, old(View()), SetDurable(v));
      }
    }

    /** The handler returns: with the next state, with none, or with an error. */
    method Conclude() returns (next: Option<Option<State>>, ghost a: Action)
      requires pc.InHandler?
      modifies this
      ensures View() == After(w, old(View()), a) && (a.Return? || a.Raise?)
      ensures pc == if next.Some? then Boundary(next.value) else Finishing(Some(HandlerError))
    {
      var to: Option<State>;
      var fails := *;
      if fails {
        pc := Finishing(Some(HandlerError));
        return None, Raise;
      }
      to := *;
      pc, trail := Boundary(to), Closed(trail, to);
      return Some(to), Return(to);
    }

    /** An effect behind its key: replayed if the log has it, else run, recorded and checkpointed. */
    method Do(k: Key) returns (r: DoResult, ghost acts: seq<Action>)
      requires pc.InHandler?
      modifies this, repo
      ensures Ran(old(View()), acts)
      ensures pc == old(pc)
      ensures k in old(inst.effects) ==> r == Replayed(old(inst.effects)[k]) && View() == old(View())
      ensures r.Fresh? && Persists(w) ==> k in Recorded(repo.record.snapshot) && Recorded(repo.record.snapshot)[k] == r.value
      ensures repo.writes >= old(repo.writes)
      ensures r.EffectFailed? ==> inst == old(inst)
      ensures r.Unsaved? && Live(old(Fields())) && old(current).Some? ==> repo.writes > old(repo.writes)
    {
      if k in inst.effects { return Replayed(inst.effects[k]), []; }
      var ran, v := RunIt(k);
      if !ran {
        acts := PlayFirst(w, old(View()), FailEffect(k));
        return EffectFailed, acts;
      }
      acts := PlayFirst(w, old(View()), RunEffect(k, v));
      var ok, more := MidCheckpoint();
      acts := PlayOn(w, old(View()), acts, more);
      r := if ok then Fresh(v) else Unsaved(v);
      EncodedLog(inst);
    }

    /** One handler: effects, checkpoints and changes of durable state, in any number and order,
        with other goroutines' calls between them; then where to go next, or an error. */
    method Handler() returns (next: Option<Option<State>>, ghost acts: seq<Action>)
      requires pc.InHandler?
      modifies this, repo
      ensures Ran(old(View()), acts)
      ensures pc == if next.Some? then Boundary(next.value) else Finishing(Some(HandlerError))
      ensures repo.writes >= old(repo.writes)
    {
      acts := [];
      var moves: nat := *;
      while moves > 0
        invariant Ran(old(View()), acts)
        invariant pc.InHandler? && repo.writes >= old(repo.writes)
      {
        ghost var did;
        var which: nat := *;
        if which == 0 {
          var k: Key := *;
          var _, more := Do(k);
          did := more;
        } else if which == 1 {
          var _, more := MidCheckpoint();
          did := more;
        } else if which == 2 {
          var v: Blob := *;
          did := Store(v);
        } else {
          did := Interfere();
        }
        acts := PlayOn(w, old(View()), acts, did);
        moves := moves - 1;
      }
      ghost var last;
      next, last := Conclude();
      acts := PlayStep(w, old(View()), acts, last);
    }

    // -------------------------------------------------------------- the run loop, section by section

    /** A step just taken, then any control calls before the next one. */
    method Yield(ghost c: Config, ghost done: seq<Action>, ghost a: Action) returns (ghost acts: seq<Action>)
      requires SameHandle(done) && !a.Crash? && !a.Recover? && View() == After(w, Play(w, c, done), a)
      modifies this
      ensures Ran(c, acts)
      ensures View() == old(View()).(e := Fields()) && output == old(output)
      ensures old(Settled(Fields())) ==> Settled(Fields()) && state == old(state) && detachDone == old(detachDone)
    {
      ghost var sofar := PlayStep(w, c, done, a);
      ghost var calls := Interfere();
      acts := PlayOn(w, c, sofar, calls);
    }

    /** What the handle says a run is to begin with. */
    ghost predicate Begins(instance: Instance, start: State, suspended: bool) {
      match handle
      case FromInput(raw) => instance == Built(w.build, Some(raw)) && start == w.initial && !suspended
      case FromRecord(r) =>
        && r.snapshot.Some? && r.state == Some(start) && r.status != NotStarted && !Terminal(r.status)
        && instance == Decode(r.snapshot.value, Built(w.build, r.snapshot.value.input))
        && suspended == (r.status == Suspended)
    }

    /** The first critical section: refused when sealed, killed early or begun before. */
    method Claim(instance: Instance, start: State, suspended: bool) returns (why: Option<Refusal>)
      requires EngineOk(w, View())
      requires state == NotStarted ==> Begins(instance, start, suspended)
      modifies this
      ensures View() == After(w, old(View()), Start)
      ensures why.Some? ==> View() == old(View())
      ensures why.None? ==> pc == Boundary(Some(start))
      ensures why == if old(isSealed) then Some(TaskDeleted)
                     else if old(state) == Killed then Some(KilledBeforeStart)
                     else if old(state) != NotStarted then Some(AlreadyStarted) else None
    {
      if isSealed { return Some(TaskDeleted); }
      if state != NotStarted { return Some(if state == Killed then KilledBeforeStart else AlreadyStarted); }
      state := if suspended then Suspended else Running;
      inst := instance;
      pc, run := Boundary(Some(start)), run + 1;
      why := None;
    }

    /** The decision at a boundary: killed, detached, or on. */
    method Settle(next: Option<State>) returns (stop: Option<RunError>)
      modifies this
      ensures View() == Decide(old(View()), next)
      ensures pc == if stop.Some? then Finishing(stop) else Past(next)
      ensures stop.Some? ==> stop.value.Cancelled? || stop.value.Detached?
    {
      var dead, detached := state == Killed, state == Suspended && detachWanted;
      if detached { detachDone := true; }
      stop := if dead then Some(Cancelled) else if detached then Some(Detached(next)) else None;
      pc := if stop.Some? then Finishing(stop) else Past(next);
    }

    method Arrive(next: Option<State>) returns (parks: bool, stop: Option<RunError>)
      requires pc == Boundary(next)
      modifies this
      ensures View() == After(w, old(View()), TakeBoundary)
      ensures parks ==> next.Some? && pc == SuspendedCheckpoint(next.value)
      ensures !parks ==> pc == if stop.Some? then Finishing(stop) else Past(next)
      ensures stop.Some? ==> stop.value.Cancelled? || stop.value.Detached?
    {
      current := None;
      if next.Some? && state == Suspended {
        pc := SuspendedCheckpoint(next.value);
        return true, None;
      }
      parks := false;
      stop := Settle(next);
    }

    method SaveSuspended(to: State) returns (ok: bool)
      requires pc == SuspendedCheckpoint(to)
      modifies this, repo
      ensures View() == After(w, old(View()), WriteSuspended(ok))
      ensures pc == if ok then Parked(to) else Finishing(Some(StoreError))
      ensures repo.writes >= old(repo.writes) + (if ok then 0 else 1)
    {
      ok := Checkpoint(Suspended, to);
      pc := if ok then Parked(to) else Finishing(Some(StoreError));
    }

    /** Waits out a suspension. The process may die waiting. */
    method Park(to: State, ghost c: Config, ghost done: seq<Action>) returns (lost: bool, stop: Option<RunError>, ghost acts: seq<Action>)
      requires pc == Parked(to) && Ran(c, done)
      modifies this
      ensures Ran(c, acts)
      ensures lost ==> pc == Parked(to)
      ensures !lost ==> pc == if stop.Some? then Finishing(stop) else Past(Some(to))
      ensures stop.Some? ==> stop.value.Cancelled? || stop.value.Detached?
    {
      acts := done;
      var patience: nat := *;
      while state == Suspended && !detachWanted
        invariant pc == Parked(to) && Ran(c, acts)
        decreases patience
      {
        if patience == 0 { return true, None, acts; }
        ghost var calls := Interfere();
        acts := PlayOn(w, c, acts, calls);
        patience := patience - 1;
      }
      lost := false;
      stop := Settle(Some(to));
      acts := PlayStep(w, c, acts, Wake);
    }

    /** Past the boundary: the next state must exist; with none left, the output is harvested. */
    method Proceed(next: Option<State>) returns (onward: bool, err: Option<RunError>, ghost a: Action)
      requires pc == Past(next)
      modifies this
      ensures View() == After(w, old(View()), a) && a.Proceed?
      ensures if onward then next.Some? && pc == RunningCheckpoint(next.value) else pc == Finishing(err)
      ensures onward <==> next.Some? && next.value in w.states
      ensures next.None? && w.outputs ==> if a.harvest.Some? then output == a.harvest && err.None? else err == Some(HarvestError)
    {
      var harvest: Option<Blob> := *;
      a := Action.Proceed(harvest);
      onward, err := false, None;
      if next.Some? {
        onward := next.value in w.states;
        if !onward { err := Some(NoSuchState); }
      } else if w.outputs {
        if harvest.Some? { output := harvest; } else { err := Some(HarvestError); }
      }
      pc := if onward then RunningCheckpoint(next.value) else Finishing(err);
    }

    method SaveRunning(to: State) returns (ok: bool)
      requires pc == RunningCheckpoint(to)
      modifies this, repo
      ensures View() == After(w, old(View()), WriteRunning(ok))
      ensures pc == if ok then Entering(to) else Finishing(Some(StoreError))
      ensures repo.writes >= old(repo.writes) + (if ok then 0 else 1)
    {
      ok := Checkpoint(Running, to);
      pc := if ok then Entering(to) else Finishing(Some(StoreError));
    }

    method EnterState(to: State)
      requires pc == Entering(to)
      modifies this
      ensures View() == After(w, old(View()), Enter)
      ensures pc == InHandler(to)
    {
      current := Some(to);
      pc, trail := InHandler(to), trail + [Entry(run, to, None)];
    }

    /** The boundary before `next`, parking there if suspended. */
    method Gate(next: Option<State>, ghost c: Config, ghost done: seq<Action>) returns (lost: bool, stop: Option<RunError>, ghost acts: seq<Action>)
      requires pc == Boundary(next) && Ran(c, done)
      modifies this, repo
      ensures Ran(c, acts)
      ensures !lost ==> pc == if stop.Some? then Finishing(stop) else Past(next)
      ensures repo.writes >= old(repo.writes) + (if !lost && stop == Some(StoreError) then 1 else 0)
    {
      var parks;
      lost := false;
      parks, stop := Arrive(next);
      acts := Yield(c, done, TakeBoundary);
      if parks {
        var ok := SaveSuspended(next.value);
        acts := Yield(c, acts, WriteSuspended(ok));
        stop := if ok then None else Some(StoreError);
        if ok { lost, stop, acts := Park(next.value, c, acts); }
      }
    }

    /** One turn of the loop: a boundary, a checkpoint, a handler. */
    method Turn(next: Option<State>, ghost c: Config, ghost done: seq<Action>)
      returns (lost: bool, onto: Option<Option<State>>, err: Option<RunError>, ghost acts: seq<Action>)
      requires pc == Boundary(next) && Ran(c, done)
      modifies this, repo
      ensures Ran(c, acts)
      ensures !lost ==> if onto.Some? then pc == Boundary(onto.value) else pc == Finishing(err)
      ensures repo.writes >= old(repo.writes) + (if !lost && onto.None? && err == Some(StoreError) then 1 else 0)
    {
      onto := None;
      lost, err, acts := Gate(next, c, done);
      if lost || err.Some? { return; }
      var onward;
      ghost var a;
      onward, err, a := Proceed(next);
      acts := Yield(c, acts, a);
      if !onward { return; }
      var ok := SaveRunning(next.value);
      acts := Yield(c, acts, WriteRunning(ok));
      if !ok {
        err := Some(StoreError);
        return;
      }
      EnterState(next.value);
      acts := Yield(c, acts, Enter);
      ghost var did;
      onto, did := Handler();
      err := Some(HandlerError);
      acts := PlayOn(w, c, acts, did);
    }

    // -------------------------------------------------------------- the way out

    /** The deferred finish: the outcome under the lock, then the terminal stamp. */
    method Finish(err: Option<RunError>) returns (stamps: bool, outcome: Status, result: Option<Blob>)
      requires pc == Finishing(err) && EngineOk(w, View())
      modifies this
      ensures View() == After(w, old(View()), Action.Finish)
      ensures pc == if stamps then Stamping(err, outcome, result) else TearingDown(err)
      ensures stamps <==> w.stores && !old(detachDone)
      ensures Settled(Fields()) && detachDone == old(detachDone) && (stamps ==> outcome == state && result == output)
    {
      stamps, outcome, result := false, state, output;
      if detachDone {
        pc := TearingDown(err);
        return;
      }
      if state != Killed { state := if err.Some? then Failed else Done; }
      outcome, stamps := state, w.stores;
      pc := if stamps then Stamping(err, outcome, result) else TearingDown(err);
    }

    method StampOutcome(err: Option<RunError>, outcome: Status, result: Option<Blob>) returns (ok: bool)
      requires pc == Stamping(err, outcome, result)
      modifies this, repo
      ensures View() == After(w, old(View()), Stamp(ok)) && Fields() == old(Fields())
      ensures pc == TearingDown(err)
      ensures ok ==> repo.record.status == outcome && repo.record.output == result
      ensures repo.writes >= old(repo.writes) + (if ok then 0 else 1)
    {
      ok := repo.MarkTerminal(outcome, result);
      pc := TearingDown(err);
    }

    ghost method MarkTornDown(err: Option<RunError>)
      requires pc == TearingDown(err)
      modifies this
      ensures View() == After(w, old(View()), TearDown)
      ensures pc == Exited(err)
      ensures Fields() == old(Fields()) && repo.record == old(repo.record)
    {
      pc, teardowns := Exited(err), teardowns + 1;
    }

    /** Whatever ended the loop: finish, stamp, tear down, in that order. */
    method WindUp(err: Option<RunError>, ghost c: Config, ghost done: seq<Action>) returns (stamped: bool, ghost acts: seq<Action>)
      requires pc == Finishing(err) && Ok(w, c) && Ran(c, done)
      modifies this, repo
      ensures Ran(c, acts)
      ensures pc == Exited(err)
      ensures stamped && w.stores && !detachDone ==> repo.record.status == state && repo.record.output == output
      ensures repo.writes >= old(repo.writes) + (if stamped then 0 else 1)
    {
      PlayKeepsOk(w, c, done);
      var stamps, outcome, result := Finish(err);
      acts := Yield(c, done, Action.Finish);
      stamped := true;
      if stamps {
        stamped := StampOutcome(err, outcome, result);
        acts := Yield(c, acts, Stamp(stamped));
      }
      MarkTornDown(err);
      acts := PlayStep(w, c, acts, TearDown);
    }

    /** The run, from a claimed engine to its end: a Play of the transition system, whatever the
        handlers do, whichever writes fail, and whatever anyone calls meanwhile. */
    method Run(instance: Instance, start: State, suspended: bool) returns (r: RunResult, ghost acts: seq<Action>)
      requires Ok(w, View())
      requires state == NotStarted ==> Begins(instance, start, suspended)
      modifies this, repo
      ensures Ran(old(View()), acts)
      ensures Ok(w, View())
      ensures r.Refused? ==> View() == old(View())
      ensures r.Refused? <==> old(isSealed) || old(state) != NotStarted
      ensures r.Refused? ==> r.why == if old(isSealed) then TaskDeleted else if old(state) == Killed then KilledBeforeStart else AlreadyStarted
      ensures r.Ended? ==> pc == Exited(r.err)
      ensures r.Ended? && r.stamped && w.stores && !detachDone ==> repo.record.status == state && repo.record.output == output
      ensures r.Ended? && r.err.None? ==> Completed(View()) && (w.outputs ==> output.Some?)
      ensures r.Ended? && (r.err == Some(StoreError) || !r.stamped) ==> repo.writes > old(repo.writes)
    {
      ghost var c := View();
      var why := Claim(instance, start, suspended);
      acts := PlayFirst(w, old(View()), Start);
      if why.Some? { return Refused(why.value), []; }
      var next, ended := Some(start), false;
      var err: Option<RunError> := None;
      var budget: nat := *;
      while !ended
        invariant Ran(old(View()), acts)
        invariant pc == if ended then Finishing(err) else Boundary(next)
        invariant repo.writes >= old(repo.writes) + (if ended && err == Some(StoreError) then 1 else 0)
        decreases budget, !ended
      {
        var lost, onto;
        lost, onto, err, acts := Turn(next, old(View()), acts);
        if lost || budget == 0 {
          PlayKeepsOk(w, old(View()), acts);
          return Lost, acts;
        }
        budget := budget - 1;
        if onto.Some? { next := onto.value; } else { ended := true; }
      }
      var stamped;
      stamped, acts := WindUp(err, old(View()), acts);
      PlayKeepsOk(w, c, acts);
      CleanEndsAreComplete(w, c, acts);
      r := Ended(err, stamped);
    }
  }

  /** One task handle: a new task's, holding its input, or a recovered one's, holding its record. */
  class Task {
    const runner: Runner
    const handle: Handle
    var status: Status
    var output: Option<Blob>

    ghost predicate Valid()
      reads this, runner, runner.repo
    {
      && runner.handle == handle
      && Ok(runner.w, runner.View())
      && (handle.FromRecord? && runner.state == NotStarted ==> status == handle.record.status)
    }

    constructor New(w: Workflow, repo: Repository, input: Blob)
      requires repo.record == Record(NotStarted, None, None, None)
      ensures Valid() && fresh(runner) && runner.w == w && runner.repo == repo
      ensures runner.View() == Created(input) && status == NotStarted && output == None
    {
      handle, status, output := FromInput(input), NotStarted, None;
      runner := new Runner(w, repo, FromInput(input), Created(input));
    }

    /** A handle over the record as it stands, after any past that has come to rest or crashed. */
    constructor Rehydrate(w: Workflow, repo: Repository, ghost past: Config)
      requires Ok(w, past) && past.record == repo.record
      ensures Valid() && fresh(runner) && runner.w == w && runner.repo == repo
      ensures runner.View() == After(w, past, Crash)
      ensures status == repo.record.status && output == repo.record.output
    {
      var record := repo.record;
      handle, status, output := FromRecord(record), record.status, record.output;
      runner := new Runner(w, repo, FromRecord(record), past);
      new;
      EngineOkKept(w, past, Crash);
      LogOkKept(w, past, Crash);
      if Persists(w) { TrailOkKept(w, past, Crash); }
    }

    /** Runs the task to its end. The refusals that come from another run, or from there being
        nothing to run, leave everything as it was; a run that ends leaves the task, the engine and,
        if the stamp landed, the row in agreement. */
    method Start() returns (r: RunResult, ghost acts: seq<Action>)
      requires Valid()
      modifies this, runner, runner.repo
      ensures Valid()
      ensures runner.Ran(old(runner.View()), acts)
      ensures r == Refused(NoCheckpoint) <==> handle.FromRecord? && old(status) == NotStarted
      ensures r == Refused(AlreadyTerminal) <==> handle.FromRecord? && Terminal(old(status))
      ensures r.Refused? ==> runner.View() == old(runner.View())
      ensures r.Refused? && (r.why == NoCheckpoint || r.why == AlreadyTerminal || r.why == AlreadyStarted) ==>
                status == old(status) && output == old(output)
      ensures old(runner.state) != NotStarted || old(runner.isSealed) ==> r.Refused?
      ensures r.Ended? ==>
        && runner.pc == Exited(r.err)
        && status == runner.state && output == runner.output
        && (status == Failed ==> r.err.Some?) && (status == Done ==> r.err.None?)
        && (IsDetached(r.err) <==> status == Suspended)
        && (r.err.None? && runner.w.outputs ==> output.Some?)
        && (r.stamped && runner.w.stores && status != Suspended ==>
              runner.repo.record.status == status && runner.repo.record.output == output)
    {
      var w := runner.w;
      acts := [];
      if handle.FromRecord? {
        if status == NotStarted { return Refused(NoCheckpoint), []; }
        if Terminal(status) { return Refused(AlreadyTerminal), []; }
        var env := handle.record.snapshot;
        if !env.Some? || !handle.record.state.Some? {
          r := Refused(NotRestorable);
        } else {
          var restored := Decode(env.value, Built(w.build, env.value.input));
          r, acts := runner.Run(restored, handle.record.state.value, status == Suspended);
        }
      } else {
        r, acts := runner.Run(Built(w.build, Some(handle.input)), w.initial, false);
      }
      if r.Lost? || r == Refused(AlreadyStarted) { return; }
      if runner.state != NotStarted { status := runner.state; }
      output := runner.output;
    }
  }
}
