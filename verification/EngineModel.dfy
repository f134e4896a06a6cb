/** The durable run engine as a transition system: one step per critical section of the
    engine, per store write, per handler act, per control call, and a crash at any moment.
    The record is what survives; everything else is rebuilt from it. */
module EngineModel {
  import opened Wrappers
  import opened EffectLog

  type State = int

  datatype Status = NotStarted | Running | Suspended | Killed | Failed | Done

  predicate Terminal(s: Status) { s == Done || s == Killed }

  /** The fields the run loop and the control calls share under the engine's lock. */
  datatype Engine = Engine(
    state: Status,
    isSealed: bool,
    detachWanted: bool,
    detachDone: bool,
    current: Option<State>,
    output: Option<Blob>)

  const UNSTARTED := Engine(NotStarted, false, false, false, None, None)

  /** An unstarted handle has no instance yet. */
  const UNBUILT := Instance(None, map[], None)

  /** The task's durable row. */
  datatype Record = Record(status: Status, state: Option<State>, snapshot: Option<Envelope>, output: Option<Blob>)

  datatype RunError = Cancelled | Detached(next: Option<State>) | StoreError | HandlerError | NoSuchState | HarvestError

  /** Where the run loop stands between two critical sections or writes. */
  datatype PC =
    | Idle
    | Boundary(next: Option<State>)
    | SuspendedCheckpoint(to: State)
    | Parked(to: State)
    | Past(next: Option<State>)
    | RunningCheckpoint(to: State)
    | Entering(to: State)
    | InHandler(now: State)
    | MidCheckpoint(now: State, at: State)
    | Finishing(err: Option<RunError>)
    | Stamping(err: Option<RunError>, outcome: Status, result: Option<Blob>)
    | TearingDown(err: Option<RunError>)
    | Exited(err: Option<RunError>)

  /** One entry of a handler: in which run of the task, and what it returned, once it has. */
  datatype Entry = Entry(run: nat, state: State, returned: Option<Option<State>>)

  /** How a task handle starts: from the task's input, or from the record it was recovered with. */
  datatype Handle = FromInput(input: Blob) | FromRecord(record: Record)

  datatype Config = Config(
    handle: Handle,
    e: Engine,
    pc: PC,
    inst: Instance,
    record: Record,
    run: nat,
    trail: seq<Entry>,
    ran: map<Key, nat>,
    teardowns: nat)

  /** The workflow and its surroundings, fixed for the life of a task. */
  datatype Workflow = Workflow(
    initial: State,
    states: set<State>,
    build: Build,
    snapshots: bool,
    stores: bool,
    outputs: bool)

  datatype Action =
    | Start
    | Suspend | Resume | Detach | Kill | Seal | Unseal
    | TakeBoundary
    | WriteSuspended(ok: bool)
    | Wake
    | Proceed(harvest: Option<Blob>)
    | WriteRunning(ok: bool)
    | Enter
    | RunEffect(k: Key, v: Blob)
    | FailEffect(k: Key)
    | SetDurable(v: Blob)
    | AskCheckpoint
    | WriteMid(ok: bool)
    | Return(to: Option<State>)
    | Raise
    | Finish
    | Stamp(ok: bool)
    | TearDown
    | Crash
    | Recover

  // ---------------------------------------------------------------- control calls

  predicate Live(e: Engine) { (e.state == Running || e.state == Suspended) && !e.detachDone }

  function SuspendE(e: Engine): Engine {
    if !e.detachWanted && !e.detachDone && e.state == Running then e.(state := Suspended) else e
  }

  function ResumeE(e: Engine): Engine {
    if !e.detachWanted && !e.detachDone && e.state == Suspended then e.(state := Running) else e
  }

  /** Refused (unchanged) unless suspended; repeating it changes nothing. */
  function DetachE(e: Engine): Engine {
    if !e.detachWanted && !e.detachDone && e.state == Suspended then e.(detachWanted := true) else e
  }

  function KillE(e: Engine): Engine {
    if !e.detachDone && (e.state == NotStarted || e.state == Running || e.state == Suspended) then e.(state := Killed) else e
  }

  function SealE(e: Engine): Engine {
    if Live(e) then e else e.(isSealed := true)
  }

  function UnsealE(e: Engine): Engine { e.(isSealed := false) }

  predicate IsControl(a: Action) {
    a.Suspend? || a.Resume? || a.Detach? || a.Kill? || a.Seal? || a.Unseal?
  }

  function ControlE(e: Engine, a: Action): Engine
    requires IsControl(a)
  {
    match a
    case Suspend => SuspendE(e)
    case Resume => ResumeE(e)
    case Detach => DetachE(e)
    case Kill => KillE(e)
    case Seal => SealE(e)
    case Unseal => UnsealE(e)
  }

  // ---------------------------------------------------------------- starting

  /** The handle's run may begin: nothing refused it, and no run has begun on this engine. */
  predicate Startable(w: Workflow, c: Config) {
    && !c.e.isSealed
    && c.e.state == NotStarted
    && (c.handle.FromRecord? ==>
          c.handle.record.status != NotStarted && !Terminal(c.handle.record.status)
          && c.handle.record.snapshot.Some? && c.handle.record.state.Some?)
  }

  function StartC(w: Workflow, c: Config): Config {
    if !Startable(w, c) then c
    else
      match c.handle
      case FromInput(raw) =>
        c.(e := c.e.(state := Running), inst := Built(w.build, Some(raw)), pc := Boundary(Some(w.initial)), run := c.run + 1)
      case FromRecord(r) =>
        var env := r.snapshot.value;
        c.(e := c.e.(state := if r.status == Suspended then Suspended else Running),
           inst := Decode(env, Built(w.build, env.input)),
           pc := Boundary(Some(r.state.value)),
           run := c.run + 1)
  }

  // ---------------------------------------------------------------- checkpoints

  predicate Persists(w: Workflow) { w.snapshots && w.stores }

  /** A checkpoint write: a no-op where nothing snapshots or nothing stores, else it lands or fails. */
  function Checkpointed(w: Workflow, c: Config, status: Status, state: State, ok: bool): Config {
    if Persists(w) && ok then c.(record := c.record.(status := status, state := Some(state), snapshot := Some(Encode(c.inst))))
    else c
  }

  predicate Landed(w: Workflow, ok: bool) { !Persists(w) || ok }

  // ---------------------------------------------------------------- the run loop

  /** The decision at the end of a boundary's critical section: killed, detached, or on. */
  function Decide(c: Config, next: Option<State>): Config {
    if c.e.state == Killed then c.(pc := Finishing(Some(Cancelled)))
    else if c.e.state == Suspended && c.e.detachWanted then
      c.(e := c.e.(detachDone := true), pc := Finishing(Some(Detached(next))))
    else c.(pc := Past(next))
  }

  function TakeBoundaryC(c: Config, next: Option<State>): Config {
    var b := c.(e := c.e.(current := None));
    if next.Some? && b.e.state == Suspended then b.(pc := SuspendedCheckpoint(next.value)) else Decide(b, next)
  }

  function ProceedC(w: Workflow, c: Config, next: Option<State>, harvest: Option<Blob>): Config {
    if next.Some? then
      if next.value in w.states then c.(pc := RunningCheckpoint(next.value)) else c.(pc := Finishing(Some(NoSuchState)))
    else if !w.outputs then c.(pc := Finishing(None))
    else if harvest.Some? then c.(e := c.e.(output := harvest), pc := Finishing(None))
    else c.(pc := Finishing(Some(HarvestError)))
  }

  predicate IsLoop(a: Action) {
    a.TakeBoundary? || a.WriteSuspended? || a.Wake? || a.Proceed? || a.WriteRunning? || a.Enter?
  }

  function Loop(w: Workflow, c: Config, a: Action): Option<Config>
    requires IsLoop(a)
  {
    match a
    case TakeBoundary => if c.pc.Boundary? then Some(TakeBoundaryC(c, c.pc.next)) else None
    case WriteSuspended(ok) =>
      if c.pc.SuspendedCheckpoint? then
        Some(Checkpointed(w, c, Suspended, c.pc.to, ok).(pc := if Landed(w, ok) then Parked(c.pc.to) else Finishing(Some(StoreError))))
      else None
    case Wake =>
      if c.pc.Parked? && !(c.e.state == Suspended && !c.e.detachWanted) then Some(Decide(c, Some(c.pc.to))) else None
    case Proceed(harvest) => if c.pc.Past? then Some(ProceedC(w, c, c.pc.next, harvest)) else None
    case WriteRunning(ok) =>
      if c.pc.RunningCheckpoint? then
        Some(Checkpointed(w, c, Running, c.pc.to, ok).(pc := if Landed(w, ok) then Entering(c.pc.to) else Finishing(Some(StoreError))))
      else None
    case Enter =>
      if c.pc.Entering? then
        Some(c.(e := c.e.(current := Some(c.pc.to)), pc := InHandler(c.pc.to), trail := c.trail + [Entry(c.run, c.pc.to, None)]))
      else None
  }

  // ---------------------------------------------------------------- inside a handler

  function Times(ran: map<Key, nat>, k: Key): nat {
    if k in ran then ran[k] else 0
  }

  function Closed(trail: seq<Entry>, returned: Option<State>): seq<Entry> {
    if trail == [] then [] else trail[..|trail| - 1] + [trail[|trail| - 1].(returned := Some(returned))]
  }

  predicate IsHandler(a: Action) {
    a.RunEffect? || a.FailEffect? || a.SetDurable? || a.AskCheckpoint? || a.WriteMid? || a.Return? || a.Raise?
  }

  /** Effects only through Do: one already recorded is never run, so it is no action here. */
  function Handler(w: Workflow, c: Config, a: Action): Option<Config>
    requires IsHandler(a)
  {
    if a.WriteMid? then
      if c.pc.MidCheckpoint? then Some(Checkpointed(w, c, Running, c.pc.at, a.ok).(pc := InHandler(c.pc.now))) else None
    else if !c.pc.InHandler? then None
    else
      match a
      case RunEffect(k, v) =>
        if k in c.inst.effects then None
        else Some(c.(inst := c.inst.(effects := c.inst.effects[k := v]), ran := c.ran[k := Times(c.ran, k) + 1]))
      case FailEffect(k) => if k in c.inst.effects then None else Some(c)
      case SetDurable(v) => if c.inst.durable.Some? then Some(c.(inst := c.inst.(durable := Some(v)))) else None
      case AskCheckpoint =>
        if Live(c.e) && c.e.current.Some? then Some(c.(pc := MidCheckpoint(c.pc.now, c.e.current.value))) else Some(c)
      case Return(next) => Some(c.(pc := Boundary(next), trail := Closed(c.trail, next)))
      case Raise => Some(c.(pc := Finishing(Some(HandlerError))))
  }

  // ---------------------------------------------------------------- the way out

  predicate IsExit(a: Action) { a.Finish? || a.Stamp? || a.TearDown? }

  function FinishC(w: Workflow, c: Config, err: Option<RunError>): Config {
    if c.e.detachDone then c.(pc := TearingDown(err))
    else
      var outcome := if c.e.state == Killed then Killed else if err.Some? then Failed else Done;
      var d := c.(e := c.e.(state := outcome));
      d.(pc := if w.stores then Stamping(err, outcome, c.e.output) else TearingDown(err))
  }

  function Exit(w: Workflow, c: Config, a: Action): Option<Config>
    requires IsExit(a)
  {
    match a
    case Finish => if c.pc.Finishing? then Some(FinishC(w, c, c.pc.err)) else None
    case Stamp(ok) =>
      if c.pc.Stamping? then
        Some(c.(record := if ok then c.record.(status := c.pc.outcome, output := c.pc.result) else c.record,
                pc := TearingDown(c.pc.err)))
      else None
    case TearDown => if c.pc.TearingDown? then Some(c.(pc := Exited(c.pc.err), teardowns := c.teardowns + 1)) else None
  }

  // ---------------------------------------------------------------- steps and runs

  /** No run of this task is in flight, so a new handle may be taken. */
  predicate AtRest(c: Config) { c.pc.Idle? || c.pc.Exited? }

  /** A new handle over the record as it stands. */
  function Rehandled(c: Config): Config { HandleOver(c, c.record) }

  /** A new handle over a record, wherever and whenever that was read. */
  function HandleOver(c: Config, r: Record): Config {
    c.(e := UNSTARTED, pc := Idle, handle := FromRecord(r), inst := UNBUILT, teardowns := 0)
  }

  /** One step; None where the action cannot happen now. */
  function Step(w: Workflow, c: Config, a: Action): Option<Config> {
    if IsControl(a) then Some(c.(e := ControlE(c.e, a)))
    else if IsLoop(a) then Loop(w, c, a)
    else if IsHandler(a) then Handler(w, c, a)
    else if IsExit(a) then Exit(w, c, a)
    else if a.Start? then Some(StartC(w, c))
    else if a.Crash? || AtRest(c) then Some(Rehandled(c))
    else None
  }

  function After(w: Workflow, c: Config, a: Action): Config {
    if Step(w, c, a).Some? then Step(w, c, a).value else c
  }

  function Play(w: Workflow, c: Config, actions: seq<Action>): Config {
    if actions == [] then c else After(w, Play(w, c, actions[..|actions| - 1]), actions[|actions| - 1])
  }

  /** A task just created: an unstarted handle with input, and a record with no checkpoint. */
  function Created(input: Blob): Config {
    Config(FromInput(input), UNSTARTED, Idle, UNBUILT, Record(NotStarted, None, None, None), 0, [], map[], 0)
  }
}
