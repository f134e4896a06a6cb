/** The task manager's placements and deletions, over the engines of its tasks and the leasing
    managers of its resource kinds. Runs are never started through the manager, so between any two
    of its steps every engine may move on by itself. */
module TaskManager {
  import opened Wrappers
  import EM = EngineModel
  import ET = EngineTheorems
  import LM = LeasingModel
  import LI = LeasingInvariant
  import LA = LeasingAllocation
  import LO = LeasingOutcomes

  type Id = int
  type Kind = int
  type Body = int

  const GLOBAL_GROUP: Id := 1

  // ---------------------------------------------------------------- placement

  /** A stored assignment. An unset field inherits; one set to 0 is an explicit "none". */
  datatype Placement = Placement(group: Option<Id>, resource: Option<Id>)

  /** A resolved one, as a run is wired with it. */
  datatype Wired = Wired(group: Id, resource: Id)

  datatype Group = Group(id: Id, resourceGroups: map<Kind, Id>)

  /** A task's row: its placement and its checkpointed run. */
  datatype Row = Row(workflow: Id, group: Id, assignments: map<Kind, Placement>, run: EM.Record)

  const UNSET := Placement(None, None)
  const NOTHING := Wired(0, 0)

  function Own(assignments: map<Kind, Placement>, kind: Kind): Placement {
    if kind in assignments then assignments[kind] else UNSET
  }

  /** Reading a wired placement: a kind that is absent reads as nothing. */
  function At(wired: map<Kind, Wired>, kind: Kind): Wired {
    if kind in wired then wired[kind] else NOTHING
  }

  /** The resource group a task group gives its members, none when it names none. */
  function Inherited(g: Group, kind: Kind): Id {
    if kind in g.resourceGroups then g.resourceGroups[kind] else 0
  }

  function Resolve(own: Placement, g: Group, kind: Kind): Wired {
    Wired(if own.group.Some? then own.group.value else Inherited(g, kind),
          if own.resource.Some? then own.resource.value else 0)
  }

  function ResolvedAll(assignments: map<Kind, Placement>, g: Group): map<Kind, Wired> {
    map kind | kind in g.resourceGroups.Keys + assignments.Keys :: Resolve(Own(assignments, kind), g, kind)
  }

  /** Settling all kinds at once agrees with settling each, those nobody names included. */
  lemma ResolvedAllAgrees(assignments: map<Kind, Placement>, g: Group, kind: Kind)
    ensures At(ResolvedAll(assignments, g), kind) == Resolve(Own(assignments, kind), g, kind)
  {
  }

  /** The placement a kind is wired with: what the task's own row sets, even to none, and where it leaves
      the group unset the task group's; a resource left unset is no pin. */
  ghost predicate WiredTo(w: Wired, assignments: map<Kind, Placement>, resourceGroups: map<Kind, Id>, kind: Kind) {
    && w.group == (if kind in assignments && assignments[kind].group.Some? then assignments[kind].group.value
                   else if kind in resourceGroups then resourceGroups[kind] else 0)
    && w.resource == (if kind in assignments && assignments[kind].resource.Some? then assignments[kind].resource.value else 0)
  }

  /** One kind wired as just placed, every other as the row had it. */
  ghost predicate Repointed(wired: map<Kind, Wired>, assignments: map<Kind, Placement>, resourceGroups: map<Kind, Id>, kind: Kind, p: Placement) {
    && At(wired, kind).group == (match p.group case Some(g) => g case None => if kind in resourceGroups then resourceGroups[kind] else 0)
    && At(wired, kind).resource == (match p.resource case Some(r) => r case None => 0)
    && forall other :: other != kind ==> WiredTo(At(wired, other), assignments, resourceGroups, other)
  }

  /** Editing a task group's resource groups reaches, at their next wiring, exactly the members that
      leave the edited kind's group unset; a group set to none is set. */
  lemma GroupEditsReachExactlyHeirs(assignments: map<Kind, Placement>, g: Group, edited: Group, kind: Kind)
    ensures At(ResolvedAll(assignments, edited), kind) != At(ResolvedAll(assignments, g), kind)
            <==> Own(assignments, kind).group.None? && Inherited(edited, kind) != Inherited(g, kind)
  {
    ResolvedAllAgrees(assignments, g, kind);
    ResolvedAllAgrees(assignments, edited, kind);
  }

  function GroupOf(row: Row): Id { if row.group == 0 then GLOBAL_GROUP else row.group }

  function WithPlacement(row: Row, kind: Kind, p: Placement): Row {
    row.(assignments := row.assignments[kind := p])
  }

  ghost predicate Settled(wired: map<Kind, Wired>, assignments: map<Kind, Placement>, g: Group) {
    forall kind :: kind in wired ==> wired[kind] == Resolve(Own(assignments, kind), g, kind)
  }

  method Settle(kinds: set<Kind>, assignments: map<Kind, Placement>, g: Group, before: map<Kind, Wired>)
    returns (wired: map<Kind, Wired>)
    requires Settled(before, assignments, g)
    ensures Settled(wired, assignments, g) && wired.Keys == before.Keys + kinds
  {
    wired := before;
    var todo := kinds;
    while todo != {}
      invariant todo <= kinds && wired.Keys == before.Keys + (kinds - todo)
      invariant Settled(wired, assignments, g)
    {
      Inhabited(todo);
      var kind :| kind in todo;
      wired := wired[kind := Resolve(Own(assignments, kind), g, kind)];
      todo := todo - {kind};
    }
  }

  /** Settles every kind the group names, then every kind the task does. */
  method ResolveAll(assignments: map<Kind, Placement>, g: Group) returns (wired: map<Kind, Wired>)
    ensures wired == ResolvedAll(assignments, g)
    ensures forall kind :: At(wired, kind) == Resolve(Own(assignments, kind), g, kind)
    ensures forall kind :: WiredTo(At(wired, kind), assignments, g.resourceGroups, kind)
    ensures forall kind :: kind !in assignments && kind !in g.resourceGroups ==> kind !in wired && At(wired, kind) == NOTHING
  {
    wired := Settle(g.resourceGroups.Keys, assignments, g, map[]);
    wired := Settle(assignments.Keys, assignments, g, wired);
  }

  // ---------------------------------------------------------------- reassignment

  function Asked(task: Id, p: Wired): LM.Assignment { LM.Assignment(task, p.group, p.resource) }

  /** Reassigning is told to the leasing manager exactly as the next recovery will wire it, as long
      as the group is not edited in between; and from then on no pass under that placement meets a
      pin conflict, until the task locks again. */
  lemma ReassignedTaskLeases(fs: map<LM.Id, LM.Factory>, s: LM.System<Body>, task: Id, row: Row, g: Group, kind: Kind, p: Placement,
                             saved: bool, ops: seq<LM.Op<Body>>, lock: bool, answer: LM.Answer<Body>, landed: bool)
    requires LI.Inv(fs, s) && LM.ReleaseStaleLock(s, Asked(task, Resolve(p, g, kind)), saved).reply == LM.Done
    requires forall i :: 0 <= i < |ops| ==> !LA.LocksFor(ops[i], task)
    ensures
      var wired := At(ResolvedAll(WithPlacement(row, kind, p).assignments, g), kind);
      var n := LM.Run(fs, LM.ReleaseStaleLock(s, Asked(task, Resolve(p, g, kind)), saved).sys, ops);
      && wired == Resolve(p, g, kind) && WiredTo(wired, row.assignments[kind := p], g.resourceGroups, kind)
      && LM.Pass(n, LM.Placed(Asked(task, wired)), lock, answer, landed).reply != LM.Refused(LM.PinConflict)
  {
    ResolvedAllAgrees(WithPlacement(row, kind, p).assignments, g, kind);
    LA.ReassignmentEndsConflicts(fs, s, Asked(task, Resolve(p, g, kind)), saved, ops, lock, answer, landed);
  }

  /** And everything it is granted until then is where it was placed: its pin if it has one, in its group. */
  lemma ReassignedTaskFits(fs: map<LM.Id, LM.Factory>, s: LM.System<Body>, task: Id, row: Row, g: Group, kind: Kind, p: Placement,
                           saved: bool, ops: seq<LM.Op<Body>>, lock: bool, answer: LM.Answer<Body>, landed: bool)
    requires LI.Inv(fs, s) && task != LM.NO_ID && LM.ReleaseStaleLock(s, Asked(task, Resolve(p, g, kind)), saved).reply == LM.Done
    requires forall i :: 0 <= i < |ops| ==> !LA.LocksFor(ops[i], task)
    ensures
      var wired := At(ResolvedAll(WithPlacement(row, kind, p).assignments, g), kind);
      var n := LM.Run(fs, LM.ReleaseStaleLock(s, Asked(task, Resolve(p, g, kind)), saved).sys, ops);
      var reply := LM.Pass(n, LM.Assignment(task, LO.OrGlobal(wired.group), wired.resource), lock, answer, landed).reply;
      reply.Granted? ==>
        && reply.record.core.groupId == LO.OrGlobal(wired.group)
        && (p.resource.Some? && p.resource.value != 0 ==> reply.record.core.id == p.resource.value)
  {
    ResolvedAllAgrees(WithPlacement(row, kind, p).assignments, g, kind);
    LO.ReassignedGrantsFit(fs, s, Asked(task, Resolve(p, g, kind)), saved, ops, lock, answer, landed);
  }

  /** The other kinds stay as they were. */
  lemma OtherKindsStand(row: Row, g: Group, kind: Kind, other: Kind, p: Placement)
    requires other != kind
    ensures At(ResolvedAll(WithPlacement(row, kind, p).assignments, g), other) == At(ResolvedAll(row.assignments, g), other)
  {
  }

  // ---------------------------------------------------------------- engines moving on by themselves

  /** What an engine can become while the manager is not looking: only the manager seals or unseals. */
  predicate Evolves(e: EM.Engine, f: EM.Engine) {
    && f.isSealed == e.isSealed
    && (e.isSealed && !EM.Live(e) ==> !EM.Live(f))
    && (e.state != EM.NotStarted ==> f.state != EM.NotStarted)
    && (ET.Settled(e) ==> f.state == e.state && f.detachDone == e.detachDone)
  }

  predicate NotTheManagers(a: EM.Action) {
    !a.Seal? && !a.Unseal? && !a.Crash? && !a.Recover?
  }

  /** Every run of the transition system without the manager's own steps is such an evolution; in
      particular a sealed engine that is not live never starts. */
  lemma {:induction false} RunsEvolve(w: EM.Workflow, c: EM.Config, actions: seq<EM.Action>)
    requires ET.EngineOk(w, c)
    requires forall i :: 0 <= i < |actions| ==> NotTheManagers(actions[i])
    ensures Evolves(c.e, EM.Play(w, c, actions).e)
  {
    ET.OutcomesAreAbsorbing(w, c, actions);
    SealedSame(w, c, actions);
  }

  lemma {:induction false} SealedSame(w: EM.Workflow, c: EM.Config, actions: seq<EM.Action>)
    requires forall i :: 0 <= i < |actions| ==> NotTheManagers(actions[i])
    ensures EM.Play(w, c, actions).e.isSealed == c.e.isSealed
  {
    if actions != [] {
      SealedSame(w, c, actions[..|actions| - 1]);
      SealedStep(w, EM.Play(w, c, actions[..|actions| - 1]), actions[|actions| - 1]);
    }
  }

  lemma SealedStep(w: EM.Workflow, c: EM.Config, a: EM.Action)
    requires NotTheManagers(a)
    ensures EM.After(w, c, a).e.isSealed == c.e.isSealed
  {
  }

  // ---------------------------------------------------------------- handles, pools and rows

  /** A task as the registry holds it: the row it was rebuilt from, how it is wired, its engine. */
  class Handle {
    var e: EM.Engine
    const row: Row
    const wired: map<Kind, Wired>

    constructor (row: Row, wired: map<Kind, Wired>)
      ensures e == EM.UNSTARTED && this.row == row && this.wired == wired
    {
      this.e, this.row, this.wired := EM.UNSTARTED, row, wired;
    }

    method Seal() returns (ok: bool)
      modifies this
      ensures e == EM.SealE(old(e)) && (ok <==> !EM.Live(old(e)))
    {
      ok := !EM.Live(e);
      if ok { e := e.(isSealed := true); }
    }

    method Unseal()
      modifies this
      ensures e == EM.UnsealE(old(e))
    {
      e := e.(isSealed := false);
    }
  }

  /** An unlock of the task took a pool from `was` to `now`, and reported whether it succeeded. */
  ghost predicate Unlocks(was: LM.System<Body>, t: Id, saved: bool, now: LM.System<Body>, ok: bool) {
    now == LM.Unlock(was, t, saved).sys && (ok <==> LM.Unlock(was, t, saved).reply.Done?)
  }

  /** It succeeds exactly when the task is left with no lock there, and nobody gains one. */
  lemma UnlockFrees(was: LM.System<Body>, t: Id, saved: bool, now: LM.System<Body>, ok: bool)
    requires Unlocks(was, t, saved, now, ok)
    ensures ok <==> t !in now.mem.bindings
    ensures now.mem.bindings.Keys <= was.mem.bindings.Keys
  {
  }

  /** One resource kind's leasing manager, as far as the task manager calls it. */
  class Pool {
    const kind: Kind
    var sys: LM.System<Body>
    /** How many unlocks it has been asked for. */
    ghost var asked: nat

    constructor (kind: Kind, sys: LM.System<Body>)
      ensures this.kind == kind && this.sys == sys
    {
      this.kind, this.sys, asked := kind, sys, 0;
    }

    method Unlock(t: Id) returns (ok: bool, ghost saved: bool)
      modifies this
      ensures Unlocks(old(sys), t, saved, sys, ok) && asked == old(asked) + 1
    {
      var landed := *;
      saved, asked := landed, asked + 1;
      var step := LM.Unlock(sys, t, landed);
      sys := step.sys;
      ok := step.reply.Done?;
    }

    method ReleaseStaleLock(a: LM.Assignment) returns (ok: bool, ghost saved: bool)
      modifies this
      ensures sys == LM.ReleaseStaleLock(old(sys), a, saved).sys
      ensures ok <==> LM.ReleaseStaleLock(old(sys), a, saved).reply.Done?
      ensures asked == old(asked) + 1
    {
      var landed := *;
      saved, asked := landed, asked + 1;
      var step := LM.ReleaseStaleLock(sys, a, landed);
      sys := step.sys;
      ok := step.reply.Done?;
    }
  }

  class Repository {
    var rows: map<Id, Row>
    var groups: map<Id, Group>
    /** How many writes it has been asked for. */
    ghost var writes: nat

    constructor (rows: map<Id, Row>, groups: map<Id, Group>)
      ensures this.rows == rows && this.groups == groups
    {
      this.rows, this.groups, writes := rows, groups, 0;
    }

    /** Every task of the group, each once, or an error. */
    method TasksInGroup(g: Id) returns (ids: Option<seq<Id>>)
      ensures ids.Some? ==> Lists(ids.value, g)
    {
      var found: seq<Id> := [];
      var todo := rows.Keys;
      while todo != {}
        invariant todo <= rows.Keys
        invariant forall t :: t in found <==> t in rows.Keys - todo && rows[t].group == g
        invariant forall i, j :: 0 <= i < j < |found| ==> found[i] != found[j]
      {
        Inhabited(todo);
        var t :| t in todo;
        if rows[t].group == g { found := found + [t]; }
        todo := todo - {t};
      }
      var fails := *;
      ids := if fails then None else Some(found);
    }

    ghost predicate Lists(ids: seq<Id>, g: Id)
      reads this
    {
      && (forall t :: t in ids <==> t in rows && rows[t].group == g)
      && (forall i, j :: 0 <= i < j < |ids| ==> ids[i] != ids[j])
    }

    method Load(t: Id) returns (row: Option<Row>)
      ensures row.Some? ==> t in rows && row.value == rows[t]
    {
      var fails := *;
      row := if fails || t !in rows then None else Some(rows[t]);
    }

    method SaveAssignment(t: Id, kind: Kind, p: Placement) returns (ok: bool)
      requires t in rows
      modifies this`rows, this`writes
      ensures rows == if ok then old(rows)[t := WithPlacement(old(rows)[t], kind, p)] else old(rows)
      ensures writes == old(writes) + 1
    {
      ok, writes := *, writes + 1;
      if ok { rows := rows[t := WithPlacement(rows[t], kind, p)]; }
    }

    method DeleteTask(t: Id) returns (ok: bool)
      modifies this`rows, this`writes
      ensures rows == if ok then old(rows) - {t} else old(rows)
      ensures writes == old(writes) + 1
    {
      ok, writes := *, writes + 1;
      if ok { rows := rows - {t}; }
    }

    method DeleteGroup(g: Id) returns (ok: bool)
      modifies this`groups, this`writes
      ensures groups == if ok then old(groups) - {g} else old(groups)
      ensures writes == old(writes) + 1
    {
      ok, writes := *, writes + 1;
      if ok { groups := groups - {g}; }
    }
  }

  datatype Error =
    | GlobalProtected | NoGroup | NoWorkflow | BadKind | NotLoaded
    | Running(task: Id) | Locked(task: Id)
    | NotSaved | RowStays(task: Id) | GroupStays | StaleLockStays

  class Manager {
    const repo: Repository
    const pools: seq<Pool>
    var registry: map<Id, Handle>
    var groups: map<Id, Group>
    var workflows: set<Id>
    /** Every handle there has been; callers keep those the registry has dropped. */
    ghost var handles: set<Handle>

    ghost predicate Valid()
      reads this, repo
    {
      && (forall t :: t in registry ==> registry[t] in handles)
      && (forall s, t :: s in registry && t in registry && s != t ==> registry[s] != registry[t])
      && (forall i, j :: 0 <= i < j < |pools| ==> pools[i] != pools[j])
      && GLOBAL_GROUP in groups
      && (forall g :: g in repo.groups ==> g in groups && groups[g] == repo.groups[g])
      && (forall g :: g in groups && g != GLOBAL_GROUP ==> g in repo.groups)
    }

    constructor (repo: Repository, pools: seq<Pool>)
      requires forall i, j :: 0 <= i < j < |pools| ==> pools[i] != pools[j]
      ensures Valid() && this.repo == repo && this.pools == pools && registry == map[]
    {
      this.repo, this.pools, registry, handles, workflows := repo, pools, map[], {}, {};
      groups := map[GLOBAL_GROUP := Group(GLOBAL_GROUP, map[])] + repo.groups;
    }

    /** Sealed for deletion, and so out of every run from here on. */
    ghost predicate ShutOut(h: Handle)
      reads h
    {
      h.e.isSealed && !EM.Live(h.e)
    }

    /** No pool holds a durable lock for the task. */
    ghost predicate Freed(t: Id)
      reads pools
    {
      forall i :: 0 <= i < |pools| ==> t !in pools[i].sys.mem.bindings
    }

    /** What may happen while no step of the manager is under way: engines move on, and the leases
        and locks of running tasks come and go. A task in `quiet` has no run to take a lock with. */
    method Others(ghost quiet: set<Id>)
      requires Valid()
      modifies handles, pools
      ensures forall h :: h in handles ==> Evolves(old(h.e), h.e)
      ensures forall t :: t in quiet && old(Freed(t)) ==> Freed(t)
      ensures forall i :: 0 <= i < |pools| ==> pools[i].asked >= old(pools[i].asked)
    {
      var t: Id := *;
      if t in registry {
        var f: EM.Engine := *;
        if Evolves(registry[t].e, f) { registry[t].e := f; }
      }
      var i: nat, u: Id := *, *;
      if i < |pools| {
        var ok;
        ghost var saved;
        ok, saved := UnlockAt(i, u);
        UnlockFrees(old(pools[i].sys), u, saved, pools[i].sys, ok);
      }
    }

    // -------------------------------------------------------------- deleting one task

    method UnlockAt(i: nat, t: Id) returns (ok: bool, ghost saved: bool)
      requires Valid() && i < |pools|
      modifies pools
      ensures forall j :: 0 <= j < |pools| && j != i ==> pools[j].sys == old(pools[j].sys) && pools[j].asked == old(pools[j].asked)
      ensures pools[i].asked == old(pools[i].asked) + 1
      ensures Unlocks(old(pools[i].sys), t, saved, pools[i].sys, ok)
    {
      ok, saved := pools[i].Unlock(t);
    }

    /** Frees the task's lock of every kind, all of them tried even when one fails. */
    method ReleaseTask(t: Id) returns (ok: bool, ghost saved: seq<bool>, ghost freed: seq<bool>)
      requires Valid()
      modifies pools
      ensures |saved| == |freed| == |pools|
      ensures forall i :: 0 <= i < |pools| ==> Unlocks(old(pools[i].sys), t, saved[i], pools[i].sys, freed[i])
      ensures ok <==> forall i :: 0 <= i < |pools| ==> freed[i]
      ensures forall i :: 0 <= i < |pools| ==> pools[i].asked == old(pools[i].asked) + 1
    {
      ok, saved, freed := true, [], [];
      var i := 0;
      while i < |pools|
        invariant 0 <= i == |saved| == |freed| <= |pools|
        invariant forall j :: 0 <= j < i ==> Unlocks(old(pools[j].sys), t, saved[j], pools[j].sys, freed[j])
        invariant forall j :: i <= j < |pools| ==> pools[j].sys == old(pools[j].sys)
        invariant forall j :: 0 <= j < |pools| ==> pools[j].asked == old(pools[j].asked) + (if j < i then 1 else 0)
        invariant ok <==> forall j :: 0 <= j < i ==> freed[j]
      {
        var done;
        ghost var landed;
        done, landed := UnlockAt(i, t);
        saved, freed := saved + [landed], freed + [done];
        ok := ok && done;
        i := i + 1;
      }
    }

    /** The same, for whether the task still holds a lock. */
    method Free(t: Id) returns (ok: bool)
      requires Valid()
      modifies pools
      ensures ok <==> Freed(t)
      ensures forall u :: old(Freed(u)) ==> Freed(u)
      ensures forall i :: 0 <= i < |pools| ==> pools[i].asked == old(pools[i].asked) + 1
    {
      ghost var saved, freed;
      ok, saved, freed := ReleaseTask(t);
      forall i | 0 <= i < |pools|
        ensures freed[i] <==> t !in pools[i].sys.mem.bindings
        ensures pools[i].sys.mem.bindings.Keys <= old(pools[i].sys).mem.bindings.Keys
      {
        UnlockFrees(old(pools[i].sys), t, saved[i], pools[i].sys, freed[i]);
      }
    }

    /** Deletes one task: sealed, freed of every lock, then dropped from the registry and the store. */
    method DeleteTask(t: Id) returns (err: Option<Error>)
      requires Valid()
      modifies this`registry, repo`rows, repo`writes, handles, pools
      ensures Valid() && handles == old(handles)
      ensures t in old(registry) && EM.Live(old(registry[t].e)) <==> err == Some(Running(t))
      ensures err == Some(Running(t)) ==>
        && registry == old(registry) && repo.rows == old(repo.rows)
        && (forall h :: h in handles ==> h.e == old(h.e))
        && (forall i :: 0 <= i < |pools| ==> pools[i].sys == old(pools[i].sys))
      ensures err == Some(Locked(t)) ==>
        && registry == old(registry) && repo.rows == old(repo.rows)
        && (t in registry ==> !registry[t].e.isSealed) && !Freed(t)
      ensures err.None? || err == Some(RowStays(t)) ==>
        && registry == old(registry) - {t} && Freed(t)
        && repo.rows == (if err.None? then old(repo.rows) - {t} else old(repo.rows))
        && (t in old(registry) ==> ShutOut(old(registry)[t]))
      ensures err.None? || err.value in {Running(t), Locked(t), RowStays(t)}
      ensures err != Some(Running(t)) ==> forall i :: 0 <= i < |pools| ==> pools[i].asked > old(pools[i].asked)
      ensures err == Some(RowStays(t)) ==> repo.writes > old(repo.writes)
    {
      if t in registry {
        var sealed := registry[t].Seal();
        if !sealed { return Some(Running(t)); }
      }
      err := DeleteSealed(t);
    }

    method DeleteSealed(t: Id) returns (err: Option<Error>)
      requires Valid() && (t in registry ==> ShutOut(registry[t]))
      modifies this`registry, repo`rows, repo`writes, handles, pools
      ensures Valid() && handles == old(handles)
      ensures err == Some(Locked(t)) ==>
        && registry == old(registry) && repo.rows == old(repo.rows)
        && (t in registry ==> !registry[t].e.isSealed) && !Freed(t)
      ensures err.None? || err == Some(RowStays(t)) ==>
        && registry == old(registry) - {t} && Freed(t)
        && repo.rows == (if err.None? then old(repo.rows) - {t} else old(repo.rows))
        && (t in old(registry) ==> ShutOut(old(registry)[t]))
      ensures err.None? || err.value in {Locked(t), RowStays(t)}
      ensures forall i :: 0 <= i < |pools| ==> pools[i].asked > old(pools[i].asked)
      ensures err == Some(RowStays(t)) ==> repo.writes > old(repo.writes)
    {
      Others({});
      var ok := Free(t);
      if !ok {
        if t in registry { registry[t].Unseal(); }
        return Some(Locked(t));
      }
      var gone := Forget(t);
      err := if gone then None else Some(RowStays(t));
    }

    /** Drops a task from the registry, then from the store. */
    method Forget(t: Id) returns (gone: bool)
      requires Valid()
      modifies this`registry, repo`rows, repo`writes
      ensures Valid() && registry == old(registry) - {t}
      ensures repo.rows == if gone then old(repo.rows) - {t} else old(repo.rows)
      ensures repo.writes == old(repo.writes) + 1
    {
      registry := registry - {t};
      gone := repo.DeleteTask(t);
    }

    // -------------------------------------------------------------- deleting a group

    /** Seals every loaded member, stopping at the first that is live. */
    method SealAll(ids: seq<Id>) returns (running: Option<Id>, sealed: seq<Handle>)
      requires Valid()
      modifies handles, pools
      ensures forall i :: 0 <= i < |sealed| ==> sealed[i] in handles && ShutOut(sealed[i])
      ensures forall h :: h in handles && h !in sealed ==> h.e.isSealed == old(h.e.isSealed)
      ensures running.None? ==> forall t :: t in ids && t in registry ==> registry[t] in sealed
      ensures running.Some? ==> running.value in ids && running.value in registry && EM.Live(registry[running.value].e)
      ensures forall i :: 0 <= i < |pools| ==> pools[i].asked >= old(pools[i].asked)
    {
      sealed := [];
      var i := 0;
      while i < |ids|
        invariant 0 <= i <= |ids| && Valid()
        invariant forall j :: 0 <= j < |pools| ==> pools[j].asked >= old(pools[j].asked)
        invariant forall j :: 0 <= j < |sealed| ==> sealed[j] in handles && ShutOut(sealed[j])
        invariant forall h :: h in handles && h !in sealed ==> h.e.isSealed == old(h.e.isSealed)
        invariant forall j :: 0 <= j < i && ids[j] in registry ==> registry[ids[j]] in sealed
      {
        Others({});
        assert forall t :: t in registry ==> registry[t] in handles;
        if ids[i] in registry {
          var h := registry[ids[i]];
          var ok := h.Seal();
          if !ok { return Some(ids[i]), sealed; }
          sealed := sealed + [h];
        }
        i := i + 1;
      }
      running := None;
    }

    method UnsealAll(sealed: seq<Handle>)
      requires Valid() && forall i :: 0 <= i < |sealed| ==> sealed[i] in handles
      modifies handles
      ensures forall i :: 0 <= i < |sealed| ==> !sealed[i].e.isSealed
      ensures forall h :: h in handles && h !in sealed ==> h.e == old(h.e)
    {
      var i := 0;
      while i < |sealed|
        invariant 0 <= i <= |sealed|
        invariant forall j :: 0 <= j < i ==> !sealed[j].e.isSealed
        invariant forall h :: h in handles && h !in sealed ==> h.e == old(h.e)
      {
        sealed[i].Unseal();
        i := i + 1;
      }
    }

    /** One member's turn, whatever happens before it. */
    method FreeNext(t: Id, ghost quiet: set<Id>) returns (ok: bool)
      requires Valid()
      modifies handles, pools
      ensures ok <==> Freed(t)
      ensures forall h :: h in handles ==> h.e.isSealed == old(h.e.isSealed) && (old(ShutOut(h)) ==> ShutOut(h))
      ensures forall u :: u in quiet && old(Freed(u)) ==> Freed(u)
      ensures forall i :: 0 <= i < |pools| ==> pools[i].asked > old(pools[i].asked)
    {
      Others(quiet);
      ok := Free(t);
    }

    /** Frees every member's locks, stopping at the first member one of whose locks stays. */
    method ReleaseAll(ids: seq<Id>) returns (stuck: Option<Id>)
      requires Valid()
      modifies handles, pools
      ensures forall h :: h in handles ==> h.e.isSealed == old(h.e.isSealed) && (old(ShutOut(h)) ==> ShutOut(h))
      ensures stuck.None? ==> forall t :: t in ids ==> Freed(t)
      ensures stuck.Some? ==> stuck.value in ids && !Freed(stuck.value)
      ensures forall i :: 0 <= i < |pools| ==> pools[i].asked >= old(pools[i].asked)
      ensures stuck.Some? ==> forall i :: 0 <= i < |pools| ==> pools[i].asked > old(pools[i].asked)
    {
      var i := 0;
      while i < |ids|
        invariant 0 <= i <= |ids|
        invariant forall h :: h in handles ==> h.e.isSealed == old(h.e.isSealed) && (old(ShutOut(h)) ==> ShutOut(h))
        invariant forall t :: t in ids[..i] ==> Freed(t)
        invariant forall j :: 0 <= j < |pools| ==> pools[j].asked >= old(pools[j].asked)
      {
        var ok := FreeNext(ids[i], set t | t in ids);
        if !ok { return Some(ids[i]); }
        assert ids[..i + 1] == ids[..i] + [ids[i]];
        i := i + 1;
      }
      assert ids[..i] == ids;
      stuck := None;
    }

    method Drop(t: Id, ghost quiet: set<Id>) returns (ok: bool)
      requires Valid()
      modifies this`registry, repo`rows, repo`writes, handles, pools
      ensures Valid() && registry == old(registry) - {t} && repo.rows == (if ok then old(repo.rows) - {t} else old(repo.rows))
      ensures forall h :: h in handles ==> h.e.isSealed == old(h.e.isSealed) && (old(ShutOut(h)) ==> ShutOut(h))
      ensures forall u :: u in quiet && old(Freed(u)) ==> Freed(u)
      ensures repo.writes == old(repo.writes) + 1
      ensures forall i :: 0 <= i < |pools| ==> pools[i].asked >= old(pools[i].asked)
    {
      Others(quiet);
      ok := Forget(t);
    }

    /** Drops the members one by one, each from the registry before the store. */
    method DropAll(ids: seq<Id>) returns (stays: Option<Id>, ghost gone: nat)
      requires Valid() && forall t :: t in ids ==> Freed(t)
      modifies this`registry, repo`rows, repo`writes, handles, pools
      ensures Valid() && handles == old(handles) && gone <= |ids|
      ensures forall h :: h in handles ==> h.e.isSealed == old(h.e.isSealed) && (old(ShutOut(h)) ==> ShutOut(h))
      ensures forall t :: t in ids ==> Freed(t)
      ensures repo.rows == old(repo.rows) - Firsts(ids, gone)
      ensures stays.None? ==> gone == |ids| && registry == old(registry) - Firsts(ids, gone)
      ensures stays.Some? ==> gone < |ids| && stays.value == ids[gone] && registry == old(registry) - Firsts(ids, gone + 1)
      ensures repo.writes == old(repo.writes) + gone + (if stays.Some? then 1 else 0)
      ensures forall i :: 0 <= i < |pools| ==> pools[i].asked >= old(pools[i].asked)
    {
      var i := 0;
      while i < |ids|
        invariant 0 <= i <= |ids| && Valid() && handles == old(handles) && repo.writes == old(repo.writes) + i
        invariant forall j :: 0 <= j < |pools| ==> pools[j].asked >= old(pools[j].asked)
        invariant forall h :: h in handles ==> h.e.isSealed == old(h.e.isSealed) && (old(ShutOut(h)) ==> ShutOut(h))
        invariant forall t :: t in ids ==> Freed(t)
        invariant repo.rows == old(repo.rows) - Firsts(ids, i) && registry == old(registry) - Firsts(ids, i)
      {
        assert Firsts(ids, i + 1) == Firsts(ids, i) + {ids[i]};
        var ok := Drop(ids[i], set t | t in ids);
        if !ok { return Some(ids[i]), i; }
        i := i + 1;
      }
      return None, i;
    }

    /** Deletes a group and every task in it: all members sealed, then all freed of every lock, and
        only then any of them deleted. Anything that goes wrong before that leaves every record,
        the registry and the group whole, and reopens every member sealed on the way. From then on
        a failed delete leaves exactly the members before it gone, and the rest sealed. */
    method DeleteGroup(g: Id) returns (err: Option<Error>, ghost ids: seq<Id>, ghost gone: nat)
      requires Valid()
      modifies this`registry, this`groups, repo, handles, pools
      ensures Valid() && handles == old(handles)
      ensures Abandoned(err) ==>
        && registry == old(registry) && groups == old(groups)
        && repo.rows == old(repo.rows) && repo.groups == old(repo.groups)
        && forall h :: h in handles && h.e.isSealed ==> old(h.e.isSealed)
      ensures !Abandoned(err) ==>
        && g != GLOBAL_GROUP && g in old(groups) && old(repo.Lists(ids, g)) && gone <= |ids|
        && (forall t :: t in ids ==> Freed(t))
        && (forall t :: t in ids && t in old(registry) ==> ShutOut(old(registry)[t]))
        && repo.rows == old(repo.rows) - Firsts(ids, gone)
      ensures err.None? ==>
        && gone == |ids| && registry == old(registry) - Firsts(ids, gone)
        && groups == old(groups) - {g} && repo.groups == old(repo.groups) - {g}
      ensures err.Some? ==> groups == old(groups) && repo.groups == old(repo.groups)
      ensures err.Some? && err.value.RowStays? ==>
        gone < |ids| && err.value.task == ids[gone] && registry == old(registry) - Firsts(ids, gone + 1)
      ensures err == Some(GroupStays) ==> gone == |ids| && registry == old(registry) - Firsts(ids, gone)
      ensures err == Some(GlobalProtected) <==> g == GLOBAL_GROUP
      ensures err == Some(NoGroup) <==> g != GLOBAL_GROUP && g !in old(groups)
      ensures err.Some? && err.value.Running? ==>
        && err.value.task in old(repo.rows) && old(repo.rows)[err.value.task].group == g
        && err.value.task in registry && EM.Live(registry[err.value.task].e)
      ensures err.Some? && err.value.Locked? ==>
        err.value.task in old(repo.rows) && old(repo.rows)[err.value.task].group == g && !Freed(err.value.task)
      ensures err.Some? && err.value.Locked? ==> forall i :: 0 <= i < |pools| ==> pools[i].asked > old(pools[i].asked)
      ensures err.Some? && (err.value.RowStays? || err.value.GroupStays?) ==> repo.writes == old(repo.writes) + gone + 1
    {
      ids, gone := [], 0;
      if g == GLOBAL_GROUP { return Some(GlobalProtected), [], 0; }
      if g !in groups { return Some(NoGroup), [], 0; }
      var listed := repo.TasksInGroup(g);
      if listed.None? { return Some(NotLoaded), [], 0; }
      ids := listed.value;
      err, gone := DeleteListed(g, listed.value);
    }

    /** The members, and then the group's own row. */
    method DeleteListed(g: Id, ids: seq<Id>) returns (err: Option<Error>, ghost gone: nat)
      requires Valid() && g != GLOBAL_GROUP && g in groups
      modifies this`registry, this`groups, repo, handles, pools
      ensures Valid() && handles == old(handles) && gone <= |ids|
      ensures err.None? || err.value.Running? || err.value.Locked? || err.value.RowStays? || err.value.GroupStays?
      ensures Abandoned(err) ==>
        && registry == old(registry) && repo.rows == old(repo.rows) && err.value.task in ids
        && (err.value.Running? ==> err.value.task in registry && EM.Live(registry[err.value.task].e))
        && (err.value.Locked? ==> !Freed(err.value.task))
        && forall h :: h in handles && h.e.isSealed ==> old(h.e.isSealed)
      ensures !Abandoned(err) ==>
        && (forall t :: t in ids ==> Freed(t))
        && (forall t :: t in ids && t in old(registry) ==> ShutOut(old(registry)[t]))
        && repo.rows == old(repo.rows) - Firsts(ids, gone)
      ensures err.Some? ==> groups == old(groups) && repo.groups == old(repo.groups)
      ensures err.None? ==> groups == old(groups) - {g} && repo.groups == old(repo.groups) - {g}
      ensures err.None? || err.value.GroupStays? ==> gone == |ids| && registry == old(registry) - Firsts(ids, gone)
      ensures err.Some? && err.value.RowStays? ==>
        gone < |ids| && err.value.task == ids[gone] && registry == old(registry) - Firsts(ids, gone + 1)
      ensures err.Some? && err.value.Locked? ==> forall i :: 0 <= i < |pools| ==> pools[i].asked > old(pools[i].asked)
      ensures err.Some? && (err.value.RowStays? || err.value.GroupStays?) ==> repo.writes == old(repo.writes) + gone + 1
    {
      err, gone := Sweep(ids);
      if err.Some? { return; }
      var ok := repo.DeleteGroup(g);
      if !ok { return Some(GroupStays), gone; }
      groups := groups - {g};
    }

    /** The members of a group, all or none up to the first deletion. */
    method Sweep(ids: seq<Id>) returns (err: Option<Error>, ghost gone: nat)
      requires Valid()
      modifies this`registry, repo`rows, repo`writes, handles, pools
      ensures Valid() && handles == old(handles) && gone <= |ids|
      ensures err.None? || err.value.Running? || err.value.Locked? || err.value.RowStays?
      ensures Abandoned(err) ==>
        && registry == old(registry) && repo.rows == old(repo.rows) && err.value.task in ids
        && (err.value.Running? ==> err.value.task in registry && EM.Live(registry[err.value.task].e))
        && (err.value.Locked? ==> !Freed(err.value.task))
        && forall h :: h in handles && h.e.isSealed ==> old(h.e.isSealed)
      ensures !Abandoned(err) ==>
        && (forall t :: t in ids ==> Freed(t))
        && (forall t :: t in ids && t in old(registry) ==> ShutOut(old(registry)[t]))
        && repo.rows == old(repo.rows) - Firsts(ids, gone)
      ensures err.None? ==> gone == |ids| && registry == old(registry) - Firsts(ids, gone)
      ensures err.Some? && err.value.RowStays? ==>
        gone < |ids| && err.value.task == ids[gone] && registry == old(registry) - Firsts(ids, gone + 1)
      ensures err.Some? && err.value.Locked? ==> forall i :: 0 <= i < |pools| ==> pools[i].asked > old(pools[i].asked)
      ensures repo.writes == old(repo.writes) + gone + (if err.Some? && err.value.RowStays? then 1 else 0)
    {
      var running, sealed := SealAll(ids);
      if running.Some? {
        UnsealAll(sealed);
        return Some(Running(running.value)), 0;
      }
      var stuck := ReleaseAll(ids);
      if stuck.Some? {
        UnsealAll(sealed);
        return Some(Locked(stuck.value)), 0;
      }
      var stays;
      stays, gone := DropAll(ids);
      err := if stays.Some? then Some(RowStays(stays.value)) else None;
    }

    // -------------------------------------------------------------- reassigning

    method ManagerFor(kind: Kind) returns (i: Option<nat>)
      ensures i.Some? ==> i.value < |pools| && pools[i.value].kind == kind && forall j :: 0 <= j < i.value ==> pools[j].kind != kind
      ensures i.None? ==> forall j :: 0 <= j < |pools| ==> pools[j].kind != kind
    {
      var n := 0;
      while n < |pools|
        invariant 0 <= n <= |pools|
        invariant forall j :: 0 <= j < n ==> pools[j].kind != kind
      {
        if pools[n].kind == kind { return Some(n); }
        n := n + 1;
      }
      i := None;
    }

    /** Repoints one kind: the record first, then the stale lock, if the new placement leaves one. */
    method AssignResource(t: Id, kind: Kind, valid: bool, p: Placement) returns (err: Option<Error>, ghost freed: Option<nat>, ghost saved: bool)
      requires Valid()
      modifies repo`rows, repo`writes, pools
      ensures Valid()
      ensures err.Some? && err != Some(StaleLockStays) ==>
        repo.rows == old(repo.rows) && forall i :: 0 <= i < |pools| ==> pools[i].sys == old(pools[i].sys)
      ensures err.None? || err == Some(StaleLockStays) ==>
        && valid && t in old(repo.rows) && GroupOf(old(repo.rows)[t]) in groups
        && repo.rows == old(repo.rows)[t := WithPlacement(old(repo.rows)[t], kind, p)]
        && (freed.None? ==> err.None? && forall i :: 0 <= i < |pools| ==> pools[i].kind != kind)
        && (freed.Some? ==>
              && freed.value < |pools| && pools[freed.value].kind == kind
              && var step := LM.ReleaseStaleLock(old(pools[freed.value].sys),
                                                 Asked(t, Resolve(p, groups[GroupOf(old(repo.rows)[t])], kind)), saved);
              pools[freed.value].sys == step.sys && (err.None? <==> step.reply.Done?))
        && (forall i :: 0 <= i < |pools| && Some(i) != freed ==> pools[i].sys == old(pools[i].sys))
      ensures err.None? && freed.Some? && p.resource.Some? && p.resource.value != 0 ==>
        && freed.value < |pools|
        && var was, now := old(pools[freed.value].sys).mem, pools[freed.value].sys.mem;
           LI.PoolOk(was.pool, was.groups.Keys) && LI.BindingsOk(was.pool, was.bindings) && t in now.bindings ==>
             t in was.bindings && was.bindings[t] == p.resource.value && now.bindings[t] == p.resource.value
      ensures err == Some(NotSaved) ==> repo.writes > old(repo.writes)
      ensures err == Some(StaleLockStays) ==> freed.Some? && freed.value < |pools| && pools[freed.value].asked > old(pools[freed.value].asked)
    {
      freed, saved := None, false;
      if !valid { return Some(BadKind), None, false; }
      var row := repo.Load(t);
      if row.None? { return Some(NotLoaded), None, false; }
      if GroupOf(row.value) !in groups { return Some(NoGroup), None, false; }
      var ok := repo.SaveAssignment(t, kind, p);
      if !ok { return Some(NotSaved), None, false; }
      var i := ManagerFor(kind);
      if i.None? { return None, None, false; }
      freed := i;
      ok, saved := pools[i.value].ReleaseStaleLock(Asked(t, Resolve(p, groups[GroupOf(row.value)], kind)));
      err := if ok then None else Some(StaleLockStays);
    }

    // -------------------------------------------------------------- recovering

    /** A handle rebuilt from its row: unstarted, and wired as every kind resolves. */
    ghost predicate Rebuilt(h: Handle, row: Row)
      reads this, h
    {
      && GroupOf(row) in groups && row.workflow in workflows
      && h.e == EM.UNSTARTED && h.row == row
      && forall kind :: WiredTo(At(h.wired, kind), row.assignments, groups[GroupOf(row)].resourceGroups, kind)
    }

    method Rehydrate(row: Row) returns (h: Handle?, err: Option<Error>)
      ensures err.None? ==> h != null && fresh(h) && Rebuilt(h, row)
      ensures err == (if GroupOf(row) !in groups then Some(NoGroup) else if row.workflow !in workflows then Some(NoWorkflow) else None)
    {
      if GroupOf(row) !in groups { return null, Some(NoGroup); }
      if row.workflow !in workflows { return null, Some(NoWorkflow); }
      var wired := ResolveAll(row.assignments, groups[GroupOf(row)]);
      h := new Handle(row, wired);
      err := None;
    }

    method Register(t: Id, row: Row) returns (h: Handle?, err: Option<Error>)
      requires Valid()
      modifies this`registry, this`handles
      ensures Valid()
      ensures err.None? ==> h != null && fresh(h) && Rebuilt(h, row) && registry == old(registry)[t := h]
      ensures err.Some? ==> registry == old(registry)
    {
      h, err := Rehydrate(row);
      if err.None? {
        registry := registry[t := h];
        handles := handles + {h};
      }
    }

    /** The live handle if the task is running; otherwise a new one over the row as stored. */
    method RecoverTask(t: Id) returns (h: Handle?, err: Option<Error>)
      requires Valid()
      modifies this`registry, this`handles
      ensures Valid()
      ensures t in old(registry) && EM.Live(old(registry[t].e)) ==>
        err.None? && h == old(registry[t]) && registry == old(registry)
      ensures !(t in old(registry) && EM.Live(old(registry[t].e))) && err.None? ==>
        && t in repo.rows && h != null && fresh(h) && Rebuilt(h, repo.rows[t])
        && registry == old(registry)[t := h]
      ensures err.Some? ==> registry == old(registry)
    {
      if t in registry && EM.Live(registry[t].e) { return registry[t], None; }
      var row := repo.Load(t);
      if row.None? { return null, Some(NotLoaded); }
      h, err := Register(t, row.value);
    }

    /** Repointing one kind and recovering the task: unless it is running, its new handle is wired for that
        kind as repointed, and for every other kind as before. */
    method AssignThenRecover(t: Id, kind: Kind, valid: bool, p: Placement) returns (h: Handle?, err: Option<Error>)
      requires Valid()
      modifies repo`rows, repo`writes, pools, this`registry, this`handles
      ensures Valid()
      ensures err.None? && !(t in old(registry) && EM.Live(old(registry[t].e))) ==>
        && h != null && fresh(h) && t in old(repo.rows)
        && var gid := if old(repo.rows)[t].group == 0 then GLOBAL_GROUP else old(repo.rows)[t].group;
           gid in groups && Repointed(h.wired, old(repo.rows)[t].assignments, groups[gid].resourceGroups, kind, p)
    {
      var stale, _, _ := AssignResource(t, kind, valid, p);
      if stale.Some? { return null, stale; }
      h, err := RecoverTask(t);
      if err.None? && !(t in old(registry) && EM.Live(old(registry[t].e))) {
        assert WiredTo(At(h.wired, kind), repo.rows[t].assignments, groups[GroupOf(repo.rows[t])].resourceGroups, kind);
        forall other | other != kind
          ensures WiredTo(At(h.wired, other), old(repo.rows)[t].assignments, groups[GroupOf(repo.rows[t])].resourceGroups, other)
        {
          assert WiredTo(At(h.wired, other), repo.rows[t].assignments, groups[GroupOf(repo.rows[t])].resourceGroups, other);
        }
      }
    }

    /** Every stored task: live ones keep their handle, the others get a new one. A row that cannot
        be rehydrated stops the sweep, with what it recovered so far in place. */
    method RecoverAll() returns (err: Option<Error>)
      requires Valid()
      modifies this`registry, this`handles
      ensures Valid()
      ensures forall t :: t in registry ==> Current(t, old(registry), repo.rows)
      ensures forall t :: t in old(registry) ==> t in registry
      ensures err.None? ==>
        && registry.Keys == old(registry).Keys + repo.rows.Keys
        && forall t :: t in repo.rows ==> EM.Live(registry[t].e) || Rebuilt(registry[t], repo.rows[t])
    {
      var fails := *;
      if fails { return Some(NotLoaded); }
      var todo := repo.rows.Keys;
      while todo != {}
        invariant todo <= repo.rows.Keys && Valid()
        invariant forall t :: t in registry ==> Current(t, old(registry), repo.rows)
        invariant registry.Keys == old(registry).Keys + (repo.rows.Keys - todo)
        invariant forall t :: t in repo.rows.Keys - todo ==> EM.Live(registry[t].e) || Rebuilt(registry[t], repo.rows[t])
        invariant forall t :: t in todo && t in registry ==> t in old(registry) && registry[t] == old(registry)[t]
      {
        Inhabited(todo);
        var t :| t in todo;
        if !(t in registry && EM.Live(registry[t].e)) {
          var _, refused := Register(t, repo.rows[t]);
          if refused.Some? { return refused; }
        }
        todo := todo - {t};
      }
      err := None;
    }

    /** A registered handle is one that was there, or a new one over the task's row. */
    twostate predicate Current(t: Id, was: map<Id, Handle>, rows: map<Id, Row>)
      requires t in registry
      reads this, registry[t]
    {
      (t in was && registry[t] == was[t]) || (fresh(registry[t]) && t in rows && Rebuilt(registry[t], rows[t]))
    }
  }

  /** The first n of the ids. */
  ghost function Firsts(ids: seq<Id>, n: nat): set<Id>
    requires n <= |ids|
  {
    set t | t in ids[..n]
  }

  predicate Abandoned(err: Option<Error>) {
    err.Some? && (err.value.GlobalProtected? || err.value.NoGroup? || err.value.NotLoaded? || err.value.Running? || err.value.Locked?)
  }
}
