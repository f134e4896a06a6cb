/** The leasing manager on values: what it keeps in memory, what its repository
    keeps, and one function per critical section. The outcome of a store write
    and the answer of a consumer's strategy are inputs, so every function is
    total over a store that may fail any write and a strategy that may return
    anything at all. */
module LeasingModel {
  import opened Wrappers

  /** Identifiers and names, compared but never taken apart; NO_ID is the empty string. */
  type Id = int

  const NO_ID: Id := 0
  const GLOBAL_GROUP: Id := 1
  const ROUND_ROBIN: Id := 1
  const UNLIMITED_HOLDERS := -1

  /** The leasing core of one record; `ownerId` is NO_ID while it rotates. */
  datatype Resource = Resource(id: Id, groupId: Id, ownerId: Id, maxHolders: int)

  /** A consumer's model: the embedded core and the fields this package never reads. */
  datatype Record<X> = Record(core: Resource, body: X)

  datatype Group = Group(id: Id, strategy: Id, refs: map<string, string>)

  datatype Assignment = Assignment(taskId: Id, groupId: Id, resourceId: Id)

  /** What a registered strategy name builds: the built-in rotation or a consumer's own. */
  datatype Factory = BuiltIn | Registered

  /** One group's strategy instance. A consumer's own keeps only how often it was asked. */
  datatype Selection = RoundRobin(next: nat) | Custom(asked: nat)

  /** What a consumer's strategy answers this time: an error, or any record whatsoever. */
  datatype Answer<X> = Pick(record: Record<X>) | Decline

  datatype Error =
    | TaskIdRequired
    | ResourceIdRequired
    | GroupIdRequired
    | DuplicateGroup
    | DuplicateResource
    | UnknownStrategy
    | InvalidHolderPolicy
    | AddedLocked
    | GlobalGroupProtected
    | NotPooled
    | NoResources
    | GroupNotFound
    | GroupInUse
    | ResourceInUse
    | ResourceNotFound
    | ResourceNotInGroup
    | ResourceLocked
    | PinConflict
    | SelectionFailed
    | StrayPick
    | LockedTwice
    | StoreFailed
    | Cancelled

  datatype Memory<X> = Memory(
    groups: map<Id, Group>,
    strategies: map<Id, Selection>,
    pool: map<Id, Record<X>>,
    order: seq<Id>,
    holders: map<Id, map<Id, nat>>,
    bindings: map<Id, Id>)

  datatype Store<X> = Store(rows: map<Id, Record<X>>, groups: map<Id, Group>)

  /** `live` has one (resource, task) per lease handed out and not yet released. */
  datatype System<X> = System(mem: Memory<X>, store: Store<X>, live: multiset<(Id, Id)>)

  datatype Reply<X> =
    | Done
    | Unbound(tasks: seq<Id>)
    | Cascaded(unbound: seq<Id>, failure: Option<Error>)
    | Granted(record: Record<X>, group: Group)
    | Parked
    | Refused(error: Error)

  /** The system after one critical section, what the caller sees, and whether waiters were woken. */
  datatype Step<X> = Step(sys: System<X>, reply: Reply<X>, broadcast: bool)

  // ---------------------------------------------------------------- small reads

  function StrategyName(g: Group): Id {
    if g.strategy == NO_ID then ROUND_ROBIN else g.strategy
  }

  function Fresh(f: Factory): Selection {
    if f.BuiltIn? then RoundRobin(0) else Custom(0)
  }

  function EffectiveCap(c: Resource): int {
    if c.maxHolders != 0 then c.maxHolders else 1
  }

  predicate ValidPolicy(n: int) { UNLIMITED_HOLDERS <= n }

  function InGlobal<X>(p: Record<X>): Record<X> {
    if p.core.groupId == NO_ID then p.(core := p.core.(groupId := GLOBAL_GROUP)) else p
  }

  function Placed(a: Assignment): Assignment {
    if a.groupId == NO_ID then a.(groupId := GLOBAL_GROUP) else a
  }

  function Holding(holders: map<Id, map<Id, nat>>, r: Id, t: Id): nat {
    if r in holders && t in holders[r] then holders[r][t] else 0
  }

  /** The sum of a holder table's counts, whatever order it is walked in. */
  ghost function Total(m: map<Id, nat>): nat {
    if m == map[] then 0
    else
      InhabitedMap(m);
      var t :| t in m;
      m[t] + Total(m - {t})
  }

  lemma {:induction false} TotalPick(m: map<Id, nat>, t: Id)
    requires t in m
    ensures Total(m) == m[t] + Total(m - {t})
    decreases |m|
  {
    var u :| u in m && Total(m) == m[u] + Total(m - {u});
    if u != t {
      TotalPick(m - {u}, t);
      TotalPick(m - {t}, u);
      assert m - {u} - {t} == m - {t} - {u};
    }
  }

  /** The live leases on a resource across every holder: what its cap is measured against. */
  ghost function HeldCount(holders: map<Id, map<Id, nat>>, r: Id): nat {
    if r in holders then Total(holders[r]) else 0
  }

  ghost predicate UnderCap<X>(m: Memory<X>, id: Id)
    requires id in m.pool
  {
    var cap := EffectiveCap(m.pool[id].core);
    cap == UNLIMITED_HOLDERS || HeldCount(m.holders, id) < cap
  }

  // ---------------------------------------------------------------- primitive updates

  function Hold(holders: map<Id, map<Id, nat>>, r: Id, t: Id): map<Id, map<Id, nat>> {
    var table := if r in holders then holders[r] else map[];
    holders[r := table[t := Holding(holders, r, t) + 1]]
  }

  function Unhold(holders: map<Id, map<Id, nat>>, r: Id, t: Id): map<Id, map<Id, nat>> {
    if r !in holders then holders
    else
      var n := Holding(holders, r, t);
      var table := if n > 1 then holders[r][t := n - 1] else holders[r] - {t};
      if table == map[] then holders - {r} else holders[r := table]
  }

  /** The list with the first occurrence of `id` cut out. */
  function Without(order: seq<Id>, id: Id): seq<Id> {
    if order == [] then []
    else if order[0] == id then order[1..]
    else [order[0]] + Without(order[1..], id)
  }

  function Members<X>(m: Memory<X>, order: seq<Id>, groupId: Id): seq<Id> {
    if order == [] then []
    else
      var rest := Members(m, order[..|order| - 1], groupId);
      var id := order[|order| - 1];
      if id in m.pool && m.pool[id].core.groupId == groupId then rest + [id] else rest
  }

  function MembersOf<X>(m: Memory<X>, groupId: Id): seq<Id> {
    Members(m, m.order, groupId)
  }

  function WithOwner<X>(p: Record<X>, owner: Id): Record<X> {
    p.(core := p.core.(ownerId := owner))
  }

  // ---------------------------------------------------------------- groups

  function ValidateGroup(fs: map<Id, Factory>, g: Group): (e: Option<Error>) {
    if g.id == NO_ID then Some(GroupIdRequired)
    else if StrategyName(g) !in fs then Some(UnknownStrategy)
    else None
  }

  function CreateGroup<X>(fs: map<Id, Factory>, s: System<X>, g: Group, saved: bool): Step<X> {
    if g.id in s.mem.groups then Step(s, Refused(DuplicateGroup), false)
    else if ValidateGroup(fs, g).Some? then Step(s, Refused(ValidateGroup(fs, g).value), false)
    else if !saved then Step(s, Refused(StoreFailed), false)
    else
      Step(PutGroup(s, g, Fresh(fs[StrategyName(g)])), Done, false)
  }

  function PutGroup<X>(s: System<X>, g: Group, sel: Selection): System<X> {
    s.(mem := s.mem.(groups := s.mem.groups[g.id := g], strategies := s.mem.strategies[g.id := sel]),
       store := s.store.(groups := s.store.groups[g.id := g]))
  }

  /** `edited` is what the consumer's function left; its id is undone. */
  function UpdateGroup<X>(fs: map<Id, Factory>, s: System<X>, id: Id, edited: Group, saved: bool): Step<X> {
    if id !in s.mem.groups then Step(s, Refused(GroupNotFound), false)
    else
      var kept := s.mem.groups[id];
      var g := edited.(id := kept.id);
      if ValidateGroup(fs, g).Some? then Step(s, Refused(ValidateGroup(fs, g).value), false)
      else if !saved then Step(s, Refused(StoreFailed), false)
      else
        var renewed := StrategyName(g) != StrategyName(kept) || id !in s.mem.strategies;
        var sel := if renewed then Fresh(fs[StrategyName(g)]) else s.mem.strategies[id];
        Step(PutGroup(s, g, sel), Done, false)
  }

  /** One removal: the row leaves the store, then memory, then its owner's binding. */
  function RemoveResource<X>(s: System<X>, id: Id): System<X>
    requires id in s.mem.pool
  {
    var owner := s.mem.pool[id].core.ownerId;
    s.(mem := s.mem.(pool := s.mem.pool - {id},
                     holders := s.mem.holders - {id},
                     order := Without(s.mem.order, id),
                     bindings := if owner != NO_ID then s.mem.bindings - {owner} else s.mem.bindings),
       store := s.store.(rows := s.store.rows - {id}))
  }

  /** The removals of a cascade, one member after another. */
  function RemoveAll<X>(s: System<X>, ids: seq<Id>): System<X> {
    if ids == [] then s
    else
      var before := RemoveAll(s, ids[..|ids| - 1]);
      var id := ids[|ids| - 1];
      if id in before.mem.pool then RemoveResource(before, id) else before
  }

  /** The owners a cascade over `ids` unbinds, in the cascade's order. */
  function Owners<X>(m: Memory<X>, ids: seq<Id>): seq<Id> {
    if ids == [] then []
    else
      var rest := Owners(m, ids[..|ids| - 1]);
      var id := ids[|ids| - 1];
      if id in m.pool && m.pool[id].core.ownerId != NO_ID then rest + [m.pool[id].core.ownerId] else rest
  }

  function RemoveGroup<X>(s: System<X>, id: Id): System<X> {
    s.(mem := s.mem.(groups := s.mem.groups - {id}, strategies := s.mem.strategies - {id}),
       store := s.store.(groups := s.store.groups - {id}))
  }

  predicate AnyHeld<X>(m: Memory<X>, ids: seq<Id>) {
    exists i :: 0 <= i < |ids| && ids[i] in m.holders
  }

  /** `landed` row deletions succeed before the first that fails (all of them, if it is the
      member count or more); `groupGone` says whether the group's own row then goes. */
  function DeleteGroup<X>(s: System<X>, id: Id, landed: nat, groupGone: bool): Step<X> {
    var members := MembersOf(s.mem, id);
    if id == GLOBAL_GROUP then Step(s, Refused(GlobalGroupProtected), false)
    else if id !in s.mem.groups then Step(s, Refused(GroupNotFound), false)
    else if AnyHeld(s.mem, members) then Step(s, Refused(GroupInUse), false)
    else if landed < |members| then
      Step(RemoveAll(s, members[..landed]), Cascaded(Owners(s.mem, members[..landed]), Some(StoreFailed)), landed > 0)
    else if !groupGone then
      Step(RemoveAll(s, members), Cascaded(Owners(s.mem, members), Some(StoreFailed)), members != [])
    else
      Step(RemoveGroup(RemoveAll(s, members), id), Cascaded(Owners(s.mem, members), None), true)
  }

  // ---------------------------------------------------------------- resources

  function Add<X>(s: System<X>, p: Record<X>, saved: bool): Step<X> {
    var q := InGlobal(p);
    if p.core.id == NO_ID then Step(s, Refused(ResourceIdRequired), false)
    else if p.core.id in s.mem.pool then Step(s, Refused(DuplicateResource), false)
    else if p.core.ownerId != NO_ID then Step(s, Refused(AddedLocked), false)
    else if !ValidPolicy(p.core.maxHolders) then Step(s, Refused(InvalidHolderPolicy), false)
    else if q.core.groupId !in s.mem.groups then Step(s, Refused(GroupNotFound), false)
    else if !saved then Step(s, Refused(StoreFailed), false)
    else
      Step(s.(mem := s.mem.(pool := s.mem.pool[q.core.id := q], order := s.mem.order + [q.core.id]),
              store := s.store.(rows := s.store.rows[q.core.id := q])), Done, true)
  }

  /** A pooled record rewritten in the store and then in memory. */
  function PutRecord<X>(s: System<X>, id: Id, p: Record<X>): System<X> {
    s.(mem := s.mem.(pool := s.mem.pool[id := p]), store := s.store.(rows := s.store.rows[id := p]))
  }

  /** `edited` is what the consumer's function left; its leasing fields are undone. */
  function Update<X>(s: System<X>, id: Id, edited: Record<X>, saved: bool): Step<X> {
    if id !in s.mem.pool then Step(s, Refused(NotPooled), false)
    else if !saved then Step(s, Refused(StoreFailed), false)
    else Step(PutRecord(s, id, edited.(core := s.mem.pool[id].core)), Done, false)
  }

  function Delete<X>(s: System<X>, id: Id, deleted: bool): Step<X> {
    if id !in s.mem.pool then
      if deleted then Step(s.(store := s.store.(rows := s.store.rows - {id})), Unbound([]), false)
      else Step(s, Refused(StoreFailed), false)
    else if id in s.mem.holders then Step(s, Refused(ResourceInUse), false)
    else if !deleted then Step(s, Refused(StoreFailed), false)
    else
      var owner := s.mem.pool[id].core.ownerId;
      Step(RemoveResource(s, id), Unbound(if owner != NO_ID then [owner] else []), true)
  }

  // ---------------------------------------------------------------- acquiring

  function CheckPin<X>(m: Memory<X>, a: Assignment): (e: Option<Error>) {
    if a.resourceId == NO_ID then None
    else if a.resourceId !in m.pool then Some(ResourceNotFound)
    else
      var c := m.pool[a.resourceId].core;
      if c.groupId != a.groupId then Some(ResourceNotInGroup)
      else if c.ownerId != NO_ID && c.ownerId != a.taskId then Some(ResourceLocked)
      else None
  }

  ghost predicate Eligible<X>(m: Memory<X>, a: Assignment, requireIdle: bool, id: Id) {
    id in m.pool
    && m.pool[id].core.groupId == a.groupId
    && m.pool[id].core.ownerId == NO_ID
    && (a.resourceId != NO_ID ==> id == a.resourceId)
    && (requireIdle ==> HeldCount(m.holders, id) == 0)
    && UnderCap(m, id)
  }

  /** The acquirable resources of an assignment, in the pool's stable order. */
  ghost function Candidates<X>(m: Memory<X>, order: seq<Id>, a: Assignment, requireIdle: bool): (r: seq<Id>)
    ensures forall id :: id in r <==> id in order && Eligible(m, a, requireIdle, id)
  {
    if order == [] then []
    else
      var rest := Candidates(m, order[..|order| - 1], a, requireIdle);
      var id := order[|order| - 1];
      if Eligible(m, a, requireIdle, id) then rest + [id] else rest
  }

  ghost function CandidatesFor<X>(m: Memory<X>, a: Assignment, requireIdle: bool): seq<Id> {
    Candidates(m, m.order, a, requireIdle)
  }

  function Advanced(sel: Selection): Selection {
    if sel.RoundRobin? then RoundRobin(sel.next + 1) else Custom(sel.asked + 1)
  }

  /** What one strategy instance answers over `candidates`; None is its error. */
  function Chosen<X>(sel: Selection, candidates: seq<Id>, answer: Answer<X>): Option<Id>
    requires candidates != []
  {
    if sel.RoundRobin? then Some(candidates[sel.next % |candidates|])
    else if answer.Pick? then Some(answer.record.core.id)
    else None
  }

  /** A grant: the live lease is counted and the record handed out as it now stands. */
  function Grant<X>(s: System<X>, id: Id, t: Id): Step<X>
    requires id in s.mem.pool
  {
    var p := s.mem.pool[id];
    var group := if p.core.groupId in s.mem.groups then s.mem.groups[p.core.groupId] else Group(NO_ID, NO_ID, map[]);
    Step(s.(mem := s.mem.(holders := Hold(s.mem.holders, id, t)), live := s.live + multiset{(id, t)}),
         Granted(p, group), false)
  }

  function Bind<X>(s: System<X>, id: Id, t: Id): System<X>
    requires id in s.mem.pool
  {
    var owned := PutRecord(s, id, WithOwner(s.mem.pool[id], t));
    owned.(mem := owned.mem.(bindings := owned.mem.bindings[t := id]))
  }

  /** The pick of an unbound task, granted outright or durably bound first. */
  function Take<X>(s: System<X>, id: Id, t: Id, lock: bool, saved: bool): Step<X>
    requires id in s.mem.pool
  {
    if !lock then Grant(s, id, t)
    else if !saved then Step(s, Refused(StoreFailed), false)
    else Grant(Bind(s, id, t), id, t)
  }

  /** An unbound task's selection: its pin alone, else whatever the group's strategy picks.
      A pick that is no candidate is refused, with the strategy's state already moved on. */
  ghost function Select<X>(s: System<X>, a: Assignment, lock: bool, answer: Answer<X>, saved: bool): Step<X> {
    var candidates := CandidatesFor(s.mem, a, lock);
    if candidates == [] then Step(s, Parked, false)
    else if a.resourceId != NO_ID then
      assert candidates[0] in candidates;
      Take(s, candidates[0], a.taskId, lock, saved)
    else
      var sel := if a.groupId in s.mem.strategies then s.mem.strategies[a.groupId] else Fresh(BuiltIn);
      var asked := s.(mem := s.mem.(strategies := s.mem.strategies[a.groupId := Advanced(sel)]));
      match Chosen(sel, candidates, answer)
      case None => Step(asked, Refused(SelectionFailed), false)
      case Some(id) =>
        if id in candidates then Take(asked, id, a.taskId, lock, saved) else Step(asked, Refused(StrayPick), false)
  }

  /** One turn of the acquire loop under the manager's lock. `a` is already placed. */
  ghost function Pass<X>(s: System<X>, a: Assignment, lock: bool, answer: Answer<X>, saved: bool): Step<X> {
    if CheckPin(s.mem, a).Some? then Step(s, Refused(CheckPin(s.mem, a).value), false)
    else if a.taskId in s.mem.bindings && s.mem.bindings[a.taskId] in s.mem.pool then
      var id := s.mem.bindings[a.taskId];
      if a.resourceId != NO_ID && a.resourceId != id then Step(s, Refused(PinConflict), false)
      else if HeldCount(s.mem.holders, id) == 0 then Grant(s, id, a.taskId)
      else Step(s, Parked, false)
    else
      var r := s.(mem := s.mem.(bindings := s.mem.bindings - {a.taskId}));
      if a.groupId !in r.mem.groups then Step(r, Refused(GroupNotFound), false)
      else if MembersOf(r.mem, a.groupId) == [] then Step(r, Refused(NoResources), false)
      else Select(r, a, lock, answer, saved)
  }

  /** The lease's first release reaching the manager. */
  function Release<X>(s: System<X>, r: Id, t: Id): Step<X> {
    Step(s.(mem := s.mem.(holders := Unhold(s.mem.holders, r, t)), live := s.live - multiset{(r, t)}), Done, true)
  }

  // ---------------------------------------------------------------- locks

  function Fits(a: Assignment, c: Resource): bool {
    if a.resourceId != NO_ID then a.resourceId == c.id else a.groupId != NO_ID && a.groupId == c.groupId
  }

  function Unbind<X>(s: System<X>, t: Id, id: Id, saved: bool): Step<X> {
    if id !in s.mem.pool then Step(s.(mem := s.mem.(bindings := s.mem.bindings - {t})), Done, false)
    else if !saved then Step(s, Refused(StoreFailed), false)
    else
      var freed := PutRecord(s, id, WithOwner(s.mem.pool[id], NO_ID));
      Step(freed.(mem := freed.mem.(bindings := freed.mem.bindings - {t})), Done, true)
  }

  function Unlock<X>(s: System<X>, t: Id, saved: bool): Step<X> {
    if t !in s.mem.bindings then Step(s, Done, false) else Unbind(s, t, s.mem.bindings[t], saved)
  }

  function ReleaseStaleLock<X>(s: System<X>, a: Assignment, saved: bool): Step<X> {
    if a.taskId !in s.mem.bindings then Step(s, Done, false)
    else
      var id := s.mem.bindings[a.taskId];
      if id in s.mem.pool && Fits(a, s.mem.pool[id].core) then Step(s, Done, false)
      else Unbind(s, a.taskId, id, saved)
  }

  // ---------------------------------------------------------------- operations and runs

  /** Every critical section of the manager that can change its state, with its oracles. */
  datatype Op<X> =
    | CreateGroupOp(g: Group, saved: bool)
    | UpdateGroupOp(id: Id, edited: Group, saved: bool)
    | DeleteGroupOp(id: Id, landed: nat, groupGone: bool)
    | AddOp(p: Record<X>, saved: bool)
    | UpdateOp(id: Id, edit: Record<X>, saved: bool)
    | DeleteOp(id: Id, deleted: bool)
    | PassOp(a: Assignment, lock: bool, answer: Answer<X>, saved: bool)
    | ReleaseOp(r: Id, t: Id)
    | UnlockOp(t: Id, saved: bool)
    | ReleaseStaleLockOp(a: Assignment, saved: bool)

  /** What callers can do: only a live lease is released, only a named task acquires. */
  predicate Enabled<X>(s: System<X>, op: Op<X>) {
    match op
    case ReleaseOp(r, t) => (r, t) in s.live
    case PassOp(a, _, _, _) => a.taskId != NO_ID && a.groupId != NO_ID
    case _ => true
  }

  ghost function Apply<X>(fs: map<Id, Factory>, s: System<X>, op: Op<X>): Step<X> {
    match op
    case CreateGroupOp(g, saved) => CreateGroup(fs, s, g, saved)
    case UpdateGroupOp(id, edited, saved) => UpdateGroup(fs, s, id, edited, saved)
    case DeleteGroupOp(id, landed, gone) => DeleteGroup(s, id, landed, gone)
    case AddOp(p, saved) => Add(s, p, saved)
    case UpdateOp(id, edit, saved) => Update(s, id, edit, saved)
    case DeleteOp(id, deleted) => Delete(s, id, deleted)
    case PassOp(a, lock, answer, saved) => Pass(s, a, lock, answer, saved)
    case ReleaseOp(r, t) => Release(s, r, t)
    case UnlockOp(t, saved) => Unlock(s, t, saved)
    case ReleaseStaleLockOp(a, saved) => ReleaseStaleLock(s, a, saved)
  }

  /** The systems a sequence of operations passes through; a disabled one is skipped. */
  ghost function Run<X>(fs: map<Id, Factory>, s: System<X>, ops: seq<Op<X>>): System<X> {
    if ops == [] then s
    else
      var before := Run(fs, s, ops[..|ops| - 1]);
      var op := ops[|ops| - 1];
      if Enabled(before, op) then Apply(fs, before, op).sys else before
  }
}
