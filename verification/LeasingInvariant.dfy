/** What every operation of the leasing manager keeps, in memory, in the store and
    between the two, over any run and whatever the store and the strategies do. */
module LeasingInvariant {
  import opened Wrappers
  import opened LeasingModel

  /** `order` lists exactly the pooled ids, once each. */
  ghost predicate OrderOk<X>(order: seq<Id>, pool: map<Id, Record<X>>) {
    && (forall i, j :: 0 <= i < j < |order| ==> order[i] != order[j])
    && (forall id :: id in order <==> id in pool)
  }

  /** Every pooled record sits under its own id, in a group that exists. */
  ghost predicate PoolOk<X>(pool: map<Id, Record<X>>, groups: set<Id>) {
    forall id :: id in pool ==>
      pool[id].core.id == id && ValidPolicy(pool[id].core.maxHolders) && pool[id].core.groupId in groups
  }

  /** Every group has a known strategy and an instance of it; the global group exists. */
  ghost predicate GroupsOk(fs: map<Id, Factory>, groups: map<Id, Group>, strategies: map<Id, Selection>) {
    && GLOBAL_GROUP in groups
    && strategies.Keys == groups.Keys
    && (forall g :: g in groups ==>
          && g != NO_ID
          && groups[g].id == g
          && StrategyName(groups[g]) in fs
          && strategies[g].RoundRobin? == fs[StrategyName(groups[g])].BuiltIn?)
  }

  /** A task is bound to a resource exactly when that pooled resource names it as owner. */
  ghost predicate BindingsOk<X>(pool: map<Id, Record<X>>, bindings: map<Id, Id>) {
    && (forall t :: t in bindings ==> t != NO_ID && bindings[t] in pool && pool[bindings[t]].core.ownerId == t)
    && (forall r :: r in pool && pool[r].core.ownerId != NO_ID ==>
          pool[r].core.ownerId in bindings && bindings[pool[r].core.ownerId] == r)
  }

  /** Counts are positive, no table is empty, and only pooled resources have one. */
  ghost predicate HoldersOk(pooled: set<Id>, holders: map<Id, map<Id, nat>>) {
    forall r :: r in holders ==>
      r in pooled && holders[r] != map[] && forall t :: t in holders[r] ==> holders[r][t] > 0
  }

  /** No resource has more live leases than its cap. */
  ghost predicate CapsOk<X>(pool: map<Id, Record<X>>, holders: map<Id, map<Id, nat>>) {
    forall r :: r in pool && EffectiveCap(pool[r].core) != UNLIMITED_HOLDERS ==>
      HeldCount(holders, r) <= EffectiveCap(pool[r].core)
  }

  /** A durably locked resource is held by its owner alone, at most once. */
  ghost predicate LocksOk<X>(pool: map<Id, Record<X>>, holders: map<Id, map<Id, nat>>) {
    forall r :: r in holders && r in pool && pool[r].core.ownerId != NO_ID ==>
      holders[r] == map[pool[r].core.ownerId := 1]
  }

  /** The holder tables count exactly the unreleased leases. */
  ghost predicate Conserved(holders: map<Id, map<Id, nat>>, live: multiset<(Id, Id)>) {
    forall r, t :: live[(r, t)] == Holding(holders, r, t)
  }

  /** The stored rows mirror the pool, up to the default of an empty group. */
  ghost predicate Mirrored<X>(pool: map<Id, Record<X>>, rows: map<Id, Record<X>>) {
    rows.Keys == pool.Keys && forall id :: id in pool ==> InGlobal(rows[id]) == pool[id]
  }

  ghost predicate Inv<X>(fs: map<Id, Factory>, s: System<X>) {
    && OrderOk(s.mem.order, s.mem.pool)
    && PoolOk(s.mem.pool, s.mem.groups.Keys)
    && GroupsOk(fs, s.mem.groups, s.mem.strategies)
    && BindingsOk(s.mem.pool, s.mem.bindings)
    && HoldersOk(s.mem.pool.Keys, s.mem.holders)
    && CapsOk(s.mem.pool, s.mem.holders)
    && LocksOk(s.mem.pool, s.mem.holders)
    && Conserved(s.mem.holders, s.live)
    && Mirrored(s.mem.pool, s.store.rows)
    && s.store.groups == s.mem.groups
  }

  // ---------------------------------------------------------------- holder arithmetic

  lemma HeldCountHold(holders: map<Id, map<Id, nat>>, r: Id, t: Id, q: Id)
    ensures HeldCount(Hold(holders, r, t), q) == HeldCount(holders, q) + (if q == r then 1 else 0)
  {
    if q == r {
      var was := if r in holders then holders[r] else map[];
      var now := Hold(holders, r, t)[r];
      TotalPick(now, t);
      assert now - {t} == was - {t};
      if t in was { TotalPick(was, t); } else { assert was - {t} == was; }
    }
  }

  lemma HeldCountUnhold(holders: map<Id, map<Id, nat>>, r: Id, t: Id, q: Id)
    requires Holding(holders, r, t) > 0
    ensures HeldCount(Unhold(holders, r, t), q) == HeldCount(holders, q) - (if q == r then 1 else 0)
  {
    if q == r {
      var was := holders[r];
      TotalPick(was, t);
      if was[t] > 1 {
        var now := was[t := was[t] - 1];
        TotalPick(now, t);
        assert now - {t} == was - {t};
      }
    }
  }

  lemma HoldingHold(holders: map<Id, map<Id, nat>>, r: Id, t: Id, q: Id, u: Id)
    ensures Holding(Hold(holders, r, t), q, u) == Holding(holders, q, u) + (if (q, u) == (r, t) then 1 else 0)
  {
  }

  lemma HoldingUnhold(holders: map<Id, map<Id, nat>>, r: Id, t: Id, q: Id, u: Id)
    requires Holding(holders, r, t) > 0
    ensures Holding(Unhold(holders, r, t), q, u) == Holding(holders, q, u) - (if (q, u) == (r, t) then 1 else 0)
  {
    var n := Holding(holders, r, t);
    var table := if n > 1 then holders[r][t := n - 1] else holders[r] - {t};
    if q == r && table == map[] {
      assert u != t && u in holders[r] ==> u in table.Keys;
    }
  }

  /** A holder table of positive counts is empty exactly when it sums to nothing. */
  lemma HeldNone(holders: map<Id, map<Id, nat>>, r: Id)
    requires r in holders ==> holders[r] != map[] && forall t :: t in holders[r] ==> holders[r][t] > 0
    ensures HeldCount(holders, r) == 0 <==> r !in holders
  {
    if r in holders {
      InhabitedMap(holders[r]);
      var t :| t in holders[r];
      TotalPick(holders[r], t);
    }
  }

  // ---------------------------------------------------------------- the primitive updates

  lemma KeptByPutGroup<X>(fs: map<Id, Factory>, s: System<X>, g: Group, sel: Selection)
    requires Inv(fs, s) && ValidateGroup(fs, g).None?
    requires sel.RoundRobin? == fs[StrategyName(g)].BuiltIn?
    ensures Inv(fs, PutGroup(s, g, sel))
  {
  }

  lemma KeptByPutRecord<X>(fs: map<Id, Factory>, s: System<X>, id: Id, p: Record<X>)
    requires Inv(fs, s) && id in s.mem.pool && p.core == s.mem.pool[id].core
    ensures Inv(fs, PutRecord(s, id, p))
  {
    assert p.core.groupId != NO_ID;
  }

  lemma KeptByAdd<X>(fs: map<Id, Factory>, s: System<X>, p: Record<X>, saved: bool)
    requires Inv(fs, s)
    ensures Inv(fs, Add(s, p, saved).sys)
  {
    var n := Add(s, p, saved).sys;
    if n != s {
      var id := p.core.id;
      HeldNone(s.mem.holders, id);
      assert id in n.mem.order by { assert n.mem.order[|s.mem.order|] == id; }
      assert forall x :: x in n.mem.order <==> x in s.mem.order || x == id;
    }
  }

  lemma KeptByGrant<X>(fs: map<Id, Factory>, s: System<X>, id: Id, t: Id)
    requires Inv(fs, s) && id in s.mem.pool && UnderCap(s.mem, id)
    requires s.mem.pool[id].core.ownerId != NO_ID ==> s.mem.pool[id].core.ownerId == t && HeldCount(s.mem.holders, id) == 0
    ensures Inv(fs, Grant(s, id, t).sys)
  {
    var n := Grant(s, id, t).sys;
    forall r, u ensures n.live[(r, u)] == Holding(n.mem.holders, r, u) {
      HoldingHold(s.mem.holders, id, t, r, u);
    }
    forall r ensures HeldCount(n.mem.holders, r) == HeldCount(s.mem.holders, r) + (if r == id then 1 else 0) {
      HeldCountHold(s.mem.holders, id, t, r);
    }
    HeldNone(s.mem.holders, id);
  }

  lemma KeptByBind<X>(fs: map<Id, Factory>, s: System<X>, id: Id, t: Id)
    requires Inv(fs, s) && id in s.mem.pool && s.mem.pool[id].core.ownerId == NO_ID && t != NO_ID
    requires t !in s.mem.bindings && HeldCount(s.mem.holders, id) == 0
    ensures Inv(fs, Bind(s, id, t))
  {
    HeldNone(s.mem.holders, id);
    OwnedOnceMore(s.mem.pool, s.mem.bindings, s.mem.holders, id, t);
    assert s.mem.pool[id].core.groupId != NO_ID;
  }

  lemma OwnedOnceMore<X>(pool: map<Id, Record<X>>, bindings: map<Id, Id>, holders: map<Id, map<Id, nat>>, id: Id, t: Id)
    requires BindingsOk(pool, bindings) && LocksOk(pool, holders)
    requires id in pool && pool[id].core.ownerId == NO_ID && t != NO_ID && t !in bindings && id !in holders
    ensures var owned := pool[id := WithOwner(pool[id], t)];
      BindingsOk(owned, bindings[t := id]) && LocksOk(owned, holders)
  {
  }

  lemma KeptByUnbind<X>(fs: map<Id, Factory>, s: System<X>, t: Id, saved: bool)
    requires Inv(fs, s) && t in s.mem.bindings
    ensures Inv(fs, Unbind(s, t, s.mem.bindings[t], saved).sys)
  {
    var id := s.mem.bindings[t];
    assert s.mem.pool[id].core.groupId != NO_ID;
  }

  lemma KeptByRelease<X>(fs: map<Id, Factory>, s: System<X>, r: Id, t: Id)
    requires Inv(fs, s) && (r, t) in s.live
    ensures Inv(fs, Release(s, r, t).sys)
  {
    var n := Release(s, r, t).sys;
    assert Holding(s.mem.holders, r, t) > 0;
    forall q, u ensures n.live[(q, u)] == Holding(n.mem.holders, q, u) {
      HoldingUnhold(s.mem.holders, r, t, q, u);
    }
    forall q ensures HeldCount(n.mem.holders, q) == HeldCount(s.mem.holders, q) - (if q == r then 1 else 0) {
      HeldCountUnhold(s.mem.holders, r, t, q);
    }
    if s.mem.pool[r].core.ownerId != NO_ID {
      assert s.mem.holders[r] == map[t := 1];
      assert s.mem.holders[r] - {t} == map[];
    }
  }

  lemma {:induction false} WithoutProperties(order: seq<Id>, id: Id)
    requires forall i, j :: 0 <= i < j < |order| ==> order[i] != order[j]
    ensures forall x :: x in Without(order, id) <==> x in order && x != id
    ensures forall i, j :: 0 <= i < j < |Without(order, id)| ==> Without(order, id)[i] != Without(order, id)[j]
  {
    if order != [] {
      assert order == [order[0]] + order[1..];
      if order[0] == id {
        assert id !in order[1..];
      } else {
        var rest := Without(order[1..], id);
        WithoutProperties(order[1..], id);
        assert order[0] !in rest;
        assert Without(order, id) == [order[0]] + rest;
      }
    }
  }

  lemma KeptByRemoveResource<X>(fs: map<Id, Factory>, s: System<X>, id: Id)
    requires Inv(fs, s) && id in s.mem.pool && id !in s.mem.holders
    ensures Inv(fs, RemoveResource(s, id))
    ensures RemoveResource(s, id).mem.holders == s.mem.holders
  {
    WithoutProperties(s.mem.order, id);
    assert s.mem.holders - {id} == s.mem.holders;
  }

  // ---------------------------------------------------------------- cascades

  lemma {:induction false} MembersProperties<X>(m: Memory<X>, order: seq<Id>, g: Id)
    requires forall i, j :: 0 <= i < j < |order| ==> order[i] != order[j]
    ensures forall x :: x in Members(m, order, g) <==> x in order && x in m.pool && m.pool[x].core.groupId == g
    ensures forall i, j :: 0 <= i < j < |Members(m, order, g)| ==> Members(m, order, g)[i] != Members(m, order, g)[j]
  {
    if order != [] {
      var init := order[..|order| - 1];
      assert order == init + [order[|order| - 1]];
      MembersProperties(m, init, g);
    }
  }

  /** Removing distinct idle members one by one removes exactly them and keeps everything. */
  lemma {:induction false} KeptByRemoveAll<X>(fs: map<Id, Factory>, s: System<X>, ids: seq<Id>)
    requires Inv(fs, s)
    requires forall i, j :: 0 <= i < j < |ids| ==> ids[i] != ids[j]
    requires forall id :: id in ids ==> id in s.mem.pool && id !in s.mem.holders
    ensures Inv(fs, RemoveAll(s, ids))
    ensures RemoveAll(s, ids).mem.groups == s.mem.groups && RemoveAll(s, ids).mem.strategies == s.mem.strategies
    ensures RemoveAll(s, ids).mem.holders == s.mem.holders && RemoveAll(s, ids).live == s.live
    ensures forall id :: id in RemoveAll(s, ids).mem.pool <==> id in s.mem.pool && id !in ids
    ensures forall id :: id in RemoveAll(s, ids).mem.pool ==> RemoveAll(s, ids).mem.pool[id] == s.mem.pool[id]
  {
    if ids != [] {
      var init, id := ids[..|ids| - 1], ids[|ids| - 1];
      assert ids == init + [id];
      KeptByRemoveAll(fs, s, init);
      assert id !in init;
      KeptByRemoveResource(fs, RemoveAll(s, init), id);
    }
  }

  lemma KeptByRemoveGroup<X>(fs: map<Id, Factory>, s: System<X>, id: Id)
    requires Inv(fs, s) && id != GLOBAL_GROUP
    requires forall r :: r in s.mem.pool ==> s.mem.pool[r].core.groupId != id
    ensures Inv(fs, RemoveGroup(s, id))
  {
  }

  /** The members a cascade walks are distinct, pooled and of the group; idle unless it refuses. */
  lemma CascadeMembers<X>(fs: map<Id, Factory>, s: System<X>, id: Id, n: nat)
    requires Inv(fs, s) && n <= |MembersOf(s.mem, id)|
    ensures var ids := MembersOf(s.mem, id)[..n];
      && (forall i, j :: 0 <= i < j < |ids| ==> ids[i] != ids[j])
      && (forall x :: x in ids ==> x in MembersOf(s.mem, id))
      && (forall x :: x in ids ==> x in s.mem.pool && s.mem.pool[x].core.groupId == id)
      && (!AnyHeld(s.mem, MembersOf(s.mem, id)) ==> forall x :: x in ids ==> x !in s.mem.holders)
  {
    MembersProperties(s.mem, s.mem.order, id);
  }

  lemma KeptByDeleteGroup<X>(fs: map<Id, Factory>, s: System<X>, id: Id, landed: nat, gone: bool)
    requires Inv(fs, s)
    ensures Inv(fs, DeleteGroup(s, id, landed, gone).sys)
  {
    var members := MembersOf(s.mem, id);
    if id != GLOBAL_GROUP && id in s.mem.groups && !AnyHeld(s.mem, members) {
      var n := if landed < |members| then landed else |members|;
      CascadeMembers(fs, s, id, n);
      KeptByRemoveAll(fs, s, members[..n]);
      if n == |members| {
        assert members[..n] == members;
        MembersProperties(s.mem, s.mem.order, id);
        var emptied := RemoveAll(s, members);
        forall r | r in emptied.mem.pool ensures emptied.mem.pool[r].core.groupId != id {
          assert r in s.mem.order && r !in members;
        }
        KeptByRemoveGroup(fs, emptied, id);
      }
    }
  }

  // ---------------------------------------------------------------- acquiring

  /** Under the invariant a binding is never a phantom: its resource is always pooled. */
  lemma BindingsAreLive<X>(fs: map<Id, Factory>, s: System<X>, t: Id)
    requires Inv(fs, s) && t in s.mem.bindings
    ensures s.mem.bindings[t] in s.mem.pool && s.mem.pool[s.mem.bindings[t]].core.ownerId == t
  {
  }

  lemma KeptByTake<X>(fs: map<Id, Factory>, s: System<X>, id: Id, a: Assignment, lock: bool, saved: bool)
    requires Inv(fs, s) && Eligible(s.mem, a, lock, id) && a.taskId != NO_ID && a.taskId !in s.mem.bindings
    ensures Inv(fs, Take(s, id, a.taskId, lock, saved).sys)
  {
    if lock && saved {
      KeptByBind(fs, s, id, a.taskId);
      KeptByGrant(fs, Bind(s, id, a.taskId), id, a.taskId);
    } else if !lock {
      KeptByGrant(fs, s, id, a.taskId);
    }
  }

  lemma KeptBySelect<X>(fs: map<Id, Factory>, s: System<X>, a: Assignment, lock: bool, answer: Answer<X>, saved: bool)
    requires Inv(fs, s) && a.taskId != NO_ID && a.taskId !in s.mem.bindings && a.groupId in s.mem.groups
    ensures Inv(fs, Select(s, a, lock, answer, saved).sys)
  {
    var candidates := CandidatesFor(s.mem, a, lock);
    if candidates != [] {
      if a.resourceId != NO_ID {
        assert candidates[0] in candidates;
        KeptByTake(fs, s, candidates[0], a, lock, saved);
      } else {
        var sel := s.mem.strategies[a.groupId];
        var asked := s.(mem := s.mem.(strategies := s.mem.strategies[a.groupId := Advanced(sel)]));
        assert Inv(fs, asked);
        match Chosen(sel, candidates, answer)
        case None =>
        case Some(id) =>
          if id in candidates { KeptByTake(fs, asked, id, a, lock, saved); }
      }
    }
  }

  lemma KeptByPass<X>(fs: map<Id, Factory>, s: System<X>, a: Assignment, lock: bool, answer: Answer<X>, saved: bool)
    requires Inv(fs, s) && a.taskId != NO_ID
    ensures Inv(fs, Pass(s, a, lock, answer, saved).sys)
  {
    if CheckPin(s.mem, a).None? {
      if a.taskId in s.mem.bindings {
        BindingsAreLive(fs, s, a.taskId);
        var id := s.mem.bindings[a.taskId];
        if HeldCount(s.mem.holders, id) == 0 && (a.resourceId == NO_ID || a.resourceId == id) {
          KeptByGrant(fs, s, id, a.taskId);
        }
      } else {
        assert s.mem.bindings - {a.taskId} == s.mem.bindings;
        assert s.(mem := s.mem.(bindings := s.mem.bindings - {a.taskId})) == s;
        if a.groupId in s.mem.groups { KeptBySelect(fs, s, a, lock, answer, saved); }
      }
    }
  }

  // ---------------------------------------------------------------- every run

  lemma KeptByApply<X>(fs: map<Id, Factory>, s: System<X>, op: Op<X>)
    requires Inv(fs, s) && Enabled(s, op)
    ensures Inv(fs, Apply(fs, s, op).sys)
  {
    match op
    case CreateGroupOp(g, saved) =>
      if CreateGroup(fs, s, g, saved).sys != s { KeptByPutGroup(fs, s, g, Fresh(fs[StrategyName(g)])); }
    case UpdateGroupOp(id, edited, saved) =>
      if id in s.mem.groups {
        var g := edited.(id := id);
        if ValidateGroup(fs, g).None? && saved {
          var changed := StrategyName(g) != StrategyName(s.mem.groups[id]);
          KeptByPutGroup(fs, s, g, if changed then Fresh(fs[StrategyName(g)]) else s.mem.strategies[id]);
        }
      }
    case DeleteGroupOp(id, landed, gone) => KeptByDeleteGroup(fs, s, id, landed, gone);
    case AddOp(p, saved) => KeptByAdd(fs, s, p, saved);
    case UpdateOp(id, edit, saved) =>
      if id in s.mem.pool { KeptByPutRecord(fs, s, id, edit.(core := s.mem.pool[id].core)); }
    case DeleteOp(id, deleted) =>
      if id in s.mem.pool {
        if id !in s.mem.holders { KeptByRemoveResource(fs, s, id); }
      } else {
        assert s.store.rows - {id} == s.store.rows;
      }
    case PassOp(a, lock, answer, saved) => KeptByPass(fs, s, a, lock, answer, saved);
    case ReleaseOp(r, t) => KeptByRelease(fs, s, r, t);
    case UnlockOp(t, saved) =>
      if t in s.mem.bindings { KeptByUnbind(fs, s, t, saved); }
    case ReleaseStaleLockOp(a, saved) =>
      if a.taskId in s.mem.bindings { KeptByUnbind(fs, s, a.taskId, saved); }
  }

  /** Safety over whole runs: every state any sequence of operations reaches satisfies the
      invariant, with any writes failing and any strategy answers along the way. */
  lemma {:induction false} RunKeepsInv<X>(fs: map<Id, Factory>, s: System<X>, ops: seq<Op<X>>)
    requires Inv(fs, s)
    ensures Inv(fs, Run(fs, s, ops))
  {
    if ops != [] {
      RunKeepsInv(fs, s, ops[..|ops| - 1]);
      var before := Run(fs, s, ops[..|ops| - 1]);
      if Enabled(before, ops[|ops| - 1]) { KeptByApply(fs, before, ops[|ops| - 1]); }
    }
  }
}
