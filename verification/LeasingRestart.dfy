/** What a manager loads from a repository, exactly when loading succeeds, and what a restart
    at any moment finds again. */
module LeasingRestart {
  import opened Wrappers
  import opened LeasingModel
  import opened LeasingInvariant

  /** The group a fresh manager persists when the repository lists none under that id. */
  const DEFAULT_GROUP := Group(GLOBAL_GROUP, ROUND_ROBIN, map[])

  ghost predicate GroupsLoadable(fs: map<Id, Factory>, gs: seq<Group>) {
    && (forall i :: 0 <= i < |gs| ==> ValidateGroup(fs, gs[i]).None?)
    && (forall i, j :: 0 <= i < j < |gs| ==> gs[i].id != gs[j].id)
  }

  predicate Named(gs: seq<Group>, id: Id) {
    exists i :: 0 <= i < |gs| && gs[i].id == id
  }

  ghost predicate RowsLoadable<X>(gs: seq<Group>, rs: seq<Record<X>>) {
    && (forall i :: 0 <= i < |rs| ==> Named(gs, InGlobal(rs[i]).core.groupId) && ValidPolicy(rs[i].core.maxHolders))
    && (forall i, j :: 0 <= i < j < |rs| ==> rs[i].core.id != rs[j].core.id)
    && (forall i, j :: 0 <= i < j < |rs| && rs[i].core.ownerId != NO_ID ==> rs[i].core.ownerId != rs[j].core.ownerId)
  }

  ghost predicate GroupsLoaded(fs: map<Id, Factory>, gs: seq<Group>, groups: map<Id, Group>, strategies: map<Id, Selection>) {
    && (forall g :: g in groups <==> Named(gs, g))
    && (forall i :: 0 <= i < |gs| ==> groups[gs[i].id] == gs[i])
    && strategies.Keys == groups.Keys
    && (forall g :: g in groups ==> StrategyName(groups[g]) in fs && strategies[g] == Fresh(fs[StrategyName(groups[g])]))
  }

  ghost predicate RowsLoaded<X>(rs: seq<Record<X>>, order: seq<Id>, pool: map<Id, Record<X>>, bindings: map<Id, Id>) {
    && |order| == |rs|
    && (forall i :: 0 <= i < |rs| ==> order[i] == rs[i].core.id)
    && (forall id :: id in pool <==> id in order)
    && (forall i :: 0 <= i < |rs| ==> pool[rs[i].core.id] == InGlobal(rs[i]))
    && BindingsOk(pool, bindings)
  }

  /** The groups a load works with: those listed, and the global one in any case. */
  function Completed(gs: seq<Group>): seq<Group> {
    if Named(gs, GLOBAL_GROUP) then gs else gs + [DEFAULT_GROUP]
  }

  ghost predicate Loadable<X>(fs: map<Id, Factory>, gs: seq<Group>, rs: seq<Record<X>>) {
    && GroupsLoadable(fs, gs)
    && RowsLoadable(Completed(gs), rs)
  }

  ghost predicate Loaded<X>(fs: map<Id, Factory>, gs: seq<Group>, rs: seq<Record<X>>, m: Memory<X>) {
    && GroupsLoaded(fs, Completed(gs), m.groups, m.strategies)
    && RowsLoaded(rs, m.order, m.pool, m.bindings)
    && m.holders == map[]
  }

  /** A listing of a store: every row once, in any order. */
  ghost predicate Lists<X>(store: Store<X>, gs: seq<Group>, rs: seq<Record<X>>) {
    && (forall i, j :: 0 <= i < j < |gs| ==> gs[i].id != gs[j].id)
    && (forall i :: 0 <= i < |gs| ==> gs[i].id in store.groups && store.groups[gs[i].id] == gs[i])
    && (forall g :: g in store.groups ==> Named(gs, g))
    && (forall i, j :: 0 <= i < j < |rs| ==> rs[i].core.id != rs[j].core.id)
    && (forall i :: 0 <= i < |rs| ==> rs[i].core.id in store.rows && store.rows[rs[i].core.id] == rs[i])
    && (forall id :: id in store.rows ==> exists i :: 0 <= i < |rs| && rs[i].core.id == id)
  }

  lemma LoadedGroupsAreSound<X>(fs: map<Id, Factory>, store: Store<X>, gs: seq<Group>, rs: seq<Record<X>>, m: Memory<X>)
    requires GroupsLoadable(fs, gs) && GroupsLoaded(fs, Completed(gs), m.groups, m.strategies)
    requires Lists(store, Completed(gs), rs)
    ensures GroupsOk(fs, m.groups, m.strategies) && store.groups == m.groups
  {
    var done := Completed(gs);
    assert Named(done, GLOBAL_GROUP) by {
      if !Named(gs, GLOBAL_GROUP) { assert done[|gs|].id == GLOBAL_GROUP; }
    }
    forall g | g in m.groups
      ensures g in store.groups && store.groups[g] == m.groups[g]
      ensures g != NO_ID && m.groups[g].id == g
    {
      var i :| 0 <= i < |done| && done[i].id == g;
      assert i < |gs| ==> ValidateGroup(fs, gs[i]).None?;
    }
    forall g | g in store.groups ensures g in m.groups {
      assert Named(done, g);
    }
    assert store.groups.Keys == m.groups.Keys;
  }

  lemma LoadedRowsAreSound<X>(store: Store<X>, gs: seq<Group>, rs: seq<Record<X>>, m: Memory<X>)
    requires RowsLoadable(gs, rs) && RowsLoaded(rs, m.order, m.pool, m.bindings)
    requires forall g :: g in m.groups <==> Named(gs, g)
    requires Lists(store, gs, rs)
    ensures OrderOk(m.order, m.pool) && PoolOk(m.pool, m.groups.Keys) && Mirrored(m.pool, store.rows)
  {
    LoadedPoolIsSound(store, gs, rs, m);
    forall id | id in store.rows ensures id in m.pool {
      var i :| 0 <= i < |rs| && rs[i].core.id == id;
      assert m.order[i] == id;
    }
    assert forall id :: id in m.pool ==> id in store.rows && InGlobal(store.rows[id]) == m.pool[id];
    assert store.rows.Keys == m.pool.Keys;
  }

  lemma LoadedPoolIsSound<X>(store: Store<X>, gs: seq<Group>, rs: seq<Record<X>>, m: Memory<X>)
    requires RowsLoadable(gs, rs) && RowsLoaded(rs, m.order, m.pool, m.bindings)
    requires forall g :: g in m.groups <==> Named(gs, g)
    requires Lists(store, gs, rs)
    ensures OrderOk(m.order, m.pool) && PoolOk(m.pool, m.groups.Keys)
    ensures forall id :: id in m.pool ==> id in store.rows && InGlobal(store.rows[id]) == m.pool[id]
  {
    forall id | id in m.pool
      ensures id in store.rows && InGlobal(store.rows[id]) == m.pool[id]
      ensures m.pool[id].core.id == id && ValidPolicy(m.pool[id].core.maxHolders) && m.pool[id].core.groupId in m.groups
    {
      var i :| 0 <= i < |m.order| && m.order[i] == id;
      assert rs[i].core.id == id;
    }
  }

  /** What is loaded from a listing of the store satisfies the invariant from the first moment. */
  lemma LoadedIsSound<X>(fs: map<Id, Factory>, store: Store<X>, gs: seq<Group>, rs: seq<Record<X>>, m: Memory<X>)
    requires Loadable(fs, gs, rs) && Loaded(fs, gs, rs, m)
    requires Lists(store, Completed(gs), rs)
    ensures Inv(fs, System(m, store, multiset{}))
  {
    LoadedGroupsAreSound(fs, store, gs, rs, m);
    LoadedRowsAreSound(store, Completed(gs), rs, m);
    forall r | r in m.pool ensures HeldCount(m.holders, r) == 0 {}
  }

  lemma SoundListingLoads<X>(fs: map<Id, Factory>, s: System<X>, gs: seq<Group>, rs: seq<Record<X>>)
    requires Inv(fs, s) && Lists(s.store, gs, rs)
    ensures Completed(gs) == gs && Loadable(fs, gs, rs)
  {
    assert Named(gs, GLOBAL_GROUP);
    forall i | 0 <= i < |rs|
      ensures Named(gs, InGlobal(rs[i]).core.groupId)
      ensures InGlobal(rs[i]) == s.mem.pool[rs[i].core.id] && rs[i].core.ownerId == s.mem.pool[rs[i].core.id].core.ownerId
    {
      assert rs[i].core.id in s.store.rows.Keys;
    }
  }

  lemma SamePool<X>(fs: map<Id, Factory>, s: System<X>, m: Memory<X>)
    requires Inv(fs, s) && Inv(fs, System(m, s.store, multiset{}))
    ensures m.pool == s.mem.pool && m.bindings == s.mem.bindings && m.groups == s.mem.groups
  {
    assert forall id :: id in m.pool ==> m.pool[id] == s.mem.pool[id];
    assert m.pool == s.mem.pool;
    SameBindings(m.pool, m.bindings, s.mem.bindings);
  }

  /** Restart is faithful: any listing of the store of any sound system loads, and rebuilds
      exactly its groups, pool and bindings, in a system that is sound again. */
  lemma RestartIsFaithful<X>(fs: map<Id, Factory>, s: System<X>, gs: seq<Group>, rs: seq<Record<X>>, m: Memory<X>)
    requires Inv(fs, s) && Lists(s.store, gs, rs)
    ensures Completed(gs) == gs && Loadable(fs, gs, rs)
    ensures Loaded(fs, gs, rs, m) ==>
      && m.groups == s.mem.groups && m.pool == s.mem.pool && m.bindings == s.mem.bindings
      && Inv(fs, System(m, s.store, multiset{}))
  {
    SoundListingLoads(fs, s, gs, rs);
    if Loaded(fs, gs, rs, m) {
      LoadedIsSound(fs, s.store, gs, rs, m);
      SamePool(fs, s, m);
    }
  }

  lemma SameBindings<X>(pool: map<Id, Record<X>>, b: map<Id, Id>, c: map<Id, Id>)
    requires BindingsOk(pool, b) && BindingsOk(pool, c)
    ensures b == c
  {
    forall t | t in b ensures t in c && c[t] == b[t] {
      var r := b[t];
      assert r in pool && pool[r].core.ownerId == t && t != NO_ID;
    }
    forall t | t in c ensures t in b {
      var r := c[t];
      assert r in pool && pool[r].core.ownerId == t && t != NO_ID;
    }
  }

  /** The store after the first `writes` store writes of an operation that all succeed: a group
      cascade writes once per member and once for the group, everything else at most once. */
  ghost function CutAfter<X>(fs: map<Id, Factory>, s: System<X>, op: Op<X>, writes: nat): System<X> {
    if op.DeleteGroupOp? then Apply(fs, s, DeleteGroupOp(op.id, writes, writes > |MembersOf(s.mem, op.id)|)).sys
    else if writes == 0 then s
    else Apply(fs, s, op).sys
  }

  /** A crash between any two store writes of any operation of any run: the restart succeeds and
      rebuilds the state of the operation cut there, for a cascade a prefix of its removals. */
  lemma CrashAnywhereRestarts<X>(fs: map<Id, Factory>, s: System<X>, ops: seq<Op<X>>, op: Op<X>, writes: nat,
                                 gs: seq<Group>, rs: seq<Record<X>>, m: Memory<X>)
    requires Inv(fs, s) && Enabled(Run(fs, s, ops), op)
    requires Lists(CutAfter(fs, Run(fs, s, ops), op, writes).store, gs, rs)
    ensures var cut := CutAfter(fs, Run(fs, s, ops), op, writes);
      && Loadable(fs, gs, rs)
      && (Loaded(fs, gs, rs, m) ==>
            m.groups == cut.mem.groups && m.pool == cut.mem.pool && m.bindings == cut.mem.bindings
            && Inv(fs, System(m, cut.store, multiset{})))
  {
    RunKeepsInv(fs, s, ops);
    var before := Run(fs, s, ops);
    if op.DeleteGroupOp? {
      KeptByApply(fs, before, DeleteGroupOp(op.id, writes, writes > |MembersOf(before.mem, op.id)|));
    } else {
      KeptByApply(fs, before, op);
    }
    RestartIsFaithful(fs, CutAfter(fs, before, op, writes), gs, rs, m);
  }

  /** A cascade cut after n of its removals has removed exactly the first n members and kept the group. */
  lemma CutCascadeIsAPrefix<X>(fs: map<Id, Factory>, s: System<X>, id: Id, n: nat)
    requires Inv(fs, s) && id in s.mem.groups && id != GLOBAL_GROUP
    requires !AnyHeld(s.mem, MembersOf(s.mem, id)) && n <= |MembersOf(s.mem, id)|
    ensures var cut := CutAfter(fs, s, DeleteGroupOp(id, n, false), n);
      && cut.mem.groups == s.mem.groups
      && (forall r :: r in cut.mem.pool <==> r in s.mem.pool && r !in MembersOf(s.mem, id)[..n])
      && (forall r :: r in cut.mem.pool ==> cut.mem.pool[r] == s.mem.pool[r])
      && (forall t :: t in cut.mem.bindings <==> t in s.mem.bindings && s.mem.bindings[t] !in MembersOf(s.mem, id)[..n])
  {
    var ids := MembersOf(s.mem, id)[..n];
    CascadeMembers(fs, s, id, n);
    KeptByRemoveAll(fs, s, ids);
    assert n == |MembersOf(s.mem, id)| ==> ids == MembersOf(s.mem, id);
    var cut := RemoveAll(s, ids);
    forall t ensures t in cut.mem.bindings <==> t in s.mem.bindings && s.mem.bindings[t] !in ids {
      if t in cut.mem.bindings {
        BindingsAreLive(fs, cut, t);
        var r := cut.mem.bindings[t];
        assert r in cut.mem.pool && cut.mem.pool[r].core.ownerId == t && t != NO_ID;
        assert s.mem.pool[r].core.ownerId == t;
      }
      if t in s.mem.bindings {
        BindingsAreLive(fs, s, t);
        var r := s.mem.bindings[t];
        assert r in cut.mem.pool ==> cut.mem.pool[r].core.ownerId == t && t != NO_ID;
      }
    }
  }
}
