/** The leasing manager as it runs: maps and lists updated in place, loops over them, store
    writes that may fail, and lease objects with a release latch. Each method is shown to be
    the step of LeasingModel with the same name, and keeps the invariant. */
module LeasingManager {
  import opened Wrappers
  import opened LeasingModel
  import opened LeasingInvariant
  import opened LeasingAllocation
  import opened LeasingWakeups
  import opened LeasingRestart
  import opened LeasingOutcomes

  /** The persistence port. Any write may fail, and then changes nothing. */
  class Repository<X> {
    var rows: map<Id, Record<X>>
    var groups: map<Id, Group>
    /** How many writes it has been asked for. */
    ghost var writes: nat

    ghost function Contents(): Store<X>
      reads this
    {
      Store(rows, groups)
    }

    constructor (rows: map<Id, Record<X>>, groups: map<Id, Group>)
      ensures Contents() == Store(rows, groups)
    {
      this.rows, this.groups, writes := rows, groups, 0;
    }

    method Save(p: Record<X>) returns (ok: bool)
      modifies this
      ensures Contents() == if ok then Store(old(rows)[p.core.id := p], old(groups)) else old(Contents())
      ensures writes == old(writes) + 1
    {
      ok, writes := *, writes + 1;
      if ok { rows := rows[p.core.id := p]; }
    }

    method Delete(id: Id) returns (ok: bool)
      modifies this
      ensures Contents() == if ok then Store(old(rows) - {id}, old(groups)) else old(Contents())
      ensures writes == old(writes) + 1
    {
      ok, writes := *, writes + 1;
      if ok { rows := rows - {id}; }
    }

    method SaveGroup(g: Group) returns (ok: bool)
      modifies this
      ensures Contents() == if ok then Store(old(rows), old(groups)[g.id := g]) else old(Contents())
      ensures writes == old(writes) + 1
    {
      ok, writes := *, writes + 1;
      if ok { groups := groups[g.id := g]; }
    }

    method DeleteGroup(id: Id) returns (ok: bool)
      modifies this
      ensures Contents() == if ok then Store(old(rows), old(groups) - {id}) else old(Contents())
      ensures writes == old(writes) + 1
    {
      ok, writes := *, writes + 1;
      if ok { groups := groups - {id}; }
    }
  }

  /** A live hold on one resource; only its first release acts. */
  class Lease<X> {
    const manager: Manager<X>
    const resource: Record<X>
    const group: Group
    const taskId: Id
    var released: bool

    constructor (manager: Manager<X>, resource: Record<X>, group: Group, taskId: Id)
      ensures this.manager == manager && this.resource == resource && this.group == group && this.taskId == taskId
      ensures !released
    {
      this.manager, this.resource, this.group, this.taskId := manager, resource, group, taskId;
      released := false;
    }

    method Release()
      requires manager.Valid() && this in manager.issued
      modifies this, manager
      ensures manager.Valid() && manager.issued == old(manager.issued) && released
      ensures old(released) ==> manager.View() == old(manager.View()) && manager.broadcasts == old(manager.broadcasts)
      ensures !old(released) ==>
        var n := LeasingModel.Release(old(manager.View()), resource.core.id, taskId);
        (resource.core.id, taskId) in old(manager.live) && manager.View() == n.sys && manager.broadcasts > old(manager.broadcasts)
    {
      if !released {
        manager.OpenLeaseIsLive(this);
        KeptByRelease(manager.factories, manager.View(), resource.core.id, taskId);
        released := true;
        manager.ReleaseSlot(resource.core.id, taskId);
        ghost var r, t, issued := resource.core.id, taskId, manager.issued;
        assert Open(issued, r, t) == old(Open(issued, r, t)) - {this};
        forall q, u ensures manager.live[(q, u)] == |Open(issued, q, u)| {
          if (q, u) != (r, t) { assert Open(issued, q, u) == old(Open(issued, q, u)); }
        }
        assert manager.View() == LeasingModel.Release(old(manager.View()), r, t).sys;
      }
    }
  }

  /** A cascade asked the store for a write per member until one failed, and then for the group's own. */
  predicate Asked(before: nat, members: nat, landed: nat, now: nat) {
    now == before + (if landed < members then landed else members) + 1
  }

  /** What selection came to: no candidate right now, one of them, or the strategy's failure. */
  datatype Choice = Nobody | Chose(id: Id) | Failed(error: Error)

  lemma {:induction false} RunConcat<X>(fs: map<Id, Factory>, s: System<X>, ops: seq<Op<X>>, more: seq<Op<X>>)
    ensures Run(fs, s, ops + more) == Run(fs, Run(fs, s, ops), more)
  {
    if more == [] {
      assert ops + more == ops;
    } else {
      RunConcat(fs, s, ops, more[..|more| - 1]);
      assert (ops + more)[..|ops + more| - 1] == ops + more[..|more| - 1];
    }
  }

  /** The unreleased leases of a task on a resource. */
  ghost function Open<X>(issued: set<Lease<X>>, r: Id, t: Id): set<Lease<X>>
    reads issued
  {
    set l | l in issued && !l.released && l.resource.core.id == r && l.taskId == t
  }

  /** The live slots are exactly the unreleased lease objects. */
  ghost predicate Counted<X>(issued: set<Lease<X>>, live: multiset<(Id, Id)>)
    reads issued
  {
    forall r, t :: live[(r, t)] == |Open(issued, r, t)|
  }

  /** The removal a cascade makes next: pooled, idle, unchanged so far, and one step of RemoveAll. */
  lemma CascadeStep<X>(fs: map<Id, Factory>, s: System<X>, id: Id, n: nat)
    requires Inv(fs, s) && n < |MembersOf(s.mem, id)| && !AnyHeld(s.mem, MembersOf(s.mem, id))
    ensures var members := MembersOf(s.mem, id);
      var done := RemoveAll(s, members[..n]);
      && members[n] in s.mem.pool && members[n] in done.mem.pool && done.mem.pool[members[n]] == s.mem.pool[members[n]]
      && members[n] !in done.mem.holders
      && RemoveAll(s, members[..n + 1]) == RemoveResource(done, members[n])
      && Owners(s.mem, members[..n + 1]) ==
           (var owner := s.mem.pool[members[n]].core.ownerId;
            if owner != NO_ID then Owners(s.mem, members[..n]) + [owner] else Owners(s.mem, members[..n]))
  {
    var members := MembersOf(s.mem, id);
    CascadeMembers(fs, s, id, n + 1);
    CascadeMembers(fs, s, id, n);
    assert members[..n + 1][..n] == members[..n] && members[..n + 1][n] == members[n];
    assert members[n] in members[..n + 1] && members[n] !in members[..n];
    KeptByRemoveAll(fs, s, members[..n]);
  }

  lemma {:induction false} WithoutAt(order: seq<Id>, id: Id, i: nat)
    requires i <= |order| && id !in order[..i] && (i < |order| ==> order[i] == id)
    ensures Without(order, id) == if i < |order| then order[..i] + order[i + 1..] else order
  {
    if i > 0 {
      assert order[..i][0] == order[0] && order[1..][..i - 1] == order[..i][1..];
      WithoutAt(order[1..], id, i - 1);
      assert i < |order| ==> order[..i] + order[i + 1..] == [order[0]] + (order[1..][..i - 1] + order[1..][i..]);
    } else if order != [] {
      assert order[..0] == [];
    }
  }

  lemma GroupsExtend(fs: map<Id, Factory>, gs: seq<Group>, g: Group, groups: map<Id, Group>, strategies: map<Id, Selection>)
    requires GroupsLoaded(fs, gs, groups, strategies) && g.id !in groups && StrategyName(g) in fs
    ensures GroupsLoaded(fs, gs + [g], groups[g.id := g], strategies[g.id := Fresh(fs[StrategyName(g)])])
  {
    var now := gs + [g];
    forall id ensures Named(now, id) <==> Named(gs, id) || id == g.id {
      if id == g.id { assert now[|gs|].id == id; }
      if Named(gs, id) {
        var j :| 0 <= j < |gs| && gs[j].id == id;
        assert now[j].id == id;
      }
    }
    forall j | 0 <= j < |gs| ensures gs[j].id != g.id {
      assert Named(gs, gs[j].id);
    }
  }

  lemma PrefixLoadable<X>(gs: seq<Group>, rs: seq<Record<X>>, n: nat)
    requires n <= |rs|
    ensures RowsLoadable(gs, rs) ==> RowsLoadable(gs, rs[..n])
  {
  }

  lemma OwnerListed<X>(rs: seq<Record<X>>, order: seq<Id>, pool: map<Id, Record<X>>, bindings: map<Id, Id>, t: Id)
    requires RowsLoaded(rs, order, pool, bindings) && t in bindings
    ensures exists j :: 0 <= j < |rs| && rs[j].core.ownerId == t
  {
    assert bindings[t] in pool && pool[bindings[t]].core.ownerId == t;
    var j :| 0 <= j < |order| && order[j] == bindings[t];
    assert pool[rs[j].core.id] == InGlobal(rs[j]);
  }

  /** One more row: it joins the pool, the order and, if owned, the bindings. */
  lemma RowsExtend<X>(gs: seq<Group>, rs: seq<Record<X>>, p: Record<X>, order: seq<Id>, pool: map<Id, Record<X>>, bindings: map<Id, Id>)
    requires RowsLoadable(Completed(gs), rs) && RowsLoaded(rs, order, pool, bindings)
    requires p.core.id !in pool && ValidPolicy(p.core.maxHolders) && Named(Completed(gs), InGlobal(p).core.groupId)
    requires p.core.ownerId != NO_ID ==> p.core.ownerId !in bindings
    ensures RowsLoadable(Completed(gs), rs + [p])
    ensures RowsLoaded(rs + [p], order + [p.core.id], pool[p.core.id := InGlobal(p)],
                       if p.core.ownerId != NO_ID then bindings[p.core.ownerId := p.core.id] else bindings)
  {
    forall j | 0 <= j < |rs|
      ensures rs[j].core.id != p.core.id
      ensures rs[j].core.ownerId != NO_ID ==> rs[j].core.ownerId != p.core.ownerId
    {
      assert order[j] in order && order[j] in pool;
      assert pool[rs[j].core.id].core.ownerId == rs[j].core.ownerId;
    }
    assert forall id :: id in order + [p.core.id] <==> id in order || id == p.core.id;
  }

  class Manager<X> {
    const factories: map<Id, Factory>
    const repo: Repository<X>

    var groups: map<Id, Group>
    var strategies: map<Id, Selection>
    var pool: map<Id, Record<X>>
    var order: seq<Id>
    var holders: map<Id, map<Id, nat>>
    var bindings: map<Id, Id>
    /** How often the condition variable has been broadcast. */
    var broadcasts: nat

    /** Every lease object handed out, and how many are unreleased per resource and task. */
    ghost var issued: set<Lease<X>>
    ghost var live: multiset<(Id, Id)>

    ghost function Mem(): Memory<X>
      reads this
    {
      Memory(groups, strategies, pool, order, holders, bindings)
    }

    ghost function View(): System<X>
      reads this, repo
    {
      System(Mem(), repo.Contents(), live)
    }

    ghost predicate Valid()
      reads this, repo, issued
    {
      && ROUND_ROBIN in factories
      && Inv(factories, View())
      && (forall l :: l in issued ==> l.manager == this)
      && Counted(issued, live)
    }

    lemma OpenLeaseIsLive(l: Lease<X>)
      requires Valid() && l in issued && !l.released
      ensures (l.resource.core.id, l.taskId) in live
    {
      var open := Open(issued, l.resource.core.id, l.taskId);
      assert l in open;
      assert live[(l.resource.core.id, l.taskId)] == |open|;
    }

    // -------------------------------------------------------------- construction

    constructor Empty(factories: map<Id, Factory>, repo: Repository<X>)
      ensures this.factories == factories && this.repo == repo
      ensures Mem() == Memory(map[], map[], map[], [], map[], map[])
      ensures issued == {} && live == multiset{} && broadcasts == 0
    {
      this.factories, this.repo := factories, repo;
      groups, strategies, pool, order, holders, bindings := map[], map[], map[], [], map[], map[];
      broadcasts, issued, live := 0, {}, multiset{};
    }

    /** Loads listed groups and rows, persisting the global group if absent. It succeeds exactly
        on a well-formed listing whose one write lands. */
    static method NewManager(factories: map<Id, Factory>, repo: Repository<X>, gs: seq<Group>, rs: seq<Record<X>>)
      returns (m: Manager?<X>, saved: bool)
      requires ROUND_ROBIN in factories
      modifies repo
      ensures m != null <==> Loadable(factories, gs, rs) && saved
      ensures m != null ==> fresh(m) && m.factories == factories && m.repo == repo && Loaded(factories, gs, rs, m.Mem())
      ensures repo.Contents() == if GroupsLoadable(factories, gs) && !Named(gs, GLOBAL_GROUP) && saved
                                 then Store(old(repo.rows), old(repo.groups)[GLOBAL_GROUP := DEFAULT_GROUP])
                                 else old(repo.Contents())
      ensures m != null && Lists(repo.Contents(), Completed(gs), rs) ==> m.Valid()
      ensures !saved ==> repo.writes > old(repo.writes)
    {
      saved := true;
      var n := new Manager<X>.Empty(factories, repo);
      var ok := n.LoadGroups(gs);
      if !ok { return null, true; }
      if GLOBAL_GROUP !in n.groups {
        saved := repo.SaveGroup(DEFAULT_GROUP);
        if !saved { return null, false; }
        GroupsExtend(factories, gs, DEFAULT_GROUP, n.groups, n.strategies);
        n.AdoptGroup(DEFAULT_GROUP);
      }
      ok := n.LoadRows(gs, rs);
      if !ok { return null, saved; }
      m := n;
      if Lists(repo.Contents(), Completed(gs), rs) { m.LoadedIsValid(gs, rs); }
    }

    lemma LoadedIsValid(gs: seq<Group>, rs: seq<Record<X>>)
      requires ROUND_ROBIN in factories && issued == {} && live == multiset{}
      requires Loadable(factories, gs, rs) && Loaded(factories, gs, rs, Mem()) && Lists(repo.Contents(), Completed(gs), rs)
      ensures Valid()
    {
      LoadedIsSound(factories, repo.Contents(), gs, rs, Mem());
      assert forall r, t :: Open(issued, r, t) == {};
    }

    method LoadGroups(gs: seq<Group>) returns (ok: bool)
      requires groups == map[] && strategies == map[]
      modifies this`groups, this`strategies
      ensures ok <==> GroupsLoadable(factories, gs)
      ensures ok ==> GroupsLoaded(factories, gs, groups, strategies)
    {
      var i := 0;
      while i < |gs|
        invariant 0 <= i <= |gs|
        invariant GroupsLoadable(factories, gs[..i]) && GroupsLoaded(factories, gs[..i], groups, strategies)
      {
        var g := gs[i];
        if g.id in groups {
          assert Named(gs[..i], g.id);
          var j :| 0 <= j < i && gs[..i][j].id == g.id;
          assert gs[j].id == gs[i].id;
          return false;
        }
        if ValidateGroup(factories, g).Some? { return false; }
        GroupsExtend(factories, gs[..i], g, groups, strategies);
        AdoptGroup(g);
        assert gs[..i + 1] == gs[..i] + [g];
        i := i + 1;
      }
      assert gs[..|gs|] == gs;
      ok := true;
    }

    /** The second half of a load: rows into the pool, each owner into the bindings. */
    method LoadRows(ghost gs: seq<Group>, rs: seq<Record<X>>) returns (ok: bool)
      requires order == [] && pool == map[] && bindings == map[]
      requires forall g :: g in groups <==> Named(Completed(gs), g)
      modifies this`pool, this`order, this`bindings
      ensures ok <==> RowsLoadable(Completed(gs), rs)
      ensures ok ==> RowsLoaded(rs, order, pool, bindings)
    {
      var i := 0;
      while i < |rs|
        invariant 0 <= i <= |rs|
        invariant RowsLoadable(Completed(gs), rs[..i]) && RowsLoaded(rs[..i], order, pool, bindings)
      {
        ok := AdoptNth(gs, rs, i);
        if !ok {
          PrefixLoadable(Completed(gs), rs, i + 1);
          return;
        }
        i := i + 1;
      }
      assert rs[..|rs|] == rs;
      ok := true;
    }

    method AdoptNth(ghost gs: seq<Group>, rs: seq<Record<X>>, i: nat) returns (ok: bool)
      requires i < |rs| && RowsLoadable(Completed(gs), rs[..i]) && RowsLoaded(rs[..i], order, pool, bindings)
      requires forall g :: g in groups <==> Named(Completed(gs), g)
      modifies this`pool, this`order, this`bindings
      ensures ok <==> RowsLoadable(Completed(gs), rs[..i + 1])
      ensures ok ==> RowsLoaded(rs[..i + 1], order, pool, bindings)
    {
      assert rs[..i + 1] == rs[..i] + [rs[i]];
      ok := AdoptRow(gs, rs[..i], rs[i]);
    }

    /** One listed row: refused exactly when it makes what was listed so far unloadable. */
    method AdoptRow(ghost gs: seq<Group>, ghost rs: seq<Record<X>>, listed: Record<X>) returns (ok: bool)
      requires RowsLoadable(Completed(gs), rs) && RowsLoaded(rs, order, pool, bindings)
      requires forall g :: g in groups <==> Named(Completed(gs), g)
      modifies this`pool, this`order, this`bindings
      ensures ok <==> RowsLoadable(Completed(gs), rs + [listed])
      ensures ok ==> RowsLoaded(rs + [listed], order, pool, bindings)
    {
      var p := InGlobal(listed);
      var c := p.core;
      assert (rs + [listed])[|rs|] == listed;
      if c.id in pool {
        var j :| 0 <= j < |order| && order[j] == c.id;
        assert (rs + [listed])[j] == rs[j];
        return false;
      }
      if c.groupId !in groups || !ValidPolicy(c.maxHolders) { return false; }
      if c.ownerId != NO_ID && c.ownerId in bindings {
        OwnerListed(rs, order, pool, bindings, c.ownerId);
        ghost var j :| 0 <= j < |rs| && rs[j].core.ownerId == c.ownerId;
        assert (rs + [listed])[j] == rs[j];
        return false;
      }
      RowsExtend(gs, rs, listed, order, pool, bindings);
      pool, order := pool[c.id := p], order + [c.id];
      if c.ownerId != NO_ID { bindings := bindings[c.ownerId := c.id]; }
      ok := true;
    }

    method AdoptGroup(g: Group)
      requires ValidateGroup(factories, g).None?
      modifies this`groups, this`strategies
      ensures groups == old(groups)[g.id := g]
      ensures strategies == old(strategies)[g.id := Fresh(factories[StrategyName(g)])]
    {
      groups, strategies := groups[g.id := g], strategies[g.id := Fresh(factories[StrategyName(g)])];
    }

    method Broadcast()
      modifies this`broadcasts
      ensures broadcasts == old(broadcasts) + 1
    {
      broadcasts := broadcasts + 1;
    }

    // -------------------------------------------------------------- groups

    method CreateGroup(g: Group) returns (reply: Reply<X>, ghost saved: bool)
      requires Valid()
      modifies this, repo
      ensures Valid() && issued == old(issued)
      ensures
        var n := LeasingModel.CreateGroup(factories, old(View()), g, saved);
        View() == n.sys && reply == n.reply && broadcasts == old(broadcasts)
      ensures !saved ==> repo.writes > old(repo.writes)
    {
      ghost var s := View();
      saved := true;
      if g.id in groups {
        reply := Refused(DuplicateGroup);
      } else if ValidateGroup(factories, g).Some? {
        reply := Refused(ValidateGroup(factories, g).value);
      } else {
        var ok := repo.SaveGroup(g);
        saved := ok;
        if !ok {
          reply := Refused(StoreFailed);
        } else {
          AdoptGroup(g);
          reply := Done;
        }
      }
      KeptByApply(factories, s, CreateGroupOp(g, saved));
      assert View() == LeasingModel.CreateGroup(factories, s, g, saved).sys;
    }

    method UpdateGroup(id: Id, edit: Group -> Group) returns (reply: Reply<X>, ghost saved: bool, ghost edited: Group)
      requires Valid()
      modifies this, repo
      ensures Valid() && issued == old(issued)
      ensures id in old(groups) ==> edited == edit(old(groups)[id])
      ensures
        var n := LeasingModel.UpdateGroup(factories, old(View()), id, edited, saved);
        View() == n.sys && reply == n.reply && broadcasts == old(broadcasts)
      ensures !saved ==> repo.writes > old(repo.writes)
    {
      ghost var s := View();
      saved, edited := true, DEFAULT_GROUP;
      if id !in groups { return Refused(GroupNotFound), saved, edited; }
      var kept := groups[id];
      var changed := edit(kept);
      edited := changed;
      var g := changed.(id := kept.id);
      if ValidateGroup(factories, g).Some? { return Refused(ValidateGroup(factories, g).value), saved, edited; }
      KeptByApply(factories, s, UpdateGroupOp(id, edited, true));
      var ok := ReplaceGroup(g, kept);
      saved := ok;
      reply := if ok then Done else Refused(StoreFailed);
    }

    /** Persists and installs an edited group; a new strategy starts over, an unchanged one keeps its state. */
    method ReplaceGroup(g: Group, kept: Group) returns (ok: bool)
      requires g.id in groups && g.id in strategies && ValidateGroup(factories, g).None?
      modifies this`groups, this`strategies, repo
      ensures
        var sel := if StrategyName(g) != StrategyName(kept) then Fresh(factories[StrategyName(g)]) else old(strategies)[g.id];
        View() == if ok then PutGroup(old(View()), g, sel) else old(View())
      ensures repo.writes == old(repo.writes) + 1
    {
      ok := repo.SaveGroup(g);
      if !ok { return; }
      groups := groups[g.id := g];
      if StrategyName(g) != StrategyName(kept) {
        strategies := strategies[g.id := Fresh(factories[StrategyName(g)])];
      }
      assert strategies == strategies[g.id := strategies[g.id]];
    }

    /** The group's resources in the pool's stable order. */
    method MemberIds(groupId: Id) returns (ids: seq<Id>)
      requires OrderOk(order, pool)
      ensures ids == MembersOf(Mem(), groupId)
    {
      ids := [];
      var i := 0;
      while i < |order|
        invariant 0 <= i <= |order|
        invariant ids == Members(Mem(), order[..i], groupId)
      {
        assert order[..i + 1][..i] == order[..i];
        assert order[i] in order && order[i] in pool;
        if pool[order[i]].core.groupId == groupId { ids := ids + [order[i]]; }
        i := i + 1;
      }
      assert order[..|order|] == order;
    }

    /** Cuts the id out of the candidate order. */
    method DropFromOrder(id: Id)
      modifies this`order
      ensures order == Without(old(order), id)
    {
      var i := 0;
      while i < |order| && order[i] != id
        invariant 0 <= i <= |order| && id !in order[..i]
      {
        i := i + 1;
      }
      WithoutAt(order, id, i);
      if i < |order| { order := order[..i] + order[i + 1..]; }
    }

    /** Removes one pooled, idle resource: the row first, then memory, then its owner's binding. */
    method Remove(id: Id) returns (ok: bool)
      requires id in pool
      modifies this`pool, this`holders, this`order, this`bindings, this`broadcasts, repo
      ensures View() == if ok then RemoveResource(old(View()), id) else old(View())
      ensures broadcasts == old(broadcasts) + (if ok then 1 else 0)
      ensures repo.writes == old(repo.writes) + 1
    {
      var owner := pool[id].core.ownerId;
      ok := repo.Delete(id);
      if !ok { return; }
      pool := pool - {id};
      holders := holders - {id};
      DropFromOrder(id);
      Broadcast();
      if owner != NO_ID { bindings := bindings - {owner}; }
    }

    method DeleteGroup(id: Id) returns (reply: Reply<X>, ghost landed: nat, ghost gone: bool)
      requires Valid()
      modifies this, repo
      ensures Valid() && issued == old(issued)
      ensures
        var n := LeasingModel.DeleteGroup(old(View()), id, landed, gone);
        View() == n.sys && reply == n.reply && (broadcasts > old(broadcasts) <==> n.broadcast)
      ensures reply.Cascaded? ==> Asked(old(repo.writes), |MembersOf(old(Mem()), id)|, landed, repo.writes)
    {
      ghost var s := View();
      landed, gone := 0, true;
      if id == GLOBAL_GROUP { return Refused(GlobalGroupProtected), landed, gone; }
      if id !in groups { return Refused(GroupNotFound), landed, gone; }
      reply, landed, gone := DeleteWithMembers(id);
      KeptByDeleteGroup(factories, s, id, landed, gone);
    }

    method DeleteWithMembers(id: Id) returns (reply: Reply<X>, ghost landed: nat, ghost gone: bool)
      requires Inv(factories, View()) && id != GLOBAL_GROUP && id in groups
      modifies this`groups, this`strategies, this`pool, this`holders, this`order, this`bindings, this`broadcasts, repo
      ensures
        var n := LeasingModel.DeleteGroup(old(View()), id, landed, gone);
        View() == n.sys && reply == n.reply && (broadcasts > old(broadcasts) <==> n.broadcast)
      ensures reply.Cascaded? ==> Asked(old(repo.writes), |MembersOf(old(Mem()), id)|, landed, repo.writes)
    {
      var members := MemberIds(id);
      var held := AnyMemberHeld(members);
      if held { return Refused(GroupInUse), 0, true; }
      reply, landed, gone := Sweep(id, members);
    }

    /** The cascade proper: the member rows go before the group row, which outlives any failure. */
    method Sweep(id: Id, members: seq<Id>) returns (reply: Reply<X>, ghost landed: nat, ghost gone: bool)
      requires Inv(factories, View()) && id != GLOBAL_GROUP && id in groups
      requires members == MembersOf(Mem(), id) && !AnyHeld(Mem(), members)
      modifies this`groups, this`strategies, this`pool, this`holders, this`order, this`bindings, this`broadcasts, repo
      ensures
        var n := LeasingModel.DeleteGroup(old(View()), id, landed, gone);
        View() == n.sys && reply == n.reply && (broadcasts > old(broadcasts) <==> n.broadcast)
      ensures reply.Cascaded? ==> Asked(old(repo.writes), |MembersOf(old(Mem()), id)|, landed, repo.writes)
    {
      var removed, unbound := Cascade(id, members);
      landed, gone := removed, true;
      if removed < |members| { return Cascaded(unbound, Some(StoreFailed)), landed, gone; }
      assert members[..|members|] == members;
      var dropped := DropGroupRow(id);
      gone := dropped;
      reply := Cascaded(unbound, if dropped then None else Some(StoreFailed));
    }

    method DropGroupRow(id: Id) returns (gone: bool)
      modifies this`groups, this`strategies, this`broadcasts, repo
      ensures View() == if gone then RemoveGroup(old(View()), id) else old(View())
      ensures broadcasts == old(broadcasts) + (if gone then 1 else 0)
      ensures repo.writes == old(repo.writes) + 1
    {
      gone := repo.DeleteGroup(id);
      if gone {
        groups, strategies := groups - {id}, strategies - {id};
        Broadcast();
      }
    }

    method AnyMemberHeld(members: seq<Id>) returns (held: bool)
      ensures held <==> AnyHeld(Mem(), members)
    {
      var i := 0;
      while i < |members|
        invariant 0 <= i <= |members|
        invariant forall j :: 0 <= j < i ==> members[j] !in holders
      {
        if members[i] in holders { return true; }
        i := i + 1;
      }
      held := false;
    }

    /** Removes the idle members one by one, each row before its binding, until a removal fails. */
    method Cascade(ghost id: Id, members: seq<Id>) returns (landed: nat, unbound: seq<Id>)
      requires Inv(factories, View()) && members == MembersOf(Mem(), id) && !AnyHeld(Mem(), members)
      modifies this`pool, this`holders, this`order, this`bindings, this`broadcasts, repo
      ensures landed <= |members|
      ensures View() == RemoveAll(old(View()), members[..landed]) && unbound == Owners(old(Mem()), members[..landed])
      ensures broadcasts == old(broadcasts) + landed
      ensures repo.writes == old(repo.writes) + landed + (if landed < |members| then 1 else 0)
    {
      ghost var s := View();
      landed, unbound := 0, [];
      while landed < |members|
        invariant 0 <= landed <= |members| && unbound == Owners(s.mem, members[..landed])
        invariant View() == RemoveAll(s, members[..landed])
        invariant broadcasts == old(broadcasts) + landed
        invariant repo.writes == old(repo.writes) + landed
      {
        var member := members[landed];
        CascadeStep(factories, s, id, landed);
        var owner := pool[member].core.ownerId;
        var ok := Remove(member);
        if !ok { return; }
        if owner != NO_ID { unbound := unbound + [owner]; }
        landed := landed + 1;
      }
    }

    // -------------------------------------------------------------- resources

    method Add(p: Record<X>) returns (reply: Reply<X>, ghost saved: bool)
      requires Valid()
      modifies this, repo
      ensures Valid() && issued == old(issued)
      ensures
        var n := LeasingModel.Add(old(View()), p, saved);
        View() == n.sys && reply == n.reply && (broadcasts > old(broadcasts) <==> n.broadcast)
      ensures !saved ==> repo.writes > old(repo.writes)
    {
      ghost var s := View();
      saved := true;
      if p.core.id == NO_ID {
        reply := Refused(ResourceIdRequired);
      } else if p.core.id in pool {
        reply := Refused(DuplicateResource);
      } else if p.core.ownerId != NO_ID {
        reply := Refused(AddedLocked);
      } else if !ValidPolicy(p.core.maxHolders) {
        reply := Refused(InvalidHolderPolicy);
      } else {
        var q := InGlobal(p);
        if q.core.groupId !in groups {
          reply := Refused(GroupNotFound);
        } else {
          var ok := repo.Save(q);
          saved := ok;
          if !ok {
            reply := Refused(StoreFailed);
          } else {
            pool, order := pool[q.core.id := q], order + [q.core.id];
            Broadcast();
            reply := Done;
          }
        }
      }
      KeptByAdd(factories, s, p, saved);
      assert View() == LeasingModel.Add(s, p, saved).sys;
    }

    method Update(id: Id, edit: Record<X> -> Record<X>) returns (reply: Reply<X>, ghost saved: bool)
      requires Valid()
      modifies this, repo
      ensures Valid() && issued == old(issued) && live == old(live) && broadcasts == old(broadcasts)
      ensures id !in old(pool) ==> View() == old(View()) && reply == Refused(NotPooled)
      ensures id in old(pool) ==>
        var n := LeasingModel.Update(old(View()), id, edit(old(pool)[id]), saved);
        View() == n.sys && reply == n.reply
      ensures !saved ==> repo.writes > old(repo.writes)
    {
      ghost var s := View();
      saved := true;
      if id !in pool { return Refused(NotPooled), saved; }
      var kept := pool[id];
      var p := edit(kept).(core := kept.core);
      KeptByPutRecord(factories, s, id, p);
      var ok := repo.Save(p);
      saved := ok;
      if !ok { return Refused(StoreFailed), saved; }
      pool := pool[id := p];
      reply := Done;
    }

    method Delete(id: Id) returns (reply: Reply<X>, ghost deleted: bool)
      requires Valid()
      modifies this, repo
      ensures Valid() && issued == old(issued)
      ensures
        var n := LeasingModel.Delete(old(View()), id, deleted);
        View() == n.sys && reply == n.reply && (broadcasts > old(broadcasts) <==> n.broadcast)
      ensures !deleted ==> repo.writes > old(repo.writes)
    {
      ghost var s := View();
      deleted := true;
      if id !in pool {
        var ok := repo.Delete(id);
        deleted := ok;
        reply := if ok then Unbound([]) else Refused(StoreFailed);
      } else if id in holders {
        reply := Refused(ResourceInUse);
      } else {
        var owner := pool[id].core.ownerId;
        var ok := Remove(id);
        deleted := ok;
        if !ok {
          reply := Refused(StoreFailed);
        } else {
          reply := Unbound(if owner != NO_ID then [owner] else []);
        }
      }
      KeptByApply(factories, s, DeleteOp(id, deleted));
      assert View() == LeasingModel.Delete(s, id, deleted).sys;
    }

    // -------------------------------------------------------------- holders

    method HoldSlot(r: Id, t: Id)
      modifies this`holders
      ensures holders == Hold(old(holders), r, t)
    {
      var table := if r in holders then holders[r] else map[];
      var n := if t in table then table[t] else 0;
      holders := holders[r := table[t := n + 1]];
    }

    method UnholdSlot(r: Id, t: Id)
      modifies this`holders
      ensures holders == Unhold(old(holders), r, t)
    {
      if r in holders {
        var table := holders[r];
        if t in table && table[t] > 0 { table := table[t := table[t] - 1]; }
        if t !in table || table[t] == 0 { table := table - {t}; }
        ghost var n := Holding(holders, r, t);
        assert table == if n > 1 then holders[r][t := n - 1] else holders[r] - {t};
        if table == map[] {
          holders := holders - {r};
        } else {
          holders := holders[r := table];
        }
      }
    }

    /** The manager's side of a lease's first release. */
    method ReleaseSlot(r: Id, t: Id)
      modifies this`holders, this`broadcasts, this`live
      ensures holders == Unhold(old(holders), r, t) && live == old(live) - multiset{(r, t)}
      ensures broadcasts == old(broadcasts) + 1
    {
      UnholdSlot(r, t);
      live := live - multiset{(r, t)};
      Broadcast();
    }

    method CountHeld(r: Id) returns (n: nat)
      ensures n == HeldCount(holders, r)
    {
      n := 0;
      if r in holders {
        var table := holders[r];
        while table != map[]
          invariant n + Total(table) == Total(holders[r])
          decreases |table|
        {
          InhabitedMap(table);
          var t :| t in table;
          TotalPick(table, t);
          n := n + table[t];
          table := table - {t};
        }
      }
    }

    // -------------------------------------------------------------- acquiring

    method CandidateIds(a: Assignment, requireIdle: bool) returns (ids: seq<Id>)
      requires OrderOk(order, pool)
      ensures ids == CandidatesFor(Mem(), a, requireIdle)
    {
      ids := [];
      var i := 0;
      while i < |order|
        invariant 0 <= i <= |order|
        invariant ids == Candidates(Mem(), order[..i], a, requireIdle)
      {
        var id := order[i];
        assert order[..i + 1][..i] == order[..i];
        assert id in order && id in pool;
        var c := pool[id].core;
        if c.groupId == a.groupId && c.ownerId == NO_ID && (a.resourceId == NO_ID || id == a.resourceId) {
          var held := CountHeld(id);
          var cap := EffectiveCap(c);
          if (!requireIdle || held == 0) && (cap == UNLIMITED_HOLDERS || held < cap) {
            ids := ids + [id];
          }
        }
        i := i + 1;
      }
      assert order[..|order|] == order;
    }

    /** An unbound task's selection over the acquirable resources of its group. */
    method SelectUnlocked(a: Assignment, requireIdle: bool, answer: Answer<X>) returns (choice: Choice)
      requires OrderOk(order, pool) && a.groupId in strategies
      modifies this`strategies
      ensures
        var candidates := CandidatesFor(old(Mem()), a, requireIdle);
        if candidates == [] then
          choice == Nobody && strategies == old(strategies)
        else if a.resourceId != NO_ID then
          choice == Chose(candidates[0]) && strategies == old(strategies)
        else
          && strategies == old(strategies)[a.groupId := Advanced(old(strategies)[a.groupId])]
          && choice == (match Chosen(old(strategies)[a.groupId], candidates, answer)
                        case None => Failed(SelectionFailed)
                        case Some(id) => if id in candidates then Chose(id) else Failed(StrayPick))
          && (old(strategies)[a.groupId].RoundRobin? ==>
                var next := old(strategies)[a.groupId].next;
                choice == Chose(candidates[next % |candidates|]) && strategies[a.groupId] == RoundRobin(next + 1))
    {
      var candidates := CandidateIds(a, requireIdle);
      if candidates == [] { return Nobody; }
      if a.resourceId != NO_ID { return Chose(candidates[0]); }
      var sel := strategies[a.groupId];
      strategies := strategies[a.groupId := Advanced(sel)];
      match Chosen(sel, candidates, answer)
      case None => choice := Failed(SelectionFailed);
      case Some(id) => choice := if id in candidates then Chose(id) else Failed(StrayPick);
    }

    /** What a pass hands out: on a grant, one new lease object for the record granted. */
    twostate predicate HandsOut(a: Assignment, reply: Reply<X>, new lease: Lease?<X>)
      reads this, lease
    {
      && (reply.Granted? <==> lease != null)
      && (lease == null ==> issued == old(issued))
      && (lease != null ==>
            && issued == old(issued) + {lease}
            && lease.manager == this && !lease.released
            && lease.resource == reply.record && lease.group == reply.group && lease.taskId == a.taskId)
    }

    /** One turn of the acquire loop. `answer` is what a consumer's strategy would return. */
    method AcquirePass(a: Assignment, lock: bool, answer: Answer<X>) returns (reply: Reply<X>, lease: Lease?<X>, ghost saved: bool)
      requires Valid() && a.taskId != NO_ID
      modifies this, repo
      ensures Valid() && broadcasts == old(broadcasts)
      ensures var n := Pass(old(View()), a, lock, answer, saved); View() == n.sys && reply == n.reply
      ensures HandsOut(a, reply, lease) && (lease != null ==> fresh(lease))
      ensures repo.writes >= old(repo.writes) + (if saved then 0 else 1)
    {
      lease, saved := null, true;
      if a.resourceId != NO_ID {
        if a.resourceId !in pool { return Refused(ResourceNotFound), null, saved; }
        var c := pool[a.resourceId].core;
        if c.groupId != a.groupId { return Refused(ResourceNotInGroup), null, saved; }
        if c.ownerId != NO_ID && c.ownerId != a.taskId { return Refused(ResourceLocked), null, saved; }
      }
      if a.taskId in bindings {
        reply, lease := BoundPass(a, lock, answer);
      } else {
        reply, lease, saved := UnboundPass(a, lock, answer);
      }
    }

    /** A locked resource is exclusive to its owner: one lease at a time. */
    method BoundPass(a: Assignment, lock: bool, answer: Answer<X>) returns (reply: Reply<X>, lease: Lease?<X>)
      requires Valid() && a.taskId != NO_ID && CheckPin(Mem(), a).None? && a.taskId in bindings
      modifies this`holders, this`issued, this`live
      ensures Valid()
      ensures var n := Pass(old(View()), a, lock, answer, true); View() == n.sys && reply == n.reply
      ensures HandsOut(a, reply, lease) && (lease != null ==> fresh(lease))
    {
      BindingsAreLive(factories, View(), a.taskId);
      KeptByPass(factories, View(), a, lock, answer, true);
      var id := bindings[a.taskId];
      if a.resourceId != NO_ID && a.resourceId != id { return Refused(PinConflict), null; }
      var held := CountHeld(id);
      if held != 0 { return Parked, null; }
      HoldSlot(id, a.taskId);
      lease := Issue(id, a.taskId);
      reply := Granted(pool[id], groups[pool[id].core.groupId]);
    }

    method UnboundPass(a: Assignment, lock: bool, answer: Answer<X>) returns (reply: Reply<X>, lease: Lease?<X>, ghost saved: bool)
      requires Valid() && a.taskId != NO_ID && CheckPin(Mem(), a).None? && a.taskId !in bindings
      modifies this`strategies, this`pool, this`bindings, this`holders, this`issued, this`live, repo
      ensures Valid()
      ensures var n := Pass(old(View()), a, lock, answer, saved); View() == n.sys && reply == n.reply
      ensures HandsOut(a, reply, lease) && (lease != null ==> fresh(lease))
      ensures repo.writes >= old(repo.writes) + (if saved then 0 else 1)
    {
      ghost var s := View();
      assert bindings - {a.taskId} == bindings;
      assert s.(mem := s.mem.(bindings := s.mem.bindings - {a.taskId})) == s;
      lease, saved := null, true;
      if a.groupId !in groups { return Refused(GroupNotFound), null, saved; }
      var members := MemberIds(a.groupId);
      if members == [] { return Refused(NoResources), null, saved; }
      reply, lease, saved := Rotate(a, lock, answer);
      KeptByPass(factories, s, a, lock, answer, saved);
    }

    /** Selects, then takes the pick; no candidate means wait. */
    method Rotate(a: Assignment, lock: bool, answer: Answer<X>) returns (reply: Reply<X>, lease: Lease?<X>, ghost saved: bool)
      requires OrderOk(order, pool) && PoolOk(pool, groups.Keys) && a.groupId in strategies && Counted(issued, live)
      modifies this`strategies, this`pool, this`bindings, this`holders, this`issued, this`live, repo
      ensures var n := Select(old(View()), a, lock, answer, saved); View() == n.sys && reply == n.reply
      ensures HandsOut(a, reply, lease) && (lease != null ==> fresh(lease)) && Counted(issued, live)
      ensures repo.writes >= old(repo.writes) + (if saved then 0 else 1)
    {
      ghost var m := Mem();
      lease, saved := null, true;
      var choice := SelectUnlocked(a, lock, answer);
      match choice
      case Nobody => reply := Parked;
      case Failed(e) => reply := Refused(e);
      case Chose(id) =>
        assert CandidatesFor(m, a, lock)[0] in CandidatesFor(m, a, lock);
        assert id in CandidatesFor(m, a, lock) && id in pool;
        reply, lease, saved := TakeChosen(id, a, lock);
    }

    /** Binds the pick durably first if asked to, then counts and issues the lease. */
    method TakeChosen(id: Id, a: Assignment, lock: bool) returns (reply: Reply<X>, lease: Lease?<X>, ghost saved: bool)
      requires id in pool && pool[id].core.id == id && pool[id].core.groupId in groups && Counted(issued, live)
      modifies this`pool, this`bindings, this`holders, this`issued, this`live, repo
      ensures var n := Take(old(View()), id, a.taskId, lock, saved); View() == n.sys && reply == n.reply
      ensures HandsOut(a, reply, lease) && (lease != null ==> fresh(lease)) && Counted(issued, live)
      ensures repo.writes >= old(repo.writes) + (if saved then 0 else 1)
    {
      saved := true;
      if lock {
        var p := WithOwner(pool[id], a.taskId);
        var ok := repo.Save(p);
        saved := ok;
        if !ok { return Refused(StoreFailed), null, saved; }
        pool, bindings := pool[id := p], bindings[a.taskId := id];
      }
      HoldSlot(id, a.taskId);
      lease := Issue(id, a.taskId);
      reply := Granted(pool[id], groups[pool[id].core.groupId]);
    }

    /** Other callers while this one sleeps on the condition variable: any operations at all. */
    method Wait() returns (ghost ops: seq<Op<X>>)
      requires Valid()
      modifies this, repo, issued
      ensures Valid() && old(issued) <= issued && fresh(issued - old(issued))
      ensures View() == Run(factories, old(View()), ops)
      ensures repo.writes >= old(repo.writes)
    {
      ops := [];
    }

    /** A pass, and the sleep it ends in if it parks. */
    method PassOrWait(a: Assignment, lock: bool, answer: Answer<X>)
      returns (reply: Reply<X>, lease: Lease?<X>, ghost saved: bool, ghost more: seq<Op<X>>)
      requires Valid() && a.taskId != NO_ID
      modifies this, repo, issued
      ensures Valid() && old(issued) <= issued && fresh(issued - old(issued))
      ensures reply.Parked? ==> Parks(old(View()).mem, a, lock) && View() == Run(factories, old(View()), more)
      ensures !reply.Parked? ==> var n := Pass(old(View()), a, lock, answer, saved); reply == n.reply && View() == n.sys
      ensures reply.Granted? <==> lease != null
      ensures lease != null ==> lease in issued && lease.resource == reply.record && lease.taskId == a.taskId && !lease.released
      ensures repo.writes >= old(repo.writes) + (if saved then 0 else 1)
    {
      more := [];
      reply, lease, saved := AcquirePass(a, lock, answer);
      ParksExactly(factories, old(View()), a, lock, answer, saved);
      if reply.Parked? { more := Wait(); }
    }

    /** What the last look at `last` came to, the k-th: out of patience, cancelled, or its pass's answer. */
    static ghost predicate Concluded(last: System<X>, k: nat, a: Assignment, lock: bool, answers: seq<Answer<X>>, cancels: seq<bool>,
                                     saved: bool, reply: Reply<X>, now: System<X>)
      requires k <= |answers| == |cancels|
    {
      if k == |answers| then reply == Parked && now == last
      else if cancels[k] then reply == Refused(Cancelled) && now == last
      else
        var n := Pass(last, a, lock, answers[k], saved);
        reply == n.reply && now == n.sys && !reply.Parked?
    }

    /** The blocking loop behind Acquire and Lock, for a caller who waits at most `patience` times;
        `cancels` says at which looks its context is done. `found` is the state at each look and
        `waits` what others did in between. */
    method Acquire(wanted: Assignment, lock: bool, patience: nat, answers: seq<Answer<X>>, cancels: seq<bool>)
      returns (reply: Reply<X>, lease: Lease?<X>, ghost found: seq<System<X>>, ghost waits: seq<seq<Op<X>>>, ghost saved: bool)
      requires Valid() && |answers| == patience && |cancels| == patience
      modifies this, repo, issued
      ensures Valid()
      ensures wanted.taskId == NO_ID ==> reply == Refused(TaskIdRequired) && View() == old(View())
      ensures wanted.taskId != NO_ID ==>
        var a := Assignment(wanted.taskId, OrGlobal(wanted.groupId), wanted.resourceId);
        && found != [] && found[0] == old(View()) && Slept(factories, found, waits, a, lock, cancels)
        && Concluded(found[|waits|], |waits|, a, lock, answers, cancels, saved, reply, View())
      ensures reply.Granted? <==> lease != null
      ensures lease != null ==> lease in issued && lease.resource == reply.record && lease.taskId == wanted.taskId && !lease.released
      ensures !saved ==> repo.writes > old(repo.writes)
    {
      reply, lease, found, waits, saved := Parked, null, [View()], [], true;
      if wanted.taskId == NO_ID { return Refused(TaskIdRequired), null, found, waits, saved; }
      var a := Placed(wanted);
      assert a == Assignment(wanted.taskId, OrGlobal(wanted.groupId), wanted.resourceId);
      var i := 0;
      while i < patience
        invariant 0 <= i <= patience && i == |waits|
        invariant Valid() && reply == Parked && lease == null
        invariant found != [] && found[0] == old(View()) && Slept(factories, found, waits, a, lock, cancels)
        invariant View() == found[i]
        invariant fresh(issued - old(issued)) && saved
        invariant repo.writes >= old(repo.writes)
      {
        if cancels[i] { return Refused(Cancelled), null, found, waits, saved; }
        ghost var more;
        reply, lease, saved, more := PassOrWait(a, lock, answers[i]);
        if !reply.Parked? { return; }
        saved := true;
        SleptLonger(factories, found, waits, more, a, lock, cancels);
        found, waits := found + [View()], waits + [more];
        i := i + 1;
      }
    }

    // -------------------------------------------------------------- locks

    /** Clears a durable lock and returns its resource to the rotation. */
    method DropLock(t: Id) returns (reply: Reply<X>, ghost saved: bool)
      requires Valid() && t in bindings
      modifies this`pool, this`bindings, this`broadcasts, repo
      ensures Valid()
      ensures
        var n := Unbind(old(View()), t, old(bindings)[t], saved);
        View() == n.sys && reply == n.reply && (broadcasts > old(broadcasts) <==> n.broadcast)
      ensures !saved ==> repo.writes > old(repo.writes)
    {
      var id := bindings[t];
      BindingsAreLive(factories, View(), t);
      KeptByUnbind(factories, View(), t, true);
      var p := WithOwner(pool[id], NO_ID);
      var ok := repo.Save(p);
      saved := ok;
      if !ok { return Refused(StoreFailed), saved; }
      pool, bindings := pool[id := p], bindings - {t};
      Broadcast();
      reply := Done;
    }

    method Unlock(t: Id) returns (reply: Reply<X>, ghost saved: bool)
      requires Valid()
      modifies this, repo
      ensures Valid() && issued == old(issued)
      ensures
        var n := LeasingModel.Unlock(old(View()), t, saved);
        View() == n.sys && reply == n.reply && (broadcasts > old(broadcasts) <==> n.broadcast)
      ensures !saved ==> repo.writes > old(repo.writes)
    {
      if t !in bindings { return Done, true; }
      reply, saved := DropLock(t);
    }

    method ReleaseStaleLock(a: Assignment) returns (reply: Reply<X>, ghost saved: bool)
      requires Valid()
      modifies this, repo
      ensures Valid() && issued == old(issued)
      ensures
        var n := LeasingModel.ReleaseStaleLock(old(View()), a, saved);
        View() == n.sys && reply == n.reply && (broadcasts > old(broadcasts) <==> n.broadcast)
      ensures !saved ==> repo.writes > old(repo.writes)
    {
      if a.taskId !in bindings { return Done, true; }
      var id := bindings[a.taskId];
      if id in pool && Fits(a, pool[id].core) { return Done, true; }
      reply, saved := DropLock(a.taskId);
    }

    // -------------------------------------------------------------- lease objects

    /** A lease object for a slot that has just been counted. */
    method Issue(id: Id, t: Id) returns (lease: Lease<X>)
      requires id in pool && pool[id].core.id == id && pool[id].core.groupId in groups && Counted(issued, live)
      modifies this`issued, this`live
      ensures fresh(lease) && issued == old(issued) + {lease} && live == old(live) + multiset{(id, t)}
      ensures lease.manager == this && lease.resource == pool[id] && lease.taskId == t && !lease.released
      ensures lease.group == groups[pool[id].core.groupId]
      ensures Counted(issued, live)
    {
      lease := new Lease(this, pool[id], groups[pool[id].core.groupId], t);
      ghost var before := issued;
      issued := issued + {lease};
      live := live + multiset{(id, t)};
      assert Open(issued, id, t) == Open(before, id, t) + {lease};
      forall r, u | (r, u) != (id, t) ensures Open(issued, r, u) == Open(before, r, u) {}
    }
  }
}
