/** What each call on the leasing manager comes to for its caller: when it is refused and why, and what
    a later acquire sees of it. */
module LeasingOutcomes {
  import opened Wrappers
  import opened LeasingModel
  import opened LeasingInvariant
  import opened LeasingAllocation
  import opened LeasingRotation

  function Allowed(maxHolders: int): int { if maxHolders == 0 then 1 else maxHolders }

  function OrGlobal(groupId: Id): Id { if groupId == NO_ID then GLOBAL_GROUP else groupId }

  function OrRoundRobin(strategy: Id): Id { if strategy == NO_ID then ROUND_ROBIN else strategy }

  // ---------------------------------------------------------------- acquiring

  /** A pin is refused exactly when its resource is not pooled, is in another group, or is locked by
      another task, in that order of reasons. */
  lemma PinAnswers<X>(fs: map<Id, Factory>, s: System<X>, a: Assignment, lock: bool, answer: Answer<X>, saved: bool)
    requires Inv(fs, s) && a.resourceId != NO_ID
    ensures
      var reply, r := Pass(s, a, lock, answer, saved).reply, a.resourceId;
      && (reply == Refused(ResourceNotFound) <==> r !in s.mem.pool)
      && (reply == Refused(ResourceNotInGroup) <==> r in s.mem.pool && s.mem.pool[r].core.groupId != a.groupId)
      && (reply == Refused(ResourceLocked) <==>
            r in s.mem.pool && s.mem.pool[r].core.groupId == a.groupId
            && s.mem.pool[r].core.ownerId != NO_ID && s.mem.pool[r].core.ownerId != a.taskId)
  {
  }

  lemma GroupHasMembers<X>(m: Memory<X>, g: Id)
    requires OrderOk(m.order, m.pool)
    ensures MembersOf(m, g) == [] <==> forall r :: r in m.pool ==> m.pool[r].core.groupId != g
  {
    var members := Members(m, m.order, g);
    MembersProperties(m, m.order, g);
    if members != [] {
      var r := members[0];
      assert r in members;
      assert r in m.pool && m.pool[r].core.groupId == g;
    }
  }

  /** An unbound, unpinned task is turned away exactly when its group does not exist or has no member. */
  lemma GroupAnswers<X>(fs: map<Id, Factory>, s: System<X>, a: Assignment, lock: bool, answer: Answer<X>, saved: bool)
    requires Inv(fs, s) && a.resourceId == NO_ID && a.taskId !in s.mem.bindings
    ensures
      var reply := Pass(s, a, lock, answer, saved).reply;
      && (reply == Refused(GroupNotFound) <==> a.groupId !in s.mem.groups)
      && (reply == Refused(NoResources) <==>
            a.groupId in s.mem.groups && forall r :: r in s.mem.pool ==> s.mem.pool[r].core.groupId != a.groupId)
  {
    GroupHasMembers(s.mem, a.groupId);
    assert s.mem.bindings - {a.taskId} == s.mem.bindings;
    assert s.(mem := s.mem.(bindings := s.mem.bindings - {a.taskId})) == s;
  }

  /** A sound pin of an unbound task is granted exactly while there is room: fewer live leases than the
      resource allows, one if it does not say and any number if it is unlimited; otherwise it waits. */
  lemma PinRoom<X>(fs: map<Id, Factory>, s: System<X>, a: Assignment, answer: Answer<X>, saved: bool)
    requires Inv(fs, s) && a.taskId != NO_ID && a.taskId !in s.mem.bindings && a.resourceId in s.mem.pool && a.resourceId != NO_ID
    requires s.mem.pool[a.resourceId].core.groupId == a.groupId && s.mem.pool[a.resourceId].core.ownerId == NO_ID
    ensures
      var n, max := Pass(s, a, false, answer, saved), s.mem.pool[a.resourceId].core.maxHolders;
      if max == UNLIMITED_HOLDERS || HeldCount(s.mem.holders, a.resourceId) < Allowed(max)
      then n.reply.Granted? && n.reply.record == s.mem.pool[a.resourceId] && n.sys.live == s.live + multiset{(a.resourceId, a.taskId)}
      else n.reply.Parked? && n.sys == s
  {
    PinAsks(fs, s, a, false, answer, saved);
    var cs := CandidatesFor(s.mem, a, false);
    assert cs != [] ==> cs[0] in cs;
    assert Eligible(s.mem, a, false, a.resourceId) ==> a.resourceId in cs;
  }

  lemma PinAsks<X>(fs: map<Id, Factory>, s: System<X>, a: Assignment, lock: bool, answer: Answer<X>, saved: bool)
    requires Inv(fs, s) && a.taskId !in s.mem.bindings && a.resourceId in s.mem.pool && a.resourceId != NO_ID
    requires s.mem.pool[a.resourceId].core.groupId == a.groupId && s.mem.pool[a.resourceId].core.ownerId == NO_ID
    ensures Pass(s, a, lock, answer, saved) == Select(s, a, lock, answer, saved)
  {
    MembersProperties(s.mem, s.mem.order, a.groupId);
    assert a.resourceId in MembersOf(s.mem, a.groupId);
    assert s.mem.bindings - {a.taskId} == s.mem.bindings;
    assert s.(mem := s.mem.(bindings := s.mem.bindings - {a.taskId})) == s;
  }

  /** A lock on it takes it only idle, and then is in the store, in memory and in the lease at once. */
  lemma PinLocks<X>(fs: map<Id, Factory>, s: System<X>, a: Assignment, answer: Answer<X>)
    requires Inv(fs, s) && a.taskId != NO_ID && a.taskId !in s.mem.bindings && a.resourceId in s.mem.pool && a.resourceId != NO_ID
    requires s.mem.pool[a.resourceId].core.groupId == a.groupId && s.mem.pool[a.resourceId].core.ownerId == NO_ID
    ensures
      var n, r := Pass(s, a, true, answer, true), a.resourceId;
      if r in s.mem.holders then n.reply.Parked? && n.sys == s
      else
        && n.reply.Granted? && n.reply.record.core.ownerId == a.taskId && n.reply.record.body == s.mem.pool[r].body
        && n.sys.mem.bindings == s.mem.bindings[a.taskId := r]
        && n.sys.mem.pool == s.mem.pool[r := n.reply.record] && n.sys.store.rows == s.store.rows[r := n.reply.record]
  {
    PinAsks(fs, s, a, true, answer, true);
    HeldNone(s.mem.holders, a.resourceId);
    var cs := CandidatesFor(s.mem, a, true);
    assert cs != [] ==> cs[0] in cs;
    assert Eligible(s.mem, a, true, a.resourceId) ==> a.resourceId in cs;
  }

  /** A bound task leases its own resource whatever group it names, one lease at a time. */
  lemma BoundRoom<X>(fs: map<Id, Factory>, s: System<X>, a: Assignment, lock: bool, answer: Answer<X>, saved: bool)
    requires Inv(fs, s) && a.taskId in s.mem.bindings && a.resourceId == NO_ID
    ensures
      var n, r := Pass(s, a, lock, answer, saved), s.mem.bindings[a.taskId];
      if r in s.mem.holders then n.reply.Parked? && n.sys == s
      else n.reply.Granted? && n.reply.record == s.mem.pool[r] && n.sys.mem.bindings == s.mem.bindings && n.sys.store == s.store
  {
    BindingsAreLive(fs, s, a.taskId);
    HeldNone(s.mem.holders, s.mem.bindings[a.taskId]);
  }

  /** The caps as records state them: over every run, no more leases live on one resource than it allows. */
  lemma CapsHold<X>(fs: map<Id, Factory>, s: System<X>, ops: seq<Op<X>>, r: Id, held: multiset<(Id, Id)>)
    requires Inv(fs, s)
    requires var n := Run(fs, s, ops); |held| > 0 && held <= n.live && forall x :: x in held ==> x.0 == r
    ensures var n := Run(fs, s, ops);
      && r in n.mem.pool
      && var max := n.mem.pool[r].core.maxHolders;
         max == UNLIMITED_HOLDERS || |held| <= Allowed(max)
  {
    AllocationIsSafe(fs, s, ops, r, held);
  }

  // ---------------------------------------------------------------- groups

  /** A group is created exactly under a new id, with a strategy that is registered, when its save lands;
      its rotation starts at the first candidate. Otherwise nothing changes. */
  lemma CreateGroupInstalls<X>(fs: map<Id, Factory>, s: System<X>, g: Group, saved: bool)
    requires Inv(fs, s)
    ensures
      var n := CreateGroup(fs, s, g, saved);
      if g.id != NO_ID && g.id !in s.mem.groups && OrRoundRobin(g.strategy) in fs && saved then
        && n.reply == Done
        && n.sys.mem == s.mem.(groups := s.mem.groups[g.id := g], strategies := n.sys.mem.strategies)
        && n.sys.store == s.store.(groups := s.store.groups[g.id := g])
        && n.sys.mem.strategies - {g.id} == s.mem.strategies
        && n.sys.mem.strategies[g.id] == if fs[OrRoundRobin(g.strategy)].BuiltIn? then RoundRobin(0) else Custom(0)
      else n.reply.Refused? && n.sys == s
  {
  }

  /** An edit takes exactly when the group is known, its strategy is registered and its save lands; it
      cannot rename the group. The rotation goes on if the strategy is the same, and starts afresh if not. */
  lemma UpdateGroupInstalls<X>(fs: map<Id, Factory>, s: System<X>, id: Id, edited: Group, saved: bool)
    requires Inv(fs, s)
    ensures
      var n := UpdateGroup(fs, s, id, edited, saved);
      if id in s.mem.groups && OrRoundRobin(edited.strategy) in fs && saved then
        && n.reply == Done
        && n.sys.mem == s.mem.(groups := s.mem.groups[id := edited.(id := id)], strategies := n.sys.mem.strategies)
        && n.sys.store == s.store.(groups := s.store.groups[id := edited.(id := id)])
        && n.sys.mem.strategies - {id} == s.mem.strategies - {id}
        && n.sys.mem.strategies[id] ==
             if OrRoundRobin(edited.strategy) == OrRoundRobin(s.mem.groups[id].strategy) then s.mem.strategies[id]
             else if fs[OrRoundRobin(edited.strategy)].BuiltIn? then RoundRobin(0) else Custom(0)
      else n.reply.Refused? && n.sys == s
  {
  }

  /** So the group's next grant is the one it would have been without the edit, unless the edit changes
      the strategy. */
  lemma EditKeepsItsTurn<X>(fs: map<Id, Factory>, s: System<X>, id: Id, edited: Group, saved: bool, a: Assignment, answer: Answer<X>)
    requires Inv(fs, s) && id in s.mem.groups && s.mem.strategies[id].RoundRobin?
    requires OrRoundRobin(edited.strategy) == OrRoundRobin(s.mem.groups[id].strategy)
    requires a.taskId != NO_ID && a.taskId !in s.mem.bindings && a.resourceId == NO_ID && a.groupId == id
    requires CandidatesFor(s.mem, a, false) != []
    ensures
      var n := UpdateGroup(fs, s, id, edited, saved).sys;
      var was, now := Pass(s, a, false, answer, true).reply, Pass(n, a, false, answer, true).reply;
      was.Granted? && now.Granted? && now.record == was.record
  {
    var n := UpdateGroup(fs, s, id, edited, saved).sys;
    KeptByApply(fs, s, UpdateGroupOp(id, edited, saved));
    UpdateGroupInstalls(fs, s, id, edited, saved);
    SameCandidates(s.mem, n.mem, s.mem.order, a, a, false);
    PassFollowsTheRotation(fs, s, a, false, answer, true);
    PassFollowsTheRotation(fs, n, a, false, answer, true);
    PassShape(fs, s, a, false, answer, true);
    PassShape(fs, n, a, false, answer, true);
  }

  /** A group is deleted exactly when it is known, is not the global one, and no member has a live lease;
      then the tasks reported are exactly those that lost their lock, even where a write stopped it. */
  lemma DeleteGroupReports<X>(fs: map<Id, Factory>, s: System<X>, id: Id, landed: nat, gone: bool)
    requires Inv(fs, s)
    ensures
      var n := DeleteGroup(s, id, landed, gone);
      && (n.reply == Refused(GlobalGroupProtected) <==> id == GLOBAL_GROUP)
      && (n.reply == Refused(GroupNotFound) <==> id != GLOBAL_GROUP && id !in s.mem.groups)
      && (n.reply == Refused(GroupInUse) <==>
            id != GLOBAL_GROUP && id in s.mem.groups
            && exists r :: r in s.mem.pool && s.mem.pool[r].core.groupId == id && r in s.mem.holders)
      && (n.reply.Refused? ==> n.sys == s)
      && (!n.reply.Refused? ==>
            && n.reply.Cascaded?
            && (forall t :: t in n.reply.unbound <==> t in s.mem.bindings && t !in n.sys.mem.bindings)
            && (n.reply.failure.None? <==> id !in n.sys.mem.groups)
            && (n.reply.failure.None? ==> forall r :: r in n.sys.mem.pool ==> n.sys.mem.pool[r].core.groupId != id))
  {
    var members := MembersOf(s.mem, id);
    MembersProperties(s.mem, s.mem.order, id);
    assert forall i :: 0 <= i < |members| ==> members[i] in members;
    if r :| r in s.mem.pool && s.mem.pool[r].core.groupId == id && r in s.mem.holders {
      assert r in members;
      var i :| 0 <= i < |members| && members[i] == r;
    }
    if id != GLOBAL_GROUP && id in s.mem.groups && !AnyHeld(s.mem, members) {
      var k := if landed < |members| then landed else |members|;
      assert k == |members| ==> members[..k] == members;
      CascadeMembers(fs, s, id, k);
      KeptByRemoveAll(fs, s, members[..k]);
      OwnersLoseTheirLocks(fs, s, members[..k]);
    }
  }

  /** A cascade goes through the members in the pool's order, and reports their owners in that order. */
  lemma {:induction false} MembersInOrder<X>(m: Memory<X>, order: seq<Id>, g: Id) returns (at: seq<int>)
    ensures var members := Members(m, order, g);
      && |at| == |members|
      && (forall p :: 0 <= p < |at| ==> 0 <= at[p] < |order| && order[at[p]] == members[p])
      && (forall p, q :: 0 <= p < q < |at| ==> at[p] < at[q])
  {
    if order == [] { return []; }
    var id := order[|order| - 1];
    at := MembersInOrder(m, order[..|order| - 1], g);
    if id in m.pool && m.pool[id].core.groupId == g { at := at + [|order| - 1]; }
  }

  lemma {:induction false} OwnersInOrder<X>(m: Memory<X>, ids: seq<Id>) returns (at: seq<int>)
    ensures var owners := Owners(m, ids);
      && |at| == |owners|
      && (forall p :: 0 <= p < |at| ==> 0 <= at[p] < |ids| && ids[at[p]] in m.pool && m.pool[ids[at[p]]].core.ownerId == owners[p])
      && (forall p, q :: 0 <= p < q < |at| ==> at[p] < at[q])
  {
    if ids == [] { return []; }
    var id := ids[|ids| - 1];
    at := OwnersInOrder(m, ids[..|ids| - 1]);
    if id in m.pool && m.pool[id].core.ownerId != NO_ID { at := at + [|ids| - 1]; }
  }

  /** Removing members unbinds exactly their owners. */
  lemma {:induction false} OwnersLoseTheirLocks<X>(fs: map<Id, Factory>, s: System<X>, ids: seq<Id>)
    requires Inv(fs, s)
    requires forall i, j :: 0 <= i < j < |ids| ==> ids[i] != ids[j]
    requires forall id :: id in ids ==> id in s.mem.pool && id !in s.mem.holders
    ensures forall t :: t in Owners(s.mem, ids) <==> t in s.mem.bindings && t !in RemoveAll(s, ids).mem.bindings
  {
    if ids != [] {
      var init, id := ids[..|ids| - 1], ids[|ids| - 1];
      assert ids == init + [id] && id !in init;
      OwnersLoseTheirLocks(fs, s, init);
      KeptByRemoveAll(fs, s, init);
      BindingsShrink(s, init);
    }
  }

  // ---------------------------------------------------------------- resources

  /** A resource is added exactly under a new id, unlocked, with a valid cap, to a group that exists, when
      its save lands: at the end of the order, as it was given, in the global group if it names none. */
  lemma AddInstalls<X>(fs: map<Id, Factory>, s: System<X>, p: Record<X>, saved: bool)
    requires Inv(fs, s)
    ensures
      var n, c := Add(s, p, saved), p.core;
      var q := Record(Resource(c.id, OrGlobal(c.groupId), NO_ID, c.maxHolders), p.body);
      if c.id != NO_ID && c.id !in s.mem.pool && c.ownerId == NO_ID && c.maxHolders >= -1 && OrGlobal(c.groupId) in s.mem.groups && saved then
        && n.reply == Done && n.broadcast
        && n.sys.mem == s.mem.(pool := s.mem.pool[c.id := q], order := s.mem.order + [c.id])
        && n.sys.store == s.store.(rows := s.store.rows[c.id := q])
      else n.reply.Refused? && n.sys == s
  {
  }

  /** What was added can be acquired at once, by anyone who pins it. */
  lemma AddedIsGranted<X>(fs: map<Id, Factory>, s: System<X>, p: Record<X>, t: Id, answer: Answer<X>)
    requires Inv(fs, s) && Add(s, p, true).reply == Done && t != NO_ID && t !in s.mem.bindings
    ensures
      var n := Pass(Add(s, p, true).sys, Assignment(t, OrGlobal(p.core.groupId), p.core.id), false, answer, true);
      && n.reply.Granted? && n.reply.record.core.id == p.core.id && n.reply.record.body == p.body
      && n.reply.record.core.maxHolders == p.core.maxHolders && n.reply.group == s.mem.groups[OrGlobal(p.core.groupId)]
  {
    var n := Add(s, p, true).sys;
    AddInstalls(fs, s, p, true);
    KeptByAdd(fs, s, p, true);
    HeldNone(s.mem.holders, p.core.id);
    PinRoom(fs, n, Assignment(t, OrGlobal(p.core.groupId), p.core.id), answer, true);
    PassShape(fs, n, Assignment(t, OrGlobal(p.core.groupId), p.core.id), false, answer, true);
  }

  /** A delete is refused exactly under a live lease; when it lands the resource is gone from memory and
      store, and the tasks reported are exactly those that lost their lock. */
  lemma DeleteReports<X>(fs: map<Id, Factory>, s: System<X>, id: Id, deleted: bool)
    requires Inv(fs, s)
    ensures
      var n := Delete(s, id, deleted);
      && (n.reply == Refused(ResourceInUse) <==> exists t :: s.live[(id, t)] > 0)
      && (n.reply.Refused? ==> n.sys == s)
      && (n.reply.Unbound? <==> deleted && forall t :: s.live[(id, t)] == 0)
      && (n.reply.Unbound? ==>
            && n.sys.mem.pool == s.mem.pool - {id} && n.sys.store.rows == s.store.rows - {id}
            && (forall t :: t in n.reply.tasks <==> t in s.mem.bindings && t !in n.sys.mem.bindings)
            && |n.reply.tasks| <= 1)
  {
    forall t ensures s.live[(id, t)] == Holding(s.mem.holders, id, t) {}
    if id in s.mem.holders {
      InhabitedMap(s.mem.holders[id]);
      var t :| t in s.mem.holders[id];
      assert s.live[(id, t)] > 0;
    }
    assert id !in s.mem.pool ==> s.mem.pool - {id} == s.mem.pool;
  }

  /** An update changes the body and nothing else. */
  lemma UpdateInstalls<X>(fs: map<Id, Factory>, s: System<X>, id: Id, edited: Record<X>, saved: bool)
    requires Inv(fs, s)
    ensures
      var n := Update(s, id, edited, saved);
      if id in s.mem.pool && saved then
        var q := Record(s.mem.pool[id].core, edited.body);
        && n.reply == Done
        && n.sys.mem == s.mem.(pool := s.mem.pool[id := q]) && n.sys.store == s.store.(rows := s.store.rows[id := q])
      else n.reply.Refused? && n.sys == s
  {
  }

  // ---------------------------------------------------------------- locks

  /** An unlock that lands gives the resource back to everyone: any other task that pins it, while it is
      idle, is granted it next. */
  lemma UnlockedIsGranted<X>(fs: map<Id, Factory>, s: System<X>, t: Id, u: Id, answer: Answer<X>)
    requires Inv(fs, s) && t in s.mem.bindings && s.mem.bindings[t] !in s.mem.holders
    requires u != NO_ID && (u == t || u !in s.mem.bindings) && s.mem.bindings[t] != NO_ID
    ensures
      var r, n := s.mem.bindings[t], Unlock(s, t, true);
      var a := Assignment(u, s.mem.pool[r].core.groupId, r);
      && n.reply == Done && n.broadcast && n.sys.mem.bindings == s.mem.bindings - {t}
      && n.sys.store.rows[r].core.ownerId == NO_ID
      && Pass(n.sys, a, false, answer, true).reply.Granted?
      && (u != t ==> Pass(s, a, false, answer, true).reply == Refused(ResourceLocked))
  {
    var r, n := s.mem.bindings[t], Unlock(s, t, true).sys;
    BindingsAreLive(fs, s, t);
    KeptByUnbind(fs, s, t, true);
    HeldNone(s.mem.holders, r);
    PinRoom(fs, n, Assignment(u, s.mem.pool[r].core.groupId, r), answer, true);
    PinAnswers(fs, s, Assignment(u, s.mem.pool[r].core.groupId, r), false, answer, true);
  }

  /** Unlocking again, or without a lock, is a success that does nothing and wakes nobody. */
  lemma SecondUnlockIsNothing<X>(fs: map<Id, Factory>, s: System<X>, t: Id, saved: bool)
    requires Inv(fs, s)
    ensures var n := Unlock(s, t, true).sys; Unlock(n, t, saved) == Step(n, Done, false)
  {
  }

  /** The placement fits the task's lock, if it has one: its pin is the locked resource, or, unpinned, its
      group is the locked resource's. */
  ghost predicate Suits<X>(m: Memory<X>, a: Assignment) {
    a.taskId in m.bindings ==>
      && m.bindings[a.taskId] in m.pool
      && if a.resourceId != NO_ID then m.bindings[a.taskId] == a.resourceId
         else a.groupId != NO_ID && m.pool[m.bindings[a.taskId]].core.groupId == a.groupId
  }

  /** Reassigning leaves the lock exactly if the placement fits it; if not, it is gone from memory and
      store, and waiters are woken. */
  lemma StaleLockGoes<X>(fs: map<Id, Factory>, s: System<X>, a: Assignment)
    requires Inv(fs, s)
    ensures var n := ReleaseStaleLock(s, a, true);
      && n.reply == Done
      && (if Suits(s.mem, a) then n.sys == s
          else a.taskId !in n.sys.mem.bindings && n.broadcast && n.sys.store.rows[s.mem.bindings[a.taskId]].core.ownerId == NO_ID)
  {
    if a.taskId in s.mem.bindings { BindingsAreLive(fs, s, a.taskId); }
  }

  lemma CascadeLeavesTheRest<X>(fs: map<Id, Factory>, s: System<X>, id: Id, landed: nat, gone: bool)
    requires Inv(fs, s)
    ensures var n := DeleteGroup(s, id, landed, gone).sys.mem;
      && (forall t :: t in n.bindings ==> t in s.mem.bindings && n.bindings[t] == s.mem.bindings[t])
      && (forall r :: r in n.pool ==> r in s.mem.pool && n.pool[r] == s.mem.pool[r])
  {
    var members := MembersOf(s.mem, id);
    if id != GLOBAL_GROUP && id in s.mem.groups && !AnyHeld(s.mem, members) {
      var k := if landed < |members| then landed else |members|;
      CascadeMembers(fs, s, id, k);
      assert k == |members| ==> members[..k] == members;
      KeptByRemoveAll(fs, s, members[..k]);
      BindingsShrink(s, members[..k]);
    }
  }

  /** What an operation leaves of a task's lock and of the groups, short of the task locking again. */
  lemma LocksStay<X>(fs: map<Id, Factory>, s: System<X>, op: Op<X>, t: Id)
    requires Inv(fs, s) && Enabled(s, op) && !LocksFor(op, t)
    ensures var n := Apply(fs, s, op).sys.mem;
      && (t in n.bindings ==> t in s.mem.bindings && n.bindings[t] == s.mem.bindings[t])
      && (forall r :: r in n.pool && r in s.mem.pool ==> n.pool[r].core.groupId == s.mem.pool[r].core.groupId)
  {
    match op
    case DeleteGroupOp(id, landed, gone) => CascadeLeavesTheRest(fs, s, id, landed, gone);
    case PassOp(b, lock, answer, saved) => PassLeavesOthers(fs, s, b, lock, answer, saved);
    case _ =>
  }

  lemma PassLeavesOthers<X>(fs: map<Id, Factory>, s: System<X>, b: Assignment, lock: bool, answer: Answer<X>, saved: bool)
    requires Inv(fs, s) && b.taskId != NO_ID
    ensures var n := Pass(s, b, lock, answer, saved).sys.mem;
      && (forall t :: t in n.bindings && !(lock && t == b.taskId) ==> t in s.mem.bindings && n.bindings[t] == s.mem.bindings[t])
      && (forall r :: r in n.pool ==> r in s.mem.pool && n.pool[r].core.groupId == s.mem.pool[r].core.groupId)
  {
    if Pass(s, b, lock, answer, saved).reply.Granted? {
      PassShape(fs, s, b, lock, answer, saved);
    } else {
      NoGrantNoLease(fs, s, b, lock, answer, saved);
    }
  }

  lemma SuitsKept<X>(fs: map<Id, Factory>, s: System<X>, op: Op<X>, a: Assignment)
    requires Inv(fs, s) && Enabled(s, op) && Suits(s.mem, a) && !LocksFor(op, a.taskId)
    ensures Suits(Apply(fs, s, op).sys.mem, a)
  {
    LocksStay(fs, s, op, a.taskId);
    KeptByApply(fs, s, op);
    var n := Apply(fs, s, op).sys;
    if a.taskId in n.mem.bindings { BindingsAreLive(fs, n, a.taskId); }
  }

  /** From then on, whatever else happens until the task locks again, everything it is granted under that
      placement is its pin, or is in its group. */
  lemma {:induction false} ReassignedGrantsFit<X>(fs: map<Id, Factory>, s: System<X>, a: Assignment, saved: bool, ops: seq<Op<X>>,
                                                  lock: bool, answer: Answer<X>, landed: bool)
    requires Inv(fs, s) && a.taskId != NO_ID && ReleaseStaleLock(s, a, saved).reply == Done
    requires forall i :: 0 <= i < |ops| ==> !LocksFor(ops[i], a.taskId)
    ensures
      var n := Run(fs, ReleaseStaleLock(s, a, saved).sys, ops);
      var reply := Pass(n, Assignment(a.taskId, OrGlobal(a.groupId), a.resourceId), lock, answer, landed).reply;
      && Inv(fs, n) && Suits(n.mem, a)
      && (reply.Granted? ==>
            && reply.record.core.groupId == OrGlobal(a.groupId)
            && (a.resourceId != NO_ID ==> reply.record.core.id == a.resourceId))
    decreases |ops|
  {
    var first := ReleaseStaleLock(s, a, saved).sys;
    assert Apply(fs, s, ReleaseStaleLockOp(a, saved)).sys == first;
    KeptByApply(fs, s, ReleaseStaleLockOp(a, saved));
    if ops == [] {
      if a.taskId in s.mem.bindings { BindingsAreLive(fs, s, a.taskId); }
    } else {
      var init, op := ops[..|ops| - 1], ops[|ops| - 1];
      ReassignedGrantsFit(fs, s, a, saved, init, lock, answer, landed);
      var before := Run(fs, first, init);
      if Enabled(before, op) {
        KeptByApply(fs, before, op);
        SuitsKept(fs, before, op, a);
      }
    }
    GrantFits(fs, Run(fs, first, ops), a, lock, answer, landed);
  }

  lemma GrantFits<X>(fs: map<Id, Factory>, s: System<X>, a: Assignment, lock: bool, answer: Answer<X>, landed: bool)
    requires Inv(fs, s) && a.taskId != NO_ID && Suits(s.mem, a)
    ensures
      var reply := Pass(s, Assignment(a.taskId, OrGlobal(a.groupId), a.resourceId), lock, answer, landed).reply;
      reply.Granted? ==>
        && reply.record.core.groupId == OrGlobal(a.groupId)
        && (a.resourceId != NO_ID ==> reply.record.core.id == a.resourceId)
  {
    var b := Assignment(a.taskId, OrGlobal(a.groupId), a.resourceId);
    if Pass(s, b, lock, answer, landed).reply.Granted? {
      GrantIsAllowed(fs, s, b, lock, answer, landed);
      if a.resourceId != NO_ID { PinAnswers(fs, s, b, lock, answer, landed); }
      PassShape(fs, s, b, lock, answer, landed);
    }
  }
}
