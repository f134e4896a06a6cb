/** What a grant may be, what a live lease protects, and when a lock conflicts with a pin. */
module LeasingAllocation {
  import opened LeasingModel
  import opened LeasingInvariant

  // ---------------------------------------------------------------- grants

  /** An unbound task's pass is its selection once the pin and the group have been checked. */
  lemma UnboundPass<X>(s: System<X>, a: Assignment, lock: bool, answer: Answer<X>, saved: bool)
    requires a.taskId !in s.mem.bindings
    ensures var n := Pass(s, a, lock, answer, saved);
      n == Select(s, a, lock, answer, saved) || (n.sys == s && n.reply.Refused? && !n.broadcast)
  {
    assert s.mem.bindings - {a.taskId} == s.mem.bindings;
    assert s.(mem := s.mem.(bindings := s.mem.bindings - {a.taskId})) == s;
  }

  lemma BoundPass<X>(s: System<X>, a: Assignment, lock: bool, answer: Answer<X>, saved: bool)
    requires a.taskId in s.mem.bindings && s.mem.bindings[a.taskId] in s.mem.pool
    ensures var n := Pass(s, a, lock, answer, saved);
      n == Grant(s, s.mem.bindings[a.taskId], a.taskId) || (n.sys == s && !n.reply.Granted?)
  {
  }

  lemma TakeKeeps<X>(s: System<X>, id: Id, t: Id, lock: bool, saved: bool)
    requires id in s.mem.pool
    ensures var n := Take(s, id, t, lock, saved).sys.mem; n.pool.Keys == s.mem.pool.Keys && n.strategies == s.mem.strategies
  {
  }

  lemma SelectKeeps<X>(s: System<X>, a: Assignment, lock: bool, answer: Answer<X>, saved: bool)
    ensures var n := Select(s, a, lock, answer, saved).sys.mem;
      && n.pool.Keys == s.mem.pool.Keys
      && (n.strategies == s.mem.strategies
          || (a.resourceId == NO_ID && a.groupId in s.mem.strategies
              && n.strategies == s.mem.strategies[a.groupId := Advanced(s.mem.strategies[a.groupId])])
          || a.groupId !in s.mem.strategies)
  {
    var candidates := CandidatesFor(s.mem, a, lock);
    assert forall id :: id in candidates ==> id in s.mem.pool;
    if candidates != [] {
      if a.resourceId != NO_ID {
        assert candidates[0] in candidates;
        TakeKeeps(s, candidates[0], a.taskId, lock, saved);
      } else if a.groupId in s.mem.strategies {
        var sel := s.mem.strategies[a.groupId];
        var asked := s.(mem := s.mem.(strategies := s.mem.strategies[a.groupId := Advanced(sel)]));
        match Chosen(sel, candidates, answer)
        case None =>
        case Some(id) =>
          if id in candidates { TakeKeeps(asked, id, a.taskId, lock, saved); }
      }
    }
  }

  lemma SelectGrant<X>(s: System<X>, a: Assignment, lock: bool, answer: Answer<X>, saved: bool) returns (id: Id)
    requires Select(s, a, lock, answer, saved).reply.Granted?
    ensures Eligible(s.mem, a, lock, id)
    ensures var n := Select(s, a, lock, answer, saved);
      n == Take(s.(mem := s.mem.(strategies := n.sys.mem.strategies)), id, a.taskId, lock, saved)
  {
    var n := Select(s, a, lock, answer, saved);
    var candidates := CandidatesFor(s.mem, a, lock);
    assert candidates[0] in candidates;
    if a.resourceId != NO_ID {
      id := candidates[0];
      assert s.(mem := s.mem.(strategies := n.sys.mem.strategies)) == s;
    } else {
      var sel := if a.groupId in s.mem.strategies then s.mem.strategies[a.groupId] else Fresh(BuiltIn);
      id := Chosen(sel, candidates, answer).value;
    }
  }

  /** A granting pass is a grant, after a binding where it locked, up to the group's rotation. */
  lemma PassShape<X>(fs: map<Id, Factory>, s: System<X>, a: Assignment, lock: bool, answer: Answer<X>, saved: bool)
    requires Inv(fs, s) && a.taskId != NO_ID && Pass(s, a, lock, answer, saved).reply.Granted?
    ensures var n := Pass(s, a, lock, answer, saved);
      var id := n.reply.record.core.id;
      var bind := lock && a.taskId !in s.mem.bindings;
      && id in s.mem.pool
      && (a.taskId in s.mem.bindings ==> id == s.mem.bindings[a.taskId] && HeldCount(s.mem.holders, id) == 0)
      && (a.taskId !in s.mem.bindings ==> Eligible(s.mem, a, lock, id))
      && var g := Grant(if bind then Bind(s, id, a.taskId) else s, id, a.taskId);
         n == g.(sys := g.sys.(mem := g.sys.mem.(strategies := n.sys.mem.strategies)))
  {
    if a.taskId in s.mem.bindings {
      BindingsAreLive(fs, s, a.taskId);
    } else {
      UnboundPass(s, a, lock, answer, saved);
      var id := SelectGrant(s, a, lock, answer, saved);
      assert s.mem.pool[id].core.id == id;
    }
  }

  /** Every grant is the task's bound resource, else its pin, else an unlocked under-cap
      member of the assigned group; a lock also needs it idle and is durable before it is handed out. */
  lemma GrantIsAllowed<X>(fs: map<Id, Factory>, s: System<X>, a: Assignment, lock: bool, answer: Answer<X>, saved: bool)
    requires Inv(fs, s) && a.taskId != NO_ID
    requires Pass(s, a, lock, answer, saved).reply.Granted?
    ensures
      var n := Pass(s, a, lock, answer, saved);
      var id := n.reply.record.core.id;
      && id in s.mem.pool
      && (a.resourceId != NO_ID ==> id == a.resourceId)
      && (if a.taskId in s.mem.bindings then
            id == s.mem.bindings[a.taskId] && HeldCount(s.mem.holders, id) == 0
          else
            && s.mem.pool[id].core.groupId == a.groupId
            && s.mem.pool[id].core.ownerId == NO_ID
            && UnderCap(s.mem, id)
            && (lock ==> HeldCount(s.mem.holders, id) == 0
                         && a.taskId in n.sys.mem.bindings && n.sys.mem.bindings[a.taskId] == id
                         && n.sys.store.rows[id].core.ownerId == a.taskId)
            && (!lock ==> n.sys.mem.bindings == s.mem.bindings && n.sys.store == s.store))
      && n.reply.record == n.sys.mem.pool[id]
      && n.reply.group == s.mem.groups[s.mem.pool[id].core.groupId]
      && n.sys.live == s.live + multiset{(id, a.taskId)}
  {
    PassShape(fs, s, a, lock, answer, saved);
  }

  /** A pass that grants nothing hands out nothing and binds nothing. */
  lemma NoGrantNoLease<X>(fs: map<Id, Factory>, s: System<X>, a: Assignment, lock: bool, answer: Answer<X>, saved: bool)
    requires Inv(fs, s) && !Pass(s, a, lock, answer, saved).reply.Granted?
    ensures var n := Pass(s, a, lock, answer, saved).sys;
      n == s.(mem := s.mem.(strategies := n.mem.strategies))
  {
    if a.taskId !in s.mem.bindings { UnboundPass(s, a, lock, answer, saved); }
  }

  /** The rotation of a group moves only for an unpinned pass of an unbound task in that very group. */
  lemma OnlyOwnRotationMoves<X>(fs: map<Id, Factory>, s: System<X>, a: Assignment, lock: bool, answer: Answer<X>, saved: bool, g: Id)
    requires Inv(fs, s) && g in s.mem.strategies
    ensures var n := Pass(s, a, lock, answer, saved).sys.mem.strategies;
      && g in n
      && (g != a.groupId || a.resourceId != NO_ID || a.taskId in s.mem.bindings ==> n[g] == s.mem.strategies[g])
      && (n[g] == s.mem.strategies[g] || n[g] == Advanced(s.mem.strategies[g]))
  {
    if a.taskId in s.mem.bindings {
      BindingsAreLive(fs, s, a.taskId);
      BoundPass(s, a, lock, answer, saved);
    } else if a.groupId in s.mem.groups {
      UnboundPass(s, a, lock, answer, saved);
      SelectKeeps(s, a, lock, answer, saved);
    }
  }

  // ---------------------------------------------------------------- caps and locks, on the leases themselves

  lemma {:induction false} LeasesWithinTable(table: map<Id, nat>, held: multiset<(Id, Id)>, r: Id)
    requires forall x :: x in held ==> x.0 == r
    requires forall t :: held[(r, t)] <= (if t in table then table[t] else 0)
    ensures |held| <= Total(table)
    decreases |held|
  {
    if |held| != 0 {
      var x :| x in held;
      var t := x.1;
      assert x == (r, t);
      var rest := held[x := 0];
      TotalPick(table, t);
      assert held == rest + multiset{x}[x := held[x]];
      assert |rest| == |held| - held[x];
      LeasesWithinTable(table - {t}, rest, r);
    }
  }

  /** However they are picked out, the unreleased leases on one resource never exceed its
      cap, and on a durably locked one there is at most one, its owner's. */
  lemma LeasesRespectCapsAndLocks<X>(fs: map<Id, Factory>, s: System<X>, r: Id, held: multiset<(Id, Id)>)
    requires Inv(fs, s) && held <= s.live && (forall x :: x in held ==> x.0 == r)
    requires |held| > 0
    ensures r in s.mem.pool
    ensures EffectiveCap(s.mem.pool[r].core) != UNLIMITED_HOLDERS ==> |held| <= EffectiveCap(s.mem.pool[r].core)
    ensures s.mem.pool[r].core.ownerId != NO_ID ==> held == multiset{(r, s.mem.pool[r].core.ownerId)}
  {
    var x :| x in held;
    assert s.live[(r, x.1)] == Holding(s.mem.holders, r, x.1) > 0;
    var table := s.mem.holders[r];
    forall t ensures held[(r, t)] <= (if t in table then table[t] else 0) {
      assert held[(r, t)] <= s.live[(r, t)] == Holding(s.mem.holders, r, t);
    }
    LeasesWithinTable(table, held, r);
    var owner := s.mem.pool[r].core.ownerId;
    if owner != NO_ID {
      assert table == map[owner := 1];
      forall y | y in held ensures y == (r, owner) && held[y] == 1 {
        assert y == (r, y.1);
        assert held[(r, y.1)] <= (if y.1 in table then table[y.1] else 0);
      }
      assert held == multiset{(r, owner)};
    }
  }

  /** Allocation safety over every run: the two facts above hold wherever operations lead. */
  lemma AllocationIsSafe<X>(fs: map<Id, Factory>, s: System<X>, ops: seq<Op<X>>, r: Id, held: multiset<(Id, Id)>)
    requires Inv(fs, s)
    ensures var n := Run(fs, s, ops);
      |held| > 0 && held <= n.live && (forall x :: x in held ==> x.0 == r) ==>
        && r in n.mem.pool
        && (EffectiveCap(n.mem.pool[r].core) != UNLIMITED_HOLDERS ==> |held| <= EffectiveCap(n.mem.pool[r].core))
        && (n.mem.pool[r].core.ownerId != NO_ID ==> held == multiset{(r, n.mem.pool[r].core.ownerId)})
  {
    var n := Run(fs, s, ops);
    RunKeepsInv(fs, s, ops);
    if |held| > 0 && held <= n.live && forall x :: x in held ==> x.0 == r {
      LeasesRespectCapsAndLocks(fs, n, r, held);
    }
  }

  lemma PassKeepsPool<X>(fs: map<Id, Factory>, s: System<X>, a: Assignment, lock: bool, answer: Answer<X>, saved: bool)
    requires Inv(fs, s)
    ensures Pass(s, a, lock, answer, saved).sys.mem.pool.Keys == s.mem.pool.Keys
  {
    if a.taskId in s.mem.bindings {
      BindingsAreLive(fs, s, a.taskId);
      BoundPass(s, a, lock, answer, saved);
    } else {
      UnboundPass(s, a, lock, answer, saved);
      SelectKeeps(s, a, lock, answer, saved);
    }
  }

  lemma RemovedOrAddedIdle<X>(fs: map<Id, Factory>, s: System<X>, op: Op<X>, r: Id)
    requires Inv(fs, s) && Enabled(s, op)
    requires r in s.mem.pool <==> r !in Apply(fs, s, op).sys.mem.pool
    ensures r !in s.mem.holders && Apply(fs, s, op).sys.live == s.live
  {
    match op
    case DeleteGroupOp(id, landed, gone) =>
      var members := MembersOf(s.mem, id);
      if id != GLOBAL_GROUP && id in s.mem.groups && !AnyHeld(s.mem, members) {
        var k := if landed < |members| then landed else |members|;
        CascadeMembers(fs, s, id, k);
        assert k == |members| ==> members[..k] == members;
        KeptByRemoveAll(fs, s, members[..k]);
      }
    case PassOp(a, lock, answer, saved) => PassKeepsPool(fs, s, a, lock, answer, saved);
    case _ =>
  }

  /** No operation removes a resource under a live lease, and one added (again) starts unheld:
      a stale lease can neither outlive its resource nor count against a successor of its id. */
  lemma LiveLeaseProtects<X>(fs: map<Id, Factory>, s: System<X>, op: Op<X>, r: Id, t: Id)
    requires Inv(fs, s) && Enabled(s, op)
    requires r in s.mem.pool <==> r !in Apply(fs, s, op).sys.mem.pool
    ensures s.live[(r, t)] == 0 && Apply(fs, s, op).sys.live[(r, t)] == 0
  {
    RemovedOrAddedIdle(fs, s, op, r);
    assert s.live[(r, t)] == Holding(s.mem.holders, r, t);
  }

  // ---------------------------------------------------------------- pins against locks

  /** The task's durable lock, if any, agrees with the placement. */
  predicate Agrees<X>(m: Memory<X>, a: Assignment) {
    a.taskId in m.bindings && a.resourceId != NO_ID ==> m.bindings[a.taskId] == a.resourceId
  }

  /** A pass reports a pin conflict exactly when the pin is sound but the task's lock names another resource. */
  lemma PinConflictExactly<X>(fs: map<Id, Factory>, s: System<X>, a: Assignment, lock: bool, answer: Answer<X>, saved: bool)
    requires Inv(fs, s)
    ensures Pass(s, a, lock, answer, saved).reply == Refused(PinConflict)
            <==> CheckPin(s.mem, a).None? && !Agrees(s.mem, a)
  {
  }

  predicate LocksFor<X>(op: Op<X>, t: Id) {
    op.PassOp? && op.lock && op.a.taskId == t
  }

  lemma AgreementKept<X>(fs: map<Id, Factory>, s: System<X>, op: Op<X>, a: Assignment)
    requires Inv(fs, s) && Enabled(s, op) && Agrees(s.mem, a) && !LocksFor(op, a.taskId)
    ensures Agrees(Apply(fs, s, op).sys.mem, a)
  {
    match op
    case DeleteGroupOp(id, landed, gone) =>
      var members := MembersOf(s.mem, id);
      BindingsShrink(s, members);
      if landed < |members| { BindingsShrink(s, members[..landed]); }
    case PassOp(b, lock, answer, saved) => AgreementKeptByPass(fs, s, b, lock, answer, saved, a);
    case _ =>
  }

  lemma AgreementKeptByPass<X>(fs: map<Id, Factory>, s: System<X>, b: Assignment, lock: bool, answer: Answer<X>, saved: bool,
                               a: Assignment)
    requires Inv(fs, s) && b.taskId != NO_ID && Agrees(s.mem, a) && !(lock && b.taskId == a.taskId)
    ensures Agrees(Pass(s, b, lock, answer, saved).sys.mem, a)
  {
    if Pass(s, b, lock, answer, saved).reply.Granted? {
      PassShape(fs, s, b, lock, answer, saved);
    } else {
      NoGrantNoLease(fs, s, b, lock, answer, saved);
    }
  }

  lemma {:induction false} BindingsShrink<X>(s: System<X>, ids: seq<Id>)
    ensures forall t :: t in RemoveAll(s, ids).mem.bindings ==>
      t in s.mem.bindings && RemoveAll(s, ids).mem.bindings[t] == s.mem.bindings[t]
  {
    if ids != [] { BindingsShrink(s, ids[..|ids| - 1]); }
  }

  /** ReleaseStaleLock keeps the lock exactly when the placement fits the locked resource. */
  lemma StaleLockKeptExactlyWhenItFits<X>(fs: map<Id, Factory>, s: System<X>, a: Assignment)
    requires Inv(fs, s) && a.taskId in s.mem.bindings
    ensures var n := ReleaseStaleLock(s, a, true);
      && n.reply == Done
      && (a.taskId in n.sys.mem.bindings <==> Fits(a, s.mem.pool[s.mem.bindings[a.taskId]].core))
      && (a.taskId in n.sys.mem.bindings ==> n.sys == s)
      && (a.taskId !in n.sys.mem.bindings ==>
            && n.broadcast
            && n.sys.live == s.live
            && n.sys.store.rows[s.mem.bindings[a.taskId]].core.ownerId == NO_ID)
  {
    BindingsAreLive(fs, s, a.taskId);
  }

  /** Reassignment resolves the conflict: once it has returned, no pass under that placement
      reports one, whatever else happens, until the task locks again. */
  lemma {:induction false} ReassignmentEndsConflicts<X>(fs: map<Id, Factory>, s: System<X>, a: Assignment, saved: bool,
                                                        ops: seq<Op<X>>, lock: bool, answer: Answer<X>, landed: bool)
    requires Inv(fs, s) && ReleaseStaleLock(s, a, saved).reply == Done
    requires forall i :: 0 <= i < |ops| ==> !LocksFor(ops[i], a.taskId)
    ensures
      var n := Run(fs, ReleaseStaleLock(s, a, saved).sys, ops);
      Inv(fs, n) && Agrees(n.mem, a) && Pass(n, Placed(a), lock, answer, landed).reply != Refused(PinConflict)
    decreases |ops|
  {
    var first := ReleaseStaleLock(s, a, saved).sys;
    assert Apply(fs, s, ReleaseStaleLockOp(a, saved)).sys == first;
    KeptByApply(fs, s, ReleaseStaleLockOp(a, saved));
    if ops == [] {
      if a.taskId in s.mem.bindings { BindingsAreLive(fs, s, a.taskId); }
    } else {
      var init, op := ops[..|ops| - 1], ops[|ops| - 1];
      ReassignmentEndsConflicts(fs, s, a, saved, init, lock, answer, landed);
      var before := Run(fs, first, init);
      if Enabled(before, op) {
        KeptByApply(fs, before, op);
        AgreementKept(fs, before, op, a);
      }
    }
    var n := Run(fs, first, ops);
    assert Agrees(n.mem, Placed(a));
    PinConflictExactly(fs, n, Placed(a), lock, answer, landed);
  }
}
