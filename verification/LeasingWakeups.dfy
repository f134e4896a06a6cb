/** Parked acquires and the condition variable that wakes them: no grant is ever slept
    through, and no cancelled caller is left asleep. One turn is one critical section of
    the manager, one arrival, one cancellation, or one watcher noticing a cancellation. */
module LeasingWakeups {
  import opened Wrappers
  import opened LeasingModel
  import opened LeasingInvariant
  import opened LeasingAllocation

  /** One blocked or running acquire. `fired` says its watcher has broadcast the cancellation. */
  datatype Waiter = Waiter(a: Assignment, lock: bool, parked: bool, notified: bool, cancelled: bool, fired: bool)

  datatype World<X> = World(sys: System<X>, waiters: map<int, Waiter>)

  datatype Turn<X> =
    | Manage(op: Op<X>)
    | Arrive(w: int, a: Assignment, lock: bool)
    | Try(w: int, seen: bool, answer: Answer<X>, saved: bool)
    | Cancel(w: int)
    | Fire(w: int)

  function Woken(waiters: map<int, Waiter>): map<int, Waiter> {
    map w | w in waiters :: if waiters[w].parked then waiters[w].(notified := true) else waiters[w]
  }

  /** A try may miss a cancellation that lands after its check, but not one whose watcher has
      already broadcast: both hold the manager's lock. */
  ghost predicate Possible<X>(v: World<X>, turn: Turn<X>) {
    match turn
    case Manage(op) => !op.PassOp? && Enabled(v.sys, op)
    case Arrive(w, a, _) => w !in v.waiters && a.taskId != NO_ID
    case Try(w, seen, _, _) =>
      && w in v.waiters
      && (v.waiters[w].parked ==> v.waiters[w].notified)
      && (seen ==> v.waiters[w].cancelled)
      && (v.waiters[w].fired ==> seen)
    case Cancel(w) => w in v.waiters
    case Fire(w) => w in v.waiters && v.waiters[w].cancelled && !v.waiters[w].fired
  }

  ghost function Next<X>(fs: map<Id, Factory>, v: World<X>, turn: Turn<X>): World<X>
    requires Possible(v, turn)
  {
    match turn
    case Manage(op) =>
      var n := Apply(fs, v.sys, op);
      World(n.sys, if n.broadcast then Woken(v.waiters) else v.waiters)
    case Arrive(w, a, lock) =>
      v.(waiters := v.waiters[w := Waiter(Placed(a), lock, false, false, false, false)])
    case Try(w, seen, answer, saved) =>
      if seen then v.(waiters := v.waiters - {w})
      else
        var me := v.waiters[w];
        var n := Pass(v.sys, me.a, me.lock, answer, saved);
        World(n.sys, if n.reply.Parked? then v.waiters[w := me.(parked := true, notified := false)] else v.waiters - {w})
    case Cancel(w) => v.(waiters := v.waiters[w := v.waiters[w].(cancelled := true)])
    case Fire(w) => v.(waiters := Woken(v.waiters[w := v.waiters[w].(fired := true)]))
  }

  ghost function Play<X>(fs: map<Id, Factory>, v: World<X>, turns: seq<Turn<X>>): World<X> {
    if turns == [] then v
    else
      var before := Play(fs, v, turns[..|turns| - 1]);
      var turn := turns[|turns| - 1];
      if Possible(before, turn) then Next(fs, before, turn) else before
  }

  // ---------------------------------------------------------------- when a grant is possible

  /** Some strategy answer and some store would grant this acquire right now. */
  ghost predicate CouldGrant<X(!new)>(s: System<X>, a: Assignment, lock: bool) {
    exists answer, saved :: Pass(s, a, lock, answer, saved).reply.Granted?
  }

  ghost predicate Grantable<X>(m: Memory<X>, a: Assignment, lock: bool) {
    && CheckPin(m, a).None?
    && if a.taskId in m.bindings then
         (a.resourceId == NO_ID || a.resourceId == m.bindings[a.taskId]) && HeldCount(m.holders, m.bindings[a.taskId]) == 0
       else
         exists id :: Eligible(m, a, lock, id)
  }

  lemma GrantableExactly<X(!new)>(fs: map<Id, Factory>, s: System<X>, a: Assignment, lock: bool)
    requires Inv(fs, s) && a.taskId != NO_ID
    ensures CouldGrant(s, a, lock) <==> Grantable(s.mem, a, lock)
  {
    if CouldGrant(s, a, lock) {
      var answer, saved :| Pass(s, a, lock, answer, saved).reply.Granted?;
      GrantIsAllowed(fs, s, a, lock, answer, saved);
      var id := Pass(s, a, lock, answer, saved).reply.record.core.id;
      assert a.taskId !in s.mem.bindings ==> Eligible(s.mem, a, lock, id);
    }
    if Grantable(s.mem, a, lock) { Witness(fs, s, a, lock); }
  }

  lemma Witness<X(!new)>(fs: map<Id, Factory>, s: System<X>, a: Assignment, lock: bool)
    requires Inv(fs, s) && a.taskId != NO_ID && Grantable(s.mem, a, lock)
    ensures CouldGrant(s, a, lock)
  {
    var any: Id :| a.taskId in s.mem.bindings || Eligible(s.mem, a, lock, any);
    if a.taskId in s.mem.bindings {
      BindingsAreLive(fs, s, a.taskId);
      var answer := Pick(s.mem.pool[s.mem.bindings[a.taskId]]);
      assert Pass(s, a, lock, answer, true).reply.Granted?;
    } else {
      assert s.mem.bindings - {a.taskId} == s.mem.bindings;
      assert s.(mem := s.mem.(bindings := s.mem.bindings - {a.taskId})) == s;
      var candidates := CandidatesFor(s.mem, a, lock);
      assert any in candidates && candidates[0] in candidates;
      MembersProperties(s.mem, s.mem.order, a.groupId);
      assert any in MembersOf(s.mem, a.groupId);
      var sel := s.mem.strategies[a.groupId];
      assert sel.RoundRobin? ==> candidates[sel.next % |candidates|] in candidates;
      var answer := Pick(s.mem.pool[any]);
      assert Pass(s, a, lock, answer, true).reply.Granted?;
    }
  }

  // ---------------------------------------------------------------- who can enable a grant

  lemma SameMemoryUpToGroups<X>(m: Memory<X>, n: Memory<X>, a: Assignment, lock: bool)
    requires n.holders == m.holders && n.bindings == m.bindings && n.pool.Keys == m.pool.Keys
    requires forall id :: id in m.pool ==> n.pool[id].core == m.pool[id].core
    ensures Grantable(n, a, lock) ==> Grantable(m, a, lock)
  {
    if Grantable(n, a, lock) && a.taskId !in n.bindings {
      var id :| Eligible(n, a, lock, id);
      assert Eligible(m, a, lock, id);
    }
  }

  lemma GrantEnablesNoOther<X>(fs: map<Id, Factory>, s: System<X>, id: Id, t: Id, bind: bool, a: Assignment, lock: bool)
    requires Inv(fs, s) && id in s.mem.pool
    requires bind ==> s.mem.pool[id].core.ownerId == NO_ID && t != NO_ID && t !in s.mem.bindings
    ensures var n := Grant(if bind then Bind(s, id, t) else s, id, t).sys.mem;
      Grantable(n, a, lock) ==> Grantable(s.mem, a, lock)
  {
    var n := Grant(if bind then Bind(s, id, t) else s, id, t).sys.mem;
    forall r ensures HeldCount(n.holders, r) == HeldCount(s.mem.holders, r) + (if r == id then 1 else 0) {
      HeldCountHold(s.mem.holders, id, t, r);
    }
    if Grantable(n, a, lock) && a.taskId !in n.bindings {
      var r :| Eligible(n, a, lock, r);
      assert Eligible(s.mem, a, lock, r);
    }
  }

  lemma PassEnablesNoOther<X>(fs: map<Id, Factory>, s: System<X>, b: Assignment, blk: bool, answer: Answer<X>, saved: bool,
                              a: Assignment, lock: bool)
    requires Inv(fs, s) && b.taskId != NO_ID
    ensures Grantable(Pass(s, b, blk, answer, saved).sys.mem, a, lock) ==> Grantable(s.mem, a, lock)
  {
    var n := Pass(s, b, blk, answer, saved);
    if n.reply.Granted? {
      GrantIsAllowed(fs, s, b, blk, answer, saved);
      var id := n.reply.record.core.id;
      var bind := blk && b.taskId !in s.mem.bindings;
      var plain := Grant(if bind then Bind(s, id, b.taskId) else s, id, b.taskId).sys.mem;
      PassShape(fs, s, b, blk, answer, saved);
      GrantEnablesNoOther(fs, s, id, b.taskId, bind, a, lock);
      SameMemoryUpToGroups(plain, n.sys.mem, a, lock);
    } else {
      NoGrantNoLease(fs, s, b, blk, answer, saved);
      SameMemoryUpToGroups(s.mem, n.sys.mem, a, lock);
    }
  }

  predicate Edits<X>(op: Op<X>) { op.CreateGroupOp? || op.UpdateGroupOp? || op.UpdateOp? }

  lemma EditsKeepCores<X>(fs: map<Id, Factory>, s: System<X>, op: Op<X>)
    requires Inv(fs, s) && Edits(op)
    ensures var n := Apply(fs, s, op).sys.mem;
      && n.holders == s.mem.holders && n.bindings == s.mem.bindings && n.pool.Keys == s.mem.pool.Keys
      && (forall id :: id in s.mem.pool ==> n.pool[id].core == s.mem.pool[id].core)
      && s.mem.groups.Keys <= n.groups.Keys
  {
  }

  /** The operations that broadcast whenever they change anything. */
  lemma LoudOrIdle<X>(fs: map<Id, Factory>, s: System<X>, op: Op<X>)
    requires Inv(fs, s) && Enabled(s, op) && !Apply(fs, s, op).broadcast
    requires !op.PassOp? && !Edits(op)
    ensures Apply(fs, s, op).sys.mem == s.mem
  {
    match op
    case UnlockOp(t, _) =>
      if t in s.mem.bindings { BindingsAreLive(fs, s, t); }
    case ReleaseStaleLockOp(b, _) =>
      if b.taskId in s.mem.bindings { BindingsAreLive(fs, s, b.taskId); }
    case DeleteGroupOp(id, landed, gone) =>
      var members := MembersOf(s.mem, id);
      assert members[..0] == [];
    case _ =>
  }

  /** Only operations that broadcast can enable a grant. */
  lemma SilentOpsEnableNothing<X>(fs: map<Id, Factory>, s: System<X>, op: Op<X>, a: Assignment, lock: bool)
    requires Inv(fs, s) && Enabled(s, op) && !Apply(fs, s, op).broadcast
    ensures Grantable(Apply(fs, s, op).sys.mem, a, lock) ==> Grantable(s.mem, a, lock)
  {
    match op
    case PassOp(b, blk, answer, saved) => PassEnablesNoOther(fs, s, b, blk, answer, saved, a, lock);
    case _ =>
      if Edits(op) {
        EditsKeepCores(fs, s, op);
        SameMemoryUpToGroups(s.mem, Apply(fs, s, op).sys.mem, a, lock);
      } else {
        LoudOrIdle(fs, s, op);
      }
  }

  // ---------------------------------------------------------------- who can end a wait

  /** The next pass would wait again, whatever the strategy and the store. */
  ghost predicate Parks<X>(m: Memory<X>, a: Assignment, lock: bool) {
    && CheckPin(m, a).None?
    && Agrees(m, a)
    && !Grantable(m, a, lock)
    && (a.taskId !in m.bindings ==> a.groupId in m.groups && exists r :: r in m.pool && m.pool[r].core.groupId == a.groupId)
  }

  lemma CandidatesExactly<X>(fs: map<Id, Factory>, s: System<X>, a: Assignment, lock: bool)
    requires Inv(fs, s)
    ensures CandidatesFor(s.mem, a, lock) == [] <==> !exists id :: Eligible(s.mem, a, lock, id)
    ensures MembersOf(s.mem, a.groupId) == [] <==> !exists r :: r in s.mem.pool && s.mem.pool[r].core.groupId == a.groupId
  {
    var members, candidates := MembersOf(s.mem, a.groupId), CandidatesFor(s.mem, a, lock);
    MembersProperties(s.mem, s.mem.order, a.groupId);
    if members != [] {
      var r := members[0];
      assert r in members && r in s.mem.pool && s.mem.pool[r].core.groupId == a.groupId;
    }
    if candidates != [] {
      var id := candidates[0];
      assert id in candidates && Eligible(s.mem, a, lock, id);
    }
    forall id | Eligible(s.mem, a, lock, id) ensures candidates != [] {
      assert id in candidates;
    }
    forall r | r in s.mem.pool && s.mem.pool[r].core.groupId == a.groupId ensures members != [] {
      assert r in members;
    }
  }

  lemma ParksExactly<X>(fs: map<Id, Factory>, s: System<X>, a: Assignment, lock: bool, answer: Answer<X>, saved: bool)
    requires Inv(fs, s) && a.taskId != NO_ID
    ensures Pass(s, a, lock, answer, saved).reply.Parked? <==> Parks(s.mem, a, lock)
    ensures Parks(s.mem, a, lock) ==> Pass(s, a, lock, answer, saved).sys == s
  {
    if a.taskId in s.mem.bindings {
      BindingsAreLive(fs, s, a.taskId);
    } else {
      assert s.mem.bindings - {a.taskId} == s.mem.bindings;
      assert s.(mem := s.mem.(bindings := s.mem.bindings - {a.taskId})) == s;
      CandidatesExactly(fs, s, a, lock);
      SelectParks(s, a, lock, answer, saved);
    }
  }

  /** What a blocked acquire went through: a state at each look, in which it was not cancelled and had
      to wait, and what others did before the next; only the last look is still open. */
  ghost predicate Slept<X>(fs: map<Id, Factory>, found: seq<System<X>>, waits: seq<seq<Op<X>>>, a: Assignment, lock: bool, cancels: seq<bool>) {
    |found| == |waits| + 1 && |waits| <= |cancels| && forall i :: 0 <= i < |waits| ==> SleptAfter(fs, found, waits, a, lock, cancels, i)
  }

  ghost predicate SleptAfter<X>(fs: map<Id, Factory>, found: seq<System<X>>, waits: seq<seq<Op<X>>>, a: Assignment, lock: bool, cancels: seq<bool>, i: nat)
    requires i < |waits| < |found| && |waits| <= |cancels|
  {
    !cancels[i] && Parks(found[i].mem, a, lock) && found[i + 1] == Run(fs, found[i], waits[i])
  }

  lemma SleptLonger<X>(fs: map<Id, Factory>, found: seq<System<X>>, waits: seq<seq<Op<X>>>, more: seq<Op<X>>,
                       a: Assignment, lock: bool, cancels: seq<bool>)
    requires Slept(fs, found, waits, a, lock, cancels)
    requires |waits| < |cancels| && !cancels[|waits|] && Parks(found[|waits|].mem, a, lock)
    ensures Slept(fs, found + [Run(fs, found[|waits|], more)], waits + [more], a, lock, cancels)
  {
    var f, w := found + [Run(fs, found[|waits|], more)], waits + [more];
    forall i | 0 <= i < |w|
      ensures SleptAfter(fs, f, w, a, lock, cancels, i)
    {
      if i < |waits| { assert SleptAfter(fs, found, waits, a, lock, cancels, i); }
    }
  }

  lemma SelectParks<X>(s: System<X>, a: Assignment, lock: bool, answer: Answer<X>, saved: bool)
    ensures Select(s, a, lock, answer, saved).reply.Parked? <==> CandidatesFor(s.mem, a, lock) == []
    ensures CandidatesFor(s.mem, a, lock) == [] ==> Select(s, a, lock, answer, saved).sys == s
  {
    var candidates := CandidatesFor(s.mem, a, lock);
    assert candidates != [] ==> candidates[0] in candidates;
  }

  lemma GrantKeepsParked<X>(fs: map<Id, Factory>, s: System<X>, id: Id, t: Id, bind: bool, a: Assignment, lock: bool)
    requires Inv(fs, s) && id in s.mem.pool
    requires bind ==> s.mem.pool[id].core.ownerId == NO_ID && t != NO_ID && t !in s.mem.bindings
                      && HeldCount(s.mem.holders, id) == 0
    requires Agrees(s.mem, a) ==> Parks(s.mem, a, lock)
    ensures var n := Grant(if bind then Bind(s, id, t) else s, id, t).sys.mem;
      Agrees(n, a) ==> Parks(n, a, lock)
  {
    var n := Grant(if bind then Bind(s, id, t) else s, id, t).sys.mem;
    if Agrees(n, a) {
      GrantEnablesNoOther(fs, s, id, t, bind, a, lock);
      assert Agrees(s.mem, a) && Parks(s.mem, a, lock);
      if bind && a.resourceId == id != NO_ID && a.taskId !in s.mem.bindings {
        assert Eligible(s.mem, a, lock, id);
      }
      var r :| a.taskId in s.mem.bindings || (r in s.mem.pool && s.mem.pool[r].core.groupId == a.groupId);
      assert a.taskId !in s.mem.bindings ==> r in n.pool && n.pool[r].core.groupId == a.groupId;
    }
  }

  lemma SilentChangeKeepsParked<X>(m: Memory<X>, n: Memory<X>, a: Assignment, lock: bool)
    requires n.holders == m.holders && n.bindings == m.bindings && n.pool.Keys == m.pool.Keys
    requires forall id :: id in m.pool ==> n.pool[id].core == m.pool[id].core
    requires m.groups.Keys <= n.groups.Keys
    requires Agrees(m, a) ==> Parks(m, a, lock)
    ensures Agrees(n, a) ==> Parks(n, a, lock)
  {
    SameMemoryUpToGroups(m, n, a, lock);
    if Agrees(m, a) && a.taskId !in m.bindings {
      var r :| r in m.pool && m.pool[r].core.groupId == a.groupId;
      assert r in n.pool && n.pool[r].core.groupId == a.groupId;
    }
  }

  lemma PassKeepsParked<X>(fs: map<Id, Factory>, s: System<X>, b: Assignment, blk: bool, answer: Answer<X>, saved: bool,
                           a: Assignment, lock: bool)
    requires Inv(fs, s) && b.taskId != NO_ID && (Agrees(s.mem, a) ==> Parks(s.mem, a, lock))
    ensures var n := Pass(s, b, blk, answer, saved).sys.mem;
      Agrees(n, a) ==> Parks(n, a, lock)
  {
    var n := Pass(s, b, blk, answer, saved);
    if n.reply.Granted? {
      GrantIsAllowed(fs, s, b, blk, answer, saved);
      PassShape(fs, s, b, blk, answer, saved);
      var id := n.reply.record.core.id;
      var bind := blk && b.taskId !in s.mem.bindings;
      GrantKeepsParked(fs, s, id, b.taskId, bind, a, lock);
      SilentChangeKeepsParked(Grant(if bind then Bind(s, id, b.taskId) else s, id, b.taskId).sys.mem, n.sys.mem, a, lock);
    } else {
      NoGrantNoLease(fs, s, b, blk, answer, saved);
      SilentChangeKeepsParked(s.mem, n.sys.mem, a, lock);
    }
  }

  /** Whatever does not broadcast leaves a parked acquire parked, unless it locks that very task elsewhere. */
  lemma SilentOpsKeepParked<X>(fs: map<Id, Factory>, s: System<X>, op: Op<X>, a: Assignment, lock: bool)
    requires Inv(fs, s) && Enabled(s, op) && !Apply(fs, s, op).broadcast
    requires Agrees(s.mem, a) ==> Parks(s.mem, a, lock)
    ensures var n := Apply(fs, s, op).sys.mem; Agrees(n, a) ==> Parks(n, a, lock)
  {
    match op
    case PassOp(b, blk, answer, saved) => PassKeepsParked(fs, s, b, blk, answer, saved, a, lock);
    case _ =>
      if Edits(op) {
        EditsKeepCores(fs, s, op);
        SilentChangeKeepsParked(s.mem, Apply(fs, s, op).sys.mem, a, lock);
      } else {
        LoudOrIdle(fs, s, op);
      }
  }

  // ---------------------------------------------------------------- every run

  predicate Asleep(me: Waiter) { me.parked && !me.notified }

  /** Nobody sleeps through the end of a wait, nor through a broadcast cancellation. */
  ghost predicate NobodyForgotten<X>(v: World<X>) {
    forall w :: w in v.waiters && Asleep(v.waiters[w]) ==>
      && (Agrees(v.sys.mem, v.waiters[w].a) ==> Parks(v.sys.mem, v.waiters[w].a, v.waiters[w].lock))
      && !v.waiters[w].fired
  }

  ghost predicate WorldOk<X>(fs: map<Id, Factory>, v: World<X>) {
    && Inv(fs, v.sys)
    && (forall w :: w in v.waiters ==>
          v.waiters[w].a.taskId != NO_ID && v.waiters[w].a.groupId != NO_ID && (v.waiters[w].fired ==> v.waiters[w].cancelled))
    && NobodyForgotten(v)
  }

  lemma ManageKeepsWorld<X>(fs: map<Id, Factory>, v: World<X>, op: Op<X>)
    requires WorldOk(fs, v) && Possible(v, Manage(op))
    ensures WorldOk(fs, Next(fs, v, Manage(op)))
  {
    var n := Next(fs, v, Manage(op));
    KeptByApply(fs, v.sys, op);
    if !Apply(fs, v.sys, op).broadcast {
      forall w | w in v.waiters && Asleep(v.waiters[w])
        ensures Agrees(n.sys.mem, v.waiters[w].a) ==> Parks(n.sys.mem, v.waiters[w].a, v.waiters[w].lock)
      {
        SilentOpsKeepParked(fs, v.sys, op, v.waiters[w].a, v.waiters[w].lock);
      }
    }
  }

  lemma TurnKeepsWorld<X>(fs: map<Id, Factory>, v: World<X>, turn: Turn<X>)
    requires WorldOk(fs, v) && Possible(v, turn)
    ensures WorldOk(fs, Next(fs, v, turn))
  {
    var n := Next(fs, v, turn);
    match turn
    case Manage(op) => ManageKeepsWorld(fs, v, op);
    case Try(w, seen, answer, saved) =>
      var me := v.waiters[w];
      if !seen {
        KeptByPass(fs, v.sys, me.a, me.lock, answer, saved);
        forall u | u in v.waiters && Asleep(v.waiters[u])
          ensures Agrees(n.sys.mem, v.waiters[u].a) ==> Parks(n.sys.mem, v.waiters[u].a, v.waiters[u].lock)
        {
          PassKeepsParked(fs, v.sys, me.a, me.lock, answer, saved, v.waiters[u].a, v.waiters[u].lock);
        }
        ParksExactly(fs, v.sys, me.a, me.lock, answer, saved);
      }
    case _ =>
  }

  lemma {:induction false} PlayKeepsWorld<X>(fs: map<Id, Factory>, v: World<X>, turns: seq<Turn<X>>)
    requires WorldOk(fs, v)
    ensures WorldOk(fs, Play(fs, v, turns))
  {
    if turns != [] {
      var before := Play(fs, v, turns[..|turns| - 1]);
      PlayKeepsWorld(fs, v, turns[..|turns| - 1]);
      if Possible(before, turns[|turns| - 1]) { TurnKeepsWorld(fs, before, turns[|turns| - 1]); }
    }
  }

  /** No lost wake-up: in every interleaving, a parked acquire that some pass could now grant
      has been notified; one not notified would park again, exactly unless its own task has been
      locked to another resource meanwhile; and a cancelled one has been notified or its watcher
      has yet to broadcast, which notifies it. */
  lemma NoLostWakeup<X(!new)>(fs: map<Id, Factory>, s: System<X>, turns: seq<Turn<X>>, w: int)
    requires Inv(fs, s)
    requires w in Play(fs, World(s, map[]), turns).waiters && Play(fs, World(s, map[]), turns).waiters[w].parked
    ensures
      var v := Play(fs, World(s, map[]), turns);
      var me := v.waiters[w];
      && (CouldGrant(v.sys, me.a, me.lock) ==> me.notified)
      && (!me.notified ==> forall answer, saved ::
            Pass(v.sys, me.a, me.lock, answer, saved).reply.Parked? <==> Agrees(v.sys.mem, me.a))
      && (me.cancelled && !me.notified ==> Possible(v, Fire(w)) && Next(fs, v, Fire(w)).waiters[w].notified)
      && (me.notified ==> forall answer, saved :: Possible(v, Try(w, me.cancelled, answer, saved)))
  {
    PlayKeepsWorld(fs, World(s, map[]), turns);
    var v := Play(fs, World(s, map[]), turns);
    var me := v.waiters[w];
    GrantableExactly(fs, v.sys, me.a, me.lock);
    forall answer, saved
      ensures Pass(v.sys, me.a, me.lock, answer, saved).reply.Parked? <==> Parks(v.sys.mem, me.a, me.lock)
    {
      ParksExactly(fs, v.sys, me.a, me.lock, answer, saved);
    }
    if me.a.taskId in v.sys.mem.bindings { BindingsAreLive(fs, v.sys, me.a.taskId); }
  }

  // ---------------------------------------------------------------- a run in which a refusal is slept through

  function BuiltIns(): map<Id, Factory> { map[ROUND_ROBIN := BuiltIn] }

  /** Resources 7, held by task 4, and 8, in the global group. */
  ghost function SmallSystem(): System<()> {
    var groups := map[GLOBAL_GROUP := Group(GLOBAL_GROUP, NO_ID, map[])];
    var pool := map[7 := Record(Resource(7, GLOBAL_GROUP, NO_ID, 1), ()), 8 := Record(Resource(8, GLOBAL_GROUP, NO_ID, 1), ())];
    var mem := Memory(groups, map[GLOBAL_GROUP := RoundRobin(0)], pool, [7, 8], map[7 := map[4 := 1]], map[]);
    System(mem, Store(pool, groups), multiset{(7, 4)})
  }

  const PINNED := Assignment(2, GLOBAL_GROUP, 7)
  const ANY := Assignment(2, GLOBAL_GROUP, NO_ID)

  lemma SmallSystemIsSound()
    ensures Inv(BuiltIns(), SmallSystem())
  {
    var m := SmallSystem().mem;
    TotalPick(map[4 := 1], 4);
    assert HeldCount(m.holders, 7) == 1;
    assert GroupsOk(BuiltIns(), m.groups, m.strategies);
    assert OrderOk(m.order, m.pool) && BindingsOk(m.pool, m.bindings);
  }

  lemma SmallSystemOffers()
    ensures var m := SmallSystem().mem;
      CandidatesFor(m, PINNED, false) == [] && CandidatesFor(m, ANY, true) == [8] && MembersOf(m, GLOBAL_GROUP) != []
  {
    var m := SmallSystem().mem;
    TotalPick(map[4 := 1], 4);
    assert m.order[..1] == [7] && [7][..0] == [];
    assert !Eligible(m, ANY, true, 7) && Eligible(m, ANY, true, 8);
    assert Candidates(m, [7], ANY, true) == [];
    assert !Eligible(m, PINNED, false, 7) && !Eligible(m, PINNED, false, 8);
    assert Candidates(m, [7], PINNED, false) == [];
  }

  lemma PinnedParks()
    ensures var n := Pass(SmallSystem(), PINNED, false, Decline, true); n.reply.Parked? && n.sys == SmallSystem()
  {
    var s := SmallSystem();
    SmallSystemOffers();
    assert s.mem.bindings - {2} == map[];
    assert s.(mem := s.mem.(bindings := map[])) == s;
  }

  lemma AnyLocksTheOther()
    ensures var n := Pass(SmallSystem(), ANY, true, Decline, true);
      n.reply.Granted? && n.sys.mem.bindings == map[2 := 8] && n.sys.mem.pool.Keys == {7, 8}
      && n.sys.mem.pool[7] == SmallSystem().mem.pool[7]
  {
    var s := SmallSystem();
    SmallSystemOffers();
    assert s.mem.bindings - {2} == map[];
    assert s.(mem := s.mem.(bindings := map[])) == s;
  }

  lemma PlayNext<X>(fs: map<Id, Factory>, v: World<X>, turns: seq<Turn<X>>, turn: Turn<X>)
    requires Possible(Play(fs, v, turns), turn)
    ensures Play(fs, v, turns + [turn]) == Next(fs, Play(fs, v, turns), turn)
  {
    assert (turns + [turn])[..|turns + [turn]| - 1] == turns;
  }

  function Falls(): seq<Turn<()>> { [Arrive(1, PINNED, false), Try(1, false, Decline, true)] }

  function Locks(): seq<Turn<()>> { [Arrive(2, ANY, true), Try(2, false, Decline, true)] }

  /** Task 2 asks for its pin 7, which is held, and falls asleep. */
  lemma FallsAsleep()
    ensures Play(BuiltIns(), World(SmallSystem(), map[]), Falls()) ==
            World(SmallSystem(), map[1 := Waiter(PINNED, false, true, false, false, false)])
  {
    var fs, v := BuiltIns(), World(SmallSystem(), map[]);
    var none: seq<Turn<()>>, arrives: seq<Turn<()>> := [], [Arrive(1, PINNED, false)];
    PinnedParks();
    PlayNext(fs, v, none, Arrive(1, PINNED, false));
    assert none + [Arrive(1, PINNED, false)] == arrives;
    PlayNext(fs, v, arrives, Try(1, false, Decline, true));
    assert arrives + [Try(1, false, Decline, true)] == Falls();
  }

  /** The exception is real: a lock does not broadcast. In this run, from a world where nobody waits,
      task 2 falls asleep on its pin 7, then locks resource 8, and sleeps on although its next pass
      would report the conflict. */
  lemma LockingElsewhereWakesNobody()
    ensures Inv(BuiltIns(), SmallSystem())
    ensures
      var n := Play(BuiltIns(), World(SmallSystem(), map[]), Falls() + Locks());
      && n.waiters == map[1 := Waiter(PINNED, false, true, false, false, false)]
      && Asleep(n.waiters[1])
      && n.sys.mem.bindings == map[2 := 8]
      && Pass(n.sys, PINNED, false, Decline, true).reply == Refused(PinConflict)
  {
    var fs, v := BuiltIns(), World(SmallSystem(), map[]);
    SmallSystemIsSound();
    FallsAsleep();
    AnyLocksTheOther();
    var asleep := Play(fs, v, Falls());
    PlayNext(fs, v, Falls(), Arrive(2, ANY, true));
    var asks := Play(fs, v, Falls() + [Arrive(2, ANY, true)]);
    assert asks == World(SmallSystem(), asleep.waiters[2 := Waiter(ANY, true, false, false, false, false)]);
    PlayNext(fs, v, Falls() + [Arrive(2, ANY, true)], Try(2, false, Decline, true));
    assert (Falls() + [Arrive(2, ANY, true)]) + [Try(2, false, Decline, true)] == Falls() + Locks();
    assert asks.waiters - {2} == asleep.waiters;
  }
}
