/** How the manager spreads grants: an unpinned acquire takes the group's candidates in rotation, or
    whatever a consumer's strategy picks among them. */
module LeasingRotation {
  import opened Wrappers
  import opened LeasingModel
  import opened LeasingInvariant
  import opened LeasingAllocation
  import RR = RoundRobin

  // ---------------------------------------------------------------- the candidates

  /** Candidates are listed in the pool's order: at ascending positions of it. */
  lemma {:induction false} CandidatesInOrder<X>(m: Memory<X>, order: seq<Id>, a: Assignment, idle: bool) returns (at: seq<int>)
    ensures var cs := Candidates(m, order, a, idle);
      && |at| == |cs|
      && (forall p :: 0 <= p < |at| ==> 0 <= at[p] < |order| && order[at[p]] == cs[p])
      && (forall p, q :: 0 <= p < q < |at| ==> at[p] < at[q])
  {
    if order == [] { return []; }
    var init := order[..|order| - 1];
    at := CandidatesInOrder(m, init, a, idle);
    if Eligible(m, a, idle, order[|order| - 1]) { at := at + [|order| - 1]; }
  }

  lemma CandidatesDiffer<X>(m: Memory<X>, a: Assignment, idle: bool)
    requires OrderOk(m.order, m.pool)
    ensures var cs := CandidatesFor(m, a, idle); forall p, q :: 0 <= p < q < |cs| ==> cs[p] != cs[q]
  {
    var at := CandidatesInOrder(m, m.order, a, idle);
  }

  /** They depend on the group and the pin, not on who asks. */
  lemma {:induction false} SameCandidates<X>(m: Memory<X>, n: Memory<X>, order: seq<Id>, a: Assignment, b: Assignment, idle: bool)
    requires forall id :: Eligible(m, a, idle, id) <==> Eligible(n, b, idle, id)
    ensures Candidates(m, order, a, idle) == Candidates(n, order, b, idle)
  {
    if order != [] { SameCandidates(m, n, order[..|order| - 1], a, b, idle); }
  }

  // ---------------------------------------------------------------- one pass

  lemma CandidateIsMember<X>(m: Memory<X>, a: Assignment, idle: bool)
    requires OrderOk(m.order, m.pool) && CandidatesFor(m, a, idle) != []
    ensures MembersOf(m, a.groupId) != [] && exists r :: r in m.pool && m.pool[r].core.groupId == a.groupId
  {
    var cs := Candidates(m, m.order, a, idle);
    var r := cs[0];
    assert r in cs;
    MembersProperties(m, m.order, a.groupId);
    assert r in Members(m, m.order, a.groupId);
  }

  /** With a candidate there is no refusal: the pass is the group's selection. */
  lemma CandidatesAreAsked<X>(fs: map<Id, Factory>, s: System<X>, a: Assignment, lock: bool, answer: Answer<X>, saved: bool)
    requires Inv(fs, s) && a.taskId !in s.mem.bindings && a.resourceId == NO_ID && CandidatesFor(s.mem, a, lock) != []
    ensures a.groupId in s.mem.groups && Pass(s, a, lock, answer, saved) == Select(s, a, lock, answer, saved)
  {
    CandidateIsMember(s.mem, a, lock);
    assert s.mem.bindings - {a.taskId} == s.mem.bindings;
    assert s.(mem := s.mem.(bindings := s.mem.bindings - {a.taskId})) == s;
  }

  /** An unpinned acquire of an unbound task takes the candidate the group's rotation has come to, and
      moves the rotation on by one; a lock that cannot be stored moves it on for nothing. */
  lemma PassFollowsTheRotation<X>(fs: map<Id, Factory>, s: System<X>, a: Assignment, lock: bool, answer: Answer<X>, saved: bool)
    requires Inv(fs, s) && a.taskId != NO_ID && a.taskId !in s.mem.bindings && a.resourceId == NO_ID
    requires a.groupId in s.mem.groups && s.mem.strategies[a.groupId].RoundRobin? && CandidatesFor(s.mem, a, lock) != []
    ensures
      var cs, next, n := CandidatesFor(s.mem, a, lock), s.mem.strategies[a.groupId].next, Pass(s, a, lock, answer, saved);
      && n.sys.mem.strategies == s.mem.strategies[a.groupId := RoundRobin(next + 1)]
      && (if lock && !saved then n.reply == Refused(StoreFailed)
          else n.reply.Granted? && n.reply.record.core.id == cs[next % |cs|])
  {
    CandidatesAreAsked(fs, s, a, lock, answer, saved);
    var cs, next := CandidatesFor(s.mem, a, lock), s.mem.strategies[a.groupId].next;
    assert cs[next % |cs|] in cs;
  }

  /** A consumer's strategy decides: its pick is granted if it is a candidate, its error is passed on,
      and a pick that is no candidate is refused. */
  lemma PassFollowsTheStrategy<X>(fs: map<Id, Factory>, s: System<X>, a: Assignment, lock: bool, answer: Answer<X>, saved: bool)
    requires Inv(fs, s) && a.taskId != NO_ID && a.taskId !in s.mem.bindings && a.resourceId == NO_ID
    requires a.groupId in s.mem.groups && s.mem.strategies[a.groupId].Custom? && CandidatesFor(s.mem, a, lock) != []
    ensures
      var cs, reply := CandidatesFor(s.mem, a, lock), Pass(s, a, lock, answer, saved).reply;
      match answer
      case Decline => reply == Refused(SelectionFailed)
      case Pick(record) =>
        if record.core.id !in cs then reply == Refused(StrayPick)
        else if lock && !saved then reply == Refused(StoreFailed)
        else reply.Granted? && reply.record.core.id == record.core.id
  {
    CandidatesAreAsked(fs, s, a, lock, answer, saved);
  }

  // ---------------------------------------------------------------- any number of passes

  /** A shared, unpinned acquire in the group. */
  predicate Shares<X>(op: Op<X>, g: Id) {
    op.PassOp? && !op.lock && op.a.taskId != NO_ID && op.a.groupId == g && op.a.resourceId == NO_ID
  }

  /** One acquire after another: each finds its task unbound and the candidates as they were. */
  ghost predicate Unchanging<X>(fs: map<Id, Factory>, s: System<X>, ops: seq<Op<X>>, g: Id, cs: seq<Id>)
    decreases |ops|
  {
    ops == []
    || (Shares(ops[0], g) && ops[0].a.taskId !in s.mem.bindings && CandidatesFor(s.mem, ops[0].a, false) == cs
        && Unchanging(fs, Apply(fs, s, ops[0]).sys, ops[1..], g, cs))
  }

  function GivenBy<X>(reply: Reply<X>): seq<Id> { if reply.Granted? then [reply.record.core.id] else [] }

  /** The resources a series of acquires is granted, in order. */
  ghost function Grants<X>(fs: map<Id, Factory>, s: System<X>, ops: seq<Op<X>>): seq<Id>
    decreases |ops|
  {
    if ops == [] then []
    else GivenBy(Apply(fs, s, ops[0]).reply) + Grants(fs, Apply(fs, s, ops[0]).sys, ops[1..])
  }

  lemma Moved<X>(fs: map<Id, Factory>, s: System<X>, op: Op<X>, g: Id, cs: seq<Id>, next: nat)
    requires Inv(fs, s) && Shares(op, g) && op.a.taskId !in s.mem.bindings
    requires g in s.mem.groups && s.mem.strategies[g] == RoundRobin(next) && cs != [] && CandidatesFor(s.mem, op.a, false) == cs
    ensures var n := Apply(fs, s, op);
      && Inv(fs, n.sys) && n.sys.mem.groups == s.mem.groups && n.sys.mem.strategies == s.mem.strategies[g := RoundRobin(next + 1)]
      && GivenBy(n.reply) == [cs[next % |cs|]]
  {
    KeptByApply(fs, s, op);
    PassFollowsTheRotation(fs, s, op.a, false, op.answer, op.saved);
    PassShape(fs, s, op.a, false, op.answer, op.saved);
  }

  /** The ids are the picks among the candidates of a rotation that stands at `next`. */
  ghost predicate InTurn(ids: seq<Id>, cs: seq<Id>, next: nat)
    requires cs != []
  {
    forall i :: 0 <= i < |ids| ==> ids[i] == cs[RR.Positions(next, |ids|, |cs|)[i]]
  }

  lemma FirstInTurn(ids: seq<Id>, cs: seq<Id>, next: nat)
    requires cs != [] && InTurn(ids, cs, next + 1)
    ensures InTurn([cs[next % |cs|]] + ids, cs, next)
  {
    var all := [cs[next % |cs|]] + ids;
    forall i | 0 <= i < |all|
      ensures all[i] == cs[RR.Positions(next, |all|, |cs|)[i]]
    {
      if i > 0 { assert all[i] == ids[i - 1] && next + i == next + 1 + (i - 1); }
    }
  }

  /** The rotation rotates: acquire after acquire over unchanging candidates, every one is granted, and
      the grants go round the candidates from where the group's rotation stands. */
  lemma {:induction false} GrantsGoRound<X>(fs: map<Id, Factory>, s: System<X>, ops: seq<Op<X>>, g: Id, cs: seq<Id>, next: nat)
    requires Inv(fs, s) && g in s.mem.groups && s.mem.strategies[g] == RoundRobin(next)
    requires cs != [] && Unchanging(fs, s, ops, g, cs)
    ensures |Grants(fs, s, ops)| == |ops| && InTurn(Grants(fs, s, ops), cs, next)
    decreases |ops|
  {
    if ops != [] {
      Moved(fs, s, ops[0], g, cs, next);
      GrantsGoRound(fs, Apply(fs, s, ops[0]).sys, ops[1..], g, cs, next + 1);
      FirstInTurn(Grants(fs, Apply(fs, s, ops[0]).sys, ops[1..]), cs, next);
    }
  }

  // ---------------------------------------------------------------- how even that is

  lemma {:induction false} PicksCounted(ids: seq<Id>, cs: seq<Id>, picks: seq<nat>, p: nat)
    requires |picks| == |ids| && p < |cs| && forall i, j :: 0 <= i < j < |cs| ==> cs[i] != cs[j]
    requires forall i :: 0 <= i < |ids| ==> picks[i] < |cs| && ids[i] == cs[picks[i]]
    ensures multiset(ids)[cs[p]] == RR.Times(picks, p)
  {
    if ids != [] {
      PicksCounted(ids[1..], cs, picks[1..], p);
      assert ids == [ids[0]] + ids[1..];
    }
  }

  lemma TurnsAreEven(ids: seq<Id>, cs: seq<Id>, next: nat, p: nat, q: nat)
    requires p < |cs| && q < |cs| && forall i, j :: 0 <= i < j < |cs| ==> cs[i] != cs[j]
    requires InTurn(ids, cs, next)
    ensures |ids| == |cs| ==> multiset(ids)[cs[p]] == 1
    ensures multiset(ids)[cs[p]] <= multiset(ids)[cs[q]] + 1
  {
    var picks := RR.Positions(next, |ids|, |cs|);
    PicksCounted(ids, cs, picks, p);
    PicksCounted(ids, cs, picks, q);
    RR.EveryPositionOnce(next, |cs|, p);
    RR.RotationIsBalanced(next, |ids|, |cs|, p, q);
  }

  /** So grants are even: any run of acquires over n unchanging candidates grants each once if there are
      n of them, and after any number of them no candidate was granted more than once more often than another. */
  lemma GrantsAreEven<X>(fs: map<Id, Factory>, s: System<X>, ops: seq<Op<X>>, g: Id, cs: seq<Id>, p: nat, q: nat)
    requires Inv(fs, s) && g in s.mem.groups && s.mem.strategies[g].RoundRobin? && ops != []
    requires Unchanging(fs, s, ops, g, cs) && p < |cs| && q < |cs|
    ensures |ops| == |cs| ==> multiset(Grants(fs, s, ops))[cs[p]] == 1
    ensures multiset(Grants(fs, s, ops))[cs[p]] <= multiset(Grants(fs, s, ops))[cs[q]] + 1
  {
    CandidatesDiffer(s.mem, ops[0].a, false);
    GrantsGoRound(fs, s, ops, g, cs, s.mem.strategies[g].next);
    TurnsAreEven(Grants(fs, s, ops), cs, s.mem.strategies[g].next, p, q);
  }

  // ---------------------------------------------------------------- without a cap, candidates do not change

  /** Whoever asks in the group without a pin finds these candidates, and none of them has a cap. */
  ghost predicate Uncapped<X>(m: Memory<X>, g: Id, cs: seq<Id>) {
    && (forall b: Assignment :: b.groupId == g && b.resourceId == NO_ID ==> CandidatesFor(m, b, false) == cs)
    && (forall id :: id in cs ==> id in m.pool && m.pool[id].core.maxHolders == UNLIMITED_HOLDERS)
  }

  lemma UncappedFor<X>(m: Memory<X>, a: Assignment)
    requires a.resourceId == NO_ID
    requires forall id :: id in CandidatesFor(m, a, false) ==> m.pool[id].core.maxHolders == UNLIMITED_HOLDERS
    ensures Uncapped(m, a.groupId, CandidatesFor(m, a, false))
  {
    forall b: Assignment | b.groupId == a.groupId && b.resourceId == NO_ID
      ensures CandidatesFor(m, b, false) == CandidatesFor(m, a, false)
    {
      SameCandidates(m, m, m.order, b, a, false);
    }
  }

  lemma GrantKeepsCandidates<X>(fs: map<Id, Factory>, s: System<X>, op: Op<X>, g: Id, cs: seq<Id>)
    requires Inv(fs, s) && Shares(op, g) && op.a.taskId !in s.mem.bindings && Uncapped(s.mem, g, cs)
    ensures var n := Apply(fs, s, op).sys;
      n.mem.groups == s.mem.groups && n.mem.bindings == s.mem.bindings && Uncapped(n.mem, g, cs)
  {
    var n := Apply(fs, s, op).sys;
    assert CandidatesFor(s.mem, op.a, false) == cs;
    if Apply(fs, s, op).reply.Granted? {
      PassShape(fs, s, op.a, false, op.answer, op.saved);
      var r := Apply(fs, s, op).reply.record.core.id;
      assert r in cs;
      forall q ensures HeldCount(n.mem.holders, q) == HeldCount(s.mem.holders, q) + (if q == r then 1 else 0) {
        HeldCountHold(s.mem.holders, r, op.a.taskId, q);
      }
    } else {
      NoGrantNoLease(fs, s, op.a, false, op.answer, op.saved);
    }
    SameCandidates(s.mem, n.mem, s.mem.order, op.a, op.a, false);
    UncappedFor(n.mem, op.a);
  }

  lemma {:induction false} UncappedIsUnchanging<X>(fs: map<Id, Factory>, s: System<X>, ops: seq<Op<X>>, g: Id, cs: seq<Id>)
    requires Inv(fs, s) && Uncapped(s.mem, g, cs)
    requires forall j :: 0 <= j < |ops| ==> Shares(ops[j], g) && ops[j].a.taskId !in s.mem.bindings
    ensures Unchanging(fs, s, ops, g, cs)
    decreases |ops|
  {
    if ops != [] {
      assert forall j :: 0 <= j < |ops[1..]| ==> ops[1..][j] == ops[j + 1];
      KeptByApplied(fs, s, ops[0], g, cs);
      UncappedIsUnchanging(fs, Apply(fs, s, ops[0]).sys, ops[1..], g, cs);
    }
  }

  lemma KeptByApplied<X>(fs: map<Id, Factory>, s: System<X>, op: Op<X>, g: Id, cs: seq<Id>)
    requires Inv(fs, s) && Shares(op, g) && op.a.taskId !in s.mem.bindings && Uncapped(s.mem, g, cs)
    ensures var n := Apply(fs, s, op).sys;
      Inv(fs, n) && n.mem.bindings == s.mem.bindings && Uncapped(n.mem, g, cs) && CandidatesFor(s.mem, op.a, false) == cs
  {
    GrantKeepsCandidates(fs, s, op, g, cs);
    KeptByPass(fs, s, op.a, op.lock, op.answer, op.saved);
  }

  /** Any number of acquires, by any unbound tasks, over a group's uncapped free resources: as often as
      there are resources, each is granted exactly once; however often, their shares differ by at most one. */
  lemma UncappedGrantsAreEven<X>(fs: map<Id, Factory>, s: System<X>, ops: seq<Op<X>>, g: Id, a: Assignment, p: nat, q: nat)
    requires Inv(fs, s) && g in s.mem.groups && s.mem.strategies[g].RoundRobin? && a.groupId == g && a.resourceId == NO_ID
    requires forall j :: 0 <= j < |ops| ==> Shares(ops[j], g) && ops[j].a.taskId !in s.mem.bindings
    requires forall id :: id in CandidatesFor(s.mem, a, false) ==> s.mem.pool[id].core.maxHolders == UNLIMITED_HOLDERS
    requires ops != [] && p < |CandidatesFor(s.mem, a, false)| && q < |CandidatesFor(s.mem, a, false)|
    ensures var cs := CandidatesFor(s.mem, a, false);
      && (|ops| == |cs| ==> multiset(Grants(fs, s, ops))[cs[p]] == 1)
      && multiset(Grants(fs, s, ops))[cs[p]] <= multiset(Grants(fs, s, ops))[cs[q]] + 1
  {
    UncappedFor(s.mem, a);
    UncappedIsUnchanging(fs, s, ops, g, CandidatesFor(s.mem, a, false));
    GrantsAreEven(fs, s, ops, g, CandidatesFor(s.mem, a, false), p, q);
  }
}
