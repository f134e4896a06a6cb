/** A proxy lease: a leasing lease whose one release may first tally how the run went. */
module ProxyLease {
  import opened LeasingModel
  import opened LeasingInvariant
  import LeasingManager

  /** The outcome history a proxy record carries around its leasing core. */
  datatype Tally = Tally(successes: nat, failures: nat)

  function Tallied(p: Record<Tally>, success: bool): Record<Tally> {
    p.(body := if success then p.body.(successes := p.body.successes + 1) else p.body.(failures := p.body.failures + 1))
  }

  /** Exactly one more outcome of that kind. */
  predicate Counts(was: Tally, now: Tally, success: bool) {
    && now.successes == was.successes + (if success then 1 else 0)
    && now.failures == was.failures + (if success then 0 else 1)
  }

  class ProxyLease {
    const lease: LeasingManager.Lease<Tally>
    var spent: bool

    /** The latch and the leasing lease beneath it are spent together. */
    ghost predicate Valid()
      reads this, lease, lease.manager, lease.manager.repo, lease.manager.issued
    {
      lease.manager.Valid() && lease in lease.manager.issued && spent == lease.released
    }

    constructor (lease: LeasingManager.Lease<Tally>)
      requires lease.manager.Valid() && lease in lease.manager.issued && !lease.released
      ensures Valid() && this.lease == lease && !spent
    {
      this.lease, spent := lease, false;
    }

    /** One more success or failure on the pooled record, store first. */
    method Tally(success: bool) returns (stored: bool)
      requires lease.manager.Valid() && lease in lease.manager.issued && !lease.released
      modifies lease.manager, lease.manager.repo
      ensures lease.manager.Valid() && lease.manager.issued == old(lease.manager.issued)
      ensures lease.manager.live == old(lease.manager.live) && lease.manager.holders == old(lease.manager.holders)
      ensures !stored ==> lease.manager.repo.writes > old(lease.manager.repo.writes)
      ensures
        var s := old(lease.manager.View());
        var id := lease.resource.core.id;
        && id in s.mem.pool
        && lease.manager.View() == if stored then PutRecord(s, id, Tallied(s.mem.pool[id], success)) else s
    {
      var id := lease.resource.core.id;
      lease.manager.OpenLeaseIsLive(lease);
      assert Holding(lease.manager.holders, id, lease.taskId) > 0;
      var reply, _ := lease.manager.Update(id, p => Tallied(p, success));
      stored := reply.Done?;
    }

    /** Tallies while the lease still protects the record, then frees it whether or not the tally
        was stored. Only the first of this and Release acts. */
    method ReleaseOutcome(success: bool) returns (stored: bool)
      requires Valid()
      modifies this, lease, lease.manager, lease.manager.repo
      ensures Valid() && spent
      ensures old(spent) ==> stored && lease.manager.View() == old(lease.manager.View())
      ensures !old(spent) ==>
        var s := old(lease.manager.View());
        var id := lease.resource.core.id;
        && id in s.mem.pool
        && var tallied := if stored then PutRecord(s, id, Tallied(s.mem.pool[id], success)) else s;
           lease.manager.View() == LeasingModel.Release(tallied, id, lease.taskId).sys
      ensures !stored ==> lease.manager.repo.writes > old(lease.manager.repo.writes)
      ensures !old(spent) && stored ==>
        var id := lease.resource.core.id;
        Counts(old(lease.manager.pool)[id].body, lease.manager.pool[id].body, success)
        && lease.manager.repo.rows[id].body == lease.manager.pool[id].body
    {
      stored := true;
      if !spent {
        spent := true;
        stored := Tally(success);
        lease.Release();
      }
    }

    method Release()
      requires Valid()
      modifies this, lease, lease.manager
      ensures Valid() && spent
      ensures old(spent) ==> lease.manager.View() == old(lease.manager.View())
      ensures !old(spent) ==>
        lease.manager.View() == LeasingModel.Release(old(lease.manager.View()), lease.resource.core.id, lease.taskId).sys
    {
      if !spent {
        spent := true;
        lease.Release();
      }
    }
  }

  /** Whichever release comes second changes nothing: the manager ends as the first one left it, with
      the slot freed, and with a tally exactly if the outcome came first and was stored. */
  method ReleaseTwice(l: ProxyLease, success: bool, outcomeFirst: bool) returns (stored: bool)
    requires l.Valid() && !l.spent
    modifies l, l.lease, l.lease.manager, l.lease.manager.repo
    ensures l.Valid() && l.spent
    ensures
      var s, id := old(l.lease.manager.View()), l.lease.resource.core.id;
      && id in s.mem.pool
      && var tallied := if outcomeFirst && stored then PutRecord(s, id, Tallied(s.mem.pool[id], success)) else s;
         l.lease.manager.View() == LeasingModel.Release(tallied, id, l.lease.taskId).sys
  {
    if outcomeFirst {
      stored := l.ReleaseOutcome(success);
      l.Release();
    } else {
      l.lease.manager.OpenLeaseIsLive(l.lease);
      assert Holding(l.lease.manager.holders, l.lease.resource.core.id, l.lease.taskId) > 0;
      l.Release();
      stored := l.ReleaseOutcome(success);
    }
  }
}
