/** The built-in rotation: a cursor over the candidates, and how evenly it spreads picks. */
module RoundRobin {

  datatype Pick<T> = Picked(value: T) | NoCandidates

  class Rotation<T> {
    var next: nat

    constructor ()
      ensures next == 0
    {
      next := 0;
    }

    method Select(candidates: seq<T>) returns (r: Pick<T>)
      modifies this
      ensures candidates == [] ==> r == NoCandidates && next == old(next)
      ensures candidates != [] ==> r == Picked(candidates[old(next) % |candidates|]) && next == old(next) + 1
    {
      if |candidates| == 0 { return NoCandidates; }
      r := Picked(candidates[next % |candidates|]);
      next := next + 1;
    }

    /** A burst of selections over one fixed list: the positions picked are the rotation's. */
    method SelectMany(candidates: seq<T>, k: nat) returns (picks: seq<T>)
      requires candidates != []
      modifies this
      ensures next == old(next) + k && |picks| == k
      ensures forall i :: 0 <= i < k ==> picks[i] == candidates[Positions(old(next), k, |candidates|)[i]]
    {
      picks := [];
      var i := 0;
      while i < k
        invariant 0 <= i <= k && next == old(next) + i && |picks| == i
        invariant forall j :: 0 <= j < i ==> picks[j] == candidates[Positions(old(next), k, |candidates|)[j]]
      {
        var r := Select(candidates);
        picks := picks + [r.value];
        i := i + 1;
      }
    }
  }

  /** The positions k selections from a cursor pick in a list of n. */
  function Positions(next: nat, k: nat, n: nat): (r: seq<nat>)
    requires n > 0
    ensures |r| == k && forall i :: 0 <= i < k ==> r[i] == (next + i) % n
  {
    seq(k, i requires 0 <= i => (next + i) % n)
  }

  function Times(picks: seq<nat>, p: nat): nat {
    if picks == [] then 0 else Times(picks[1..], p) + if picks[0] == p then 1 else 0
  }

  lemma {:induction false} TimesConcat(a: seq<nat>, b: seq<nat>, p: nat)
    ensures Times(a + b, p) == Times(a, p) + Times(b, p)
  {
    if a == [] {
      assert a + b == b;
    } else {
      assert (a + b)[1..] == a[1..] + b;
      TimesConcat(a[1..], b, p);
    }
  }

  lemma {:induction false} TimesNone(picks: seq<nat>, p: nat)
    requires p !in picks
    ensures Times(picks, p) == 0
  {
    if picks != [] { TimesNone(picks[1..], p); }
  }

  lemma {:induction false} TimesOnce(picks: seq<nat>, at: nat)
    requires at < |picks| && forall i, j :: 0 <= i < j < |picks| ==> picks[i] != picks[j]
    ensures Times(picks, picks[at]) == 1
  {
    var p := picks[at];
    var before, after := picks[..at], picks[at + 1..];
    assert picks == before + ([p] + after);
    TimesConcat(before, [p] + after, p);
    assert ([p] + after)[1..] == after;
    TimesNone(before, p);
    TimesNone(after, p);
  }

  lemma MulGrows(n: int, d: int)
    requires n > 0
    ensures d >= 1 ==> n * d >= n
    ensures d <= -1 ==> n * d <= -n
  {
  }

  lemma RemainderUnique(x: nat, n: nat, k: int, p: nat)
    requires n > 0 && p < n && x == n * k + p
    ensures x % n == p && x / n == k
  {
    var q, m := x / n, x % n;
    assert x == n * q + m;
    assert n * (q - k) == p - m;
    MulGrows(n, q - k);
  }

  /** Within n steps the cursor's position moves up by one each time, wrapping once. */
  lemma Position(next: nat, i: nat, n: nat)
    requires n > 0 && i <= n
    ensures (next + i) % n == if next % n + i < n then next % n + i else next % n + i - n
  {
    var q, m := next / n, next % n;
    assert next == n * q + m;
    if m + i < n {
      RemainderUnique(next + i, n, q, m + i);
    } else {
      assert n * (q + 1) == n * q + n;
      RemainderUnique(next + i, n, q + 1, m + i - n);
    }
  }

  /** Over a fixed list of n, any n consecutive selections pick every position exactly once. */
  lemma EveryPositionOnce(next: nat, n: nat, p: nat)
    requires p < n
    ensures Times(Positions(next, n, n), p) == 1
  {
    var picks := Positions(next, n, n);
    var at := if next % n <= p then p - next % n else p + n - next % n;
    Position(next, at, n);
    forall i, j | 0 <= i < j < n ensures picks[i] != picks[j] {
      Position(next, i, n);
      Position(next, j, n);
    }
    TimesOnce(picks, at);
  }

  lemma AtMostOnce(next: nat, k: nat, n: nat, p: nat)
    requires p < n && k <= n
    ensures Times(Positions(next, k, n), p) <= 1
  {
    EveryPositionOnce(next, n, p);
    var all, some := Positions(next, n, n), Positions(next, k, n);
    assert all == some + all[k..];
    TimesConcat(some, all[k..], p);
  }

  lemma OneMoreRound(k: nat, n: nat)
    requires n > 0 && k >= n
    ensures k / n == (k - n) / n + 1
  {
    var q, m := (k - n) / n, (k - n) % n;
    assert k - n == n * q + m;
    assert n * (q + 1) == n * q + n;
    RemainderUnique(k, n, q + 1, m);
  }

  lemma PositionsSplit(next: nat, a: nat, b: nat, n: nat)
    requires n > 0
    ensures Positions(next, a + b, n) == Positions(next, a, n) + Positions(next + a, b, n)
  {
    var whole, first, rest := Positions(next, a + b, n), Positions(next, a, n), Positions(next + a, b, n);
    forall i | 0 <= i < |whole| ensures whole[i] == (first + rest)[i] {
      if i >= a { assert next + a + (i - a) == next + i; }
    }
  }

  lemma {:induction false} PickCount(next: nat, k: nat, n: nat, p: nat)
    requires p < n
    ensures k / n <= Times(Positions(next, k, n), p) <= k / n + 1
    decreases k
  {
    if k < n {
      RemainderUnique(k, n, 0, k);
      AtMostOnce(next, k, n, p);
    } else {
      PickCount(next + n, k - n, n, p);
      EveryPositionOnce(next, n, p);
      PositionsSplit(next, n, k - n, n);
      TimesConcat(Positions(next, n, n), Positions(next + n, k - n, n), p);
      OneMoreRound(k, n);
    }
  }

  /** From any cursor and after any number of selections, pick counts differ by at most one. */
  lemma RotationIsBalanced(next: nat, k: nat, n: nat, p: nat, q: nat)
    requires p < n && q < n
    ensures Times(Positions(next, k, n), p) <= Times(Positions(next, k, n), q) + 1
  {
    PickCount(next, k, n, p);
    PickCount(next, k, n, q);
  }
}
