/** That mail gets through, and what each call on the manager comes to: for whoever listens, for the
    cursor, and for the calls after it. */
module EmailDelivery {
  import opened Wrappers
  import opened EmailModel
  import opened EmailTheorems

  lemma PlayOne(w: World, a: Action)
    ensures Play(w, [a]) == After(w, a)
  {
    assert [a][..0] == [];
  }

  lemma PlayNext(w: World, actions: seq<Action>, a: Action)
    ensures Play(w, actions + [a]) == After(Play(w, actions), a)
  {
    assert (actions + [a])[..|actions + [a]| - 1] == actions;
  }

  lemma PlayPair(w: World, a: Action, b: Action)
    ensures Play(w, [a, b]) == After(After(w, a), b)
  {
    PlayOne(w, a);
    PlayNext(w, [a], b);
    assert [a] + [b] == [a, b];
  }

  // ---------------------------------------------------------------- one subscription's queue

  function Least(a: int, b: int): int { if a <= b then a else b }

  /** A round of offers fills the buffer with the first of its messages that fit, in order, and counts
      the rest as dropped; nothing already queued is disturbed. */
  lemma {:induction false} OffersFillTheBuffer(s: Sub, msgs: seq<Mail>)
    requires Open(s) && |s.queue| <= s.capacity
    ensures var n, wanted := OfferAll(s, msgs), From(s.sender, msgs);
      var fit := Least(s.capacity - |s.queue|, |wanted|);
      n == s.(offered := s.offered + wanted, queue := s.queue + wanted[..fit], dropped := s.dropped + |wanted| - fit)
  {
    if msgs != [] {
      var init, m := msgs[..|msgs| - 1], msgs[|msgs| - 1];
      OffersFillTheBuffer(s, init);
      var before, wanted := From(s.sender, init), From(s.sender, msgs);
      var fit := Least(s.capacity - |s.queue|, |before|);
      if Wants(s.sender, m) {
        assert wanted == before + [m];
        if |s.queue| + |before| < s.capacity { assert before[..fit] == before && wanted[..fit + 1] == wanted; }
        else { assert wanted[..fit] == before[..fit]; }
      } else {
        assert wanted == before;
      }
    }
  }

  /** A backfill is a round of offers to the one subscription: what of it fits is queued, nobody else's
      is touched, and a closed one ignores it. */
  lemma BackfillTakes(w: World, s: Id, msgs: seq<Mail>)
    requires WorldOk(w) && s in w.d.subs
    ensures var sub, n := w.d.subs[s], After(w, Backfill(s, msgs));
      && n == w.(d := w.d.(subs := n.d.subs)) && n.d.subs.Keys == w.d.subs.Keys
      && (forall o :: o in w.d.subs && o != s ==> n.d.subs[o] == w.d.subs[o])
      && (if s !in w.d.attached then n.d.subs[s] == sub
          else
            var wanted := From(sub.sender, msgs);
            var fit := Least(sub.capacity - |sub.queue|, |wanted|);
            n.d.subs[s] == sub.(offered := sub.offered + wanted, queue := sub.queue + wanted[..fit], dropped := sub.dropped + |wanted| - fit))
  {
    var sub := w.d.subs[s];
    if s in w.d.attached { OffersFillTheBuffer(sub, msgs); } else { ClosedIgnoresMail(sub, msgs); }
    Backfills(w, s, msgs);
  }

  lemma Backfills(w: World, s: Id, msgs: seq<Mail>)
    requires s in w.d.subs
    ensures After(w, Backfill(s, msgs)) == w.(d := w.d.(subs := w.d.subs[s := OfferAll(w.d.subs[s], msgs)]))
  {
  }

  function Receives(s: Id, k: nat): seq<Action> { seq(k, i => Receive(s)) }

  /** What was queued is received in order, first in, first out. */
  lemma {:induction false} ReceivedInOrder(w: World, s: Id, k: nat)
    requires s in w.d.subs && k <= |w.d.subs[s].queue|
    ensures var sub, n := w.d.subs[s], Play(w, Receives(s, k));
      n == w.(d := w.d.(subs := w.d.subs[s := sub.(taken := sub.taken + sub.queue[..k], queue := sub.queue[k..])]))
  {
    if k == 0 {
      var sub := w.d.subs[s];
      assert sub.taken + sub.queue[..0] == sub.taken && sub.queue[0..] == sub.queue;
      assert w.d.subs[s := sub] == w.d.subs;
    } else {
      ReceivedInOrder(w, s, k - 1);
      assert Receives(s, k) == Receives(s, k - 1) + [Receive(s)];
      PlayNext(w, Receives(s, k - 1), Receive(s));
      var sub := w.d.subs[s];
      var last := sub.(taken := sub.taken + sub.queue[..k - 1], queue := sub.queue[k - 1..]);
      assert sub.queue[k - 1..][0] == sub.queue[k - 1] && sub.queue[k - 1..][1..] == sub.queue[k..];
      assert (sub.taken + sub.queue[..k - 1]) + [sub.queue[k - 1]] == sub.taken + sub.queue[..k];
      ReceivedNext(w, s, last);
    }
  }

  lemma ReceivedNext(w: World, s: Id, sub: Sub)
    requires sub.queue != []
    ensures After(w.(d := w.d.(subs := w.d.subs[s := sub])), Receive(s)) ==
            w.(d := w.d.(subs := w.d.subs[s := sub.(taken := sub.taken + [sub.queue[0]], queue := sub.queue[1..])]))
  {
    assert w.d.subs[s := sub][s := Taken(sub)] == w.d.subs[s := Taken(sub)];
  }

  // ---------------------------------------------------------------- a turn of the fetch loop

  /** The owner's turn, from the top of its loop: everything above the cursor, offered and kept. */
  function Turn(l: Id, msgs: seq<Mail>): seq<Action> { [Read(l), Fetch(l, msgs)] + [Fanout(l), Advance(l, true)] }

  lemma Fetches(w: World, l: Id, v: int, above: int, msgs: seq<Mail>)
    requires Owns(w.d, l) && w.d.row == Some(WithInbox(Cursor(v, above)))
    requires l in w.sessions && w.sessions[l] == Reading(v) && v == w.epoch
    requires v in w.boxes && Snapshot(w.boxes[v], above, msgs)
    ensures Play(w, [Read(l), Fetch(l, msgs)]) == To(w, l, Offering(v, above, msgs))
  {
    PlayPair(w, Read(l), Fetch(l, msgs));
    Reads(w, l, v, above);
    Brings(w, l, v, above, msgs);
  }

  lemma Reads(w: World, l: Id, v: int, above: int)
    requires Owns(w.d, l) && w.d.row == Some(WithInbox(Cursor(v, above))) && l in w.sessions && w.sessions[l] == Reading(v)
    ensures After(w, Read(l)) == To(w, l, Fetching(v, above))
  {
  }

  lemma Brings(w: World, l: Id, v: int, above: int, msgs: seq<Mail>)
    requires v == w.epoch && v in w.boxes && Snapshot(w.boxes[v], above, msgs)
    ensures After(To(w, l, Fetching(v, above)), Fetch(l, msgs)) == To(w, l, Offering(v, above, msgs))
  {
    var o := To(w, l, Fetching(v, above));
    assert After(o, Fetch(l, msgs)) == To(o, l, Offering(v, above, msgs));
    assert w.sessions[l := Fetching(v, above)][l := Offering(v, above, msgs)] == w.sessions[l := Offering(v, above, msgs)];
  }

  /** What the turn makes of the manager's state. */
  ghost predicate TurnTaken(d: Desk, n: Desk, v: int, msgs: seq<Mail>)
    requires d.row.Some? && d.row.value.WithInbox?
  {
    var above := d.row.value.cursor.last;
    && (exists last :: n.row == Some(WithInbox(Cursor(v, last))) && n.stored == n.row
                       && above <= last && (forall m :: m in msgs ==> m.uid <= last)
                       && (last == above || exists m :: m in msgs && m.uid == last))
    && n.owner == d.owner && n.attached == d.attached && n.subs.Keys == d.subs.Keys
    && (forall s :: s in d.subs ==> n.subs[s] == if s in d.attached then OfferAll(d.subs[s], msgs) else d.subs[s])
  }

  lemma SpreadsAndAdvances(w: World, l: Id, v: int, above: int, msgs: seq<Mail>)
    requires WorldOk(w) && Owns(w.d, l) && w.sessions[l] == Offering(v, above, msgs) && above >= 0
    ensures var n := Play(w, [Fanout(l), Advance(l, true)]);
      TurnTaken(w.d, n.d, v, msgs) && n.sessions == w.sessions[l := Idling(v)] && n.boxes == w.boxes && n.epoch == w.epoch
  {
    PlayPair(w, Fanout(l), Advance(l, true));
    HighestIsThere(msgs);
    Spreads(w, l, v, above, msgs);
    Advances(After(w, Fanout(l)), l, v, above, Highest(msgs));
    var n := Play(w, [Fanout(l), Advance(l, true)]);
    var last := n.d.row.value.cursor.last;
    assert n.d.row == Some(WithInbox(Cursor(v, last)));
  }

  lemma Spreads(w: World, l: Id, v: int, above: int, msgs: seq<Mail>)
    requires l in w.sessions && w.sessions[l] == Offering(v, above, msgs) && Owns(w.d, l)
    ensures var n := After(w, Fanout(l));
      && n.d == w.d.(subs := OfferedAll(w.d.subs, w.d.attached, msgs)) && n.boxes == w.boxes && n.epoch == w.epoch
      && n.sessions == w.sessions[l := if Highest(msgs) > above then Advancing(v, above, Highest(msgs)) else Idling(v)]
  {
  }

  lemma Advances(w: World, l: Id, v: int, above: int, to: int)
    requires l in w.sessions && w.sessions[l] == (if to > above then Advancing(v, above, to) else Idling(v))
    requires Owns(w.d, l) && w.d.row == Some(WithInbox(Cursor(v, above))) && w.d.stored == w.d.row
    ensures var n := After(w, Advance(l, true)); var row := Some(WithInbox(Cursor(v, if to > above then to else above)));
      n.d == w.d.(row := row, stored := row) && n.sessions == w.sessions[l := Idling(v)] && n.boxes == w.boxes && n.epoch == w.epoch
  {
  }

  /** Mail gets through: a turn of the inbox's owner that nothing breaks offers every message the server
      holds above the cursor to everyone attached, and leaves the cursor just past the last of them. */
  lemma MailGetsThrough(w: World, l: Id, v: int, msgs: seq<Mail>)
    requires WorldOk(w) && Owns(w.d, l) && w.sessions[l] == Reading(v) && v == w.epoch && w.d.row.value.cursor.last >= 0
    requires Snapshot(w.boxes[v], w.d.row.value.cursor.last, msgs)
    ensures var n := Play(w, Turn(l, msgs));
      TurnTaken(w.d, n.d, v, msgs) && n.sessions == w.sessions[l := Idling(v)] && n.boxes == w.boxes && n.epoch == w.epoch
  {
    Fetches(w, l, v, w.d.row.value.cursor.last, msgs);
    PlayTwice(w, [Read(l), Fetch(l, msgs)], Fanout(l), Advance(l, true));
    var o := To(w, l, Offering(v, w.d.row.value.cursor.last, msgs));
    PlayKeepsWorld(w, [Read(l), Fetch(l, msgs)]);
    SpreadsAndAdvances(o, l, v, w.d.row.value.cursor.last, msgs);
  }

  lemma PlayTwice(w: World, actions: seq<Action>, a: Action, b: Action)
    ensures Play(w, actions + [a, b]) == Play(Play(w, actions), [a, b])
  {
    assert actions + [a, b] == (actions + [a]) + [b] && [a, b] == [a] + [b];
    PlayNext(w, actions, a);
    PlayNext(w, actions + [a], b);
    PlayOne(Play(w, actions), a);
    PlayNext(Play(w, actions), [a], b);
  }

  /** Each message reaches every attached subscription that wants it, in its queue while there is room. */
  lemma EveryoneHears(w: World, l: Id, v: int, msgs: seq<Mail>, s: Id, m: Mail)
    requires WorldOk(w) && Owns(w.d, l) && w.sessions[l] == Reading(v) && v == w.epoch && w.d.row.value.cursor.last >= 0
    requires Snapshot(w.boxes[v], w.d.row.value.cursor.last, msgs)
    requires m in w.boxes[v].mail && m.uid > w.d.row.value.cursor.last && m.uid !in w.boxes[v].gone && s in w.d.attached
    ensures s in Play(w, Turn(l, msgs)).d.subs
    ensures var sub, now := w.d.subs[s], Play(w, Turn(l, msgs)).d.subs[s];
      && now.offered == sub.offered + From(sub.sender, msgs)
      && (m in now.offered[|sub.offered|..] <==> sub.sender == ALL_MAIL || m.sender == sub.sender)
      && (|sub.queue| + |From(sub.sender, msgs)| <= sub.capacity ==>
            now.queue == sub.queue + From(sub.sender, msgs) && now.dropped == sub.dropped)
  {
    MailGetsThrough(w, l, v, msgs);
    var sub := w.d.subs[s];
    OffersFillTheBuffer(sub, msgs);
    FromHolds(sub.sender, msgs, m);
    var wanted := From(sub.sender, msgs);
    assert (sub.offered + wanted)[|sub.offered|..] == wanted;
    assert wanted[..|wanted|] == wanted;
  }

  /** And once: what the next turn fetches is none of it. */
  lemma FetchedOnce(w: World, l: Id, v: int, msgs: seq<Mail>, more: seq<Mail>)
    requires WorldOk(w) && Owns(w.d, l) && w.sessions[l] == Reading(v) && v == w.epoch && w.d.row.value.cursor.last >= 0
    requires Snapshot(w.boxes[v], w.d.row.value.cursor.last, msgs)
    ensures var n := Play(w, Turn(l, msgs));
      && n.d.row.Some? && n.d.row.value.WithInbox? && v in n.boxes
      && (Snapshot(n.boxes[v], n.d.row.value.cursor.last, more) ==> more == [])
  {
    MailGetsThrough(w, l, v, msgs);
    assert more != [] ==> more[0] in more;
  }

  // ---------------------------------------------------------------- the start of a session

  /** A session on a mailbox renumbered since joins it at its present: the cursor jumps to its end. */
  lemma RenumberedJoinsAtThePresent(w: World, l: Id)
    requires WorldOk(w) && Owns(w.d, l) && w.sessions[l].Off? && w.d.row.value.cursor.validity != w.epoch
    ensures var n := Play(w, [Connect(l), Check(l)] + [Reset(l, true)]);
      && n.d == w.d.(row := n.d.row, stored := n.d.row) && n.d.row == Some(WithInbox(Cursor(w.epoch, w.boxes[w.epoch].next - 1)))
      && n.sessions == w.sessions[l := Reading(w.epoch)]
  {
    Selects(w, l);
    PlayNext(w, [Connect(l), Check(l)], Reset(l, true));
  }

  /** On one that is not, it goes on from the cursor as it stands. */
  lemma SameNumberingGoesOn(w: World, l: Id)
    requires WorldOk(w) && Owns(w.d, l) && w.sessions[l].Off? && w.d.row.value.cursor.validity == w.epoch
    ensures Play(w, [Connect(l), Check(l)]) == To(w, l, Reading(w.epoch))
  {
    Selects(w, l);
  }

  lemma Selects(w: World, l: Id)
    requires WorldOk(w) && Owns(w.d, l) && w.sessions[l].Off?
    ensures Play(w, [Connect(l), Check(l)]) ==
            To(w, l, if w.d.row.value.cursor.validity == w.epoch then Reading(w.epoch)
                     else Resetting(w.epoch, w.boxes[w.epoch].next - 1))
  {
    PlayPair(w, Connect(l), Check(l));
    SelectsThere(w, l, w.epoch, w.boxes[w.epoch].next - 1);
  }

  lemma SelectsThere(w: World, l: Id, v: int, last: int)
    requires Owns(w.d, l) && w.d.row.Some? && w.d.row.value.WithInbox? && l in w.sessions && w.sessions[l].Off?
    requires v == w.epoch && v in w.boxes && last == w.boxes[v].next - 1
    ensures After(After(w, Connect(l)), Check(l)) ==
            To(w, l, if w.d.row.value.cursor.validity == v then Reading(v) else Resetting(v, last))
  {
    Connects(w, l);
    Compares(w, l, v, last);
  }

  lemma Connects(w: World, l: Id)
    requires l in w.sessions && w.sessions[l].Off? && w.epoch in w.boxes
    ensures After(w, Connect(l)) == To(w, l, Selected(w.epoch, w.boxes[w.epoch].next - 1))
  {
  }

  lemma Compares(w: World, l: Id, v: int, last: int)
    requires Owns(w.d, l) && w.d.row.Some? && w.d.row.value.WithInbox?
    ensures After(To(w, l, Selected(v, last)), Check(l)) ==
            To(w, l, if w.d.row.value.cursor.validity == v then Reading(v) else Resetting(v, last))
  {
    var o := To(w, l, Selected(v, last));
    Checks(o, l, v, last);
    var next := if w.d.row.value.cursor.validity == v then Reading(v) else Resetting(v, last);
    assert w.sessions[l := Selected(v, last)][l := next] == w.sessions[l := next];
  }

  lemma Checks(w: World, l: Id, v: int, last: int)
    requires l in w.sessions && w.sessions[l] == Selected(v, last)
    requires Owns(w.d, l) && w.d.row.Some? && w.d.row.value.WithInbox?
    ensures After(w, Check(l)) == To(w, l, if w.d.row.value.cursor.validity == v then Reading(v) else Resetting(v, last))
  {
  }

  // ---------------------------------------------------------------- subscribing

  /** Listening takes, exactly for a named task and a real buffer, on an open manager, to an inbox it
      knows: one open, empty, attached subscription as asked for, on the listener there was or on a
      new one about to connect. Otherwise nothing changes. */
  lemma ListenTakes(w: World, task: Id, sender: int, buffer: int, s: Id, l: Id)
    requires WorldOk(w) && s !in w.used && l !in w.used && s != l
    ensures var n := After(w, Listen(task, sender, buffer, s, l));
      if task != 0 && buffer >= 1 && !w.d.closed && w.d.row.Some? && w.d.row.value.WithInbox? then
        && n.d.attached == w.d.attached + {s}
        && n.d.subs == w.d.subs[s := Sub(task, sender, buffer, [], [], [], 0, 0)]
        && n.d.owner == (if w.d.owner.Some? then w.d.owner else Some(l))
        && n.d.stops == (if w.d.owner.Some? then w.d.stops else w.d.stops[l := 0])
        && n.sessions == (if w.d.owner.Some? then w.sessions else w.sessions[l := Off])
        && n.d.row == w.d.row && n.d.stored == w.d.stored
      else n == w
  {
  }

  /** Closing a subscription takes: it is off and closed, everyone else's stays as it was, and the
      listener stops exactly if it was the last. */
  lemma CloseTakes(w: World, s: Id)
    requires WorldOk(w) && s in w.d.attached
    ensures var d, n := w.d, After(w, CloseSub(s)).d;
      && n.attached == d.attached - {s} && n.subs == d.subs[s := d.subs[s].(closes := 1)]
      && (if d.attached == {s} then n.owner.None? && n.stops[d.owner.value] == 1 else n.owner == d.owner && n.stops == d.stops)
      && n.row == d.row && n.closed == d.closed
  {
  }

  /** A stopped listener's goroutine goes away at the end of its session. */
  lemma StoppedLeaves(w: World, s: Id)
    requires WorldOk(w) && w.d.attached == {s} && w.d.owner.Some? && w.sessions[w.d.owner.value].Off?
    ensures w.d.owner.value !in After(After(w, CloseSub(s)), Leave(w.d.owner.value)).sessions
  {
    CloseTakes(w, s);
  }

  // ---------------------------------------------------------------- shutting down

  ghost predicate Shut(d: Desk) {
    d.closed && d.owner.None? && d.attached == {} && forall s :: s in d.subs ==> !Open(d.subs[s])
  }

  /** The manager's Close is final: every listener is stopped, every subscription closed, and until the
      process ends nobody listens again. */
  lemma {:induction false} ShutDownIsFinal(w: World, more: seq<Action>)
    requires WorldOk(w) && forall i :: 0 <= i < |more| ==> !more[i].Crash?
    ensures var n := Play(After(w, CloseManager), more);
      && WorldOk(n) && Shut(n.d) && n.d.subs.Keys == w.d.subs.Keys
      && (w.d.owner.Some? ==> w.d.owner.value in n.d.stops && n.d.stops[w.d.owner.value] == 1)
  {
    WorldOkKept(w, CloseManager);
    if more == [] {
      assert forall s :: s in w.d.subs ==> (Open(w.d.subs[s]) <==> s in w.d.attached);
    } else {
      var init, a := more[..|more| - 1], more[|more| - 1];
      ShutDownIsFinal(w, init);
      WorldOkKept(Play(After(w, CloseManager), init), a);
      ShutStep(Play(After(w, CloseManager), init), a);
    }
  }

  lemma ShutStep(w: World, a: Action)
    requires WorldOk(w) && Shut(w.d) && !a.Crash?
    ensures var n := After(w, a); Shut(n.d) && n.d.subs.Keys == w.d.subs.Keys && n.d.stops == w.d.stops
  {
    if IsSession(a) {
      if a.l in w.sessions { SupersededIsInert(w, a); }
    } else if !IsServer(a) {
      ShutByCall(w, a);
    }
  }

  lemma ShutByCall(w: World, a: Action)
    requires WorldOk(w) && Shut(w.d) && !a.Crash? && !IsSession(a) && !IsServer(a)
    ensures var n := After(w, a); Shut(n.d) && n.d.subs.Keys == w.d.subs.Keys && n.d.stops == w.d.stops
  {
    if a.Backfill? && a.s in w.d.subs { ClosedIgnoresMail(w.d.subs[a.s], a.msgs); }
  }

  /** A new process over the same store knows the row as it was stored, and takes listeners again. */
  lemma RestartListensAgain(w: World, task: Id, sender: int, buffer: int, s: Id, l: Id)
    requires WorldOk(w) && w.d.row.Some? && w.d.row.value.WithInbox? && task != 0 && buffer >= 1
    requires s !in w.used && l !in w.used && s != l
    ensures var c := After(w, Crash);
      && c.d.row == w.d.row && c.d.stored == w.d.row && c.d.owner.None? && c.d.subs == map[] && c.sessions == map[]
      && Owns(After(c, Listen(task, sender, buffer, s, l)).d, l)
  {
    WorldOkKept(w, Crash);
    ListenTakes(After(w, Crash), task, sender, buffer, s, l);
  }

  // ---------------------------------------------------------------- rows

  /** An email is added exactly where there is none and the save lands, with its inbox as it comes; one
      with an inbox can then be listened to, one without cannot. */
  lemma AddTakes(w: World, inbox: Option<Cursor>, ok: bool, task: Id, sender: int, buffer: int, s: Id, l: Id)
    requires WorldOk(w) && task != 0 && buffer >= 1 && !w.d.closed && s !in w.used && l !in w.used && s != l
    ensures var n := After(w, Add(inbox, ok));
      if w.d.row.None? && ok then
        && n.d == w.d.(row := n.d.row, stored := n.d.row)
        && n.d.row == Some(match inbox case None => AddressOnly case Some(c) => WithInbox(c))
        && (Owns(After(n, Listen(task, sender, buffer, s, l)).d, l) <==> inbox.Some?)
      else n.d == w.d
  {
    WorldOkKept(w, Add(inbox, ok));
    ListenTakes(After(w, Add(inbox, ok)), task, sender, buffer, s, l);
  }

  /** It is deleted, from memory and store, exactly where it is known, nobody listens or holds a lease,
      and the delete lands; nobody can listen to it then. */
  lemma DeleteTakes(w: World, held: bool, ok: bool, task: Id, sender: int, buffer: int, s: Id, l: Id)
    requires WorldOk(w) && s !in w.used && l !in w.used && s != l
    ensures var n := After(w, Delete(held, ok));
      if w.d.owner.None? && ok && (w.d.row.None? || !held) then
        n == w.(d := w.d.(row := None, stored := None)) && After(n, Listen(task, sender, buffer, s, l)) == n
      else n == w
  {
    WorldOkKept(w, Delete(held, ok));
    ListenTakes(After(w, Delete(held, ok)), task, sender, buffer, s, l);
  }
}
