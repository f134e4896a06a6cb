/** What every interleaving of listeners, subscribers, the mail server and crashes keeps. */
module EmailTheorems {
  import opened Wrappers
  import opened EmailModel

  // ---------------------------------------------------------------- one subscription's accounts

  /** `a` is `b` with some elements left out. */
  predicate Subsequence<T(==)>(a: seq<T>, b: seq<T>) {
    if a == [] then true
    else if b == [] then false
    else
      var x, y := a[..|a| - 1], b[..|b| - 1];
      (a[|a| - 1] == b[|b| - 1] && Subsequence(x, y)) || Subsequence(a, y)
  }

  /** Ascending positions of `b` where the elements of `a` stand. */
  ghost predicate Picks<T>(a: seq<T>, b: seq<T>, at: seq<int>) {
    && |at| == |a|
    && (forall i :: 0 <= i < |at| ==> 0 <= at[i] < |b| && b[at[i]] == a[i])
    && (forall i, j :: 0 <= i < j < |at| ==> at[i] < at[j])
  }

  /** A subsequence is what ascending positions pick out. */
  lemma {:induction false} SubsequencePicks<T>(a: seq<T>, b: seq<T>) returns (at: seq<int>)
    requires Subsequence(a, b)
    ensures Picks(a, b, at)
  {
    if a == [] { return []; }
    var x, y := a[..|a| - 1], b[..|b| - 1];
    if a[|a| - 1] == b[|b| - 1] && Subsequence(x, y) {
      var before := SubsequencePicks(x, y);
      at := before + [|b| - 1];
    } else {
      at := SubsequencePicks(a, y);
    }
  }

  /** Every matching offer made while open was sent or counted as dropped; what was sent kept its
      order; the buffer never overflowed. */
  ghost predicate SubOk(s: Sub) {
    && 0 <= |s.queue| <= s.capacity
    && s.dropped >= 0 && (s.closes == 0 || s.closes == 1)
    && |s.offered| == |Sent(s)| + s.dropped
    && Subsequence(Sent(s), s.offered)
    && (forall i :: 0 <= i < |s.offered| ==> Wants(s.sender, s.offered[i]))
  }

  /** A subscription to everything, or to this message's sender. */
  predicate Wants(sender: int, m: Mail) { sender == ALL_MAIL || m.sender == sender }

  lemma OfferKeepsAccounts(s: Sub, m: Mail)
    requires SubOk(s)
    ensures SubOk(Offer(s, m))
  {
    var n := Offer(s, m);
    if Open(s) && Matches(s, m) {
      assert n.offered[..|n.offered| - 1] == s.offered;
      if |s.queue| < s.capacity {
        assert Sent(n) == Sent(s) + [m];
        assert Sent(n)[..|Sent(n)| - 1] == Sent(s);
      } else {
        assert Sent(n) == Sent(s);
      }
    }
  }

  /** The fixed part of a subscription, and what is settled once it closes. */
  predicate SameFeed(s: Sub, n: Sub) {
    n.task == s.task && n.sender == s.sender && n.capacity == s.capacity
    && (!Open(s) ==> Sent(n) == Sent(s) && n.offered == s.offered && n.dropped == s.dropped && n.closes == s.closes)
  }

  lemma {:induction false} OfferAllKeepsAccounts(s: Sub, msgs: seq<Mail>)
    requires SubOk(s)
    ensures SubOk(OfferAll(s, msgs)) && SameFeed(s, OfferAll(s, msgs)) && OfferAll(s, msgs).closes == s.closes
  {
    if msgs != [] {
      OfferAllKeepsAccounts(s, msgs[..|msgs| - 1]);
      OfferKeepsAccounts(OfferAll(s, msgs[..|msgs| - 1]), msgs[|msgs| - 1]);
    }
  }

  /** The messages from the sender, all of them if it is everybody, in order. */
  function From(sender: int, msgs: seq<Mail>): seq<Mail> {
    if msgs == [] then []
    else From(sender, msgs[..|msgs| - 1]) + if Wants(sender, msgs[|msgs| - 1]) then [msgs[|msgs| - 1]] else []
  }

  /** What a round of offers does to an open subscription: every matching message, and no other, is
      offered, in order. */
  lemma {:induction false} OffersAreTheMatches(s: Sub, msgs: seq<Mail>)
    requires Open(s)
    ensures OfferAll(s, msgs).offered == s.offered + From(s.sender, msgs)
    ensures var n := OfferAll(s, msgs);
      Open(n) && n.sender == s.sender && n.taken == s.taken && n.capacity == s.capacity && s.queue <= n.queue
  {
    if msgs != [] {
      OffersAreTheMatches(s, msgs[..|msgs| - 1]);
    }
  }

  lemma {:induction false} FromHolds(sender: int, msgs: seq<Mail>, m: Mail)
    requires m in msgs
    ensures Wants(sender, m) <==> m in From(sender, msgs)
  {
    if m in msgs[..|msgs| - 1] {
      FromHolds(sender, msgs[..|msgs| - 1], m);
    } else {
      FromIsPart(sender, msgs[..|msgs| - 1]);
    }
  }

  lemma {:induction false} FromIsPart(sender: int, msgs: seq<Mail>)
    ensures forall m :: m in From(sender, msgs) ==> m in msgs
  {
    if msgs != [] { FromIsPart(sender, msgs[..|msgs| - 1]); }
  }

  // ---------------------------------------------------------------- the manager's state

  ghost predicate DeskOk(d: Desk) {
    && d.row == d.stored
    && (d.owner.Some? ==>
          && d.owner.value in d.stops
          && d.attached != {}
          && d.row.Some? && d.row.value.WithInbox?
          && !d.closed)
    && (d.owner.None? ==> d.attached == {})
    && (forall l :: l in d.stops ==> d.stops[l] == if Owns(d, l) then 0 else 1)
    && d.attached <= d.subs.Keys
    && (forall s :: s in d.subs ==> SubOk(d.subs[s]) && (Open(d.subs[s]) <==> s in d.attached))
  }

  lemma ListenKeepsDesk(d: Desk, task: Id, sender: int, buffer: int, s: Id, l: Id)
    requires DeskOk(d) && s !in d.subs && l !in d.stops
    ensures DeskOk(ListenD(d, task, sender, buffer, s, l))
  {
  }

  lemma CloseSubKeepsDesk(d: Desk, s: Id)
    requires DeskOk(d)
    ensures DeskOk(CloseSubD(d, s))
  {
  }

  lemma CloseKeepsDesk(d: Desk)
    requires DeskOk(d)
    ensures DeskOk(CloseD(d))
  {
  }

  lemma FanoutKeepsDesk(d: Desk, l: Id, msgs: seq<Mail>)
    requires DeskOk(d)
    ensures DeskOk(FanoutD(d, l, msgs))
  {
    forall s | s in d.subs
      ensures SubOk(OfferAll(d.subs[s], msgs)) && OfferAll(d.subs[s], msgs).closes == d.subs[s].closes
    {
      OfferAllKeepsAccounts(d.subs[s], msgs);
    }
  }

  lemma BackfillKeepsDesk(d: Desk, s: Id, msgs: seq<Mail>)
    requires DeskOk(d)
    ensures DeskOk(BackfillD(d, s, msgs))
  {
    if s in d.subs { OfferAllKeepsAccounts(d.subs[s], msgs); }
  }

  lemma RowsKeepDesk(d: Desk, l: Id, validity: int, uid: int, reset: bool, held: bool, inbox: Option<Cursor>, ok: bool)
    requires DeskOk(d)
    ensures DeskOk(AddD(d, inbox, ok)) && DeskOk(DeleteD(d, held, ok)) && DeskOk(AdvanceD(d, l, validity, uid, reset, ok))
  {
  }

  lemma ReceiveKeepsDesk(d: Desk, s: Id)
    requires DeskOk(d)
    ensures DeskOk(ReceiveD(d, s))
  {
    if s in d.subs {
      assert Sent(Taken(d.subs[s])) == Sent(d.subs[s]);
    }
  }

  /** A repeated Close of an old subscription changes nothing, whoever listens by then: it neither
      stops the successor's listener nor detaches anyone. */
  lemma OldCloseIsHarmless(d: Desk, s: Id)
    requires DeskOk(d) && s !in d.attached
    ensures CloseSubD(d, s) == d
  {
    if s in d.subs {
      assert d.attached - {s} == d.attached;
      assert d.subs[s := d.subs[s]] == d.subs;
    }
  }

  // ---------------------------------------------------------------- the cursor

  /** Every message of the mailbox with a UID above `lo` and up to `hi` was offered, or had been
      expunged from the server. */
  ghost predicate AllOffered(box: Mailbox, log: seq<Delivery>, validity: int, lo: int, hi: int) {
    forall m :: m in box.mail && lo < m.uid <= hi ==> m.uid in box.gone || WasOffered(log, validity, m)
  }

  ghost predicate WasOffered(log: seq<Delivery>, validity: int, m: Mail) {
    exists i :: 0 <= i < |log| && log[i].validity == validity && log[i].mail == m && log[i].to != {}
  }

  ghost predicate CursorOk(boxes: map<int, Mailbox>, log: seq<Delivery>, floor: int, c: Cursor) {
    if c.validity in boxes then
      && floor <= c.last && (c.last == floor || c.last < boxes[c.validity].next)
      && AllOffered(boxes[c.validity], log, c.validity, floor, c.last)
    else c.last == floor
  }

  ghost predicate BoxesOk(boxes: map<int, Mailbox>, epoch: int) {
    epoch in boxes && forall v :: v in boxes ==> 1 <= v <= epoch && BoxOk(boxes[v])
  }

  /** Where the owner's session stands, against the cursor it is about to move. */
  ghost predicate SessionOk(boxes: map<int, Mailbox>, log: seq<Delivery>, c: Cursor, at: Session) {
    match at
    case Off => true
    case Selected(v, last) => v in boxes && last < boxes[v].next
    case Resetting(v, last) => v in boxes && c.validity != v && last < boxes[v].next
    case Reading(v) => v in boxes && c.validity == v
    case Fetching(v, above) => v in boxes && c == Cursor(v, above)
    case Offering(v, above, msgs) =>
      && v in boxes && c == Cursor(v, above)
      && (forall m :: m in msgs ==> m in boxes[v].mail)
      && (forall m :: m in boxes[v].mail && above < m.uid <= Highest(msgs) ==> m.uid in boxes[v].gone || m in msgs)
    case Advancing(v, above, to) =>
      && v in boxes && c == Cursor(v, above) && above < to < boxes[v].next
      && AllOffered(boxes[v], log, v, above, to)
    case Idling(v) => v in boxes && c.validity == v
  }

  ghost predicate WorldOk(w: World) {
    && DeskOk(w.d)
    && w.d.stops.Keys <= w.used && w.d.subs.Keys <= w.used && w.sessions.Keys <= w.used
    && BoxesOk(w.boxes, w.epoch)
    && (w.d.row.Some? && w.d.row.value.WithInbox? ==> CursorOk(w.boxes, w.log, w.floor, w.d.row.value.cursor))
    && (w.d.owner.Some? ==>
          w.d.owner.value in w.sessions
          && SessionOk(w.boxes, w.log, w.d.row.value.cursor, w.sessions[w.d.owner.value]))
  }

  lemma {:induction false} HighestIsThere(msgs: seq<Mail>)
    ensures forall m :: m in msgs ==> m.uid <= Highest(msgs)
    ensures Highest(msgs) == 0 || exists m :: m in msgs && m.uid == Highest(msgs)
  {
    if msgs != [] { HighestIsThere(msgs[..|msgs| - 1]); }
  }

  lemma ServerKeepsWorld(w: World, a: Action)
    requires WorldOk(w) && IsServer(a)
    ensures WorldOk(After(w, a))
  {
    match a
    case Renumber(validity, box) => RenumberKeepsWorld(w, validity, box);
    case Arrive(m) => ArrivalKeepsWorld(w, m);
    case Expunge(uid) => ExpungeKeepsWorld(w, uid);
  }

  lemma RenumberKeepsWorld(w: World, validity: int, box: Mailbox)
    requires WorldOk(w)
    ensures WorldOk(After(w, Renumber(validity, box)))
  {
  }

  lemma ArrivalKeepsWorld(w: World, m: Mail)
    requires WorldOk(w)
    ensures WorldOk(After(w, Arrive(m)))
  {
    if w.d.owner.Some? && w.sessions[w.d.owner.value].Offering? { HighestIsThere(w.sessions[w.d.owner.value].msgs); }
  }

  lemma ExpungeKeepsWorld(w: World, uid: int)
    requires WorldOk(w)
    ensures WorldOk(After(w, Expunge(uid)))
  {
  }

  /** A listener that has lost the inbox changes nothing but where its own session stands: it
      delivers nothing, and moves no cursor, whatever its session still holds. */
  lemma SupersededIsInert(w: World, a: Action)
    requires IsSession(a) && !Owns(w.d, a.l)
    ensures var n := After(w, a); n == w.(sessions := n.sessions)
    ensures forall l :: l in w.sessions && l != a.l ==> l in After(w, a).sessions && After(w, a).sessions[l] == w.sessions[l]
  {
  }

  lemma FanoutOffersAll(w: World, l: Id)
    requires WorldOk(w) && Owns(w.d, l) && w.sessions[l].Offering?
    ensures var at, log := w.sessions[l], After(w, Action.Fanout(l)).log;
      AllOffered(w.boxes[at.validity], log, at.validity, at.above, Highest(at.msgs))
  {
    var at, n := w.sessions[l], After(w, Action.Fanout(l));
    forall m | m in at.msgs
      ensures WasOffered(n.log, at.validity, m)
    {
      var i :| 0 <= i < |at.msgs| && at.msgs[i] == m;
      assert n.log[|w.log| + i] == Delivery(at.validity, m, l, w.d.attached);
    }
  }

  lemma LongerLogStill(box: Mailbox, log: seq<Delivery>, more: seq<Delivery>, v: int, lo: int, hi: int)
    requires AllOffered(box, log, v, lo, hi)
    ensures AllOffered(box, log + more, v, lo, hi)
  {
    forall m | m in box.mail && lo < m.uid <= hi && WasOffered(log, v, m)
      ensures WasOffered(log + more, v, m)
    {
      var i :| 0 <= i < |log| && log[i].validity == v && log[i].mail == m && log[i].to != {};
      assert (log + more)[i] == log[i];
    }
  }

  lemma FanoutKeepsWorld(w: World, l: Id)
    requires WorldOk(w) && l in w.sessions
    ensures WorldOk(After(w, Action.Fanout(l)))
  {
    var at := w.sessions[l];
    if at.Offering? && Owns(w.d, l) {
      var n := After(w, Action.Fanout(l));
      FanoutKeepsDesk(w.d, l, at.msgs);
      FanoutOffersAll(w, l);
      HighestIsThere(at.msgs);
      LongerLogStill(w.boxes[at.validity], w.log, Logged(at.validity, at.msgs, l, w.d.attached), at.validity, w.floor, at.above);
      assert CursorOk(n.boxes, n.log, n.floor, n.d.row.value.cursor);
    }
  }

  lemma SessionKeepsWorld(w: World, a: Action)
    requires WorldOk(w) && IsSession(a) && !a.Fanout? && a.l in w.sessions
    ensures WorldOk(After(w, a))
  {
    if !Owns(w.d, a.l) {
      SupersededIsInert(w, a);
    } else if a.Reset? || a.Advance? {
      CursorMoveKeepsWorld(w, a);
    } else {
      SessionMoveKeepsWorld(w, a);
    }
  }

  lemma CursorMoveKeepsWorld(w: World, a: Action)
    requires WorldOk(w) && (a.Reset? || a.Advance?) && Owns(w.d, a.l)
    ensures WorldOk(After(w, a))
  {
  }

  /** The owner's session moving on without touching the cursor. */
  lemma SessionMoveKeepsWorld(w: World, a: Action)
    requires WorldOk(w) && IsSession(a) && !a.Fanout? && !a.Reset? && !a.Advance? && Owns(w.d, a.l)
    ensures WorldOk(After(w, a))
  {
    var n := After(w, a);
    assert n == w.(sessions := n.sessions);
  }

  lemma ApiKeepsWorld(w: World, a: Action)
    requires WorldOk(w) && !IsSession(a) && !IsServer(a)
    ensures WorldOk(After(w, a))
  {
    match a
    case Listen(task, sender, buffer, s, l) =>
      if s !in w.used && l !in w.used { ListenKeepsDesk(w.d, task, sender, buffer, s, l); }
    case CloseSub(s) => CloseSubKeepsDesk(w.d, s);
    case CloseManager => CloseKeepsDesk(w.d);
    case Backfill(s, msgs) => BackfillKeepsDesk(w.d, s, msgs);
    case Receive(s) => ReceiveKeepsDesk(w.d, s);
    case _ =>
  }

  lemma WorldOkKept(w: World, a: Action)
    requires WorldOk(w)
    ensures WorldOk(After(w, a))
  {
    if IsServer(a) {
      ServerKeepsWorld(w, a);
    } else if !IsSession(a) {
      ApiKeepsWorld(w, a);
    } else if a.l in w.sessions {
      if a.Fanout? { FanoutKeepsWorld(w, a.l); } else { SessionKeepsWorld(w, a); }
    }
  }

  lemma {:induction false} PlayKeepsWorld(w: World, actions: seq<Action>)
    requires WorldOk(w)
    ensures WorldOk(Play(w, actions))
  {
    if actions != [] {
      PlayKeepsWorld(w, actions[..|actions| - 1]);
      WorldOkKept(Play(w, actions[..|actions| - 1]), actions[|actions| - 1]);
    }
  }

  /** The stored cursor never passes mail that was not offered: in any run, every message the server
      still holds with a UID above the last reset and up to LastUID, in the cursor's UIDVALIDITY, was
      offered to somebody subscribed, whatever became of listeners, saves, sessions and processes. */
  lemma CursorNeverPassesMail(w: World, actions: seq<Action>)
    requires Fresh(w)
    requires var n := Play(w, actions); n.d.stored.Some? && n.d.stored.value.WithInbox?
    ensures var n := Play(w, actions); var c := n.d.stored.value.cursor;
      if c.validity in n.boxes then
        forall m :: m in n.boxes[c.validity].mail && n.floor < m.uid <= c.last ==>
          m.uid in n.boxes[c.validity].gone
          || exists i :: 0 <= i < |n.log| && n.log[i].validity == c.validity && n.log[i].mail == m && n.log[i].to != {}
      else c.last == n.floor
  {
    PlayKeepsWorld(w, actions);
  }

  /** An entry enters the log only when the inbox's owner offers it, to every subscription attached
      just then, each of which takes in every message its filter admits. */
  lemma DeliveryIsWhole(w: World, a: Action)
    requires WorldOk(w)
    ensures var n := After(w, a);
      && w.log <= n.log
      && (forall i :: |w.log| <= i < |n.log| ==>
            && Owns(w.d, n.log[i].via) && n.log[i].to == w.d.attached && a == Action.Fanout(n.log[i].via)
            && forall s :: s in n.log[i].to ==>
                 && s in n.d.subs
                 && (n.d.subs[s].sender == ALL_MAIL || n.d.subs[s].sender == n.log[i].mail.sender ==>
                       n.log[i].mail in n.d.subs[s].offered))
  {
    if a.Fanout? && a.l in w.sessions && w.sessions[a.l].Offering? && Owns(w.d, a.l) {
      var at, n := w.sessions[a.l], After(w, a);
      assert n.log == w.log + Logged(at.validity, at.msgs, a.l, w.d.attached);
      forall i, s | |w.log| <= i < |n.log| && s in w.d.attached
        ensures s in n.d.subs
        ensures n.d.subs[s].sender == ALL_MAIL || n.d.subs[s].sender == n.log[i].mail.sender ==> n.log[i].mail in n.d.subs[s].offered
      {
        assert n.log[i].mail == at.msgs[i - |w.log|];
        OffersAreTheMatches(w.d.subs[s], at.msgs);
        FromHolds(w.d.subs[s].sender, at.msgs, n.log[i].mail);
      }
    } else {
      assert After(w, a).log == w.log;
    }
  }

  // ---------------------------------------------------------------- the cursor only moves forward

  /** A later UIDVALIDITY, or the same with a LastUID no smaller. */
  predicate Forward(c: Cursor, n: Cursor) {
    c.validity < n.validity || (c.validity == n.validity && c.last <= n.last)
  }

  function Stored(w: World): Cursor {
    if w.d.stored.Some? && w.d.stored.value.WithInbox? then w.d.stored.value.cursor else Cursor(0, 0)
  }

  /** The stored cursor is of a UIDVALIDITY the server has reached, and that the owner's session, while
      it compares the two, is not behind. Only adding an email with a cursor from the future breaks it. */
  ghost predicate Reached(w: World) {
    && Stored(w).validity <= w.epoch
    && (w.d.owner.Some? && w.d.owner.value in w.sessions ==>
          var at := w.sessions[w.d.owner.value];
          at.Selected? || at.Resetting? ==> Stored(w).validity <= at.validity)
  }

  predicate FromTheFuture(w: World, a: Action) {
    a.Add? && w.d.row.None? && a.inbox.Some? && a.inbox.value.validity > w.epoch
  }

  lemma ReachedStep(w: World, a: Action)
    requires WorldOk(w) && w.epoch >= 0 && Reached(w) && !FromTheFuture(w, a)
    ensures Reached(After(w, a))
  {
    if IsSession(a) && a.l in w.sessions {
      ReachedBySession(w, a);
    } else if IsServer(a) {
      ReachedByServer(w, a);
    }
  }

  lemma ReachedBySession(w: World, a: Action)
    requires WorldOk(w) && Reached(w) && IsSession(a) && a.l in w.sessions
    ensures Reached(After(w, a))
  {
  }

  lemma ReachedByServer(w: World, a: Action)
    requires WorldOk(w) && Reached(w) && IsServer(a)
    ensures Reached(After(w, a))
  {
  }

  /** A reset of the cursor lands. */
  predicate Resets(w: World, a: Action) {
    a.Reset? && a.ok && Owns(w.d, a.l) && a.l in w.sessions && w.sessions[a.l].Resetting?
  }

  /** No step but a deletion takes a stored cursor back, save a reset from a UIDVALIDITY later than
      the session's, which then always does. */
  lemma CursorForwardStep(w: World, a: Action)
    requires WorldOk(w) && w.d.row.Some? && !a.Delete?
    ensures Forward(Stored(w), Stored(After(w, a)))
            <==> !(Resets(w, a) && Stored(w).validity > w.sessions[a.l].validity)
    ensures After(w, a).d.row.Some?
  {
    if IsSession(a) && a.l in w.sessions { SessionForwardStep(w, a); }
  }

  lemma SessionForwardStep(w: World, a: Action)
    requires WorldOk(w) && w.d.row.Some? && IsSession(a) && a.l in w.sessions
    ensures Forward(Stored(w), Stored(After(w, a)))
            <==> !(Resets(w, a) && Stored(w).validity > w.sessions[a.l].validity)
    ensures After(w, a).d.row.Some?
  {
  }

  /** Short of deleting the email, LastUID never decreases within a UIDVALIDITY, and a UIDVALIDITY
      once left is never returned to, for a cursor of a UIDVALIDITY the server has reached. */
  lemma {:induction false} CursorOnlyForward(w: World, actions: seq<Action>)
    requires WorldOk(w) && w.d.row.Some? && Reached(w) && forall i :: 0 <= i < |actions| ==> !actions[i].Delete?
    ensures var n := Play(w, actions); Forward(Stored(w), Stored(n)) && n.d.row.Some? && Reached(n)
  {
    if actions != [] {
      var init, a := actions[..|actions| - 1], actions[|actions| - 1];
      CursorOnlyForward(w, init);
      PlayKeepsWorld(w, init);
      CursorForwardStep(Play(w, init), a);
      ReachedStep(Play(w, init), a);
    }
  }

  /** From the start, and over any deletions too, the cursor stays of a reached UIDVALIDITY as long as
      no email is added with a later one; a consumer who leaves the cursor alone adds it with 0. */
  lemma {:induction false} CursorsAreReached(w: World, actions: seq<Action>)
    requires Fresh(w)
    requires forall i :: 0 <= i < |actions| ==> actions[i].Add? && actions[i].inbox.Some? ==> actions[i].inbox.value.validity <= w.epoch
    ensures Reached(Play(w, actions)) && Play(w, actions).epoch >= w.epoch
  {
    if actions != [] {
      var init, a := actions[..|actions| - 1], actions[|actions| - 1];
      CursorsAreReached(w, init);
      PlayKeepsWorld(w, init);
      ReachedStep(Play(w, init), a);
      EpochOnlyGrows(Play(w, init), a);
    }
  }

  lemma EpochOnlyGrows(w: World, a: Action)
    ensures After(w, a).epoch >= w.epoch
  {
    if IsSession(a) && a.l in w.sessions { assert After(w, a).epoch == w.epoch; }
  }

  /** The reset point moves only when the inbox's owner finds another UIDVALIDITY, and then to
      where its session found the mailbox's end; or for a row newly added, to where its cursor is. */
  lemma ResetsOnlyOnRenumbering(w: World, a: Action)
    requires WorldOk(w) && After(w, a).floor != w.floor
    ensures var n := After(w, a);
      && n.floor == Stored(n).last
      && ((a.Add? && w.d.row.None?)
          || (Resets(w, a) && Stored(w).validity != Stored(n).validity
              && Stored(n) == Cursor(w.sessions[a.l].validity, w.sessions[a.l].last)))
  {
  }

  /** Only the inbox's owner moves its cursor, apart from the email being deleted or newly added. */
  lemma OnlyTheOwnerMovesTheCursor(w: World, a: Action)
    requires WorldOk(w) && Stored(After(w, a)) != Stored(w)
    ensures a.Delete? || (a.Add? && w.d.row.None?) || ((a.Reset? || a.Advance?) && Owns(w.d, a.l))
  {
  }

  /** An email with a registered listener is never deleted: a listener always has a subscription. */
  lemma ListenedIsKept(w: World, held: bool, ok: bool)
    requires WorldOk(w)
    ensures DeleteRefused(w.d, held) <==> w.d.row.Some? && (w.d.owner.Some? || held)
    ensures w.d.owner.Some? ==> After(w, Delete(held, ok)) == w
  {
  }

  // ---------------------------------------------------------------- lifecycle over runs

  /** A registered listener has a subscription; no stop channel and no subscription channel is ever
      closed twice, and exactly the attached subscriptions are open. */
  lemma LifecycleIsSafe(w: World, actions: seq<Action>)
    requires Fresh(w)
    ensures var d := Play(w, actions).d;
      && (d.owner.Some? ==> d.attached != {} && !d.closed && d.owner.value in d.stops && d.stops[d.owner.value] == 0)
      && (forall l :: l in d.stops ==> d.stops[l] <= 1)
      && (forall s :: s in d.subs ==> d.subs[s].closes == if s in d.attached then 0 else 1)
  {
    PlayKeepsWorld(w, actions);
    assert DeskOk(Play(w, actions).d);
  }

  /** Once closed, by either route, a subscription is sent nothing more and counts nothing more,
      until the process ends. */
  lemma ClosedStep(w: World, a: Action, s: Id)
    requires WorldOk(w) && s in w.d.subs && !Open(w.d.subs[s]) && !a.Crash?
    ensures var n := After(w, a); s in n.d.subs && SameFeed(w.d.subs[s], n.d.subs[s]) && n.d.subs[s].closes == 1
  {
    if IsSession(a) {
      SessionsSpareClosed(w, a, s);
    } else if !IsServer(a) {
      CallsSpareClosed(w, a, s);
    }
  }

  lemma SessionsSpareClosed(w: World, a: Action, s: Id)
    requires WorldOk(w) && s in w.d.subs && !Open(w.d.subs[s]) && IsSession(a)
    ensures var n := After(w, a); s in n.d.subs && n.d.subs[s] == w.d.subs[s]
  {
  }

  lemma CallsSpareClosed(w: World, a: Action, s: Id)
    requires WorldOk(w) && s in w.d.subs && !Open(w.d.subs[s]) && !IsSession(a) && !IsServer(a) && !a.Crash?
    ensures var n := After(w, a); s in n.d.subs && SameFeed(w.d.subs[s], n.d.subs[s]) && n.d.subs[s].closes == 1
  {
    if a.Backfill? || a.Receive? {
      FeedsSpareClosed(w, a, s);
    } else {
      DeskSparesClosed(w, a, s);
    }
  }

  lemma FeedsSpareClosed(w: World, a: Action, s: Id)
    requires WorldOk(w) && s in w.d.subs && !Open(w.d.subs[s]) && (a.Backfill? || a.Receive?)
    ensures var n := After(w, a); s in n.d.subs && SameFeed(w.d.subs[s], n.d.subs[s]) && n.d.subs[s].closes == 1
  {
    var sub := w.d.subs[s];
    if a.Backfill? { ClosedIgnoresMail(sub, a.msgs); }
    assert Sent(Taken(sub)) == Sent(sub);
  }

  lemma {:induction false} ClosedIgnoresMail(s: Sub, msgs: seq<Mail>)
    requires !Open(s)
    ensures OfferAll(s, msgs) == s
  {
    if msgs != [] { ClosedIgnoresMail(s, msgs[..|msgs| - 1]); }
  }

  lemma DeskSparesClosed(w: World, a: Action, s: Id)
    requires WorldOk(w) && s in w.d.subs && !Open(w.d.subs[s])
    requires a.Listen? || a.CloseSub? || a.CloseManager? || a.Delete? || a.Add?
    ensures var n := After(w, a); s in n.d.subs && n.d.subs[s] == w.d.subs[s] && n.d.subs[s].closes == 1
  {
  }

  lemma {:induction false} ClosedForGood(w: World, actions: seq<Action>, s: Id)
    requires WorldOk(w) && s in w.d.subs && !Open(w.d.subs[s])
    requires forall i :: 0 <= i < |actions| ==> !actions[i].Crash?
    ensures var n := Play(w, actions); s in n.d.subs && SameFeed(w.d.subs[s], n.d.subs[s]) && !Open(n.d.subs[s])
    ensures After(Play(w, actions), CloseSub(s)) == Play(w, actions)
  {
    PlayKeepsWorld(w, actions);
    if actions != [] {
      var before := Play(w, actions[..|actions| - 1]);
      ClosedForGood(w, actions[..|actions| - 1], s);
      PlayKeepsWorld(w, actions[..|actions| - 1]);
      ClosedStep(before, actions[|actions| - 1], s);
    }
    OldCloseIsHarmless(Play(w, actions).d, s);
  }

  /** In every run, for every subscription: matching offers while open are exactly what was sent
      plus what was counted as dropped; the buffer bound holds; and what was sent is an
      order-preserving subsequence of the offers. */
  lemma AccountsBalance(w: World, actions: seq<Action>, s: Id)
    requires Fresh(w) && s in Play(w, actions).d.subs
    ensures var sub := Play(w, actions).d.subs[s];
      && |sub.offered| == |sub.taken + sub.queue| + sub.dropped
      && |sub.queue| <= sub.capacity
      && Subsequence(sub.taken + sub.queue, sub.offered)
      && (forall i :: 0 <= i < |sub.offered| ==> sub.sender == ALL_MAIL || sub.offered[i].sender == sub.sender)
  {
    PlayKeepsWorld(w, actions);
  }
}
