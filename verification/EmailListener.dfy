/** One listener's goroutine over a live manager and a live mail server. Between any two of its
    critical sections and exchanges anyone may subscribe, unsubscribe, read a feed or have one backfilled,
    shut down or edit the inventory, the other listeners of the inbox may take steps of their own,
    and mail may arrive, be expunged or be renumbered. */
module EmailListener {
  import opened Wrappers
  import opened EmailModel
  import opened EmailTheorems
  import opened EmailManager
  import EmailRegister

  /** What surrounds one inbox: the mail server behind it, the goroutines and feeds started on it,
      where each goroutine stands, and the history of what was offered. */
  class Post {
    var boxes: map<int, Mailbox>
    var epoch: int
    var running: map<Id, Listener>
    var sessions: map<Id, Session>
    var feeds: map<Id, Subscription>
    ghost var log: seq<Delivery>
    ghost var floor: int
    ghost var used: set<Id>

    constructor (epoch: int, box: Mailbox)
      ensures boxes == map[epoch := box] && this.epoch == epoch && running == map[] && sessions == map[] && feeds == map[]
      ensures log == [] && floor == 0 && used == {}
    {
      boxes, this.epoch, running, sessions, feeds := map[epoch := box], epoch, map[], map[], map[];
      log, floor, used := [], 0, {};
    }

    /** Opens a session: the UIDVALIDITY and the last UID, or an error. */
    method Select() returns (r: Option<(int, int)>)
      requires epoch in boxes
      ensures r.Some? ==> r.value == (epoch, boxes[epoch].next - 1)
    {
      var fails := *;
      r := if fails then None else Some((epoch, boxes[epoch].next - 1));
    }

    /** The messages above `above`, all of them, or an error; a session outlives no renumbering. */
    method FetchSince(validity: int, above: int) returns (msgs: Option<seq<Mail>>)
      requires epoch in boxes
      ensures msgs.Some? ==> validity == epoch && Snapshot(boxes[epoch], above, msgs.value)
    {
      var fails := *;
      if fails || validity != epoch { return None; }
      var box := boxes[epoch];
      var todo, found := box.mail, [];
      while todo != {}
        invariant todo <= box.mail
        invariant forall m :: m in found <==> m in box.mail - todo && m.uid > above && m.uid !in box.gone
      {
        var m :| m in todo;
        if m.uid > above && m.uid !in box.gone { found := found + [m]; }
        todo := todo - {m};
      }
      msgs := Some(found);
    }
  }

  lemma PlayOne(w: World, actions: seq<Action>, a: Action)
    ensures Play(w, actions + [a]) == After(Play(w, actions), a)
  {
    assert (actions + [a])[..|actions + [a]| - 1] == actions;
  }

  lemma {:induction false} PlayConcat(w: World, first: seq<Action>, more: seq<Action>)
    ensures Play(w, first + more) == Play(Play(w, first), more)
  {
    if more == [] {
      assert first + more == first;
    } else {
      PlayConcat(w, first, more[..|more| - 1]);
      assert (first + more)[..|first + more| - 1] == first + more[..|more| - 1];
    }
  }

  predicate Sane(actions: seq<Action>) {
    forall i :: 0 <= i < |actions| ==> !actions[i].Crash?
  }

  lemma PlayStep(w: World, actions: seq<Action>, a: Action) returns (acts: seq<Action>)
    requires Sane(actions) && !a.Crash?
    ensures Sane(acts) && Play(w, acts) == After(Play(w, actions), a)
  {
    acts := actions + [a];
    PlayOne(w, actions, a);
  }

  lemma PlayOn(w: World, actions: seq<Action>, more: seq<Action>) returns (acts: seq<Action>)
    requires Sane(actions) && Sane(more)
    ensures Sane(acts) && Play(w, acts) == Play(Play(w, actions), more)
  {
    acts := actions + more;
    PlayConcat(w, actions, more);
  }

  lemma ListenStep(w: World, task: Id, sender: int, buffer: int, s: Id, l: Id)
    requires s !in w.used && l !in w.used && s != l && ListenRefusal(w.d, task, buffer).None?
    ensures After(w, Listen(task, sender, buffer, s, l)) ==
            w.(d := ListenD(w.d, task, sender, buffer, s, l),
               sessions := if w.d.owner.Some? then w.sessions else w.sessions[l := Off],
               used := w.used + {s, l})
  {
  }

  lemma FeedSteps(w: World, s: Id, msgs: seq<Mail>)
    ensures After(w, CloseSub(s)) == w.(d := CloseSubD(w.d, s))
    ensures After(w, Action.Receive(s)) == w.(d := ReceiveD(w.d, s))
    ensures After(w, Action.Backfill(s, msgs)) == w.(d := BackfillD(w.d, s, msgs))
  {
  }

  lemma AdminSteps(w: World, held: bool, ok: bool)
    ensures After(w, CloseManager) == w.(d := CloseD(w.d))
    ensures After(w, Delete(held, ok)) == w.(d := DeleteD(w.d, held, ok))
  {
  }

  lemma AddStep(w: World, inbox: Option<Cursor>, ok: bool)
    ensures After(w, Add(inbox, ok)) ==
            w.(d := AddD(w.d, inbox, ok), floor := if w.d.row.None? && ok && inbox.Some? then inbox.value.last else w.floor)
  {
  }

  lemma ResetStep(w: World, l: Id, validity: int, last: int, ok: bool)
    requires l in w.sessions && w.sessions[l] == Resetting(validity, last) && (CursorOf(w.d, l).None? ==> ok)
    ensures After(w, Reset(l, ok)) ==
            To(if CursorOf(w.d, l).Some? && ok then w.(d := AdvanceD(w.d, l, validity, last, true, true), floor := last) else w,
               l, if ok then Reading(validity) else Off)
  {
  }

  /** The world after a fan-out, as FanoutStep shows. */
  ghost function Delivered(w: World, l: Id, validity: int, above: int, msgs: seq<Mail>): World {
    if !Owns(w.d, l) then To(w, l, Off)
    else To(w.(d := FanoutD(w.d, l, msgs), log := w.log + Logged(validity, msgs, l, w.d.attached)), l,
            if Highest(msgs) > above then Advancing(validity, above, Highest(msgs)) else Idling(validity))
  }

  lemma FanoutStep(w: World, l: Id, validity: int, above: int, msgs: seq<Mail>)
    requires l in w.sessions && w.sessions[l] == Offering(validity, above, msgs)
    ensures After(w, Action.Fanout(l)) == Delivered(w, l, validity, above, msgs)
  {
  }

  lemma AdvanceStep(w: World, l: Id, validity: int, above: int, uid: int, ok: bool)
    requires l in w.sessions && w.sessions[l] == Advancing(validity, above, uid) && (CursorOf(w.d, l).None? ==> ok)
    ensures After(w, Advance(l, ok)) == To(w.(d := AdvanceD(w.d, l, validity, uid, false, ok)), l, if ok then Idling(validity) else Off)
  {
  }

  lemma LeaveStep(w: World, l: Id)
    requires l in w.sessions && w.sessions[l].Off? && l in w.d.stops && w.d.stops[l] > 0
    ensures After(w, Leave(l)) == w.(sessions := map k | k in w.sessions && k != l :: w.sessions[k])
  {
  }

  class Service {
    const m: Manager
    const post: Post
    const email: Id

    constructor (m: Manager, post: Post, email: Id)
      ensures this.m == m && this.post == post && this.email == email
    {
      this.m, this.post, this.email := m, post, email;
    }

    ghost function W(): World
      reads m, post
    {
      World(m.View(email), post.sessions, post.boxes, post.epoch, post.log, post.floor, post.used)
    }

    ghost predicate GoroutineOk(k: Id)
      reads m, post
    {
      k in post.running ==>
        && m.HasListener(post.running[k]) && post.running[k].serial == k && post.running[k].email == email
        && k in post.sessions && k in post.used
    }

    ghost predicate FeedOk(k: Id)
      reads m, post
    {
      k in post.feeds ==> m.HasSub(post.feeds[k]) && post.feeds[k].email == email
    }

    ghost predicate Shared()
      reads m, m.repo, m.everySub.Values, m.everyListener.Values, post
    {
      && m.Valid()
      && (forall k :: GoroutineOk(k))
      && (forall k :: FeedOk(k))
      && (forall k :: k in post.used ==> k < m.serials)
      && post.epoch in post.boxes
    }

    ghost predicate Runs(l: Listener)
      reads post
    {
      l.serial in post.running && post.running[l.serial] == l
    }

    /** The listener's goroutine is running, and stands there. */
    ghost predicate At(l: Listener, at: Session)
      reads m, m.repo, m.everySub.Values, m.everyListener.Values, post
    {
      Shared() && Runs(l) && l.serial in post.sessions && post.sessions[l.serial] == at
    }

    ghost predicate Ran(w: World, acts: seq<Action>)
      reads m, post
    {
      Sane(acts) && W() == Play(w, acts)
    }

    /** Every object there is now was there before or is new since. */
    twostate predicate Framed()
      reads m
    {
      && (forall o :: o in m.everySub.Values ==> o in old(m.everySub.Values) || fresh(o))
      && (forall o :: o in m.everyListener.Values ==> o in old(m.everyListener.Values) || fresh(o))
    }

    /** A goroutine left where it stands. */
    twostate predicate Undisturbed(k: Id)
      reads post
    {
      k in old(post.running) && k in old(post.sessions) ==>
        && k in post.running && post.running[k] == old(post.running[k])
        && k in post.sessions && post.sessions[k] == old(post.sessions[k])
    }

    twostate predicate OthersStand(l: Listener)
      reads post
    {
      forall k :: k != l.serial ==> Undisturbed(k)
    }

    /** The goroutine has moved there, and no other has. */
    twostate predicate Moved(l: Listener, at: Session)
      reads m, m.repo, m.everySub.Values, m.everyListener.Values, post
    {
      At(l, at) && post.sessions == old(post.sessions)[l.serial := at]
    }

    twostate lemma FrameStands()
      requires m.Grown()
      ensures Framed()
    {
      forall o | o in m.everySub.Values
        ensures o in old(m.everySub.Values) || fresh(o)
      {
        KeyOf(m.everySub, o);
        var k :| k in m.everySub && m.everySub[k] == o;
        if k in old(m.everySub) { assert old(m.everySub)[k] in old(m.everySub.Values); }
      }
      forall o | o in m.everyListener.Values
        ensures o in old(m.everyListener.Values) || fresh(o)
      {
        KeyOf(m.everyListener, o);
        var k :| k in m.everyListener && m.everyListener[k] == o;
        if k in old(m.everyListener) { assert old(m.everyListener)[k] in old(m.everyListener.Values); }
      }
    }

    /** The registers as they were serve every goroutine and feed as before. */
    twostate lemma SharedStands()
      requires old(Shared()) && m.Valid() && m.Grown()
      requires post.running == old(post.running) && post.feeds == old(post.feeds) && post.used == old(post.used)
      requires forall k :: k in old(post.sessions) ==> k in post.sessions
      requires post.epoch in post.boxes
      ensures Shared()
    {
      forall k
        ensures GoroutineOk(k) && FeedOk(k)
      {
        assert old(GoroutineOk(k)) && old(FeedOk(k));
      }
    }

    // -------------------------------------------------------------- everyone else

    method Subscribe(task: Id, sender: int, buffer: int) returns (r: Option<Refusal>, sub: Subscription?, ghost li: Id)
      requires Shared()
      modifies m, m.everyListener.Values
      ensures Shared() && Framed() && r == ListenRefusal(old(W()).d, task, buffer)
      ensures r.Some? ==> W() == old(W())
      ensures r.None? ==> sub != null && m.NewSub(email, sub, li) && sub.serial !in post.used && li !in post.used
      ensures r.None? ==> W() == old(W()).(d := ListenD(old(W()).d, task, sender, buffer, sub.serial, li))
    {
      r, sub, li := m.Listen(task, email, sender, buffer);
      FrameStands();
      SharedStands();
    }

    method SomeoneSubscribes(task: Id, sender: int, buffer: int) returns (ghost a: Action)
      requires Shared()
      modifies m, m.everyListener.Values, post
      ensures Shared() && Framed() && !a.Crash? && W() == After(old(W()), a)
      ensures forall k :: Undisturbed(k)
    {
      assert m.InboxLinked(email);
      var starts := email !in m.listeners;
      var r, sub;
      ghost var li;
      r, sub, li := Subscribe(task, sender, buffer);
      if r.Some? { return Action.Listen(task, sender, buffer, 0, 0); }
      a := Action.Listen(task, sender, buffer, sub.serial, li);
      ListenStep(old(W()), task, sender, buffer, sub.serial, li);
      label Subscribed:
      Admit(sub, li, starts);
      forall k
        ensures Undisturbed(k)
      {
        assert Undisturbed@Subscribed(k);
      }
    }

    /** The new feed, and the goroutine of a listener started for it. */
    method Admit(sub: Subscription, ghost li: Id, starts: bool)
      requires Shared() && m.HasSub(sub) && sub.email == email && sub.serial < m.serials && li < m.serials && li !in post.used
      requires starts ==> W().d.owner == Some(li)
      modifies post`used, post`running, post`sessions, post`feeds
      ensures Shared() && forall k :: Undisturbed(k)
      ensures W() == old(W()).(used := old(post.used) + {sub.serial, li},
                               sessions := if starts then old(post.sessions)[li := Off] else old(post.sessions))
    {
      assert GoroutineOk(li);
      TakeFeed(sub, li);
      label Taken:
      if starts { Go(); }
      forall k
        ensures Undisturbed(k)
      {
        if starts && k != li { assert Undisturbed@Taken(k); }
      }
    }

    method TakeFeed(sub: Subscription, ghost li: Id)
      requires Shared() && m.HasSub(sub) && sub.email == email && sub.serial < m.serials && li < m.serials
      modifies post`used, post`feeds
      ensures Shared() && W() == old(W()).(used := old(post.used) + {sub.serial, li})
    {
      post.used := post.used + {sub.serial, li};
      post.feeds := post.feeds[sub.serial := sub];
      forall k
        ensures GoroutineOk(k) && FeedOk(k)
      {
        assert old(GoroutineOk(k)) && old(FeedOk(k));
      }
    }

    /** The goroutine of the listener just registered. */
    method Go()
      requires Shared() && W().d.owner.Some? && W().d.owner.value in post.used
      modifies post`running, post`sessions
      ensures Shared() && W() == To(old(W()), old(W()).d.owner.value, Off)
      ensures forall k :: k != old(W()).d.owner.value ==> Undisturbed(k)
    {
      assert m.InboxLinked(email);
      var g := m.listeners[email];
      post.running, post.sessions := post.running[g.serial := g], post.sessions[g.serial := Off];
      forall k
        ensures GoroutineOk(k) && FeedOk(k)
      {
        assert old(GoroutineOk(k)) && old(FeedOk(k));
      }
    }

    method SomeoneLeaves(s: Subscription) returns (ghost a: Action)
      requires Shared() && m.HasSub(s) && s.email == email
      modifies m`listeners, m`state, m.everySub.Values, m.everyListener.Values
      ensures Shared() && !a.Crash? && W() == After(old(W()), a)
    {
      m.Unsubscribe(s);
      SharedStands();
      a := CloseSub(s.serial);
      FeedSteps(old(W()), s.serial, []);
    }

    method SomeoneReceives(s: Subscription) returns (ghost a: Action)
      requires Shared() && m.HasSub(s) && s.email == email
      modifies m`state, s
      ensures Shared() && !a.Crash? && W() == After(old(W()), a)
    {
      var _ := m.Receive(s);
      SharedStands();
      a := Action.Receive(s.serial);
      FeedSteps(old(W()), s.serial, []);
    }

    method SomeoneIsBackfilled(s: Subscription, msgs: seq<Mail>) returns (ghost a: Action)
      requires Shared() && m.HasSub(s) && s.email == email
      modifies m`state, s
      ensures Shared() && !a.Crash? && W() == After(old(W()), a)
    {
      m.Backfill(s, msgs);
      SharedStands();
      a := Action.Backfill(s.serial, msgs);
      FeedSteps(old(W()), s.serial, msgs);
    }

    method SomeoneShutsDown() returns (ghost a: Action)
      requires Shared()
      modifies m`listeners, m`closed, m`state, m.everySub.Values, m.everyListener.Values
      ensures Shared() && !a.Crash? && W() == After(old(W()), a)
    {
      m.Close();
      SharedStands();
      a := CloseManager;
      AdminSteps(old(W()), false, false);
    }

    method SomeoneAdds(address: Id, inbox: Option<Cursor>, valid: bool) returns (ghost a: Action)
      requires Shared()
      modifies m`inventory, m`state, m.repo, post`floor
      ensures Shared() && !a.Crash? && W() == After(old(W()), a)
    {
      ghost var known := m.View(email).row.Some?;
      var err := m.Add(email, address, inbox, valid);
      a := Action.Add(inbox, err.None?);
      AddStep(old(W()), inbox, err.None?);
      SharedStands();
      if err.None? && !known && inbox.Some? { SetFloor(inbox.value.last); }
    }

    method SomeoneDeletes(guard: Option<Guard>) returns (ghost a: Action)
      requires Shared()
      modifies m`inventory, m`state, m.repo
      ensures Shared() && !a.Crash? && W() == After(old(W()), a)
    {
      var err, _ := m.Delete(email, guard);
      SharedStands();
      a := Action.Delete(guard.Some? && guard.value.held != [], err.None?);
      AdminSteps(old(W()), guard.Some? && guard.value.held != [], err.None?);
    }

    method MailArrives(mail: Mail)
      requires Shared()
      modifies post`boxes
      ensures Shared() && W() == After(old(W()), Arrive(mail))
    {
      if mail.uid >= post.boxes[post.epoch].next {
        var box := post.boxes[post.epoch];
        post.boxes := post.boxes[post.epoch := Mailbox(box.mail + {mail}, box.gone, mail.uid + 1)];
      }
      SharedStands();
    }

    method MailIsExpunged(uid: int)
      requires Shared()
      modifies post`boxes
      ensures Shared() && W() == After(old(W()), Expunge(uid))
    {
      var box := post.boxes[post.epoch];
      post.boxes := post.boxes[post.epoch := box.(gone := box.gone + {uid})];
      SharedStands();
    }

    method MailIsRenumbered(validity: int, box: Mailbox)
      requires Shared() && BoxOk(box)
      modifies post`boxes, post`epoch
      ensures Shared() && W() == After(old(W()), Renumber(validity, box))
    {
      if validity > post.epoch { post.boxes, post.epoch := post.boxes[validity := box], validity; }
      SharedStands();
    }

    /** The mail server moves. */
    method MailMoves() returns (ghost a: Action)
      requires Shared()
      modifies post`boxes, post`epoch
      ensures Shared() && !a.Crash? && W() == After(old(W()), a)
    {
      var which, uid, sender, next: int := *, *, *, *;
      if which == 0 {
        MailArrives(Mail(uid, sender));
        a := Arrive(Mail(uid, sender));
      } else if which == 1 {
        MailIsExpunged(uid);
        a := Expunge(uid);
      } else {
        var box := Mailbox({}, {}, if next >= 1 then next else 1);
        MailIsRenumbered(uid, box);
        a := Renumber(uid, box);
      }
    }

    /** Some holder of a feed, open or not, acts on it. */
    method FeedMoves(k: Id) returns (ghost a: Action)
      requires Shared() && k in post.feeds
      modifies m`listeners, m`state, m.everySub.Values, m.everyListener.Values
      ensures Shared() && !a.Crash? && W() == After(old(W()), a)
    {
      assert FeedOk(k);
      var which: int, msgs: seq<Mail> := *, *;
      if which == 0 {
        a := SomeoneLeaves(post.feeds[k]);
      } else if which == 1 {
        a := SomeoneReceives(post.feeds[k]);
      } else {
        a := SomeoneIsBackfilled(post.feeds[k], msgs);
      }
    }

    /** The inbox's row is added or deleted, or the manager shuts down. */
    method AdminMoves() returns (ghost a: Action)
      requires Shared()
      modifies m`inventory, m`listeners, m`closed, m`state, m.repo, m.everySub.Values, m.everyListener.Values, post`floor
      ensures Shared() && !a.Crash? && W() == After(old(W()), a)
    {
      var which: int := *;
      if which == 0 {
        a := SomeoneShutsDown();
      } else if which == 1 {
        var address, inbox, valid := *, *, *;
        a := SomeoneAdds(address, inbox, valid);
      } else {
        var guard := *;
        a := SomeoneDeletes(guard);
      }
    }

    // -------------------------------------------------------------- a listener's own steps

    /** Where the goroutine stands now. */
    method Mark(l: Listener, at: Session)
      requires Shared() && Runs(l)
      modifies post`sessions
      ensures Moved(l, at) && W() == To(old(W()), l.serial, at)
    {
      post.sessions := post.sessions[l.serial := at];
      SharedStands();
    }

    /** Dial and select. */
    method Open(l: Listener) returns (r: Option<(int, int)>, ghost a: Action)
      requires At(l, Off)
      modifies post`sessions
      ensures Moved(l, if r.Some? then Selected(r.value.0, r.value.1) else Off)
      ensures !a.Crash? && W() == After(old(W()), a)
    {
      r := post.Select();
      a := if r.Some? then Connect(l.serial) else Break(l.serial);
      Mark(l, if r.Some? then Selected(r.value.0, r.value.1) else Off);
    }

    /** The first look at the cursor: whether the inbox is still ours, and renumbered or not. */
    method Compare(l: Listener, validity: int, last: int) returns (owned: bool, renumbered: bool)
      requires At(l, Selected(validity, last))
      modifies post`sessions
      ensures Moved(l, if !owned then Off else if renumbered then Resetting(validity, last) else Reading(validity))
      ensures W() == After(old(W()), Check(l.serial))
    {
      assert GoroutineOk(l.serial);
      var c := m.ReadCursor(l);
      owned, renumbered := c.Some?, c.Some? && c.value.validity != validity;
      Mark(l, if !owned then Off else if renumbered then Resetting(validity, last) else Reading(validity));
    }

    method AdvanceHere(l: Listener, validity: int, uid: int, reset: bool) returns (ok: bool)
      requires Shared() && Runs(l)
      modifies m`inventory, m`state, m.repo
      ensures Shared() && (CursorOf(old(W()).d, l.serial).None? ==> ok)
      ensures W() == old(W()).(d := AdvanceD(old(W()).d, l.serial, validity, uid, reset, ok))
    {
      assert GoroutineOk(l.serial);
      ok := m.AdvanceCursor(l, validity, uid, reset);
      SharedStands();
    }

    /** The reset of the cursor, which becomes the reset point if the inbox is still ours. */
    method ResetCursor(l: Listener, validity: int, last: int) returns (ok: bool)
      requires Shared() && Runs(l)
      modifies m`inventory, m`state, m.repo, post`floor
      ensures Shared()
      ensures CursorOf(old(W()).d, l.serial).None? ==> ok && W() == old(W())
      ensures CursorOf(old(W()).d, l.serial).Some? ==>
        W() == if ok then old(W()).(d := AdvanceD(old(W()).d, l.serial, validity, last, true, true), floor := last) else old(W())
    {
      ok := AdvanceHere(l, validity, last, true);
      if ok && CursorOf(old(W()).d, l.serial).Some? { SetFloor(last); }
    }

    ghost method SetFloor(last: int)
      requires Shared()
      modifies post`floor
      ensures Shared() && W() == old(W()).(floor := last)
    {
      post.floor := last;
      SharedStands();
    }

    method JumpToPresent(l: Listener, validity: int, last: int) returns (ok: bool)
      requires At(l, Resetting(validity, last))
      modifies m`inventory, m`state, m.repo, post`floor, post`sessions
      ensures Moved(l, if ok then Reading(validity) else Off)
      ensures W() == After(old(W()), Reset(l.serial, ok))
    {
      ok := ResetCursor(l, validity, last);
      ResetStep(old(W()), l.serial, validity, last, ok);
      Mark(l, if ok then Reading(validity) else Off);
    }

    method Look(l: Listener, validity: int) returns (above: Option<int>)
      requires At(l, Reading(validity))
      modifies post`sessions
      ensures Moved(l, if above.Some? then Fetching(validity, above.value) else Off)
      ensures W() == After(old(W()), Read(l.serial))
    {
      assert GoroutineOk(l.serial);
      var c := m.ReadCursor(l);
      above := if c.Some? then Some(c.value.last) else None;
      Mark(l, if above.Some? then Fetching(validity, above.value) else Off);
    }

    method Pull(l: Listener, validity: int, above: int) returns (msgs: Option<seq<Mail>>, ghost a: Action)
      requires At(l, Fetching(validity, above))
      modifies post`sessions
      ensures Moved(l, if msgs.Some? then Offering(validity, above, msgs.value) else Off)
      ensures !a.Crash? && W() == After(old(W()), a)
    {
      msgs := post.FetchSince(validity, above);
      a := if msgs.Some? then Fetch(l.serial, msgs.value) else Break(l.serial);
      Mark(l, if msgs.Some? then Offering(validity, above, msgs.value) else Off);
    }

    method FanoutHere(l: Listener, msgs: seq<Mail>) returns (maxUid: int, owned: bool)
      requires Shared() && Runs(l)
      modifies m`state, m.everySub.Values
      ensures Shared() && (owned ==> maxUid == Highest(msgs)) && (owned <==> Owns(old(W()).d, l.serial))
      ensures W() == old(W()).(d := FanoutD(old(W()).d, l.serial, msgs))
    {
      assert GoroutineOk(l.serial);
      maxUid, owned := m.Fanout(l, msgs);
      SharedStands();
    }

    /** The fan-out, and its entry in the history. */
    method OfferAndLog(l: Listener, validity: int, msgs: seq<Mail>) returns (maxUid: int, owned: bool)
      requires Shared() && Runs(l)
      modifies m`state, m.everySub.Values, post`log
      ensures Shared() && (owned ==> maxUid == Highest(msgs)) && (owned <==> Owns(old(W()).d, l.serial))
      ensures W() == if owned then old(W()).(d := FanoutD(old(W()).d, l.serial, msgs),
                                             log := old(W()).log + Logged(validity, msgs, l.serial, old(W()).d.attached))
                     else old(W())
    {
      maxUid, owned := FanoutHere(l, msgs);
      if owned { Log(Logged(validity, msgs, l.serial, old(W()).d.attached)); }
    }

    ghost method Log(more: seq<Delivery>)
      requires Shared()
      modifies post`log
      ensures Shared() && W() == old(W()).(log := old(W()).log + more)
    {
      post.log := post.log + more;
      SharedStands();
    }

    method Deliver(l: Listener, validity: int, above: int, msgs: seq<Mail>) returns (maxUid: int, owned: bool)
      requires At(l, Offering(validity, above, msgs))
      modifies m`state, m.everySub.Values, post`log, post`sessions
      ensures Moved(l, if !owned then Off else if maxUid > above then Advancing(validity, above, maxUid) else Idling(validity))
      ensures W() == After(old(W()), Action.Fanout(l.serial))
    {
      FanoutStep(W(), l.serial, validity, above, msgs);
      maxUid, owned := Spread(l, validity, above, msgs);
    }

    method Spread(l: Listener, validity: int, above: int, msgs: seq<Mail>) returns (maxUid: int, owned: bool)
      requires At(l, Offering(validity, above, msgs))
      modifies m`state, m.everySub.Values, post`log, post`sessions
      ensures Moved(l, if !owned then Off else if maxUid > above then Advancing(validity, above, maxUid) else Idling(validity))
      ensures W() == Delivered(old(W()), l.serial, validity, above, msgs)
    {
      maxUid, owned := OfferAndLog(l, validity, msgs);
      Mark(l, if !owned then Off else if maxUid > above then Advancing(validity, above, maxUid) else Idling(validity));
    }

    method Commit(l: Listener, validity: int, above: int, maxUid: int) returns (ok: bool)
      requires At(l, Advancing(validity, above, maxUid))
      modifies m`inventory, m`state, m.repo, post`sessions
      ensures Moved(l, if ok then Idling(validity) else Off)
      ensures W() == After(old(W()), Advance(l.serial, ok))
    {
      ok := AdvanceHere(l, validity, maxUid, false);
      AdvanceStep(old(W()), l.serial, validity, above, maxUid, ok);
      Mark(l, if ok then Idling(validity) else Off);
    }

    method Wait(l: Listener, validity: int) returns (ok: bool, ghost a: Action)
      requires At(l, Idling(validity))
      modifies post`sessions
      ensures Moved(l, if ok then Reading(validity) else Off)
      ensures !a.Crash? && W() == After(old(W()), a)
    {
      ok := *;
      a := if ok then Action.Idle(l.serial) else Break(l.serial);
      Mark(l, if ok then Reading(validity) else Off);
    }

    /** A stopped listener's goroutine ends. */
    method Quit(l: Listener)
      requires At(l, Off) && l.stops != 0
      modifies post`running, post`sessions
      ensures Shared() && !Runs(l) && OthersStand(l) && W() == After(old(W()), Leave(l.serial))
    {
      assert GoroutineOk(l.serial) && m.ListenerLinked(l.serial);
      assert EmailRegister.Sound(m.state, email) && l.serial in m.View(email).stops && m.View(email).stops[l.serial] == l.stops;
      LeaveStep(W(), l.serial);
      Forget(l);
    }

    method Forget(l: Listener)
      requires Shared() && Runs(l)
      modifies post`running, post`sessions
      ensures Shared() && !Runs(l) && OthersStand(l)
      ensures W() == old(W()).(sessions := map k | k in old(post.sessions) && k != l.serial :: old(post.sessions)[k])
    {
      post.running := map k | k in post.running && k != l.serial :: post.running[k];
      post.sessions := map k | k in post.sessions && k != l.serial :: post.sessions[k];
      forall k
        ensures GoroutineOk(k)
      {
        assert old(GoroutineOk(k));
      }
      forall k
        ensures FeedOk(k)
      {
        assert old(FeedOk(k));
      }
    }

    // Another listener's goroutine takes its next step, by where it stands.

    method DialsOn(o: Listener, at: Session) returns (ghost a: Action)
      requires At(o, at) && (at.Off? || at.Selected?)
      modifies post`running, post`sessions
      ensures Shared() && OthersStand(o) && !a.Crash? && W() == After(old(W()), a)
    {
      match at
      case Off =>
        if o.stops != 0 {
          Quit(o);
          a := Leave(o.serial);
        } else {
          var r;
          r, a := Open(o);
        }
      case Selected(validity, last) =>
        var _, _ := Compare(o, validity, last);
        a := Check(o.serial);
    }

    method CatchesUp(o: Listener, at: Session) returns (ghost a: Action)
      requires At(o, at) && (at.Resetting? || at.Reading?)
      modifies m`inventory, m`state, m.repo, post`floor, post`sessions
      ensures Shared() && OthersStand(o) && !a.Crash? && W() == After(old(W()), a)
    {
      match at
      case Resetting(validity, last) =>
        var ok := JumpToPresent(o, validity, last);
        a := Reset(o.serial, ok);
      case Reading(validity) =>
        var _ := Look(o, validity);
        a := Read(o.serial);
    }

    method ServesOn(o: Listener, at: Session) returns (ghost a: Action)
      requires At(o, at) && (at.Fetching? || at.Offering?)
      modifies m`state, m.everySub.Values, post`log, post`sessions
      ensures Shared() && OthersStand(o) && !a.Crash? && W() == After(old(W()), a)
    {
      match at
      case Fetching(validity, above) =>
        var fetched;
        fetched, a := Pull(o, validity, above);
      case Offering(validity, above, msgs) =>
        var _, _ := Deliver(o, validity, above, msgs);
        a := Action.Fanout(o.serial);
    }

    method SettlesDown(o: Listener, at: Session) returns (ghost a: Action)
      requires At(o, at) && (at.Advancing? || at.Idling?)
      modifies m`inventory, m`state, m.repo, post`sessions
      ensures Shared() && OthersStand(o) && !a.Crash? && W() == After(old(W()), a)
    {
      match at
      case Advancing(validity, above, maxUid) =>
        var ok := Commit(o, validity, above, maxUid);
        a := Advance(o.serial, ok);
      case Idling(validity) =>
        var ok;
        ok, a := Wait(o, validity);
    }

    method GoroutineMoves(o: Listener) returns (ghost a: Action)
      requires Shared() && Runs(o)
      modifies m`inventory, m`state, m.repo, m.everySub.Values, post
      ensures Shared() && OthersStand(o) && !a.Crash? && W() == After(old(W()), a)
    {
      assert GoroutineOk(o.serial);
      var at := post.sessions[o.serial];
      if at.Off? || at.Selected? { a := DialsOn(o, at); }
      else if at.Resetting? || at.Reading? { a := CatchesUp(o, at); }
      else if at.Fetching? || at.Offering? { a := ServesOn(o, at); }
      else { a := SettlesDown(o, at); }
    }

    // -------------------------------------------------------------- between two steps

    /** The holder of a feed acts on it, or another listener takes a step. */
    method FeedOrListenerMoves(l: Listener, k: Id) returns (ghost a: Action)
      requires Shared() && (k in post.feeds || (k in post.running && k != l.serial))
      modifies m`inventory, m`listeners, m`state, m.repo, m.everySub.Values, m.everyListener.Values, post
      ensures Shared() && Undisturbed(l.serial) && !a.Crash? && W() == After(old(W()), a)
    {
      if k in post.feeds {
        a := FeedMoves(k);
      } else {
        assert GoroutineOk(k);
        a := GoroutineMoves(post.running[k]);
        assert Undisturbed(l.serial);
      }
    }

    method SomeoneMoves(l: Listener) returns (ghost a: Action)
      requires Shared()
      modifies m, m.repo, post, m.everySub.Values, m.everyListener.Values
      ensures Shared() && Framed() && Undisturbed(l.serial) && !a.Crash?
      ensures W() == After(old(W()), a)
    {
      var k: Id := *;
      if k in post.feeds || (k in post.running && k != l.serial) {
        a := FeedOrListenerMoves(l, k);
      } else {
        var task, sender, buffer := *, *, *;
        a := SomeoneSubscribes(task, sender, buffer);
      }
    }

    /** Whatever anyone but `l` does next. */
    method Meddle(l: Listener) returns (ghost a: Action)
      requires Shared()
      modifies m, m.repo, post, m.everySub.Values, m.everyListener.Values
      ensures Shared() && Framed() && Undisturbed(l.serial) && !a.Crash?
      ensures W() == After(old(W()), a)
    {
      var which: int := *;
      if which == 0 {
        a := MailMoves();
      } else if which == 1 {
        a := AdminMoves();
      } else {
        a := SomeoneMoves(l);
      }
    }

    method Interfere(l: Listener, ghost at: Session, ghost w: World, ghost done: seq<Action>) returns (ghost acts: seq<Action>)
      requires At(l, at) && Ran(w, done)
      modifies m, m.repo, post, m.everySub.Values, m.everyListener.Values
      ensures At(l, at) && Ran(w, acts) && Framed()
    {
      acts := done;
      var moves: nat := *;
      while moves > 0
        invariant At(l, at) && Ran(w, acts) && Framed()
      {
        ghost var a := Meddle(l);
        acts := PlayStep(w, acts, a);
        moves := moves - 1;
      }
    }

    /** A step of the session just taken, then anyone else's. */
    method Yield(l: Listener, ghost at: Session, ghost w: World, ghost done: seq<Action>, ghost a: Action) returns (ghost acts: seq<Action>)
      requires At(l, at) && Sane(done) && !a.Crash? && W() == After(Play(w, done), a)
      modifies m, m.repo, post, m.everySub.Values, m.everyListener.Values
      ensures At(l, at) && Ran(w, acts) && Framed()
    {
      acts := PlayStep(w, done, a);
      acts := Interfere(l, at, w, acts);
    }

    // -------------------------------------------------------------- the goroutine

    // Each step again, followed by whatever anyone else does.

    method OpenThen(l: Listener, ghost w: World, ghost done: seq<Action>) returns (r: Option<(int, int)>, ghost acts: seq<Action>)
      requires At(l, Off) && Ran(w, done)
      modifies m, m.repo, post, m.everySub.Values, m.everyListener.Values
      ensures At(l, if r.Some? then Selected(r.value.0, r.value.1) else Off) && Ran(w, acts) && Framed()
    {
      ghost var a;
      r, a := Open(l);
      acts := Yield(l, post.sessions[l.serial], w, done, a);
    }

    method CompareThen(l: Listener, validity: int, last: int, ghost w: World, ghost done: seq<Action>)
      returns (owned: bool, renumbered: bool, ghost acts: seq<Action>)
      requires At(l, Selected(validity, last)) && Ran(w, done)
      modifies m, m.repo, post, m.everySub.Values, m.everyListener.Values
      ensures At(l, if !owned then Off else if renumbered then Resetting(validity, last) else Reading(validity))
      ensures Ran(w, acts) && Framed()
    {
      owned, renumbered := Compare(l, validity, last);
      acts := Yield(l, post.sessions[l.serial], w, done, Check(l.serial));
    }

    method JumpThen(l: Listener, validity: int, last: int, ghost w: World, ghost done: seq<Action>) returns (ok: bool, ghost acts: seq<Action>)
      requires At(l, Resetting(validity, last)) && Ran(w, done)
      modifies m, m.repo, post, m.everySub.Values, m.everyListener.Values
      ensures At(l, if ok then Reading(validity) else Off) && Ran(w, acts) && Framed()
    {
      ok := JumpToPresent(l, validity, last);
      acts := Yield(l, post.sessions[l.serial], w, done, Reset(l.serial, ok));
    }

    method LookThen(l: Listener, validity: int, ghost w: World, ghost done: seq<Action>) returns (above: Option<int>, ghost acts: seq<Action>)
      requires At(l, Reading(validity)) && Ran(w, done)
      modifies m, m.repo, post, m.everySub.Values, m.everyListener.Values
      ensures At(l, if above.Some? then Fetching(validity, above.value) else Off) && Ran(w, acts) && Framed()
    {
      above := Look(l, validity);
      acts := Yield(l, post.sessions[l.serial], w, done, Read(l.serial));
    }

    method PullThen(l: Listener, validity: int, above: int, ghost w: World, ghost done: seq<Action>)
      returns (msgs: Option<seq<Mail>>, ghost acts: seq<Action>)
      requires At(l, Fetching(validity, above)) && Ran(w, done)
      modifies m, m.repo, post, m.everySub.Values, m.everyListener.Values
      ensures At(l, if msgs.Some? then Offering(validity, above, msgs.value) else Off) && Ran(w, acts) && Framed()
    {
      ghost var a;
      msgs, a := Pull(l, validity, above);
      acts := Yield(l, post.sessions[l.serial], w, done, a);
    }

    method DeliverThen(l: Listener, validity: int, above: int, msgs: seq<Mail>, ghost w: World, ghost done: seq<Action>)
      returns (maxUid: int, owned: bool, ghost acts: seq<Action>)
      requires At(l, Offering(validity, above, msgs)) && Ran(w, done)
      modifies m, m.repo, post, m.everySub.Values, m.everyListener.Values
      ensures At(l, if !owned then Off else if maxUid > above then Advancing(validity, above, maxUid) else Idling(validity))
      ensures Ran(w, acts) && Framed()
    {
      maxUid, owned := Deliver(l, validity, above, msgs);
      ghost var at := if !owned then Off else if maxUid > above then Advancing(validity, above, maxUid) else Idling(validity);
      acts := Yield(l, at, w, done, Action.Fanout(l.serial));
    }

    method CommitThen(l: Listener, validity: int, above: int, maxUid: int, ghost w: World, ghost done: seq<Action>)
      returns (ok: bool, ghost acts: seq<Action>)
      requires At(l, Advancing(validity, above, maxUid)) && Ran(w, done)
      modifies m, m.repo, post, m.everySub.Values, m.everyListener.Values
      ensures At(l, if ok then Idling(validity) else Off) && Ran(w, acts) && Framed()
    {
      ok := Commit(l, validity, above, maxUid);
      acts := Yield(l, post.sessions[l.serial], w, done, Advance(l.serial, ok));
    }

    method WaitThen(l: Listener, validity: int, ghost w: World, ghost done: seq<Action>) returns (ok: bool, ghost acts: seq<Action>)
      requires At(l, Idling(validity)) && Ran(w, done)
      modifies m, m.repo, post, m.everySub.Values, m.everyListener.Values
      ensures At(l, if ok then Reading(validity) else Off) && Ran(w, acts) && Framed()
    {
      ghost var a;
      ok, a := Wait(l, validity);
      acts := Yield(l, post.sessions[l.serial], w, done, a);
    }

    /** From a fresh session to the top of its fetch loop: a renumbered mailbox is joined at its present. */
    method Begin(l: Listener, ghost w: World, ghost done: seq<Action>) returns (validity: Option<int>, ghost acts: seq<Action>)
      requires At(l, Off) && Ran(w, done)
      modifies m, m.repo, post, m.everySub.Values, m.everyListener.Values
      ensures At(l, if validity.Some? then Reading(validity.value) else Off) && Ran(w, acts) && Framed()
    {
      var r;
      r, acts := OpenThen(l, w, done);
      if r.None? { return None, acts; }
      validity, acts := JoinAt(l, r.value.0, r.value.1, w, acts);
    }

    method JoinAt(l: Listener, selected: int, last: int, ghost w: World, ghost done: seq<Action>)
      returns (validity: Option<int>, ghost acts: seq<Action>)
      requires At(l, Selected(selected, last)) && Ran(w, done)
      modifies m, m.repo, post, m.everySub.Values, m.everyListener.Values
      ensures At(l, if validity.Some? then Reading(validity.value) else Off) && Ran(w, acts) && Framed()
    {
      var owned, renumbered, ok := false, false, true;
      owned, renumbered, acts := CompareThen(l, selected, last, w, done);
      if !owned { return None, acts; }
      if renumbered { ok, acts := JumpThen(l, selected, last, w, acts); }
      validity := if ok then Some(selected) else None;
    }

    /** One turn of the fetch loop: read the cursor, fetch, fan out, advance, idle. */
    method Turn(l: Listener, validity: int, ghost w: World, ghost done: seq<Action>) returns (again: bool, ghost acts: seq<Action>)
      requires At(l, Reading(validity)) && Ran(w, done)
      modifies m, m.repo, post, m.everySub.Values, m.everyListener.Values
      ensures At(l, if again then Reading(validity) else Off) && Ran(w, acts) && Framed()
    {
      var above;
      above, acts := LookThen(l, validity, w, done);
      if above.None? { return false, acts; }
      again, acts := FetchTurn(l, validity, above.value, w, acts);
    }

    method FetchTurn(l: Listener, validity: int, above: int, ghost w: World, ghost done: seq<Action>)
      returns (again: bool, ghost acts: seq<Action>)
      requires At(l, Fetching(validity, above)) && Ran(w, done)
      modifies m, m.repo, post, m.everySub.Values, m.everyListener.Values
      ensures At(l, if again then Reading(validity) else Off) && Ran(w, acts) && Framed()
    {
      var msgs;
      msgs, acts := PullThen(l, validity, above, w, done);
      if msgs.None? { return false, acts; }
      again, acts := OfferTurn(l, validity, above, msgs.value, w, acts);
    }

    method OfferTurn(l: Listener, validity: int, above: int, msgs: seq<Mail>, ghost w: World, ghost done: seq<Action>)
      returns (again: bool, ghost acts: seq<Action>)
      requires At(l, Offering(validity, above, msgs)) && Ran(w, done)
      modifies m, m.repo, post, m.everySub.Values, m.everyListener.Values
      ensures At(l, if again then Reading(validity) else Off) && Ran(w, acts) && Framed()
    {
      var maxUid, owned;
      maxUid, owned, acts := DeliverThen(l, validity, above, msgs, w, done);
      if !owned { return false, acts; }
      if maxUid > above { again, acts := AdvanceTurn(l, validity, above, maxUid, w, acts); }
      else { again, acts := WaitThen(l, validity, w, acts); }
    }

    method AdvanceTurn(l: Listener, validity: int, above: int, maxUid: int, ghost w: World, ghost done: seq<Action>)
      returns (again: bool, ghost acts: seq<Action>)
      requires At(l, Advancing(validity, above, maxUid)) && Ran(w, done)
      modifies m, m.repo, post, m.everySub.Values, m.everyListener.Values
      ensures At(l, if again then Reading(validity) else Off) && Ran(w, acts) && Framed()
    {
      again, acts := CommitThen(l, validity, above, maxUid, w, done);
      if again { again, acts := WaitThen(l, validity, w, acts); }
    }

    /** One session, from dial to its end: a Play of the transition system whatever anyone else does
        meanwhile. `turns` is how long the process lives. */
    method ServeOnce(l: Listener, turns: nat, ghost w: World, ghost done: seq<Action>) returns (lost: bool, ghost acts: seq<Action>)
      requires At(l, Off) && Ran(w, done)
      modifies m, m.repo, post, m.everySub.Values, m.everyListener.Values
      ensures Shared() && Ran(w, acts) && Framed() && (!lost ==> At(l, Off))
    {
      lost := false;
      var validity;
      validity, acts := Begin(l, w, done);
      if validity.None? { return; }
      var left, again := turns, true;
      while again
        invariant At(l, if again then Reading(validity.value) else Off) && Ran(w, acts) && Framed()
        decreases left, again
      {
        if left == 0 { return true, acts; }
        again, acts := Turn(l, validity.value, w, acts);
        left := left - 1;
      }
    }

    /** The goroutine: sessions one after another until its stop channel is closed, and gone then. From
        any sound state, every stored cursor it leaves behind is one that passes no un-offered mail. */
    method Run(l: Listener, lives: nat) returns (lost: bool, ghost acts: seq<Action>)
      requires At(l, Off) && WorldOk(W())
      modifies m, m.repo, post, m.everySub.Values, m.everyListener.Values
      ensures Shared() && Ran(old(W()), acts) && WorldOk(W())
      ensures !lost ==> l.stops != 0 && !Runs(l)
    {
      ghost var w := W();
      acts := [];
      lost := false;
      var left := lives;
      while l.stops == 0 && !lost
        invariant Shared() && Ran(w, acts) && Framed() && (!lost ==> At(l, Off))
        decreases left, !lost
      {
        if left == 0 {
          lost := true;
        } else {
          lost, acts := ServeOnce(l, left, w, acts);
          left := left - 1;
        }
      }
      if !lost {
        Quit(l);
        acts := PlayStep(w, acts, Leave(l.serial));
      }
      PlayKeepsWorld(w, acts);
    }
  }
}
