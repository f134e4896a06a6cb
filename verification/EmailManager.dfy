/** The email manager as it is written: an inventory, the registered listeners and their
    subscriptions, changed in place under one lock. For every inbox, each method is proved to do
    what the transition system's step does, and to leave the other inboxes alone. */
module EmailManager {
  import opened Wrappers
  import opened EmailModel
  import opened EmailTheorems
  import opened EmailRegister

  class Repository {
    var rows: map<Id, Row>
    /** How many writes it has been asked for. */
    ghost var writes: nat

    method Save(id: Id, row: Row) returns (ok: bool)
      modifies this
      ensures rows == if ok then old(rows)[id := row] else old(rows)
      ensures writes == old(writes) + 1
    {
      ok, writes := *, writes + 1;
      if ok { rows := rows[id := row]; }
    }

    method Delete(id: Id) returns (ok: bool)
      modifies this
      ensures rows == if ok then old(rows) - {id} else old(rows)
      ensures writes == old(writes) + 1
    {
      ok, writes := *, writes + 1;
      if ok { rows := rows - {id}; }
    }
  }

  class Subscription {
    const serial: Id
    const email: Id
    const task: Id
    const sender: int
    const capacity: int
    var queue: seq<Mail>
    var dropped: int
    var closed: bool
    ghost var offered: seq<Mail>
    ghost var taken: seq<Mail>
    ghost var closes: int

    ghost function Record(): Sub
      reads this
    {
      Sub(task, sender, capacity, offered, taken, queue, dropped, closes)
    }

    ghost predicate Ok()
      reads this
    {
      closed <==> !Open(Record())
    }

    constructor (serial: Id, email: Id, task: Id, sender: int, capacity: int)
      ensures this.serial == serial && this.email == email && Ok()
      ensures Record() == Sub(task, sender, capacity, [], [], [], 0, 0)
    {
      this.serial, this.email, this.task, this.sender, this.capacity := serial, email, task, sender, capacity;
      queue, dropped, closed, offered, taken, closes := [], 0, false, [], [], 0;
    }

    /** Marks the subscription closed and closes its channel, the first time only. */
    method Retire()
      requires Ok()
      modifies this
      ensures Ok() && Record() == Retired(old(Record()))
      ensures closed && (old(closed) ==> closes == old(closes)) && (!old(closed) ==> closes == old(closes) + 1)
    {
      if closed { return; }
      closed, closes := true, closes + 1;
    }

    /** Delivers without blocking; a full buffer counts a drop. */
    method Offer(m: Mail) returns (drop: bool)
      requires Ok()
      modifies this
      ensures Ok() && Record() == EmailModel.Offer(old(Record()), m)
      ensures drop <==> dropped != old(dropped)
      ensures !old(closed) && (sender == ALL_MAIL || sender == m.sender) ==>
        if |old(queue)| < capacity then queue == old(queue) + [m] && dropped == old(dropped)
        else queue == old(queue) && dropped == old(dropped) + 1
      ensures old(closed) || (sender != ALL_MAIL && sender != m.sender) ==> queue == old(queue) && dropped == old(dropped)
    {
      if closed || !(sender == ALL_MAIL || sender == m.sender) { return false; }
      offered := offered + [m];
      if |queue| < capacity {
        queue := queue + [m];
        return false;
      }
      dropped := dropped + 1;
      drop := true;
    }

    /** The subscriber takes the next message from its channel, if there is one. */
    method Receive() returns (m: Option<Mail>)
      requires Ok()
      modifies this
      ensures Ok() && Record() == Taken(old(Record()))
      ensures m == if old(queue) == [] then None else Some(old(queue)[0])
      ensures old(queue) != [] ==> queue == old(queue)[1..] && taken == old(taken) + [old(queue)[0]]
    {
      if queue == [] { return None; }
      m := Some(queue[0]);
      taken, queue := taken + [queue[0]], queue[1..];
    }
  }

  class Listener {
    const serial: Id
    const email: Id
    var subs: map<Id, Subscription>
    /** How often the stop channel has been closed. */
    var stops: int

    constructor (serial: Id, email: Id)
      ensures this.serial == serial && this.email == email && subs == map[] && stops == 0
    {
      this.serial, this.email, subs, stops := serial, email, map[], 0;
    }

    /** Closes the stop channel; a second close would panic. */
    method Stop()
      requires stops == 0
      modifies this`stops
      ensures stops == 1
    {
      stops := stops + 1;
    }
  }

  class Manager {
    const repo: Repository
    var inventory: map<Id, Row>
    var listeners: map<Id, Listener>
    var closed: bool
    /** The next object's identity. */
    var serials: Id
    ghost var everySub: map<Id, Subscription>
    ghost var everyListener: map<Id, Listener>
    /** All of it as one value. */
    ghost var state: Whole

    /** `state` is what the fields and the objects hold. */
    ghost predicate Linked()
      reads this, repo, everySub.Values, everyListener.Values
    {
      && state.inventory == inventory && state.rows == repo.rows && state.closed == closed
      && (forall k :: SubLinked(k))
      && (forall k :: ListenerLinked(k))
      && (forall e :: InboxLinked(e))
    }

    ghost predicate SubLinked(k: Id)
      reads this, everySub.Values
    {
      && (k in state.subs <==> k in everySub)
      && (k in everySub ==>
            && everySub[k].serial == k && k < serials && everySub[k].Ok()
            && state.subs[k] == SubFile(everySub[k].email, everySub[k].Record()))
    }

    ghost predicate ListenerLinked(k: Id)
      reads this, everyListener.Values
    {
      && (k in state.stops <==> k in everyListener)
      && (k in everyListener ==>
            && everyListener[k].serial == k && k < serials
            && state.stops[k] == StopFile(everyListener[k].email, everyListener[k].stops)
            && (forall s :: s in everyListener[k].subs ==>
                  s in everySub && everySub[s] == everyListener[k].subs[s] && everySub[s].email == everyListener[k].email))
    }

    ghost predicate InboxLinked(e: Id)
      reads this, everyListener.Values
    {
      && (e in state.owners <==> e in listeners) && (e in state.attached <==> e in listeners)
      && (e in listeners ==>
            && listeners[e].email == e && state.owners[e] == listeners[e].serial
            && listeners[e].serial in everyListener && everyListener[listeners[e].serial] == listeners[e]
            && state.attached[e] == everyListener[listeners[e].serial].subs.Keys)
    }

    ghost predicate HasSub(s: Subscription)
      reads this
    {
      s.serial in everySub && everySub[s.serial] == s
    }

    ghost predicate HasListener(l: Listener)
      reads this
    {
      l.serial in everyListener && everyListener[l.serial] == l
    }

    twostate lemma SameSubs()
      requires old(Linked()) && everySub == old(everySub) && state.subs == old(state.subs) && old(serials) <= serials
      requires forall k :: k in everySub ==> unchanged(everySub[k])
      ensures forall k :: SubLinked(k)
    {
      forall k
        ensures SubLinked(k)
      {
        assert old(SubLinked(k));
      }
    }

    twostate lemma SameListeners()
      requires old(Linked()) && everyListener == old(everyListener) && state.stops == old(state.stops) && old(serials) <= serials
      requires forall k :: k in old(everySub) ==> k in everySub && everySub[k] == old(everySub[k])
      requires forall k :: k in everyListener ==> unchanged(everyListener[k])
      ensures forall k :: ListenerLinked(k)
    {
      forall k
        ensures ListenerLinked(k)
      {
        assert old(ListenerLinked(k));
      }
    }

    twostate lemma SameInboxes()
      requires old(Linked()) && listeners == old(listeners) && everyListener == old(everyListener)
      requires state.owners == old(state.owners) && state.attached == old(state.attached)
      requires forall k :: k in everyListener ==> unchanged(everyListener[k])
      ensures forall e :: InboxLinked(e)
    {
      forall e
        ensures InboxLinked(e)
      {
        assert old(InboxLinked(e));
      }
    }

    /** The manager's state as one inbox sees it. */
    ghost function View(e: Id): Desk
      reads this
    {
      DeskOf(state, e)
    }

    /** The registers only grow, by new objects under new identities. */
    twostate predicate Grown()
      reads this
    {
      && old(serials) <= serials
      && (forall k :: k in old(everySub) ==> k in everySub && everySub[k] == old(everySub[k]))
      && (forall k :: k in everySub ==> k in old(everySub) || (fresh(everySub[k]) && old(serials) <= k))
      && (forall k :: k in old(everyListener) ==> k in everyListener && everyListener[k] == old(everyListener[k]))
      && (forall k :: k in everyListener ==> k in old(everyListener) || (fresh(everyListener[k]) && old(serials) <= k))
    }

    ghost predicate Valid()
      reads this, repo, everySub.Values, everyListener.Values
    {
      Linked() && AllSound(state)
    }

    lemma LinkedIsTidy()
      requires Linked()
      ensures Tidy(state)
    {
      forall e
        ensures e in state.attached <==> e in state.owners
        ensures e in state.owners ==> state.owners[e] in state.stops && state.stops[state.owners[e]].email == e
        ensures e in state.attached ==> forall s :: s in state.attached[e] ==> s in state.subs && state.subs[s].email == e
      {
        InboxIsTidy(e);
      }
    }

    lemma InboxIsTidy(e: Id)
      requires Linked()
      ensures e in state.attached <==> e in state.owners
      ensures e in state.owners ==> state.owners[e] in state.stops && state.stops[state.owners[e]].email == e
      ensures e in state.attached ==> forall s :: s in state.attached[e] ==> s in state.subs && state.subs[s].email == e
    {
      assert InboxLinked(e);
      if e in listeners {
        assert ListenerLinked(listeners[e].serial);
        forall s | s in state.attached[e]
          ensures s in state.subs && state.subs[s].email == e
        {
          assert SubLinked(s);
        }
      }
    }

    /** Loads the inventory; nothing listens yet. */
    constructor (repo: Repository)
      ensures this.repo == repo && Valid()
      ensures forall e :: View(e) == Desk(RowOf(repo.rows, e), RowOf(repo.rows, e), false, None, {}, map[], map[])
    {
      this.repo := repo;
      inventory, listeners, closed, serials, everySub, everyListener := repo.rows, map[], false, 1, map[], map[];
      state := Whole(repo.rows, repo.rows, false, map[], map[], map[], map[]);
    }

    // -------------------------------------------------------------- subscribing

    /** Subscribes a task to an inbox. `l` is the identity of the listener it would start. */
    method Listen(task: Id, email: Id, sender: int, buffer: int) returns (r: Option<Refusal>, sub: Subscription?, ghost l: Id)
      requires Valid()
      modifies this, everyListener.Values
      ensures Valid() && Grown()
      ensures r == ListenRefusal(old(View(email)), task, buffer)
      ensures r == Some(NoTask) <==> task == 0
      ensures r == Some(BadBuffer) <==> task != 0 && buffer < 1
      ensures r == Some(ManagerClosed) <==> task != 0 && buffer >= 1 && old(closed)
      ensures r == Some(NotFound) <==> task != 0 && buffer >= 1 && !old(closed) && email !in old(inventory)
      ensures r == Some(NoInbox) <==> task != 0 && buffer >= 1 && !old(closed) && email in old(inventory) && old(inventory)[email].AddressOnly?
      ensures r.Some? ==> View(email) == old(View(email))
      ensures r.None? ==> sub != null && NewSub(email, sub, l)
      ensures r.None? ==> View(email) == ListenD(old(View(email)), task, sender, buffer, sub.serial, l)
      ensures forall o :: o != email ==> View(o) == old(View(o))
    {
      sub := null;
      if task == 0 { return Some(NoTask), null, 0; }
      if buffer < 1 { return Some(BadBuffer), null, 0; }
      if closed { return Some(ManagerClosed), null, 0; }
      if email !in inventory { return Some(NotFound), null, 0; }
      if inventory[email].AddressOnly? { return Some(NoInbox), null, 0; }
      r := None;
      LinkedIsTidy();
      sub, l := Subscribe(task, email, sender, buffer);
      ListenedDesk(old(state), email, task, sender, buffer, sub.serial, l);
      assert Sound(old(state), email);
      ListenKeepsDesk(old(View(email)), task, sender, buffer, sub.serial, l);
      StillSound(old(state), state, email, View(email));
    }

    twostate predicate NewSub(email: Id, new sub: Subscription, l: Id)
      reads this
    {
      && old(serials) <= sub.serial < serials && old(serials) <= l < serials && sub.serial != l
      && sub.serial in everySub && everySub[sub.serial] == sub && sub.email == email
    }

    /** A listener for an inbox that has none. */
    method StartListener(email: Id) returns (l: Listener)
      requires Linked() && email !in listeners
      modifies this`listeners, this`everyListener, this`serials, this`state
      ensures Linked() && Grown() && fresh(l) && listeners == old(listeners)[email := l]
      ensures old(serials) <= l.serial < serials && l.serial !in old(state.stops)
      ensures state == Started(old(state), email, l.serial)
    {
      l := new Listener(serials, email);
      listeners := listeners[email := l];
      everyListener := everyListener[serials := l];
      state := Started(state, email, serials);
      serials := serials + 1;
      assert old(ListenerLinked(serials));
      SameSubs();
      forall k
        ensures ListenerLinked(k)
      {
        assert old(ListenerLinked(k));
      }
      forall e
        ensures InboxLinked(e)
      {
        assert old(InboxLinked(e));
      }
    }

    /** A new subscription, on the register but not yet attached. */
    method Enrol(task: Id, email: Id, sender: int, buffer: int) returns (s: Subscription, ghost spare: Id)
      requires Linked()
      modifies this`everySub, this`serials, this`state
      ensures Linked() && Grown() && fresh(s) && s.email == email
      ensures old(serials) <= s.serial < spare < serials && s.serial in everySub && everySub[s.serial] == s
      ensures s.serial !in old(state.subs) && spare !in old(state.stops)
      ensures state == Enrolled(old(state), email, s.serial, Sub(task, sender, buffer, [], [], [], 0, 0))
    {
      s := new Subscription(serials, email, task, sender, buffer);
      everySub := everySub[serials := s];
      state := Enrolled(state, email, serials, s.Record());
      spare, serials := serials + 1, serials + 2;
      assert old(SubLinked(serials)) && old(ListenerLinked(serials + 1));
      SameListeners();
      SameInboxes();
      forall k
        ensures SubLinked(k)
      {
        assert old(SubLinked(k));
      }
    }

    method Join(l: Listener, s: Subscription)
      requires Linked() && l.email in listeners && listeners[l.email] == l
      requires HasSub(s) && s.email == l.email
      modifies l`subs, this`state
      ensures Linked() && state == Joined(old(state), l.email, s.serial)
    {
      l.subs := l.subs[s.serial := s];
      state := Joined(state, l.email, s.serial);
      SameSubs();
      forall k
        ensures ListenerLinked(k)
      {
        assert old(ListenerLinked(k));
      }
      forall e
        ensures InboxLinked(e)
      {
        assert old(InboxLinked(e));
      }
    }

    method Subscribe(task: Id, email: Id, sender: int, buffer: int) returns (sub: Subscription, ghost l: Id)
      requires Linked()
      modifies this`listeners, this`everyListener, this`everySub, this`serials, this`state, everyListener.Values
      ensures Linked() && Grown() && NewSub(email, sub, l)
      ensures sub.serial !in old(state.subs) && l !in old(state.stops)
      ensures state == Listened(old(state), email, sub.serial, Sub(task, sender, buffer, [], [], [], 0, 0), l)
    {
      var li;
      var starts := email !in listeners;
      assert InboxLinked(email);
      if starts { li := StartListener(email); } else { li := listeners[email]; }
      assert InboxLinked(email);
      sub, l := Enrol(task, email, sender, buffer);
      Join(li, sub);
      if starts { l := li.serial; }
    }

    // -------------------------------------------------------------- unsubscribing

    /** Stops the inbox's listener, which is then no longer registered. */
    method HangUp(email: Id, l: Listener)
      requires Linked() && email in listeners && listeners[email] == l && l.stops == 0
      modifies this`listeners, l`stops, this`state
      ensures Linked() && listeners == old(listeners) - {email}
      ensures state == HungUp(old(state), email)
    {
      l.Stop();
      listeners := listeners - {email};
      state := HungUp(state, email);
      assert old(InboxLinked(email)) && old(ListenerLinked(l.serial));
      SameSubs();
      forall k
        ensures ListenerLinked(k)
      {
        assert old(ListenerLinked(k));
      }
      forall e
        ensures InboxLinked(e)
      {
        assert old(InboxLinked(e));
      }
    }

    lemma NotYetStopped(e: Id, d: Desk)
      requires Linked() && e in listeners && DeskOk(d) && View(e).owner == d.owner && View(e).stops == d.stops
      ensures listeners[e].stops == 0
    {
      assert InboxLinked(e) && ListenerLinked(listeners[e].serial);
      assert StopsFor(state.stops, e)[listeners[e].serial] == listeners[e].stops;
    }

    method Drop(l: Listener, serial: Id)
      requires Linked() && l.email in listeners && listeners[l.email] == l
      modifies l`subs, this`state
      ensures Linked() && l.subs == old(l.subs) - {serial}
      ensures state == Dropped(old(state), l.email, serial)
    {
      l.subs := l.subs - {serial};
      state := Dropped(state, l.email, serial);
      SameSubs();
      forall k
        ensures ListenerLinked(k)
      {
        assert old(ListenerLinked(k));
      }
      forall e
        ensures InboxLinked(e)
      {
        assert old(InboxLinked(e));
      }
    }

    method Detach(email: Id, serial: Id)
      requires Valid()
      modifies this`listeners, this`state, everyListener.Values
      ensures Linked() && state == Detached(old(state), email, serial)
    {
      assert InboxLinked(email);
      if email !in listeners { return; }
      var l := listeners[email];
      assert Sound(state, email);
      NotYetStopped(email, View(email));
      Drop(l, serial);
      if l.subs == map[] { HangUp(email, l); }
    }

    /** One subscription and its file changed together. */
    twostate lemma Refiled(s: Subscription)
      requires old(Linked()) && old(HasSub(s)) && s.Ok()
      requires unchanged(`inventory) && unchanged(`listeners) && unchanged(`closed) && unchanged(`serials) && unchanged(repo)
      requires unchanged(`everySub) && unchanged(`everyListener) && state == Changed(old(state), s.serial, s.Record())
      requires forall k :: k in everySub && everySub[k] != s ==> unchanged(everySub[k])
      requires forall k :: k in everyListener ==> unchanged(everyListener[k])
      ensures Linked()
    {
      SameListeners();
      SameInboxes();
      forall k
        ensures SubLinked(k)
      {
        assert old(SubLinked(k));
      }
    }

    method Retire(s: Subscription)
      requires Linked() && HasSub(s)
      modifies s, this`state
      ensures Linked() && state == Changed(old(state), s.serial, Retired(old(s.Record())))
    {
      assert SubLinked(s.serial);
      s.Retire();
      state := Changed(state, s.serial, s.Record());
      Refiled(s);
    }

    /** A subscription's Close. */
    method Unsubscribe(s: Subscription)
      requires Valid() && HasSub(s)
      modifies this`listeners, this`state, everyListener.Values, everySub.Values
      ensures Valid()
      ensures View(s.email) == CloseSubD(old(View(s.email)), s.serial)
      ensures forall o :: o != s.email ==> View(o) == old(View(o))
    {
      LinkedIsTidy();
      assert SubLinked(s.serial);
      Detach(s.email, s.serial);
      Retire(s);
      ClosedSubDesk(old(state), s.serial);
      assert Sound(old(state), s.email);
      CloseSubKeepsDesk(old(View(s.email)), s.serial);
      StillSound(old(state), state, s.email, View(s.email));
    }

    // -------------------------------------------------------------- shutting down

    method RetireAll(l: Listener)
      requires Linked() && HasListener(l)
      modifies everySub.Values, this`state
      ensures Linked() && state == old(state).(subs := EachRetired(old(state).subs, l.subs.Keys))
    {
      var todo := l.subs.Keys;
      ghost var gone := {};
      NothingDone(state.subs, {});
      while todo != {}
        invariant Linked() && todo <= l.subs.Keys && gone == l.subs.Keys - todo
        invariant state == old(state).(subs := EachRetired(old(state).subs, gone))
      {
        Inhabited(todo);
        var k :| k in todo;
        assert ListenerLinked(l.serial) && SubLinked(k);
        OneMoreRetired(old(state).subs, gone, k);
        Retire(l.subs[k]);
        todo, gone := todo - {k}, gone + {k};
      }
      assert gone == l.subs.Keys;
    }

    /** One inbox's part of the shutdown. */
    method CloseInbox(email: Id)
      requires Linked() && email in listeners && listeners[email].stops == 0
      modifies this`listeners, this`state, everyListener.Values, everySub.Values
      ensures Linked() && listeners == old(listeners) - {email}
      ensures state == InboxClosed(old(state), email)
    {
      var l := listeners[email];
      assert InboxLinked(email);
      HangUp(email, l);
      assert forall e :: e in listeners ==> listeners[e].email == e by {
        forall e | e in listeners ensures listeners[e].email == e { assert InboxLinked(e); }
      }
      RetireAll(l);
      ClearSubs(l);
    }

    method ClearSubs(l: Listener)
      requires Linked() && forall e :: e in listeners ==> listeners[e] != l
      modifies l`subs
      ensures Linked()
    {
      l.subs := map[];
      SameSubs();
      forall k
        ensures ListenerLinked(k)
      {
        assert old(ListenerLinked(k));
      }
      forall e
        ensures InboxLinked(e)
      {
        assert old(InboxLinked(e));
      }
    }

    /** Part-way through a shutdown that began in state `was`. */
    ghost predicate ShuttingDown(was: Whole)
      reads this, repo, everySub.Values, everyListener.Values
    {
      Linked() && closed && AllSound(was) && forall o :: ShutSoFar(was, o)
    }

    ghost predicate ShutSoFar(was: Whole, o: Id)
      reads this
    {
      View(o) == if o in listeners then DeskOf(was, o).(closed := true) else CloseD(DeskOf(was, o))
    }

    /** One turn of the shutdown loop. */
    method CloseNext(ghost was: Whole)
      requires ShuttingDown(was) && listeners != map[]
      modifies this`listeners, this`state, everyListener.Values, everySub.Values
      ensures ShuttingDown(was) && |listeners| < |old(listeners)|
    {
      var todo := listeners.Keys;
      Inhabited(todo);
      var e :| e in todo;
      assert ShutSoFar(was, e);
      assert Sound(was, e);
      NotYetStopped(e, DeskOf(was, e));
      assert InboxLinked(e);
      LinkedIsTidy();
      CloseInbox(e);
      InboxClosedDesk(old(state), e);
      forall o
        ensures ShutSoFar(was, o)
      {
        assert old(ShutSoFar(was, o));
      }
      assert old(listeners).Keys == listeners.Keys + {e};
    }

    method CloseAll(ghost was: Whole)
      requires ShuttingDown(was)
      modifies this`listeners, this`state, everyListener.Values, everySub.Values
      ensures ShuttingDown(was) && listeners == map[]
    {
      while listeners != map[]
        invariant ShuttingDown(was)
        decreases |listeners|
      {
        CloseNext(was);
      }
    }

    method MarkClosed()
      requires Linked()
      modifies this`closed, this`state
      ensures Linked() && closed && state == old(state).(closed := true)
    {
      closed, state := true, state.(closed := true);
      SameSubs();
      SameListeners();
      SameInboxes();
    }

    /** Stops every listener and retires every attached subscription, for good. */
    method Close()
      requires Valid()
      modifies this`listeners, this`closed, this`state, everyListener.Values, everySub.Values
      ensures Valid()
      ensures forall e :: View(e) == CloseD(old(View(e)))
    {
      MarkClosed();
      forall o
        ensures ShutSoFar(old(state), o)
      {
        assert InboxLinked(o);
      }
      CloseAll(old(state));
      forall e
        ensures View(e) == CloseD(old(View(e))) && Sound(state, e)
      {
        assert Sound(old(state), e);
        assert ShutSoFar(old(state), e);
        CloseKeepsDesk(DeskOf(old(state), e));
      }
    }

    // -------------------------------------------------------------- the inventory

    /** Store first: a failed save leaves the inventory alone too. */
    method Put(id: Id, row: Row) returns (ok: bool)
      requires Linked()
      modifies this`inventory, this`state, repo
      ensures Linked() && state == if ok then WithRow(old(state), id, row) else old(state)
      ensures repo.writes == old(repo.writes) + 1
    {
      ok := repo.Save(id, row);
      if ok { inventory, state := inventory[id := row], WithRow(state, id, row); }
      SameSubs();
      SameListeners();
      SameInboxes();
    }

    method Remove(id: Id) returns (ok: bool)
      requires Linked()
      modifies this`inventory, this`state, repo
      ensures Linked() && state == if ok then WithoutRow(old(state), id) else old(state)
      ensures repo.writes == old(repo.writes) + 1
    {
      ok := repo.Delete(id);
      if ok { inventory, state := inventory - {id}, WithoutRow(state, id); }
      SameSubs();
      SameListeners();
      SameInboxes();
    }

    /** `valid` is whether the inbox, if there is one, names a known vendor with credentials it accepts. */
    method Add(id: Id, address: Id, inbox: Option<Cursor>, valid: bool) returns (err: Option<AddError>)
      requires Valid()
      modifies this`inventory, this`state, repo
      ensures Valid()
      ensures View(id) == AddD(old(View(id)), inbox, err.None?)
      ensures forall o :: o != id ==> View(o) == old(View(o))
      ensures err.None? ==> id != 0 && address != 0 && old(View(id)).row.None? && (inbox.Some? ==> valid)
      ensures err.None? ==>
        var row := match inbox case None => AddressOnly case Some(c) => WithInbox(c);
        inventory == old(inventory)[id := row] && repo.rows == old(repo.rows)[id := row]
      ensures err == Some(Exists) <==> id != 0 && address != 0 && old(View(id)).row.Some?
      ensures err == Some(StoreFailed) ==> repo.writes > old(repo.writes)
    {
      if id == 0 || address == 0 { return Some(Incomplete); }
      if id in inventory { return Some(Exists); }
      if inbox.Some? && !valid { return Some(BadInbox); }
      var row := if inbox.Some? then WithInbox(inbox.value) else AddressOnly;
      var ok := Put(id, row);
      err := if ok then None else Some(StoreFailed);
      RowDesks(old(state), id, row);
      assert Sound(old(state), id);
      RowsKeepDesk(old(View(id)), 0, 0, 0, false, false, inbox, ok);
      StillSound(old(state), state, id, View(id));
    }

    /** Refuses while anyone listens or the guard names a lease; reports the idle locks it strands. */
    method Delete(id: Id, guard: Option<Guard>) returns (err: Option<DeleteError>, stranded: seq<Id>)
      requires Valid()
      modifies this`inventory, this`state, repo
      ensures Valid()
      ensures View(id) == DeleteD(old(View(id)), guard.Some? && guard.value.held != [], err.None?)
      ensures forall o :: o != id ==> View(o) == old(View(o))
      ensures err == Some(InUse) <==> DeleteRefused(old(View(id)), guard.Some? && guard.value.held != [])
      ensures stranded == if err.None? && old(View(id)).row.Some? && guard.Some? then guard.value.locked else []
      ensures err.None? ==> inventory == old(inventory) - {id} && repo.rows == old(repo.rows) - {id}
      ensures err.Some? ==> inventory == old(inventory) && repo.rows == old(repo.rows)
      ensures err == Some(DeleteFailed) ==> repo.writes > old(repo.writes)
    {
      stranded := [];
      var known := id in inventory;
      assert InboxLinked(id);
      if id in listeners { assert ListenerLinked(listeners[id].serial); }
      if known {
        if id in listeners && listeners[id].subs != map[] { return Some(InUse), []; }
        if guard.Some? && guard.value.held != [] { return Some(InUse), []; }
      }
      var ok := Remove(id);
      RowDesks(old(state), id, AddressOnly);
      assert Sound(old(state), id);
      RowsKeepDesk(old(View(id)), 0, 0, 0, false, false, None, ok);
      StillSound(old(state), state, id, View(id));
      return if ok then None else Some(DeleteFailed), if ok && known && guard.Some? then guard.value.locked else [];
    }

    // -------------------------------------------------------------- delivering

    method OfferTo(s: Subscription, m: Mail)
      requires Linked() && HasSub(s)
      modifies s, this`state
      ensures Linked() && state == Changed(old(state), s.serial, Offer(old(s.Record()), m))
    {
      assert SubLinked(s.serial);
      var _ := s.Offer(m);
      state := Changed(state, s.serial, s.Record());
      Refiled(s);
    }

    method TellOne(s: Subscription, ghost who: set<Id>, ghost told: set<Id>, msgs: seq<Mail>, i: nat, ghost was: Whole)
      requires Linked() && HasSub(s) && i < |msgs| && s.serial in who && s.serial !in told
      requires state == was.(subs := Telling(was.subs, who, told, msgs, i))
      modifies s, this`state
      ensures Linked() && state == was.(subs := Telling(was.subs, who, told + {s.serial}, msgs, i))
    {
      assert SubLinked(s.serial);
      OneMoreTold(was.subs, who, told, msgs, i, s.serial);
      OfferTo(s, msgs[i]);
    }

    /** Message i to every subscription of the listener, who have had those before it. */
    method OfferEach(l: Listener, msgs: seq<Mail>, i: nat, ghost was: Whole)
      requires Linked() && HasListener(l) && i < |msgs|
      requires state == was.(subs := EachOffered(was.subs, l.subs.Keys, msgs[..i]))
      modifies everySub.Values, this`state
      ensures Linked() && state == was.(subs := EachOffered(was.subs, l.subs.Keys, msgs[..i + 1]))
    {
      var todo := l.subs.Keys;
      ghost var told := {};
      NobodyThenEverybody(was.subs, l.subs.Keys, msgs, i);
      while todo != {}
        invariant Linked() && todo <= l.subs.Keys && told == l.subs.Keys - todo
        invariant state == was.(subs := Telling(was.subs, l.subs.Keys, told, msgs, i))
      {
        Inhabited(todo);
        var k :| k in todo;
        assert ListenerLinked(l.serial) && SubLinked(k);
        TellOne(l.subs[k], l.subs.Keys, told, msgs, i, was);
        todo, told := todo - {k}, told + {k};
      }
      assert told == l.subs.Keys;
    }

    method OfferMessages(l: Listener, msgs: seq<Mail>) returns (maxUid: int)
      requires Linked() && HasListener(l)
      modifies everySub.Values, this`state
      ensures Linked() && maxUid == Highest(msgs)
      ensures state == old(state).(subs := EachOffered(old(state).subs, l.subs.Keys, msgs))
    {
      maxUid := 0;
      var i := 0;
      NothingDone(state.subs, l.subs.Keys);
      while i < |msgs|
        invariant 0 <= i <= |msgs| && Linked() && maxUid == Highest(msgs[..i])
        invariant state == old(state).(subs := EachOffered(old(state).subs, l.subs.Keys, msgs[..i]))
      {
        OfferEach(l, msgs, i, old(state));
        assert msgs[..i + 1][..i] == msgs[..i];
        if msgs[i].uid > maxUid { maxUid := msgs[i].uid; }
        i := i + 1;
      }
      assert msgs[..i] == msgs;
    }

    /** Every message to every subscription, if the listener still owns the inbox. */
    method Fanout(l: Listener, msgs: seq<Mail>) returns (maxUid: int, owned: bool)
      requires Valid() && HasListener(l)
      modifies everySub.Values, this`state
      ensures Valid()
      ensures owned <==> Owns(old(View(l.email)), l.serial)
      ensures owned ==> maxUid == Highest(msgs)
      ensures View(l.email) == FanoutD(old(View(l.email)), l.serial, msgs)
      ensures forall o :: o != l.email ==> View(o) == old(View(o))
    {
      assert InboxLinked(l.email) && ListenerLinked(l.serial);
      if l.email !in listeners || listeners[l.email] != l { return 0, false; }
      owned := true;
      LinkedIsTidy();
      maxUid := OfferMessages(l, msgs);
      FannedOutDesk(old(state), l.email, msgs);
      assert Sound(old(state), l.email);
      FanoutKeepsDesk(old(View(l.email)), l.serial, msgs);
      StillSound(old(state), state, l.email, View(l.email));
    }

    method OfferHistory(s: Subscription, msgs: seq<Mail>)
      requires Linked() && HasSub(s)
      modifies s, this`state
      ensures Linked() && state == Changed(old(state), s.serial, OfferAll(old(s.Record()), msgs))
    {
      var i := 0;
      assert SubLinked(s.serial);
      assert state == Changed(state, s.serial, s.Record());
      while i < |msgs|
        invariant 0 <= i <= |msgs| && Linked()
        invariant state == Changed(old(state), s.serial, OfferAll(old(s.Record()), msgs[..i]))
      {
        assert msgs[..i + 1][..i] == msgs[..i];
        ChangedTwice(old(state), s.serial, OfferAll(old(s.Record()), msgs[..i]), OfferAll(old(s.Record()), msgs[..i + 1]));
        assert SubLinked(s.serial);
        OfferTo(s, msgs[i]);
        i := i + 1;
      }
      assert msgs[..i] == msgs;
    }

    /** History for one new subscription, offered to it alone, whether or not it is still open. */
    method Backfill(s: Subscription, msgs: seq<Mail>)
      requires Valid() && HasSub(s)
      modifies s, this`state
      ensures Valid()
      ensures View(s.email) == BackfillD(old(View(s.email)), s.serial, msgs)
      ensures forall o :: o != s.email ==> View(o) == old(View(o))
    {
      assert SubLinked(s.serial);
      OfferHistory(s, msgs);
      ChangedDesk(old(state), s.serial, OfferAll(old(s.Record()), msgs));
      assert Sound(old(state), s.email);
      BackfillKeepsDesk(old(View(s.email)), s.serial, msgs);
      StillSound(old(state), state, s.email, View(s.email));
    }

    method Receive(s: Subscription) returns (m: Option<Mail>)
      requires Valid() && HasSub(s)
      modifies s, this`state
      ensures Valid()
      ensures View(s.email) == ReceiveD(old(View(s.email)), s.serial)
      ensures forall o :: o != s.email ==> View(o) == old(View(o))
      ensures m == if old(s.queue) == [] then None else Some(old(s.queue)[0])
    {
      assert SubLinked(s.serial);
      m := s.Receive();
      state := Changed(state, s.serial, s.Record());
      Refiled(s);
      ChangedDesk(old(state), s.serial, s.Record());
      assert Sound(old(state), s.email);
      ReceiveKeepsDesk(old(View(s.email)), s.serial);
      StillSound(old(state), state, s.email, View(s.email));
    }

    // -------------------------------------------------------------- the cursor

    /** The inbox's cursor, for the listener that owns it. */
    method ReadCursor(l: Listener) returns (c: Option<Cursor>)
      requires Valid() && HasListener(l)
      ensures c == CursorOf(View(l.email), l.serial)
    {
      if l.email !in inventory || inventory[l.email].AddressOnly? { return None; }
      assert InboxLinked(l.email) && ListenerLinked(l.serial);
      if l.email !in listeners || listeners[l.email] != l { return None; }
      c := Some(inventory[l.email].cursor);
    }

    /** Persists and installs the cursor, store first; a listener that lost its inbox writes nothing. */
    method AdvanceCursor(l: Listener, validity: int, uid: int, reset: bool) returns (ok: bool)
      requires Valid() && HasListener(l)
      modifies this`inventory, this`state, repo
      ensures Valid()
      ensures View(l.email) == AdvanceD(old(View(l.email)), l.serial, validity, uid, reset, ok)
      ensures CursorOf(old(View(l.email)), l.serial).None? ==> ok
      ensures ok && CursorOf(old(View(l.email)), l.serial).Some? ==>
        && l.email in old(inventory) && old(inventory)[l.email].WithInbox?
        && var was := old(inventory)[l.email].cursor.last;
           inventory == old(inventory)[l.email := WithInbox(Cursor(validity, if !reset && uid <= was then was else uid))]
      ensures forall o :: o != l.email ==> View(o) == old(View(o))
      ensures !ok ==> repo.writes > old(repo.writes)
    {
      var c := ReadCursor(l);
      if c.None? { return true; }
      var last := if reset || uid > c.value.last then uid else c.value.last;
      var row := WithInbox(Cursor(validity, last));
      ok := Put(l.email, row);
      RowDesks(old(state), l.email, row);
      assert Sound(old(state), l.email);
      RowsKeepDesk(old(View(l.email)), l.serial, validity, uid, reset, false, None, ok);
      StillSound(old(state), state, l.email, View(l.email));
    }
  }

  datatype Guard = Guard(held: seq<Id>, locked: seq<Id>)

  datatype AddError = Incomplete | Exists | BadInbox | StoreFailed

  datatype DeleteError = InUse | DeleteFailed
}
