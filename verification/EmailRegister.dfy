/** The email manager's whole state as one value, and what each inbox sees of it. Every operation on
    one inbox is shown here to be its step on that inbox's desk and nothing on any other's. */
module EmailRegister {
  import opened Wrappers
  import opened EmailModel
  import opened EmailTheorems

  datatype StopFile = StopFile(email: Id, stops: int)

  datatype SubFile = SubFile(email: Id, sub: Sub)

  /** `owners` and `attached` say which listener is registered for an inbox, with which subscriptions;
      `stops` and `subs` file every listener and subscription there has been. */
  datatype Whole = Whole(
    inventory: map<Id, Row>,
    rows: map<Id, Row>,
    closed: bool,
    owners: map<Id, Id>,
    attached: map<Id, set<Id>>,
    stops: map<Id, StopFile>,
    subs: map<Id, SubFile>)

  function RowOf(rows: map<Id, Row>, e: Id): Option<Row> {
    if e in rows then Some(rows[e]) else None
  }

  function StopsFor(stops: map<Id, StopFile>, e: Id): map<Id, int> {
    map l | l in stops && stops[l].email == e :: stops[l].stops
  }

  function SubsFor(subs: map<Id, SubFile>, e: Id): map<Id, Sub> {
    map s | s in subs && subs[s].email == e :: subs[s].sub
  }

  function AttachedTo(x: Whole, e: Id): set<Id> {
    if e in x.attached then x.attached[e] else {}
  }

  /** The manager's state as one inbox sees it. */
  function DeskOf(x: Whole, e: Id): Desk {
    Desk(RowOf(x.inventory, e), RowOf(x.rows, e), x.closed,
         if e in x.owners then Some(x.owners[e]) else None,
         AttachedTo(x, e),
         StopsFor(x.stops, e), SubsFor(x.subs, e))
  }

  /** Everything is filed under its own inbox. */
  ghost predicate Tidy(x: Whole) {
    && (forall e :: e in x.attached <==> e in x.owners)
    && (forall e :: e in x.owners ==> x.owners[e] in x.stops && x.stops[x.owners[e]].email == e)
    && (forall e, s :: e in x.attached && s in x.attached[e] ==> s in x.subs && x.subs[s].email == e)
  }

  /** `y` is `x` with inbox `e`'s desk become `d`. */
  ghost predicate OneDesk(x: Whole, y: Whole, e: Id, d: Desk) {
    DeskOf(y, e) == d && forall o :: o != e ==> DeskOf(y, o) == DeskOf(x, o)
  }

  /** The inbox's desk satisfies what every run keeps. */
  ghost predicate Sound(x: Whole, e: Id) {
    DeskOk(DeskOf(x, e))
  }

  ghost predicate AllSound(x: Whole) {
    forall e :: Sound(x, e)
  }

  lemma StillSound(x: Whole, y: Whole, e: Id, d: Desk)
    requires AllSound(x) && OneDesk(x, y, e, d) && DeskOk(d)
    ensures AllSound(y)
  {
    forall o
      ensures Sound(y, o)
    {
      assert Sound(x, o) && (o != e ==> DeskOf(y, o) == DeskOf(x, o));
    }
  }

  // ---------------------------------------------------------------- files

  lemma StopFiled(stops: map<Id, StopFile>, l: Id, e: Id, n: int, o: Id)
    requires l in stops ==> stops[l].email == e
    ensures StopsFor(stops[l := StopFile(e, n)], o) == if o == e then StopsFor(stops, o)[l := n] else StopsFor(stops, o)
  {
    var now, was := StopsFor(stops[l := StopFile(e, n)], o), if o == e then StopsFor(stops, o)[l := n] else StopsFor(stops, o);
    assert now.Keys == was.Keys;
    assert forall k :: k in now ==> now[k] == was[k];
  }

  lemma SubFiled(subs: map<Id, SubFile>, s: Id, e: Id, sub: Sub, o: Id)
    requires s in subs ==> subs[s].email == e
    ensures SubsFor(subs[s := SubFile(e, sub)], o) == if o == e then SubsFor(subs, o)[s := sub] else SubsFor(subs, o)
  {
    var now, was := SubsFor(subs[s := SubFile(e, sub)], o), if o == e then SubsFor(subs, o)[s := sub] else SubsFor(subs, o);
    assert now.Keys == was.Keys;
    assert forall k :: k in now ==> now[k] == was[k];
  }

  // ---------------------------------------------------------------- subscribing

  function Started(x: Whole, e: Id, l: Id): Whole {
    x.(owners := x.owners[e := l], attached := x.attached[e := {}], stops := x.stops[l := StopFile(e, 0)])
  }

  function Enrolled(x: Whole, e: Id, s: Id, sub: Sub): Whole {
    x.(subs := x.subs[s := SubFile(e, sub)])
  }

  function Joined(x: Whole, e: Id, s: Id): Whole {
    x.(attached := x.attached[e := AttachedTo(x, e) + {s}])
  }

  /** A new subscription `s` on inbox `e`, whose listener `l` is started if there is none. */
  function Listened(x: Whole, e: Id, s: Id, sub: Sub, l: Id): Whole {
    var y := if e in x.owners then x else Started(x, e, l);
    Joined(Enrolled(y, e, s, sub), e, s)
  }

  lemma StartedDesk(x: Whole, e: Id, l: Id)
    requires l !in x.stops
    ensures OneDesk(x, Started(x, e, l), e,
                    DeskOf(x, e).(owner := Some(l), attached := {}, stops := DeskOf(x, e).stops[l := 0]))
  {
    forall o ensures StopsFor(x.stops[l := StopFile(e, 0)], o) == if o == e then StopsFor(x.stops, o)[l := 0] else StopsFor(x.stops, o) {
      StopFiled(x.stops, l, e, 0, o);
    }
  }

  lemma EnrolledDesk(x: Whole, e: Id, s: Id, sub: Sub)
    requires s in x.subs ==> x.subs[s].email == e
    ensures OneDesk(x, Enrolled(x, e, s, sub), e, DeskOf(x, e).(subs := DeskOf(x, e).subs[s := sub]))
  {
    forall o ensures SubsFor(x.subs[s := SubFile(e, sub)], o) == if o == e then SubsFor(x.subs, o)[s := sub] else SubsFor(x.subs, o) {
      SubFiled(x.subs, s, e, sub, o);
    }
  }

  lemma ListenedDesk(x: Whole, e: Id, task: Id, sender: int, buffer: int, s: Id, l: Id)
    requires Tidy(x) && s !in x.subs && l !in x.stops && ListenRefusal(DeskOf(x, e), task, buffer).None?
    ensures OneDesk(x, Listened(x, e, s, Sub(task, sender, buffer, [], [], [], 0, 0), l), e,
                    ListenD(DeskOf(x, e), task, sender, buffer, s, l))
  {
    var sub := Sub(task, sender, buffer, [], [], [], 0, 0);
    if e !in x.owners { StartedDesk(x, e, l); }
    EnrolledDesk(if e in x.owners then x else Started(x, e, l), e, s, sub);
  }

  // ---------------------------------------------------------------- unsubscribing

  function HungUp(x: Whole, e: Id): Whole {
    if e !in x.owners then x
    else
      var l := x.owners[e];
      x.(owners := x.owners - {e}, attached := x.attached - {e},
         stops := x.stops[l := StopFile(e, (if l in x.stops then x.stops[l].stops else 0) + 1)])
  }

  function Dropped(x: Whole, e: Id, s: Id): Whole {
    x.(attached := x.attached[e := AttachedTo(x, e) - {s}])
  }

  function Detached(x: Whole, e: Id, s: Id): Whole {
    if e !in x.owners then x
    else if AttachedTo(x, e) - {s} == {} then HungUp(Dropped(x, e, s), e)
    else Dropped(x, e, s)
  }

  /** One subscription's record replaced. */
  function Changed(x: Whole, s: Id, sub: Sub): Whole {
    if s !in x.subs then x else x.(subs := x.subs[s := x.subs[s].(sub := sub)])
  }

  lemma HungUpDesk(x: Whole, e: Id)
    requires Tidy(x) && e in x.owners
    ensures OneDesk(x, HungUp(x, e), e,
                    DeskOf(x, e).(owner := None, attached := {}, stops := Stopped(DeskOf(x, e).stops, x.owners[e])))
  {
    var l := x.owners[e];
    forall o ensures StopsFor(HungUp(x, e).stops, o) == if o == e then StopsFor(x.stops, o)[l := x.stops[l].stops + 1] else StopsFor(x.stops, o) {
      StopFiled(x.stops, l, e, x.stops[l].stops + 1, o);
    }
    assert l in StopsFor(x.stops, e);
  }

  lemma DetachedDesk(x: Whole, e: Id, s: Id)
    requires Tidy(x)
    ensures OneDesk(x, Detached(x, e, s), e, DetachD(DeskOf(x, e), s))
  {
    if e in x.owners && x.attached[e] - {s} == {} { HungUpDesk(Dropped(x, e, s), e); }
  }

  lemma ChangedTwice(x: Whole, s: Id, first: Sub, sub: Sub)
    requires s in x.subs
    ensures Changed(Changed(x, s, first), s, sub) == Changed(x, s, sub)
  {
    assert x.subs[s := x.subs[s].(sub := first)][s := x.subs[s].(sub := sub)] == x.subs[s := x.subs[s].(sub := sub)];
  }

  lemma ChangedDesk(x: Whole, s: Id, sub: Sub)
    requires s in x.subs
    ensures var e := x.subs[s].email;
      OneDesk(x, Changed(x, s, sub), e, DeskOf(x, e).(subs := DeskOf(x, e).subs[s := sub]))
  {
    EnrolledDesk(x, x.subs[s].email, s, sub);
  }

  lemma ClosedSubDesk(x: Whole, s: Id)
    requires Tidy(x) && s in x.subs
    ensures var e := x.subs[s].email;
      OneDesk(x, Changed(Detached(x, e, s), s, Retired(x.subs[s].sub)), e, CloseSubD(DeskOf(x, e), s))
  {
    var e := x.subs[s].email;
    DetachedDesk(x, e, s);
    ChangedDesk(Detached(x, e, s), s, Retired(x.subs[s].sub));
    assert s in DeskOf(x, e).subs && DeskOf(x, e).subs[s] == x.subs[s].sub;
  }

  // ---------------------------------------------------------------- everyone attached at once

  function EachRetired(subs: map<Id, SubFile>, who: set<Id>): map<Id, SubFile> {
    map s | s in subs :: if s in who then subs[s].(sub := Retired(subs[s].sub)) else subs[s]
  }

  function EachOffered(subs: map<Id, SubFile>, who: set<Id>, msgs: seq<Mail>): map<Id, SubFile> {
    map s | s in subs :: if s in who then subs[s].(sub := OfferAll(subs[s].sub, msgs)) else subs[s]
  }

  lemma RetiredFor(subs: map<Id, SubFile>, who: set<Id>, e: Id, o: Id)
    requires forall s :: s in subs && s in who ==> subs[s].email == e
    ensures SubsFor(EachRetired(subs, who), o) == if o == e then RetiredAll(SubsFor(subs, o), who) else SubsFor(subs, o)
  {
    var now, was := SubsFor(EachRetired(subs, who), o), if o == e then RetiredAll(SubsFor(subs, o), who) else SubsFor(subs, o);
    assert now.Keys == was.Keys;
    assert forall k :: k in now ==> now[k] == was[k];
  }

  lemma OfferedFor(subs: map<Id, SubFile>, who: set<Id>, msgs: seq<Mail>, e: Id, o: Id)
    requires forall s :: s in subs && s in who ==> subs[s].email == e
    ensures SubsFor(EachOffered(subs, who, msgs), o) == if o == e then OfferedAll(SubsFor(subs, o), who, msgs) else SubsFor(subs, o)
  {
    var now, was := SubsFor(EachOffered(subs, who, msgs), o), if o == e then OfferedAll(SubsFor(subs, o), who, msgs) else SubsFor(subs, o);
    assert now.Keys == was.Keys;
    assert forall k :: k in now ==> now[k] == was[k];
  }

  lemma FannedOutDesk(x: Whole, e: Id, msgs: seq<Mail>)
    requires Tidy(x) && e in x.owners
    ensures OneDesk(x, x.(subs := EachOffered(x.subs, x.attached[e], msgs)), e, FanoutD(DeskOf(x, e), x.owners[e], msgs))
  {
    forall o ensures SubsFor(EachOffered(x.subs, x.attached[e], msgs), o) ==
                     if o == e then OfferedAll(SubsFor(x.subs, o), x.attached[e], msgs) else SubsFor(x.subs, o) {
      OfferedFor(x.subs, x.attached[e], msgs, e, o);
    }
  }

  lemma OneMoreRetired(subs: map<Id, SubFile>, who: set<Id>, s: Id)
    requires s in subs && s !in who
    ensures EachRetired(subs, who)[s := subs[s].(sub := Retired(subs[s].sub))] == EachRetired(subs, who + {s})
  {
    var a, b := EachRetired(subs, who)[s := subs[s].(sub := Retired(subs[s].sub))], EachRetired(subs, who + {s});
    assert a.Keys == b.Keys;
    assert forall k :: k in a ==> a[k] == b[k];
  }

  /** Part-way through offering message i: those in `told` have had it, the rest of `who` have not. */
  function Telling(subs: map<Id, SubFile>, who: set<Id>, told: set<Id>, msgs: seq<Mail>, i: nat): map<Id, SubFile>
    requires i < |msgs|
  {
    map s | s in subs ::
      if s in told then subs[s].(sub := OfferAll(subs[s].sub, msgs[..i + 1]))
      else if s in who then subs[s].(sub := OfferAll(subs[s].sub, msgs[..i]))
      else subs[s]
  }

  lemma OneMoreTold(subs: map<Id, SubFile>, who: set<Id>, told: set<Id>, msgs: seq<Mail>, i: nat, s: Id)
    requires i < |msgs| && s in subs && s in who && s !in told
    ensures Telling(subs, who, told, msgs, i)[s := subs[s].(sub := Offer(OfferAll(subs[s].sub, msgs[..i]), msgs[i]))]
            == Telling(subs, who, told + {s}, msgs, i)
  {
    var a := Telling(subs, who, told, msgs, i)[s := subs[s].(sub := Offer(OfferAll(subs[s].sub, msgs[..i]), msgs[i]))];
    var b := Telling(subs, who, told + {s}, msgs, i);
    assert msgs[..i + 1][..i] == msgs[..i];
    assert a.Keys == b.Keys;
    assert forall k :: k in a ==> a[k] == b[k];
  }

  lemma NobodyThenEverybody(subs: map<Id, SubFile>, who: set<Id>, msgs: seq<Mail>, i: nat)
    requires i < |msgs|
    ensures Telling(subs, who, {}, msgs, i) == EachOffered(subs, who, msgs[..i])
    ensures Telling(subs, who, who, msgs, i) == EachOffered(subs, who, msgs[..i + 1])
  {
    var a, b := Telling(subs, who, {}, msgs, i), Telling(subs, who, who, msgs, i);
    var c, d := EachOffered(subs, who, msgs[..i]), EachOffered(subs, who, msgs[..i + 1]);
    assert a.Keys == c.Keys && b.Keys == d.Keys;
    assert forall k :: k in subs ==> a[k] == c[k] && b[k] == d[k];
  }

  lemma NothingDone(subs: map<Id, SubFile>, who: set<Id>)
    ensures EachOffered(subs, who, []) == subs && EachRetired(subs, {}) == subs
  {
    var a, b := EachOffered(subs, who, []), EachRetired(subs, {});
    assert a.Keys == subs.Keys && b.Keys == subs.Keys;
    assert forall k :: k in subs ==> a[k] == subs[k] && b[k] == subs[k];
  }

  // ---------------------------------------------------------------- shutting down

  /** One inbox's part of the shutdown. */
  function InboxClosed(x: Whole, e: Id): Whole {
    HungUp(x, e).(subs := EachRetired(x.subs, AttachedTo(x, e)))
  }

  lemma InboxClosedDesk(x: Whole, e: Id)
    requires Tidy(x) && e in x.owners && x.closed
    ensures OneDesk(x, InboxClosed(x, e), e, CloseD(DeskOf(x, e)))
  {
    HungUpDesk(x, e);
    forall o ensures SubsFor(EachRetired(x.subs, x.attached[e]), o) ==
                     if o == e then RetiredAll(SubsFor(x.subs, o), x.attached[e]) else SubsFor(x.subs, o) {
      RetiredFor(x.subs, x.attached[e], e, o);
    }
  }

  // ---------------------------------------------------------------- rows

  function WithRow(x: Whole, e: Id, row: Row): Whole {
    x.(inventory := x.inventory[e := row], rows := x.rows[e := row])
  }

  function WithoutRow(x: Whole, e: Id): Whole {
    x.(inventory := x.inventory - {e}, rows := x.rows - {e})
  }

  lemma RowDesks(x: Whole, e: Id, row: Row)
    ensures OneDesk(x, WithRow(x, e, row), e, DeskOf(x, e).(row := Some(row), stored := Some(row)))
    ensures OneDesk(x, WithoutRow(x, e), e, DeskOf(x, e).(row := None, stored := None))
  {
  }
}
