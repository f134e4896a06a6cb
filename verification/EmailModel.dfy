/** The email manager and its inbox listeners, for one inbox, as a transition system: one step per
    critical section of the manager, per store write, per exchange of a session with the mail
    server, and whatever the server, the subscribers and a crash do in between. */
module EmailModel {
  import opened Wrappers

  type Id = int

  /** A message as the server holds it: its UID within one UIDVALIDITY, and its lowercased sender. */
  datatype Mail = Mail(uid: int, sender: int)

  /** The listener's durable cursor. A row never served has (0, 0); a server's UIDVALIDITY is never 0. */
  datatype Cursor = Cursor(validity: int, last: int)

  datatype Row = AddressOnly | WithInbox(cursor: Cursor)

  // ---------------------------------------------------------------- subscriptions

  const ALL_MAIL := 0

  /** One Listen's feed. `offered` is every matching message offered while open; of those,
      `taken` and `queue` went into its channel, in that order, and the rest were dropped. */
  datatype Sub = Sub(
    task: Id,
    sender: int,
    capacity: int,
    offered: seq<Mail>,
    taken: seq<Mail>,
    queue: seq<Mail>,
    dropped: int,
    closes: int)

  predicate Open(s: Sub) { s.closes == 0 }

  function Sent(s: Sub): seq<Mail> { s.taken + s.queue }

  predicate Matches(s: Sub, m: Mail) { s.sender == ALL_MAIL || s.sender == m.sender }

  function Offer(s: Sub, m: Mail): Sub {
    if !Open(s) || !Matches(s, m) then s
    else if |s.queue| < s.capacity then s.(offered := s.offered + [m], queue := s.queue + [m])
    else s.(offered := s.offered + [m], dropped := s.dropped + 1)
  }

  function OfferAll(s: Sub, msgs: seq<Mail>): Sub {
    if msgs == [] then s else Offer(OfferAll(s, msgs[..|msgs| - 1]), msgs[|msgs| - 1])
  }

  function Taken(s: Sub): Sub {
    if s.queue == [] then s else s.(taken := s.taken + [s.queue[0]], queue := s.queue[1..])
  }

  /** The one place a channel is closed: guarded, so a second retirement does nothing. */
  function Retired(s: Sub): Sub {
    if Open(s) then s.(closes := s.closes + 1) else s
  }

  function RetiredAll(subs: map<Id, Sub>, who: set<Id>): map<Id, Sub> {
    map s | s in subs :: if s in who then Retired(subs[s]) else subs[s]
  }

  function OfferedAll(subs: map<Id, Sub>, who: set<Id>, msgs: seq<Mail>): map<Id, Sub> {
    map s | s in subs :: if s in who then OfferAll(subs[s], msgs) else subs[s]
  }

  // ---------------------------------------------------------------- the manager, for one inbox

  /** `owner` is the registered listener and `attached` its subscriptions; `stops` counts, for every
      listener there has been, how often its stop channel has been closed. */
  datatype Desk = Desk(
    row: Option<Row>,
    stored: Option<Row>,
    closed: bool,
    owner: Option<Id>,
    attached: set<Id>,
    stops: map<Id, int>,
    subs: map<Id, Sub>)

  datatype Refusal = NoTask | BadBuffer | ManagerClosed | NotFound | NoInbox

  function ListenRefusal(d: Desk, task: Id, buffer: int): Option<Refusal> {
    if task == 0 then Some(NoTask)
    else if buffer < 1 then Some(BadBuffer)
    else if d.closed then Some(ManagerClosed)
    else if d.row.None? then Some(NotFound)
    else if d.row.value.AddressOnly? then Some(NoInbox)
    else None
  }

  /** Subscribes under the fresh identity `s`, starting listener `l` if none is registered. */
  function ListenD(d: Desk, task: Id, sender: int, buffer: int, s: Id, l: Id): Desk {
    if ListenRefusal(d, task, buffer).Some? then d
    else
      var e := if d.owner.Some? then d else d.(owner := Some(l), attached := {}, stops := d.stops[l := 0]);
      e.(attached := e.attached + {s}, subs := e.subs[s := Sub(task, sender, buffer, [], [], [], 0, 0)])
  }

  function Stopped(stops: map<Id, int>, l: Id): map<Id, int> {
    stops[l := (if l in stops then stops[l] else 0) + 1]
  }

  /** Off the registered listener, whichever that is, which hangs up if that leaves it none. */
  function DetachD(d: Desk, s: Id): Desk {
    if d.owner.None? then d
    else if d.attached - {s} == {} then
      d.(owner := None, attached := {}, stops := Stopped(d.stops, d.owner.value))
    else d.(attached := d.attached - {s})
  }

  /** A subscription's Close: detached, then retired. */
  function CloseSubD(d: Desk, s: Id): Desk {
    if s !in d.subs then d else DetachD(d, s).(subs := d.subs[s := Retired(d.subs[s])])
  }

  /** The manager's Close, as this inbox sees it. */
  function CloseD(d: Desk): Desk {
    var e := d.(closed := true);
    if d.owner.None? then e
    else
      e.(owner := None, attached := {}, stops := Stopped(d.stops, d.owner.value),
         subs := RetiredAll(d.subs, d.attached))
  }

  /** Refused while anyone listens, or while the guard reports a lease; else the store goes first. */
  predicate DeleteRefused(d: Desk, held: bool) {
    d.row.Some? && ((d.owner.Some? && d.attached != {}) || held)
  }

  function DeleteD(d: Desk, held: bool, ok: bool): Desk {
    if DeleteRefused(d, held) || !ok then d else d.(row := None, stored := None)
  }

  /** A new row starts with whatever cursor its inbox carries, (0, 0) if nobody set one. */
  function AddD(d: Desk, inbox: Option<Cursor>, ok: bool): Desk {
    if d.row.Some? || !ok then d
    else
      var row := Some(if inbox.Some? then WithInbox(inbox.value) else AddressOnly);
      d.(row := row, stored := row)
  }

  predicate Owns(d: Desk, l: Id) { d.owner == Some(l) }

  /** What cursor(l) reads: nothing for a listener that has lost the inbox. */
  function CursorOf(d: Desk, l: Id): Option<Cursor> {
    if d.row.Some? && d.row.value.WithInbox? && Owns(d, l) then Some(d.row.value.cursor) else None
  }

  function Advanced(c: Cursor, validity: int, uid: int, reset: bool): Cursor {
    Cursor(validity, if reset || uid > c.last then uid else c.last)
  }

  /** A listener that has lost the inbox writes nothing; a failed save changes nothing. */
  function AdvanceD(d: Desk, l: Id, validity: int, uid: int, reset: bool, ok: bool): Desk {
    if CursorOf(d, l).None? || !ok then d
    else
      var row := Some(WithInbox(Advanced(CursorOf(d, l).value, validity, uid, reset)));
      d.(row := row, stored := row)
  }

  function FanoutD(d: Desk, l: Id, msgs: seq<Mail>): Desk {
    if !Owns(d, l) then d
    else d.(subs := OfferedAll(d.subs, d.attached, msgs))
  }

  function BackfillD(d: Desk, s: Id, msgs: seq<Mail>): Desk {
    if s in d.subs then d.(subs := d.subs[s := OfferAll(d.subs[s], msgs)]) else d
  }

  function ReceiveD(d: Desk, s: Id): Desk {
    if s in d.subs then d.(subs := d.subs[s := Taken(d.subs[s])]) else d
  }

  /** A new process over the same store. */
  function RestartD(d: Desk): Desk {
    Desk(d.stored, d.stored, false, None, {}, map[], map[])
  }

  function Highest(msgs: seq<Mail>): int {
    if msgs == [] then 0
    else
      var m, uid := Highest(msgs[..|msgs| - 1]), msgs[|msgs| - 1].uid;
      if uid > m then uid else m
  }

  // ---------------------------------------------------------------- the mail server

  /** One UIDVALIDITY's mailbox: everything that has arrived in it, what has been expunged, and the
      next UID. UIDs only ascend (section 2.3.1.1 of RFC 3501). */
  datatype Mailbox = Mailbox(mail: set<Mail>, gone: set<int>, next: int)

  /** A complete snapshot of the messages above `above`, in any order. */
  ghost predicate Snapshot(box: Mailbox, above: int, msgs: seq<Mail>) {
    forall m :: m in msgs <==> m in box.mail && m.uid > above && m.uid !in box.gone
  }

  // ---------------------------------------------------------------- a listener's session

  /** Where a listener's goroutine stands between two critical sections or exchanges. */
  datatype Session =
    | Off
    | Selected(validity: int, last: int)
    | Resetting(validity: int, last: int)
    | Reading(validity: int)
    | Fetching(validity: int, above: int)
    | Offering(validity: int, above: int, msgs: seq<Mail>)
    | Advancing(validity: int, above: int, to: int)
    | Idling(validity: int)

  /** One message's fan-out: by which listener, to which subscriptions, in which mailbox. */
  datatype Delivery = Delivery(validity: int, mail: Mail, via: Id, to: set<Id>)

  /** `floor` is LastUID as the last reset, or the row's addition, left it; `used` keeps identities from being reused. */
  datatype World = World(
    d: Desk,
    sessions: map<Id, Session>,
    boxes: map<int, Mailbox>,
    epoch: int,
    log: seq<Delivery>,
    floor: int,
    used: set<Id>)

  datatype Action =
    | Listen(task: Id, sender: int, buffer: int, s: Id, l: Id)
    | CloseSub(s: Id)
    | CloseManager
    | Delete(held: bool, ok: bool)
    | Add(inbox: Option<Cursor>, ok: bool)
    | Receive(s: Id)
    | Backfill(s: Id, msgs: seq<Mail>)
    | Crash
    | Arrive(m: Mail)
    | Expunge(uid: int)
    | Renumber(validity: int, box: Mailbox)
    | Connect(l: Id)
    | Check(l: Id)
    | Reset(l: Id, ok: bool)
    | Read(l: Id)
    | Fetch(l: Id, msgs: seq<Mail>)
    | Fanout(l: Id)
    | Advance(l: Id, ok: bool)
    | Idle(l: Id)
    | Break(l: Id)
    | Leave(l: Id)

  predicate IsSession(a: Action) {
    a.Connect? || a.Check? || a.Reset? || a.Read? || a.Fetch? || a.Fanout? || a.Advance? || a.Idle? || a.Break? || a.Leave?
  }

  predicate IsServer(a: Action) { a.Arrive? || a.Expunge? || a.Renumber? }

  /** Every offer of one fan-out, in order. */
  function Logged(validity: int, msgs: seq<Mail>, via: Id, to: set<Id>): seq<Delivery> {
    seq(|msgs|, i requires 0 <= i < |msgs| => Delivery(validity, msgs[i], via, to))
  }

  ghost predicate BoxOk(box: Mailbox) {
    box.next >= 1 && forall m :: m in box.mail ==> 1 <= m.uid < box.next
  }

  ghost function Server(w: World, a: Action): World
    requires IsServer(a)
  {
    match a
    case Arrive(m) =>
      if w.epoch in w.boxes && m.uid >= w.boxes[w.epoch].next then
        var box := w.boxes[w.epoch];
        w.(boxes := w.boxes[w.epoch := Mailbox(box.mail + {m}, box.gone, m.uid + 1)])
      else w
    case Expunge(uid) =>
      if w.epoch in w.boxes then
        var box := w.boxes[w.epoch];
        w.(boxes := w.boxes[w.epoch := box.(gone := box.gone + {uid})])
      else w
    case Renumber(v, box) =>
      if v > w.epoch && BoxOk(box) then w.(boxes := w.boxes[v := box], epoch := v) else w
  }

  /** The listener's own steps, each by where its session stands. */
  ghost function SessionStep(w: World, l: Id, a: Action): World
    requires IsSession(a) && l in w.sessions
  {
    var at := w.sessions[l];
    match a
    case Connect(_) =>
      if at.Off? && w.epoch in w.boxes then To(w, l, Selected(w.epoch, w.boxes[w.epoch].next - 1)) else w
    case Check(_) =>
      if !at.Selected? then w
      else if CursorOf(w.d, l).None? then To(w, l, Off)
      else if CursorOf(w.d, l).value.validity != at.validity then To(w, l, Resetting(at.validity, at.last))
      else To(w, l, Reading(at.validity))
    case Reset(_, ok) =>
      if !at.Resetting? then w
      else if CursorOf(w.d, l).None? then To(w, l, Reading(at.validity))
      else if !ok then To(w, l, Off)
      else To(w.(d := AdvanceD(w.d, l, at.validity, at.last, true, ok), floor := at.last), l, Reading(at.validity))
    case Read(_) =>
      if !at.Reading? then w
      else if CursorOf(w.d, l).None? then To(w, l, Off)
      else To(w, l, Fetching(at.validity, CursorOf(w.d, l).value.last))
    case Fetch(_, msgs) =>
      if !at.Fetching? then w
      else if at.validity == w.epoch && w.epoch in w.boxes && Snapshot(w.boxes[w.epoch], at.above, msgs) then
        To(w, l, Offering(at.validity, at.above, msgs))
      else To(w, l, Off)
    case Fanout(_) =>
      if !at.Offering? then w
      else if !Owns(w.d, l) then To(w, l, Off)
      else
        var n := w.(d := FanoutD(w.d, l, at.msgs), log := w.log + Logged(at.validity, at.msgs, l, w.d.attached));
        if Highest(at.msgs) > at.above then To(n, l, Advancing(at.validity, at.above, Highest(at.msgs)))
        else To(n, l, Idling(at.validity))
    case Advance(_, ok) =>
      if !at.Advancing? then w
      else if CursorOf(w.d, l).Some? && !ok then To(w, l, Off)
      else To(w.(d := AdvanceD(w.d, l, at.validity, at.to, false, ok)), l, Idling(at.validity))
    case Idle(_) => if at.Idling? then To(w, l, Reading(at.validity)) else w
    case Break(_) => if at.Selected? || at.Fetching? || at.Idling? then To(w, l, Off) else w
    case Leave(_) =>
      if at.Off? && l in w.d.stops && w.d.stops[l] > 0 then w.(sessions := map k | k in w.sessions && k != l :: w.sessions[k])
      else w
  }

  function To(w: World, l: Id, s: Session): World { w.(sessions := w.sessions[l := s]) }

  /** Every action, and no change where it cannot happen now. */
  ghost function After(w: World, a: Action): World {
    if IsServer(a) then Server(w, a)
    else if IsSession(a) then if a.l in w.sessions then SessionStep(w, a.l, a) else w
    else
      match a
      case Listen(task, sender, buffer, s, l) =>
        if s in w.used || l in w.used || s == l || ListenRefusal(w.d, task, buffer).Some? then w
        else
          w.(d := ListenD(w.d, task, sender, buffer, s, l),
             sessions := if w.d.owner.Some? then w.sessions else w.sessions[l := Off],
             used := w.used + {s, l})
      case CloseSub(s) => w.(d := CloseSubD(w.d, s))
      case CloseManager => w.(d := CloseD(w.d))
      case Delete(held, ok) => w.(d := DeleteD(w.d, held, ok))
      case Add(inbox, ok) =>
        w.(d := AddD(w.d, inbox, ok), floor := if w.d.row.None? && ok && inbox.Some? then inbox.value.last else w.floor)
      case Receive(s) => w.(d := ReceiveD(w.d, s))
      case Backfill(s, msgs) => w.(d := BackfillD(w.d, s, msgs))
      case Crash => w.(d := RestartD(w.d), sessions := map[])
      case _ => w
  }

  ghost function Play(w: World, actions: seq<Action>): World {
    if actions == [] then w else After(Play(w, actions[..|actions| - 1]), actions[|actions| - 1])
  }

  /** Before anything: no row, no listener, and a mailbox as the server has it. */
  ghost predicate Fresh(w: World) {
    && w.d == Desk(None, None, false, None, {}, map[], map[])
    && w.sessions == map[] && w.log == [] && w.used == {}
    && w.epoch >= 1 && w.boxes.Keys == {w.epoch} && BoxOk(w.boxes[w.epoch]) && w.floor == 0
  }
}
