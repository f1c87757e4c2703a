/**
  Listing and revoking paired devices: the worker's two queues, the controller's slot for one
  revoke and its read numbers, and the host's selection, confirmation and notices.

  Reads and revokes pass through one queue in order, and `fence` is the number a read must
  reach before a revoke may be aimed from it. The worker runs beside the terminal: its steps,
  its answers and its death are events.
 */
module Devices {
  import opened Options

  /** How long a revoke's answer is waited for before it is said to be unknown. */
  const ANSWER: nat := 6_000

  datatype Row = Row(id: string, actionable: bool, revoked: bool)

  /** The list as last read; `asOf` is how many revokes the registry had taken when it was read. */
  datatype Listing = Loading | Ready(rows: seq<Row>, asOf: nat, stale: bool) | Failed

  datatype Answer = Busy | Failure | Revoked | AlreadyRevoked | NotFound

  datatype RevokeState = Pending | Unknown | Done(answer: Answer)

  datatype RevokeOp = RevokeOp(op: nat, row: Row, state: RevokeState, asked: nat, answered: bool) {
    predicate InFlight() {
      !answered
    }
  }

  datatype Refused = SlotInFlight | Untold | NotCurrent | NotRevocable | Unavailable

  // ------------------------------------------------------------ the worker

  datatype Request = List(number: nat) | Revoke(op: nat, id: string)

  datatype Reply = Listed(number: nat, rows: Option<seq<Row>>, asOf: nat) | Answered(op: nat, answer: Answer)

  /** The thread's queues, and whether it has ended. */
  datatype Worker = Worker(requests: seq<Request>, replies: seq<Reply>, dead: bool)

  const NEW_WORKER := Worker([], [], false)

  // ------------------------------------------------------------ the controller

  /** `taken` is how many revokes the registry has taken up so far, whatever came of them. */
  datatype Control = Control(
    worker: Option<Worker>, listing: Listing, askedSeq: nat, appliedSeq: nat, fence: nat,
    readPending: bool, reread: bool, nextOp: nat, revoke: Option<RevokeOp>, taken: nat) {
    /** A good read has been applied since the fence was last moved. */
    predicate Current() {
      appliedSeq >= fence && listing.Ready? && !listing.stale
    }

    function Started(starts: bool): Control {
      if worker == None && starts then this.(worker := Some(NEW_WORKER)) else this
    }

    function Stale(): Control {
      if listing.Ready? then this.(listing := listing.(stale := true)) else this
    }

    function ReadFailed(): Control {
      this.(listing := if listing.Ready? then listing.(stale := true) else Failed)
    }

    function Send(request: Request): Control
      requires worker.Some?
    {
      this.(worker := Some(worker.value.(requests := worker.value.requests + [request])))
    }
  }

  /** Ask for read `askedSeq + 1`, unless one is pending; `starts` is whether a worker can be started. */
  function Refreshed(c: Control, starts: bool): Control {
    if c.readPending then c
    else
      var c1 := c.Started(starts);
      if c1.worker == None then c1.(listing := Failed)
      else if c1.worker.value.dead then c1
      else ListSent(c1)
  }

  function ListSent(c: Control): Control
    requires c.worker.Some?
  {
    c.Send(List(c.askedSeq + 1)).(askedSeq := c.askedSeq + 1, readPending := true)
  }

  function RevokeAsked(c: Control, row: Row, starts: bool, now: nat): (Control, Option<Refused>) {
    if c.revoke.Some? then (c, Some(if c.revoke.value.InFlight() then SlotInFlight else Untold))
    else if !c.Current() then (c, Some(NotCurrent))
    else if !row.actionable || row.revoked then (c, Some(NotRevocable))
    else
      var c1 := c.Started(starts);
      if c1.worker == None || c1.worker.value.dead then (c1, Some(Unavailable))
      else
        (c1.Send(Revoke(c.nextOp + 1, row.id))
           .(nextOp := c.nextOp + 1, revoke := Some(RevokeOp(c.nextOp + 1, row, Pending, now, false))), None)
  }

  function Settled(c: Control, op: nat): Control {
    if c.revoke.Some? && c.revoke.value.op == op && c.revoke.value.answered then c.(revoke := None) else c
  }

  /** The slot's revoke can change nothing any more; only reads asked from now on are current. */
  function Fenced(c: Control, state: RevokeState): Control
    requires c.revoke.Some?
  {
    c.(revoke := Some(c.revoke.value.(answered := true, state := state)), fence := c.askedSeq + 1).Stale()
  }

  /** What a dead worker owed: its revoke becomes unknown and answered, its read failed. */
  function Lost(c: Control): Control {
    var c1 := if c.revoke.Some? && !c.revoke.value.answered then Fenced(c, Unknown) else c;
    var c2 := c1.(worker := None);
    if c2.readPending then c2.(readPending := false).ReadFailed() else c2
  }

  function ListRead(c: Control, reply: Reply): Control
    requires reply.Listed?
  {
    var c1 := if reply.number != c.askedSeq then c
              else
                var done := c.(readPending := false, reread := false);
                if c.reread then Refreshed(done, false) else done;
    if reply.number <= c1.appliedSeq || reply.number < c1.fence then c1
    else
      var c2 := c1.(appliedSeq := reply.number);
      if reply.rows == None then c2.ReadFailed()
      else c2.(listing := Ready(reply.rows.value, reply.asOf, false))
  }

  /** Another read: at once, or flagged for when the pending one is applied. */
  function Reread(c: Control): Control {
    if c.readPending then c.(reread := true) else Refreshed(c, false)
  }

  function RevokeAnswered(c: Control, op: nat, answer: Answer): Control {
    if c.revoke == None || c.revoke.value.op != op then c else Reread(Fenced(c, Done(answer)))
  }

  function ReplyTaken(c: Control): Control
    requires c.worker.Some? && c.worker.value.replies != []
  {
    var reply := c.worker.value.replies[0];
    var c1 := c.(worker := Some(c.worker.value.(replies := c.worker.value.replies[1..])));
    match reply
    case Listed(_, _, _) => ListRead(c1, reply)
    case Answered(op, answer) => RevokeAnswered(c1, op, answer)
  }

  function Replies(c: Control): nat {
    if c.worker == None then 0 else |c.worker.value.replies|
  }

  lemma TakingShortens(c: Control)
    requires Replies(c) > 0
    ensures Replies(ReplyTaken(c)) == Replies(c) - 1
  {
  }

  /** Take every answer there is, and notice a worker that is gone. */
  function Drained(c: Control): Control
    decreases Replies(c)
  {
    if Replies(c) > 0 then
      TakingShortens(c);
      Drained(ReplyTaken(c))
    else if c.worker.Some? && c.worker.value.dead then Lost(c)
    else c
  }

  /** Past `ANSWER` a pending revoke becomes unknown, and keeps the slot. */
  function Late(c: Control, now: nat): Control {
    if c.revoke.Some? && c.revoke.value.state.Pending? && now >= c.revoke.value.asked + ANSWER then
      c.(revoke := Some(c.revoke.value.(state := Unknown)))
    else c
  }

  function Polled(c: Control, now: nat): Control {
    Late(Drained(c), now)
  }

  class DevicesController {
    var worker: Option<Worker>
    var listing: Listing
    var askedSeq: nat
    var appliedSeq: nat
    var fence: nat
    var readPending: bool
    var reread: bool
    var nextOp: nat
    var revoke: Option<RevokeOp>
    ghost var taken: nat

    ghost function State(): Control
      reads this
    {
      Control(worker, listing, askedSeq, appliedSeq, fence, readPending, reread, nextOp, revoke, taken)
    }

    constructor ()
      ensures State() == Control(None, Loading, 0, 0, 0, false, false, 0, None, 0)
    {
      worker, listing, askedSeq, appliedSeq, fence := None, Loading, 0, 0, 0;
      readPending, reread, nextOp, revoke, taken := false, false, 0, None, 0;
    }

    method StartWorker(starts: bool)
      modifies this`worker
      ensures State() == old(State()).Started(starts)
    {
      if worker == None && starts {
        worker := Some(NEW_WORKER);
      }
    }

    predicate IsCurrent()
      reads this
    {
      appliedSeq >= fence && listing.Ready? && !listing.stale
    }

    method MarkStale()
      modifies this`listing
      ensures State() == old(State()).Stale()
    {
      if listing.Ready? {
        listing := listing.(stale := true);
      }
    }

    method ReadFailed()
      modifies this`listing
      ensures State() == old(State()).ReadFailed()
    {
      match listing {
        case Ready(rows, asOf, _) => listing := Ready(rows, asOf, true);
        case _ => listing := Failed;
      }
    }

    method Refresh(starts: bool)
      modifies this
      ensures State() == Refreshed(old(State()), starts)
    {
      if readPending {
        return;
      }
      StartWorker(starts);
      if worker == None {
        listing := Failed;
        return;
      }
      if worker.value.dead {
        return;
      }
      worker := Some(worker.value.(requests := worker.value.requests + [List(askedSeq + 1)]));
      askedSeq := askedSeq + 1;
      readPending := true;
    }

    /** Fill the slot with a new operation and send it, or refuse for the first reason that applies. */
    method AskRevoke(row: Row, starts: bool, now: nat) returns (refused: Option<Refused>)
      modifies this
      ensures (State(), refused) == RevokeAsked(old(State()), row, starts, now)
    {
      if revoke.Some? {
        return Some(if revoke.value.InFlight() then SlotInFlight else Untold);
      }
      if !IsCurrent() {
        return Some(NotCurrent);
      }
      if !row.actionable || row.revoked {
        return Some(NotRevocable);
      }
      StartWorker(starts);
      if worker == None || worker.value.dead {
        return Some(Unavailable);
      }
      worker := Some(worker.value.(requests := worker.value.requests + [Revoke(nextOp + 1, row.id)]));
      nextOp := nextOp + 1;
      revoke := Some(RevokeOp(nextOp, row, Pending, now, false));
      return None;
    }

    method Settle(op: nat)
      modifies this`revoke
      ensures State() == Settled(old(State()), op)
    {
      if revoke.Some? && revoke.value.op == op && revoke.value.answered {
        revoke := None;
      }
    }

    method LoseWorker()
      modifies this
      ensures State() == Lost(old(State()))
    {
      worker := None;
      if revoke.Some? && !revoke.value.answered {
        revoke := Some(revoke.value.(state := Unknown, answered := true));
        fence := askedSeq + 1;
        MarkStale();
      }
      if readPending {
        readPending := false;
        ReadFailed();
      }
    }

    method TakeListed(reply: Reply)
      requires reply.Listed?
      modifies this
      ensures State() == ListRead(old(State()), reply)
    {
      if reply.number == askedSeq {
        readPending := false;
        if reread {
          reread := false;
          Refresh(false);
        }
      }
      if reply.number <= appliedSeq || reply.number < fence {
        return;
      }
      appliedSeq := reply.number;
      match reply.rows {
        case Some(rows) => listing := Ready(rows, reply.asOf, false);
        case None => ReadFailed();
      }
    }

    method TakeAnswer(op: nat, answer: Answer)
      modifies this
      ensures State() == RevokeAnswered(old(State()), op, answer)
    {
      if revoke == None || revoke.value.op != op {
        return;
      }
      revoke := Some(revoke.value.(answered := true, state := Done(answer)));
      fence := askedSeq + 1;
      MarkStale();
      if readPending {
        reread := true;
      } else {
        Refresh(false);
      }
    }

    method TakeReply()
      requires worker.Some? && worker.value.replies != []
      modifies this
      ensures State() == ReplyTaken(old(State()))
    {
      var reply := worker.value.replies[0];
      worker := Some(worker.value.(replies := worker.value.replies[1..]));
      match reply {
        case Listed(_, _, _) => TakeListed(reply);
        case Answered(op, answer) => TakeAnswer(op, answer);
      }
    }

    /** `Drained`, reply by reply, then `Late`. */
    method Poll(now: nat)
      modifies this
      ensures State() == Polled(old(State()), now)
    {
      while worker.Some? && worker.value.replies != []
        invariant Drained(State()) == Drained(old(State()))
        decreases Replies(State())
      {
        TakingShortens(State());
        TakeReply();
      }
      if worker.Some? && worker.value.dead {
        LoseWorker();
      }
      if revoke.Some? && revoke.value.state.Pending? && now >= revoke.value.asked + ANSWER {
        revoke := Some(revoke.value.(state := Unknown));
      }
    }
  }

  // ------------------------------------------------------------ the host

  /** A revoke's state as the user was told it. */
  datatype Told = Told(op: nat, state: RevokeState, inFlight: bool)

  datatype Host = Host(
    control: Control, view: bool, session: Option<nat>, selected: Option<string>,
    confirm: Option<Row>, told: Option<Told>, lost: bool, notices: seq<Told>)

  function FindRow(rows: seq<Row>, id: string): Option<Row> {
    if rows == [] then None else if rows[0].id == id then Some(rows[0]) else FindRow(rows[1..], id)
  }

  /** The row of that identifier, if the listing is fresh. */
  function CurrentRow(listing: Listing, id: string): Option<Row> {
    if listing.Ready? && !listing.stale then FindRow(listing.rows, id) else None
  }

  /** Drawing drops an identifier that is no longer listed, with the confirmation open for it. */
  function Rendered(h: Host): Host {
    var gone := h.control.listing.Ready? && h.selected.Some?
                && FindRow(h.control.listing.rows, h.selected.value) == None;
    var closes := gone && h.confirm.Some? && h.confirm.value.id == h.selected.value && h.control.revoke == None;
    var h1 := if gone then h.(selected := None, lost := true, confirm := if closes then None else h.confirm) else h;
    if !h1.lost && h1.selected == None && h.control.listing.Ready? && h.control.listing.rows != [] then
      h1.(selected := Some(h.control.listing.rows[0].id))
    else h1
  }

  /** A state not told last is added to the notices; an answered operation gives its slot up. */
  function Delivered(h: Host): Host {
    if h.control.revoke == None || h.control.revoke.value.state.Pending? then h
    else
      var op := h.control.revoke.value;
      var told := Told(op.op, op.state, op.InFlight());
      var h1 := if h.told == Some(told) then h else h.(told := Some(told), notices := h.notices + [told]);
      if op.InFlight() then h1
      else
        h1.(control := Settled(h1.control, op.op),
            confirm := if op.state == Done(Busy) || op.state == Done(Failure) then h1.confirm else None)
  }

  function Ticked(h: Host, session: Option<nat>, replaced: bool, now: nat): Host {
    var h1 := if h.view && (h.session != session || replaced) then h.(view := false, confirm := None) else h;
    var h2 := Delivered(h1.(control := Polled(h1.control, now)));
    if h2.view then Rendered(h2) else h2
  }

  function Opened(h: Host, session: Option<nat>, starts: bool): Host {
    h.(session := session, confirm := None, control := Refreshed(h.control, starts), view := true)
  }

  function ConfirmOpened(h: Host): Host {
    if h.control.revoke.Some? || !h.control.Current() || h.selected == None then h
    else
      var row := CurrentRow(h.control.listing, h.selected.value);
      if row == None || row.value.revoked || !row.value.actionable then h else h.(confirm := row)
  }

  function Submitted(h: Host, starts: bool, now: nat): Host {
    if h.confirm == None then h else h.(control := RevokeAsked(h.control, h.confirm.value, starts, now).0)
  }

  class DevicesHost {
    const devices: DevicesController
    var view: bool
    var session: Option<nat>
    var selected: Option<string>
    var confirm: Option<Row>
    var told: Option<Told>
    var lost: bool
    var notices: seq<Told>

    ghost function Snapshot(): Host
      reads this, devices
    {
      Host(devices.State(), view, session, selected, confirm, told, lost, notices)
    }

    constructor (devices: DevicesController)
      ensures this.devices == devices
      ensures Snapshot() == Host(devices.State(), false, None, None, None, None, false, [])
    {
      this.devices := devices;
      view, session, selected, confirm, told, lost, notices := false, None, None, None, None, false, [];
    }

    method Open(session: Option<nat>, starts: bool)
      modifies this, devices
      ensures Snapshot() == Opened(old(Snapshot()), session, starts)
    {
      this.session := session;
      confirm := None;
      devices.Refresh(starts);
      view := true;
    }

    /** With a free slot and a current list, `confirm` becomes the selected row if that is revocable. */
    method OpenConfirm()
      modifies this`confirm
      ensures Snapshot() == ConfirmOpened(old(Snapshot()))
    {
      if devices.revoke.Some? || !devices.IsCurrent() || selected == None {
        return;
      }
      var row := CurrentRow(devices.listing, selected.value);
      if row == None || row.value.revoked || !row.value.actionable {
        return;
      }
      confirm := row;
    }

    /** Revoke the confirmation's device. */
    method Submit(starts: bool, now: nat)
      modifies devices
      ensures Snapshot() == Submitted(old(Snapshot()), starts, now)
    {
      if confirm.Some? {
        var refused := devices.AskRevoke(confirm.value, starts, now);
      }
    }

    method Deliver()
      modifies this, devices
      ensures Snapshot() == Delivered(old(Snapshot()))
    {
      if devices.revoke == None || devices.revoke.value.state.Pending? {
        return;
      }
      var op := devices.revoke.value;
      var now := Told(op.op, op.state, op.InFlight());
      if told != Some(now) {
        notices := notices + [now];
        told := Some(now);
      }
      if !op.InFlight() {
        devices.Settle(op.op);
        if op.state != Done(Busy) && op.state != Done(Failure) {
          confirm := None;
        }
      }
    }

    method Render()
      modifies this
      ensures Snapshot() == Rendered(old(Snapshot()))
    {
      var rows := if devices.listing.Ready? then devices.listing.rows else [];
      if selected.Some? && devices.listing.Ready? && FindRow(rows, selected.value) == None {
        if confirm.Some? && confirm.value.id == selected.value && devices.revoke == None {
          confirm := None;
        }
        selected := None;
        lost := true;
      }
      if !lost && selected == None && rows != [] {
        selected := Some(rows[0].id);
      }
    }

    /** Evict, poll, deliver, draw: in that order. */
    method Tick(session: Option<nat>, replaced: bool, now: nat)
      modifies this, devices
      ensures Snapshot() == Ticked(old(Snapshot()), session, replaced, now)
    {
      if view && (this.session != session || replaced) {
        view := false;
        confirm := None;
      }
      devices.Poll(now);
      Deliver();
      if view {
        Render();
      }
    }
  }

  // ------------------------------------------------------------ runs

  datatype Event =
    | OpensView(session: Option<nat>, starts: bool)
    | ClosesView
    | PicksRow(id: Option<string>)
    | OpensConfirm
    | LeavesConfirm
    | Submits(starts: bool, now: nat)
    | Rereads(starts: bool)
    | Ticks(session: Option<nat>, replaced: bool, now: nat)
    | WorkerServes(rows: Option<seq<Row>>, answer: Answer)
    | WorkerDies(taking: bool)

  /** The worker takes its next request; a dying worker may have taken a revoke up without answering it. */
  function Served(c: Control, rows: Option<seq<Row>>, answer: Answer): Control {
    if c.worker == None || c.worker.value.dead || c.worker.value.requests == [] then c
    else
      var w := c.worker.value;
      match w.requests[0]
      case List(number) =>
        c.(worker := Some(w.(requests := w.requests[1..], replies := w.replies + [Listed(number, rows, c.taken)])))
      case Revoke(op, _) =>
        c.(worker := Some(w.(requests := w.requests[1..], replies := w.replies + [Answered(op, answer)])),
           taken := c.taken + 1)
  }

  function Died(c: Control, taking: bool): Control {
    if c.worker == None || c.worker.value.dead then c
    else
      var w := c.worker.value;
      c.(worker := Some(w.(requests := [], dead := true)),
         taken := if taking && w.requests != [] && w.requests[0].Revoke? then c.taken + 1 else c.taken)
  }

  /** Keys reach the list only while no confirmation is open over it. */
  predicate AtList(h: Host) {
    h.view && h.confirm == None
  }

  function Step(h: Host, e: Event): Host {
    match e
    case OpensView(session, starts) => Opened(h, session, starts)
    case ClosesView => if AtList(h) then h.(view := false) else h
    case PicksRow(id) => if AtList(h) then Rendered(h.(selected := id, lost := false)) else h
    case OpensConfirm => if AtList(h) then Rendered(ConfirmOpened(h)) else h
    case LeavesConfirm => if h.view then Rendered(h.(confirm := None)) else h
    case Submits(starts, now) => if h.view then Rendered(Submitted(h, starts, now)) else h
    case Rereads(starts) => if AtList(h) then Rendered(h.(control := Refreshed(h.control, starts))) else h
    case Ticks(session, replaced, now) => Ticked(h, session, replaced, now)
    case WorkerServes(rows, answer) => h.(control := Served(h.control, rows, answer))
    case WorkerDies(taking) => h.(control := Died(h.control, taking))
  }

  function Run(h: Host, es: seq<Event>): Host {
    if es == [] then h else Step(Run(h, es[..|es| - 1]), es[|es| - 1])
  }

  const NO_CONTROL := Control(None, Loading, 0, 0, 0, false, false, 0, None, 0)

  const NEW_HOST := Host(NO_CONTROL, false, None, None, None, None, false, [])

  // ------------------------------------------------------------ the controller's invariant

  /** How many revokes of ours the worker still has before it or has answered. */
  function RevokesIn(requests: seq<Request>): nat {
    if requests == [] then 0
    else RevokesIn(requests[..|requests| - 1]) + if requests[|requests| - 1].Revoke? then 1 else 0
  }

  function AnswersIn(replies: seq<Reply>): nat {
    if replies == [] then 0
    else AnswersIn(replies[..|replies| - 1]) + if replies[|replies| - 1].Answered? then 1 else 0
  }

  predicate Flying(c: Control) {
    c.revoke.Some? && !c.revoke.value.answered
  }

  /** Every request is for something asked; a revoke on its way is the slot's own. */
  predicate RequestInv(c: Control, r: Request) {
    match r
    case List(number) => number <= c.askedSeq
    case Revoke(op, id) => Flying(c) && c.revoke.value.op == op && c.revoke.value.row.id == id
  }

  /** A list past the fence shows everything the registry has taken up, unless a revoke is in flight. */
  predicate ReplyInv(c: Control, r: Reply) {
    match r
    case Listed(number, _, asOf) =>
      number <= c.askedSeq && asOf <= c.taken && (number >= c.fence && !Flying(c) ==> asOf == c.taken)
    case Answered(op, _) => Flying(c) && c.revoke.value.op == op
  }

  predicate WorkerInv(c: Control) {
    c.worker.Some? ==>
      var w := c.worker.value;
      && (w.dead ==> w.requests == [])
      && (forall r :: r in w.requests ==> RequestInv(c, r))
      && (forall r :: r in w.replies ==> ReplyInv(c, r))
      && RevokesIn(w.requests) + AnswersIn(w.replies) <= 1
  }

  /** A list a revoke may be aimed from shows everything the registry has taken up, unless one is in flight. */
  predicate ListInv(c: Control) {
    && c.appliedSeq <= c.askedSeq && c.fence <= c.askedSeq + 1
    && (c.Current() && !Flying(c) ==> c.listing.asOf == c.taken)
    && (c.revoke.Some? ==> c.revoke.value.op == c.nextOp && (c.revoke.value.answered ==> !c.revoke.value.state.Pending?))
  }

  predicate ControlInv(c: Control) {
    WorkerInv(c) && ListInv(c)
  }

  lemma RevokesSnoc(requests: seq<Request>, r: Request)
    ensures RevokesIn(requests + [r]) == RevokesIn(requests) + if r.Revoke? then 1 else 0
  {
    assert (requests + [r])[..|requests|] == requests;
  }

  lemma AnswersSnoc(replies: seq<Reply>, r: Reply)
    ensures AnswersIn(replies + [r]) == AnswersIn(replies) + if r.Answered? then 1 else 0
  {
    assert (replies + [r])[..|replies|] == replies;
  }

  lemma {:induction false} RevokesHead(requests: seq<Request>)
    requires requests != []
    ensures RevokesIn(requests) == RevokesIn(requests[1..]) + if requests[0].Revoke? then 1 else 0
  {
    var n := |requests| - 1;
    if n > 0 {
      RevokesHead(requests[..n]);
      assert requests[..n][1..] == requests[1..][..n - 1];
    }
  }

  lemma {:induction false} AnswersHead(replies: seq<Reply>)
    requires replies != []
    ensures AnswersIn(replies) == AnswersIn(replies[1..]) + if replies[0].Answered? then 1 else 0
  {
    var n := |replies| - 1;
    if n > 0 {
      AnswersHead(replies[..n]);
      assert replies[..n][1..] == replies[1..][..n - 1];
    }
  }

  lemma {:induction false} NoRevokesIn(requests: seq<Request>)
    requires forall r :: r in requests ==> !r.Revoke?
    ensures RevokesIn(requests) == 0
  {
    if requests != [] {
      NoRevokesIn(requests[..|requests| - 1]);
    }
  }

  lemma {:induction false} NoAnswersIn(replies: seq<Reply>)
    requires forall r :: r in replies ==> !r.Answered?
    ensures AnswersIn(replies) == 0
  {
    if replies != [] {
      NoAnswersIn(replies[..|replies| - 1]);
    }
  }

  lemma ListSentKeeps(c: Control)
    requires ControlInv(c) && c.worker.Some? && !c.worker.value.dead
    ensures ControlInv(ListSent(c))
  {
    var request := List(c.askedSeq + 1);
    var after := ListSent(c);
    RevokesSnoc(c.worker.value.requests, request);
    forall r | r in after.worker.value.requests
      ensures RequestInv(after, r)
    {
      assert r == request || RequestInv(c, r);
    }
    forall r | r in after.worker.value.replies
      ensures ReplyInv(after, r)
    {
      assert ReplyInv(c, r);
    }
  }

  lemma StartedKeeps(c: Control, starts: bool)
    requires ControlInv(c)
    ensures ControlInv(c.Started(starts))
  {
  }

  lemma RefreshedFrame(c: Control, starts: bool)
    ensures Refreshed(c, starts).revoke == c.revoke && Refreshed(c, starts).nextOp == c.nextOp
    ensures Refreshed(c, starts).fence == c.fence && Refreshed(c, starts).taken == c.taken
    ensures Refreshed(c, starts).askedSeq >= c.askedSeq
  {
  }

  lemma RefreshedKeeps(c: Control, starts: bool)
    requires ControlInv(c)
    ensures ControlInv(Refreshed(c, starts))
    ensures Refreshed(c, starts).revoke == c.revoke && Refreshed(c, starts).nextOp == c.nextOp
  {
    RefreshedFrame(c, starts);
    if !c.readPending {
      RefreshedNowKeeps(c, starts);
    }
  }

  lemma RefreshedNowKeeps(c: Control, starts: bool)
    requires ControlInv(c) && !c.readPending
    ensures ControlInv(Refreshed(c, starts))
  {
    StartedKeeps(c, starts);
    var c1 := c.Started(starts);
    if c1.worker == None {
      FailedKeeps(c1);
    } else if !c1.worker.value.dead {
      ListSentKeeps(c1);
    }
  }

  lemma FailedKeeps(c: Control)
    requires ControlInv(c) && c.worker == None
    ensures ControlInv(c.(listing := Failed))
  {
  }

  lemma RevokeAskedKeeps(c: Control, row: Row, starts: bool, now: nat)
    requires ControlInv(c)
    ensures ControlInv(RevokeAsked(c, row, starts, now).0)
  {
    var (after, refused) := RevokeAsked(c, row, starts, now);
    if refused == None {
      var w := c.Started(starts).worker.value;
      RevokesSnoc(w.requests, Revoke(c.nextOp + 1, row.id));
      NoRevokesIn(w.requests);
      NoAnswersIn(w.replies);
    }
  }

  /** A request leaves the front of the queue and its reply joins the back. */
  lemma ServingKeeps(c: Control, w: Worker, reply: Reply)
    requires ControlInv(c) && c.worker == Some(w) && !w.dead && w.requests != []
    requires (reply.Answered? <==> w.requests[0].Revoke?) && ReplyInv(c, reply)
    ensures ControlInv(c.(worker := Some(w.(requests := w.requests[1..], replies := w.replies + [reply]))))
  {
    RevokesHead(w.requests);
    AnswersSnoc(w.replies, reply);
    var after := c.(worker := Some(w.(requests := w.requests[1..], replies := w.replies + [reply])));
    forall r | r in after.worker.value.replies
      ensures ReplyInv(after, r)
    {
      assert r == reply || r in w.replies;
    }
    assert forall r :: r in w.requests[1..] ==> r in w.requests;
  }

  /** Counting one more revoke as taken up keeps the invariant while one is in flight. */
  lemma TakingKeeps(c: Control)
    requires ControlInv(c) && Flying(c)
    ensures ControlInv(c.(taken := c.taken + 1))
  {
    var after := c.(taken := c.taken + 1);
    if c.worker.Some? {
      assert forall r :: r in c.worker.value.requests ==> RequestInv(c, r) && RequestInv(after, r);
      assert forall r :: r in c.worker.value.replies ==> ReplyInv(c, r) && ReplyInv(after, r);
    }
  }

  lemma ListServedKeeps(c: Control, w: Worker, rows: Option<seq<Row>>, answer: Answer)
    requires ControlInv(c) && c.worker == Some(w) && !w.dead && w.requests != [] && w.requests[0].List?
    ensures ControlInv(Served(c, rows, answer))
  {
    assert RequestInv(c, w.requests[0]);
    ServingKeeps(c, w, Listed(w.requests[0].number, rows, c.taken));
  }

  lemma RevokeServedKeeps(c: Control, w: Worker, rows: Option<seq<Row>>, answer: Answer)
    requires ControlInv(c) && c.worker == Some(w) && !w.dead && w.requests != [] && w.requests[0].Revoke?
    ensures ControlInv(Served(c, rows, answer))
  {
    var reply := Answered(w.requests[0].op, answer);
    assert RequestInv(c, w.requests[0]);
    TakingKeeps(c);
    ServingKeeps(c.(taken := c.taken + 1), w, reply);
  }

  lemma ServedKeeps(c: Control, rows: Option<seq<Row>>, answer: Answer)
    requires ControlInv(c)
    ensures ControlInv(Served(c, rows, answer))
  {
    if c.worker.Some? && !c.worker.value.dead && c.worker.value.requests != [] {
      if c.worker.value.requests[0].List? {
        ListServedKeeps(c, c.worker.value, rows, answer);
      } else {
        RevokeServedKeeps(c, c.worker.value, rows, answer);
      }
    }
  }

  lemma DiedKeeps(c: Control, taking: bool)
    requires ControlInv(c)
    ensures ControlInv(Died(c, taking))
  {
    if c.worker.Some? && !c.worker.value.dead && c.worker.value.requests != [] {
      assert c.worker.value.requests[0] in c.worker.value.requests;
    }
  }

  lemma LostKeeps(c: Control)
    requires ControlInv(c)
    ensures ControlInv(Lost(c)) && !Flying(Lost(c))
    ensures Lost(c).nextOp == c.nextOp && (Lost(c).revoke.Some? <==> c.revoke.Some?)
    ensures c.revoke.Some? ==> Lost(c).revoke.value.op == c.revoke.value.op
  {
  }

  /** Popping a reply leaves a state in which the reply popped may still be looked at. */
  lemma PoppedKeeps(c: Control)
    requires ControlInv(c) && Replies(c) > 0
    ensures var w := c.worker.value; var c1 := c.(worker := Some(w.(replies := w.replies[1..])));
            ControlInv(c1)
            && (w.replies[0].Answered? ==> forall r :: r in w.replies[1..] ==> !r.Answered?)
            && (w.replies[0].Answered? ==> forall r :: r in w.requests ==> !r.Revoke?)
  {
    var w := c.worker.value;
    AnswersHead(w.replies);
    assert forall r :: r in w.replies[1..] ==> r in w.replies;
    if w.replies[0].Answered? {
      forall r | r in w.replies[1..]
        ensures !r.Answered?
      {
        if r.Answered? {
          AnswersCount(w.replies[1..], r);
        }
      }
      forall r | r in w.requests
        ensures !r.Revoke?
      {
        if r.Revoke? {
          RevokesCount(w.requests, r);
        }
      }
    }
  }

  lemma {:induction false} AnswersCount(replies: seq<Reply>, r: Reply)
    requires r in replies && r.Answered?
    ensures AnswersIn(replies) > 0
  {
    var n := |replies| - 1;
    if replies[n] != r {
      assert r in replies[..n];
      AnswersCount(replies[..n], r);
    }
  }

  lemma {:induction false} RevokesCount(requests: seq<Request>, r: Request)
    requires r in requests && r.Revoke?
    ensures RevokesIn(requests) > 0
  {
    var n := |requests| - 1;
    if requests[n] != r {
      assert r in requests[..n];
      RevokesCount(requests[..n], r);
    }
  }

  lemma AppliedKeeps(c: Control, reply: Reply)
    requires ControlInv(c) && reply.Listed? && ReplyInv(c, reply)
    requires reply.number > c.appliedSeq && reply.number >= c.fence
    ensures var c2 := c.(appliedSeq := reply.number);
            ControlInv(if reply.rows == None then c2.ReadFailed()
                       else c2.(listing := Ready(reply.rows.value, reply.asOf, false)))
  {
    var after := var c2 := c.(appliedSeq := reply.number);
                 if reply.rows == None then c2.ReadFailed() else c2.(listing := Ready(reply.rows.value, reply.asOf, false));
    assert forall r :: ReplyInv(c, r) ==> ReplyInv(after, r);
    assert forall r :: RequestInv(c, r) ==> RequestInv(after, r);
  }

  lemma ListReadKeeps(c: Control, reply: Reply)
    requires ControlInv(c) && reply.Listed? && ReplyInv(c, reply)
    ensures ControlInv(ListRead(c, reply)) && ListRead(c, reply).revoke == c.revoke
    ensures ListRead(c, reply).nextOp == c.nextOp
  {
    var done := c.(readPending := false, reread := false);
    RefreshedKeeps(done, false);
    var c1 := if reply.number != c.askedSeq then c else if c.reread then Refreshed(done, false) else done;
    RefreshedFrame(done, false);
    assert ControlInv(c1) && c1.taken == c.taken && c1.fence == c.fence && c1.askedSeq >= c.askedSeq;
    assert ReplyInv(c1, reply);
    if reply.number > c1.appliedSeq && reply.number >= c1.fence {
      AppliedKeeps(c1, reply);
    }
  }

  /** An answer closes the slot's flight and fences off every read asked before it. */
  lemma FencingKeeps(c: Control, state: RevokeState)
    requires ControlInv(c) && Flying(c) && !state.Pending?
    requires c.worker.Some? && (forall r :: r in c.worker.value.replies ==> !r.Answered?)
    requires forall r :: r in c.worker.value.requests ==> !r.Revoke?
    ensures ControlInv(Fenced(c, state))
  {
    var after := Fenced(c, state);
    forall r | r in c.worker.value.requests
      ensures RequestInv(after, r)
    {
      assert RequestInv(c, r);
    }
    forall r | r in c.worker.value.replies
      ensures ReplyInv(after, r)
    {
      assert ReplyInv(c, r);
    }
  }

  lemma RereadKeeps(c: Control)
    requires ControlInv(c)
    ensures ControlInv(Reread(c)) && Reread(c).revoke == c.revoke && Reread(c).nextOp == c.nextOp
  {
    if c.readPending && c.worker.Some? {
      assert forall r :: r in c.worker.value.requests ==> RequestInv(c, r);
      assert forall r :: r in c.worker.value.replies ==> ReplyInv(c, r);
    } else {
      RefreshedKeeps(c, false);
    }
  }

  lemma RevokeAnsweredKeeps(c: Control, op: nat, answer: Answer)
    requires ControlInv(c) && Flying(c) && c.revoke.value.op == op
    requires c.worker.Some? && (forall r :: r in c.worker.value.replies ==> !r.Answered?)
    requires forall r :: r in c.worker.value.requests ==> !r.Revoke?
    ensures ControlInv(RevokeAnswered(c, op, answer)) && !Flying(RevokeAnswered(c, op, answer))
    ensures var a := RevokeAnswered(c, op, answer);
            a.nextOp == c.nextOp && a.revoke == Some(c.revoke.value.(answered := true, state := Done(answer)))
  {
    FencingKeeps(c, Done(answer));
    RereadKeeps(Fenced(c, Done(answer)));
  }

  lemma ReplyTakenKeeps(c: Control)
    requires ControlInv(c) && Replies(c) > 0
    ensures ControlInv(ReplyTaken(c)) && ReplyTaken(c).nextOp == c.nextOp
    ensures var r := ReplyTaken(c).revoke;
            && (r.Some? <==> c.revoke.Some?)
            && (r != c.revoke ==> Flying(c) && r.value.answered && r.value.op == c.revoke.value.op && r.value.state.Done?)
  {
    var w := c.worker.value;
    var c1 := c.(worker := Some(w.(replies := w.replies[1..])));
    PoppedKeeps(c);
    assert w.replies[0] in w.replies;
    match w.replies[0]
    case Listed(_, _, _) => ListReadKeeps(c1, w.replies[0]);
    case Answered(op, answer) => RevokeAnsweredKeeps(c1, op, answer);
  }

  /** What polling does to the slot: it stays, is answered, or is given up as unknown. */
  predicate SlotPolled(before: Option<RevokeOp>, after: Option<RevokeOp>) {
    && (after.Some? <==> before.Some?)
    && (after.Some? ==> after.value.op == before.value.op)
    && (after != before ==> before.Some? && !before.value.answered
                            && (after.value.answered ==> after.value.state != Pending)
                            && (!after.value.answered ==> before.value.state.Pending? && after.value.state.Unknown?))
  }

  lemma {:induction false} DrainedKeeps(c: Control)
    requires ControlInv(c)
    ensures ControlInv(Drained(c)) && Drained(c).nextOp == c.nextOp
    ensures SlotPolled(c.revoke, Drained(c).revoke)
    ensures Drained(c).revoke != c.revoke ==> Drained(c).revoke.value.answered
    decreases Replies(c)
  {
    if Replies(c) > 0 {
      TakingShortens(c);
      ReplyTakenKeeps(c);
      DrainedKeeps(ReplyTaken(c));
    } else if c.worker.Some? && c.worker.value.dead {
      LostKeeps(c);
    }
  }

  lemma PolledKeeps(c: Control, now: nat)
    requires ControlInv(c)
    ensures ControlInv(Polled(c, now)) && Polled(c, now).nextOp == c.nextOp
    ensures SlotPolled(c.revoke, Polled(c, now).revoke)
  {
    DrainedKeeps(c);
  }

  // ------------------------------------------------------------ every revoke is told once

  /** How often operation `op` was told as ended, and as not yet known. */
  function Endings(notices: seq<Told>, op: nat): nat {
    if notices == [] then 0
    else
      var last := notices[|notices| - 1];
      Endings(notices[..|notices| - 1], op) + if last.op == op && !last.inFlight then 1 else 0
  }

  function Waits(notices: seq<Told>, op: nat): nat {
    if notices == [] then 0
    else
      var last := notices[|notices| - 1];
      Waits(notices[..|notices| - 1], op) + if last.op == op && last.inFlight then 1 else 0
  }

  lemma NoticesSnoc(notices: seq<Told>, t: Told, op: nat)
    ensures Endings(notices + [t], op) == Endings(notices, op) + if t.op == op && !t.inFlight then 1 else 0
    ensures Waits(notices + [t], op) == Waits(notices, op) + if t.op == op && t.inFlight then 1 else 0
  {
    assert (notices + [t])[..|notices|] == notices;
  }

  /**
    Between events the slot holds only a revoke in flight, told at most as "not known yet";
    every revoke before it was told as ended once, and none after it was told at all.
   */
  predicate NoticeInv(h: Host, op: nat) {
    var c := h.control;
    && Endings(h.notices, op) == (if 1 <= op <= c.nextOp && !(c.revoke.Some? && c.revoke.value.op == op) then 1 else 0)
    && Waits(h.notices, op) <= (if 1 <= op <= c.nextOp then 1 else 0)
    && (c.revoke.Some? && c.revoke.value.op == op && c.revoke.value.state.Pending? ==> Waits(h.notices, op) == 0)
  }

  /** What was told last, of the revoke in the slot. */
  predicate ToldInv(h: Host) {
    var c := h.control;
    && (h.told.Some? ==> h.told.value.op <= c.nextOp)
    && (c.revoke.Some? ==>
          && !c.revoke.value.answered && (c.revoke.value.state.Pending? || c.revoke.value.state.Unknown?)
          && c.revoke.value.op == c.nextOp && c.nextOp > 0
          && (c.revoke.value.state.Unknown? <==> h.told == Some(Told(c.nextOp, Unknown, true)))
          && (c.revoke.value.state.Pending? ==> h.told == None || h.told.value.op < c.nextOp))
  }

  ghost predicate Inv(h: Host) {
    ControlInv(h.control) && ToldInv(h) && forall op: nat :: NoticeInv(h, op)
  }

  lemma DeliveredTells(h: Host, before: Control, op: nat)
    requires NoticeInv(h.(control := before), op) && ToldInv(h.(control := before))
    requires SlotPolled(before.revoke, h.control.revoke) && h.control.nextOp == before.nextOp
    ensures NoticeInv(Delivered(h), op)
  {
    if h.control.revoke.Some? {
      var slot := h.control.revoke.value;
      NoticesSnoc(h.notices, Told(slot.op, slot.state, slot.InFlight()), op);
    }
  }

  lemma DeliveredKeepsTold(h: Host, before: Control)
    requires ToldInv(h.(control := before))
    requires SlotPolled(before.revoke, h.control.revoke) && h.control.nextOp == before.nextOp
    ensures ToldInv(Delivered(h))
  {
  }

  lemma DeliveredKeepsControl(h: Host)
    requires ControlInv(h.control)
    ensures ControlInv(Delivered(h).control)
  {
    if h.control.revoke.Some? && h.control.revoke.value.answered {
      var c := h.control.(revoke := None);
      if c.worker.Some? {
        assert forall r :: r in c.worker.value.requests ==> RequestInv(h.control, r);
        assert forall r :: r in c.worker.value.replies ==> ReplyInv(h.control, r);
      }
      assert ControlInv(c);
    }
  }

  lemma RenderedFrame(h: Host)
    ensures var r := Rendered(h);
            r.control == h.control && r.notices == h.notices && r.told == h.told && r.view == h.view
  {
  }

  lemma DeliveredKeepsInv(h: Host, before: Control)
    requires Inv(h.(control := before)) && ControlInv(h.control)
    requires SlotPolled(before.revoke, h.control.revoke) && h.control.nextOp == before.nextOp
    ensures Inv(Delivered(h))
  {
    DeliveredKeepsTold(h, before);
    DeliveredKeepsControl(h);
    forall op: nat
      ensures NoticeInv(Delivered(h), op)
    {
      assert NoticeInv(h.(control := before), op);
      DeliveredTells(h, before, op);
    }
  }

  lemma TickKeepsInv(h: Host, session: Option<nat>, replaced: bool, now: nat)
    requires Inv(h)
    ensures Inv(Ticked(h, session, replaced, now))
  {
    var h1 := if h.view && (h.session != session || replaced) then h.(view := false, confirm := None) else h;
    QuietKeeps(h, h1);
    PolledKeeps(h.control, now);
    var h2 := h1.(control := Polled(h.control, now));
    assert h2.(control := h.control) == h1;
    DeliveredKeepsInv(h2, h.control);
    RenderedFrame(Delivered(h2));
    QuietKeeps(Delivered(h2), Ticked(h, session, replaced, now));
  }

  /** A step that changes neither the slot, the counter nor what was told. */
  lemma QuietKeeps(h: Host, after: Host)
    requires Inv(h) && ControlInv(after.control)
    requires after.control.revoke == h.control.revoke && after.control.nextOp == h.control.nextOp
    requires after.notices == h.notices && after.told == h.told
    ensures Inv(after)
  {
    forall op: nat
      ensures NoticeInv(after, op)
    {
      assert NoticeInv(h, op);
    }
  }

  lemma SubmittedKeepsInv(h: Host, starts: bool, now: nat)
    requires Inv(h)
    ensures Inv(Submitted(h, starts, now))
  {
    if h.confirm.Some? {
      RevokeAskedKeeps(h.control, h.confirm.value, starts, now);
      var after := Submitted(h, starts, now);
      forall op: nat
        ensures NoticeInv(after, op)
      {
        assert NoticeInv(h, op);
      }
    }
  }

  lemma StepKeepsInv(h: Host, e: Event)
    requires Inv(h)
    ensures Inv(Step(h, e))
  {
    match e
    case OpensView(_, starts) => RefreshedKeeps(h.control, starts); QuietKeeps(h, Step(h, e));
    case Rereads(starts) =>
      RefreshedKeeps(h.control, starts);
      RenderedFrame(h.(control := Refreshed(h.control, starts)));
      QuietKeeps(h, Step(h, e));
    case Submits(starts, now) =>
      SubmittedKeepsInv(h, starts, now);
      RenderedFrame(Submitted(h, starts, now));
      QuietKeeps(Submitted(h, starts, now), if h.view then Step(h, e) else Submitted(h, starts, now));
    case Ticks(session, replaced, now) => TickKeepsInv(h, session, replaced, now);
    case WorkerServes(rows, answer) => ServedKeeps(h.control, rows, answer); QuietKeeps(h, Step(h, e));
    case WorkerDies(taking) => DiedKeeps(h.control, taking); QuietKeeps(h, Step(h, e));
    case ClosesView => QuietKeeps(h, Step(h, e));
    case PicksRow(id) => RenderedFrame(h.(selected := id, lost := false)); QuietKeeps(h, Step(h, e));
    case OpensConfirm => RenderedFrame(ConfirmOpened(h)); QuietKeeps(h, Step(h, e));
    case LeavesConfirm => RenderedFrame(h.(confirm := None)); QuietKeeps(h, Step(h, e));
  }

  lemma {:induction false} RunKeepsInv(es: seq<Event>)
    ensures Inv(Run(NEW_HOST, es))
  {
    if es != [] {
      RunKeepsInv(es[..|es| - 1]);
      StepKeepsInv(Run(NEW_HOST, es[..|es| - 1]), es[|es| - 1]);
    }
  }

  /**
    Every revoke is told: as ended exactly once, when its answer came or its worker was lost,
    and before that at most once as not known yet. Until then it holds the slot.
   */
  lemma {:induction false} EveryRevokeIsToldOnce(es: seq<Event>, op: nat)
    ensures var h := Run(NEW_HOST, es); var c := h.control;
            && Endings(h.notices, op) <= 1 && Waits(h.notices, op) <= 1
            && (1 <= op <= c.nextOp ==> (Endings(h.notices, op) == 0 <==> c.revoke.Some? && c.revoke.value.op == op))
            && (Endings(h.notices, op) + Waits(h.notices, op) > 0 ==> 1 <= op <= c.nextOp)
  {
    RunKeepsInv(es);
    assert NoticeInv(Run(NEW_HOST, es), op);
  }

  /** Whatever happens, no two revokes of this terminal are in flight at once. */
  lemma {:induction false} OneRevokeInFlight(es: seq<Event>)
    ensures var c := Run(NEW_HOST, es).control;
            c.worker.Some? ==>
              && RevokesIn(c.worker.value.requests) + AnswersIn(c.worker.value.replies) <= 1
              && (c.revoke == None ==> RevokesIn(c.worker.value.requests) + AnswersIn(c.worker.value.replies) == 0)
  {
    RunKeepsInv(es);
    var c := Run(NEW_HOST, es).control;
    if c.worker.Some? && c.revoke == None {
      assert forall r :: r in c.worker.value.requests ==> RequestInv(c, r);
      assert forall r :: r in c.worker.value.replies ==> ReplyInv(c, r);
      NoRevokesIn(c.worker.value.requests);
      NoAnswersIn(c.worker.value.replies);
    }
  }

  // ------------------------------------------------------------ the confirmation and the selection

  /** A confirmation is opened for a row of the current list that can be revoked, or not at all. */
  predicate Confirmable(h: Host, row: Row) {
    && h.control.revoke == None && h.control.Current() && row in h.control.listing.rows
    && h.selected == Some(row.id) && row.actionable && !row.revoked
  }

  lemma {:induction false} FoundIsListed(rows: seq<Row>, id: string)
    ensures FindRow(rows, id).Some? ==> FindRow(rows, id).value in rows && FindRow(rows, id).value.id == id
    ensures FindRow(rows, id) == None <==> forall r :: r in rows ==> r.id != id
  {
    if rows != [] {
      FoundIsListed(rows[1..], id);
      assert rows == [rows[0]] + rows[1..];
    }
  }

  /** No update changes what a confirmation names: it stays as it was opened, or goes. */
  lemma ConfirmationIsFrozen(h: Host, e: Event)
    ensures var after := Step(h, e).confirm;
            after == h.confirm || after == None || (e.OpensConfirm? && h.confirm == None && Confirmable(h, after.value))
  {
    if e.OpensConfirm? && h.selected.Some? && h.control.listing.Ready? {
      FoundIsListed(h.control.listing.rows, h.selected.value);
    }
  }

  /** So a confirmation open after any run was opened for a row listed and revocable then. */
  lemma {:induction false} ConfirmationsWereConfirmable(es: seq<Event>) returns (k: nat)
    requires Run(NEW_HOST, es).confirm.Some?
    ensures k < |es| && es[k].OpensConfirm?
    ensures Confirmable(Run(NEW_HOST, es[..k]), Run(NEW_HOST, es).confirm.value)
  {
    var n := |es| - 1;
    ConfirmationIsFrozen(Run(NEW_HOST, es[..n]), es[n]);
    if Run(NEW_HOST, es[..n]).confirm == Run(NEW_HOST, es).confirm {
      k := ConfirmationsWereConfirmable(es[..n]);
      assert es[..n][..k] == es[..k];
    } else {
      k := n;
    }
  }

  lemma LostStays(h: Host, e: Event)
    requires h.lost && h.selected == None && !e.PicksRow?
    ensures Step(h, e).lost && Step(h, e).selected == None
  {
  }

  /** Once a selection is lost it stays empty through every run without a row picked. */
  lemma {:induction false} NothingIsSelectedForTheUser(h: Host, es: seq<Event>)
    requires h.lost && h.selected == None && forall e :: e in es ==> !e.PicksRow?
    ensures Run(h, es).lost && Run(h, es).selected == None
  {
    if es != [] {
      assert forall e :: e in es[..|es| - 1] ==> e in es;
      NothingIsSelectedForTheUser(h, es[..|es| - 1]);
      LostStays(Run(h, es[..|es| - 1]), es[|es| - 1]);
    }
  }

  /** And a drawn selection always names a device of the list shown. */
  lemma SelectionIsListed(h: Host)
    requires h.control.listing.Ready?
    ensures var r := Rendered(h);
            && (r.selected.Some? ==> exists row :: row in h.control.listing.rows && row.id == r.selected.value)
            && (h.selected.Some? && r.selected != h.selected ==> r.lost && r.selected == None)
  {
    if h.selected.Some? {
      FoundIsListed(h.control.listing.rows, h.selected.value);
    }
    if Rendered(h).selected.Some? && Rendered(h).selected != h.selected {
      assert h.control.listing.rows[0] in h.control.listing.rows;
    }
  }

  // ------------------------------------------------------------ which device is revoked

  /** The same operation, if any, on the same row. */
  predicate SameSlot(c: Control, after: Control) {
    && after.nextOp == c.nextOp
    && (after.revoke.Some? ==>
          c.revoke.Some? && after.revoke.value.op == c.revoke.value.op && after.revoke.value.row == c.revoke.value.row)
  }

  lemma ReplyTakenFrame(c: Control)
    requires Replies(c) > 0
    ensures SameSlot(c, ReplyTaken(c))
  {
  }

  lemma {:induction false} DrainedFrame(c: Control)
    ensures SameSlot(c, Drained(c))
    decreases Replies(c)
  {
    if Replies(c) > 0 {
      TakingShortens(c);
      ReplyTakenFrame(c);
      DrainedFrame(ReplyTaken(c));
    }
  }

  function Evicted(h: Host, session: Option<nat>, replaced: bool): Host {
    if h.view && (h.session != session || replaced) then h.(view := false, confirm := None) else h
  }

  lemma TickedInSteps(h: Host, session: Option<nat>, replaced: bool, now: nat)
    ensures var h2 := Delivered(Evicted(h, session, replaced).(control := Polled(h.control, now)));
            Step(h, Ticks(session, replaced, now)) == if h2.view then Rendered(h2) else h2
  {
  }

  lemma DeliveredFrame(h: Host)
    ensures SameSlot(h.control, Delivered(h).control)
  {
  }

  lemma TickedFrame(h: Host, session: Option<nat>, replaced: bool, now: nat)
    ensures SameSlot(h.control, Step(h, Ticks(session, replaced, now)).control)
  {
    var h1 := Evicted(h, session, replaced).(control := Polled(h.control, now));
    DrainedFrame(h.control);
    DeliveredFrame(h1);
    TickedInSteps(h, session, replaced, now);
    RenderedFrame(Delivered(h1));
  }

  /** No event but a submit moves the operation counter, and the slot's row is never exchanged. */
  lemma SlotFrame(h: Host, e: Event)
    requires !e.Submits?
    ensures SameSlot(h.control, Step(h, e).control)
  {
    if e.Ticks? {
      TickedFrame(h, e.session, e.replaced, e.now);
    }
  }

  predicate Reachable(worker: Option<Worker>, starts: bool) {
    if worker == None then starts else !worker.value.dead
  }

  function Asked(worker: Option<Worker>): seq<Request> {
    if worker == None then [] else worker.value.requests
  }

  /** A revoke of `row` is sent, and nothing else about the reads and the list changes. */
  predicate Sends(c: Control, after: Control, row: Row, now: nat) {
    && after.revoke == Some(RevokeOp(c.nextOp + 1, row, Pending, now, false)) && after.nextOp == c.nextOp + 1
    && after.worker.Some? && !after.worker.value.dead
    && after.worker.value.requests == Asked(c.worker) + [Revoke(c.nextOp + 1, row.id)]
    && after.listing == c.listing && after.fence == c.fence && after.askedSeq == c.askedSeq
  }

  lemma AskingSends(c: Control, row: Row, starts: bool, now: nat)
    ensures var after := RevokeAsked(c, row, starts, now).0;
            if c.revoke == None && c.listing.Ready? && !c.listing.stale && c.appliedSeq >= c.fence
               && row.actionable && !row.revoked && Reachable(c.worker, starts)
            then Sends(c, after, row, now)
            else after == c
  {
  }

  /**
    A submit sends a revoke exactly when the slot is free, the list is current, the row confirmed
    can be revoked and a worker is there or can be started; the revoke names the row confirmed.
   */
  lemma ASubmitSendsTheConfirmedRow(h: Host, starts: bool, now: nat)
    requires h.view && h.confirm.Some?
    ensures var c, row, after := h.control, h.confirm.value, Step(h, Submits(starts, now)).control;
            if c.revoke == None && c.listing.Ready? && !c.listing.stale && c.appliedSeq >= c.fence
               && row.actionable && !row.revoked && Reachable(c.worker, starts)
            then Sends(c, after, row, now)
            else after == c
  {
    AskingSends(h.control, h.confirm.value, starts, now);
    RenderedFrame(Submitted(h, starts, now));
  }

  lemma NothingConfirmedNothingSent(h: Host, starts: bool, now: nat)
    requires !h.view || h.confirm == None
    ensures Step(h, Submits(starts, now)).control == h.control
  {
    RenderedFrame(h);
  }

  /** A refusal names the first thing in the way. */
  lemma RefusalsInOrder(c: Control, row: Row, starts: bool, now: nat)
    ensures var refused, current := RevokeAsked(c, row, starts, now).1, c.appliedSeq >= c.fence && c.listing.Ready? && !c.listing.stale;
            && (refused == Some(SlotInFlight) <==> c.revoke.Some? && !c.revoke.value.answered)
            && (refused == Some(Untold) <==> c.revoke.Some? && c.revoke.value.answered)
            && (refused == Some(NotCurrent) <==> c.revoke == None && !current)
            && (refused == Some(NotRevocable) <==> c.revoke == None && current && (!row.actionable || row.revoked))
            && (refused == Some(Unavailable) <==>
                  c.revoke == None && current && row.actionable && !row.revoked && !Reachable(c.worker, starts))
  {
  }

  /** Over every run: the revoke in the slot is of the row confirmed when it was submitted. */
  lemma {:induction false} TheSlotIsOfAConfirmation(es: seq<Event>) returns (k: nat)
    requires Run(NEW_HOST, es).control.revoke.Some?
    ensures k < |es| && es[k].Submits?
    ensures var slot, asking := Run(NEW_HOST, es).control.revoke.value, Run(NEW_HOST, es[..k]);
            asking.view && asking.confirm == Some(slot.row) && slot.op == asking.control.nextOp + 1
  {
    var n := |es| - 1;
    var before := Run(NEW_HOST, es[..n]);
    if es[n].Submits? {
      if before.view && before.confirm.Some? {
        ASubmitSendsTheConfirmedRow(before, es[n].starts, es[n].now);
      } else {
        NothingConfirmedNothingSent(before, es[n].starts, es[n].now);
      }
    } else {
      SlotFrame(before, es[n]);
    }
    if SameSlot(before.control, Step(before, es[n]).control) {
      k := TheSlotIsOfAConfirmation(es[..n]);
      assert es[..n][..k] == es[..k];
    } else {
      k := n;
    }
  }

  /** And so does every revoke on its way to the registry: it names the device confirmed, no other. */
  lemma {:induction false} ARevokeNamesItsConfirmation(es: seq<Event>, r: Request) returns (k: nat)
    requires var w := Run(NEW_HOST, es).control.worker; w.Some? && r in w.value.requests && r.Revoke?
    ensures k < |es| && es[k].Submits?
    ensures var asking := Run(NEW_HOST, es[..k]);
            && asking.view && asking.confirm.Some? && r == Revoke(asking.control.nextOp + 1, asking.confirm.value.id)
            && asking.confirm.value.actionable && !asking.confirm.value.revoked
  {
    RunKeepsInv(es);
    assert RequestInv(Run(NEW_HOST, es).control, r);
    k := TheSlotIsOfAConfirmation(es);
    var asking := Run(NEW_HOST, es[..k]);
    var shown := ConfirmationsWereConfirmable(es[..k]);
  }

  /**
    No revoke is aimed from old rows: when an event sends one, the rows shown include the effect
    of all earlier ones that the registry has taken up, and none of those can still reach it.
   */
  lemma {:induction false} RevokesAreAimedFromACurrentList(es: seq<Event>, e: Event)
    requires Step(Run(NEW_HOST, es), e).control.nextOp != Run(NEW_HOST, es).control.nextOp
    ensures var c := Run(NEW_HOST, es).control;
            && e.Submits? && c.listing.Ready? && !c.listing.stale && c.listing.asOf == c.taken
            && (c.worker.Some? ==> RevokesIn(c.worker.value.requests) == 0)
  {
    RunKeepsInv(es);
    OneRevokeInFlight(es);
    var h := Run(NEW_HOST, es);
    if !e.Submits? {
      SlotFrame(h, e);
    } else if h.view && h.confirm.Some? {
      ASubmitSendsTheConfirmedRow(h, e.starts, e.now);
    } else {
      NothingConfirmedNothingSent(h, e.starts, e.now);
    }
  }

  // ------------------------------------------------------------ what a tick tells and shows

  function FirstAnswer(replies: seq<Reply>): Option<Answer> {
    if replies == [] then None
    else if replies[0].Answered? then Some(replies[0].answer)
    else FirstAnswer(replies[1..])
  }

  function Waiting(c: Control): seq<Reply> {
    if c.worker == None then [] else c.worker.value.replies
  }

  /**
    What is due to be told of the slot's revoke: the answer that has come, or that it will never
    be known once its worker is dead, or, once, that it is not known yet.
   */
  function DueToTell(c: Control, now: nat): Option<Told> {
    if c.revoke == None then None
    else
      var op := c.revoke.value;
      var answer := FirstAnswer(Waiting(c));
      if answer.Some? then Some(Told(op.op, Done(answer.value), false))
      else if c.worker.Some? && c.worker.value.dead then Some(Told(op.op, Unknown, false))
      else if op.state.Pending? && now >= op.asked + ANSWER then Some(Told(op.op, Unknown, true))
      else None
  }

  lemma {:induction false} NoFirstAnswer(replies: seq<Reply>)
    ensures FirstAnswer(replies) == None <==> AnswersIn(replies) == 0
  {
    if replies != [] {
      AnswersHead(replies);
      NoFirstAnswer(replies[1..]);
    }
  }

  /** Taking one reply: an answer is the slot's own and ends its flight; a list leaves the slot alone. */
  lemma OneReplyAnswers(c: Control)
    requires ControlInv(c) && Replies(c) > 0
    ensures var reply, after := c.worker.value.replies[0], ReplyTaken(c);
            && after.worker.Some? && after.worker.value.replies == c.worker.value.replies[1..]
            && after.worker.value.dead == c.worker.value.dead
            && if reply.Answered? then
                 c.revoke.Some? && after.revoke == Some(c.revoke.value.(answered := true, state := Done(reply.answer)))
               else after.revoke == c.revoke
  {
    assert c.worker.value.replies[0] in c.worker.value.replies;
    assert ReplyInv(c, c.worker.value.replies[0]);
  }

  /** How the slot stands when every reply was taken. */
  lemma {:induction false} DrainedSlot(c: Control)
    requires ControlInv(c)
    ensures var answer, d := FirstAnswer(Waiting(c)), Drained(c).revoke;
            d == if answer.Some? && Flying(c) then Some(c.revoke.value.(answered := true, state := Done(answer.value)))
                 else if Flying(c) && c.worker.Some? && c.worker.value.dead then Some(c.revoke.value.(answered := true, state := Unknown))
                 else c.revoke
    decreases Replies(c)
  {
    if Replies(c) > 0 {
      TakingShortens(c);
      ReplyTakenKeeps(c);
      OneReplyAnswers(c);
      AnswersHead(c.worker.value.replies);
      NoFirstAnswer(c.worker.value.replies[1..]);
      DrainedSlot(ReplyTaken(c));
    }
  }

  /** The slot once polled: as what is due says. */
  lemma PolledSlot(c: Control, now: nat)
    requires ControlInv(c) && (c.revoke.Some? ==> !c.revoke.value.answered)
    ensures var due := DueToTell(c, now);
            Polled(c, now).revoke
            == if due == None then c.revoke
               else Some(c.revoke.value.(state := due.value.state, answered := !due.value.inFlight))
  {
    DrainedSlot(c);
  }

  predicate TellsDue(h: Host, after: Host, due: Option<Told>) {
    && after.notices == h.notices + (if due == None then [] else [due.value])
    && (due.Some? ==> after.told == due)
    && (after.control.revoke.Some? <==> h.control.revoke.Some? && (due == None || due.value.inFlight))
  }

  lemma DeliveredTellsDue(h: Host, before: Control, due: Option<Told>)
    requires ToldInv(h.(control := before)) && (due.Some? ==> before.revoke.Some? && due.value.op == before.revoke.value.op)
    requires h.control.revoke == if due == None then before.revoke
                                 else Some(before.revoke.value.(state := due.value.state, answered := !due.value.inFlight))
    requires due.Some? ==> !due.value.state.Pending? && (due.value.inFlight ==> before.revoke.value.state.Pending?)
    ensures TellsDue(h.(control := before), Delivered(h), due)
    ensures Delivered(h).confirm
            == if due == None || due.value.inFlight || due.value.state in {Done(Busy), Done(Failure)} then h.confirm else None
  {
  }

  /** Drawing changes no confirmation but closes one whose selected row is gone. */
  lemma RenderedConfirm(h: Host)
    ensures var after := Rendered(h);
            after.confirm == h.confirm
            || (after.confirm == None && after.selected == None && after.lost && h.selected == Some(h.confirm.value.id))
  {
  }

  /**
    A tick tells exactly what is due, and a revoke told as ended gives its slot up; with it goes
    the confirmation, unless the revoke was refused as busy or failed and can be tried again.
   */
  lemma TicksTellWhatIsDue(h: Host, session: Option<nat>, replaced: bool, now: nat)
    requires Inv(h)
    ensures var after, due := Step(h, Ticks(session, replaced, now)), DueToTell(h.control, now);
            && TellsDue(h, after, due)
            && (due.Some? && !due.value.inFlight && due.value.state !in {Done(Busy), Done(Failure)} ==> after.confirm == None)
            && (after.confirm != h.confirm ==>
                  || (due.Some? && !due.value.inFlight && due.value.state !in {Done(Busy), Done(Failure)})
                  || (h.view && (h.session != session || replaced))
                  || (after.selected == None && after.lost && h.confirm.Some? && h.selected == Some(h.confirm.value.id)))
  {
    var due := DueToTell(h.control, now);
    var h1 := Evicted(h, session, replaced).(control := Polled(h.control, now));
    PolledSlot(h.control, now);
    DeliveredTellsDue(h1, h.control, due);
    TickedInSteps(h, session, replaced, now);
    RenderedFrame(Delivered(h1));
    RenderedConfirm(Delivered(h1));
  }

  /** The view goes, with its confirmation, exactly when its session is no longer the one shown. */
  lemma ViewsFollowTheirSession(h: Host, session: Option<nat>, replaced: bool, now: nat)
    ensures var after := Step(h, Ticks(session, replaced, now));
            && after.view == (h.view && h.session == session && !replaced)
            && (h.view && !after.view ==> after.confirm == None)
  {
  }

  /**
    The newest read, once it is back with no answer before it, is what is shown: its rows if it
    succeeded, and otherwise the rows of before, marked as old.
   */
  lemma {:induction false} TheNewestReadIsShown(c: Control)
    requires c.worker.Some? && !c.worker.value.dead && Replies(c) > 0
    requires forall r :: r in c.worker.value.replies ==> r.Listed?
    requires var replies := c.worker.value.replies; var last := replies[|replies| - 1];
             && last.number == c.askedSeq && last.number > c.appliedSeq && last.number >= c.fence
             && forall i :: 0 <= i < |replies| - 1 ==> replies[i].number < last.number
    ensures var last, d := c.worker.value.replies[|c.worker.value.replies| - 1], Drained(c);
            && d.appliedSeq == last.number
            && (last.rows.Some? ==> d.listing == Ready(last.rows.value, last.asOf, false))
            && (last.rows == None ==> d.listing == Failed || (d.listing.Ready? && d.listing.stale))
    decreases Replies(c)
  {
    var replies := c.worker.value.replies;
    assert replies[0] in replies;
    TakingShortens(c);
    var after := ReplyTaken(c);
    if |replies| > 1 {
      assert after.worker.value.replies == replies[1..];
      assert forall r :: r in replies[1..] ==> r in replies;
      TheNewestReadIsShown(after);
    } else {
      assert Drained(after) == after;
    }
  }

  /** A read overtaken by another, or from before the last revoke's answer, shows nothing. */
  lemma OldReadsShowNothing(c: Control)
    requires Replies(c) > 0 && c.worker.value.replies[0].Listed?
    requires var r := c.worker.value.replies[0]; r.number < c.askedSeq && (r.number <= c.appliedSeq || r.number < c.fence)
    ensures ReplyTaken(c).listing == c.listing && ReplyTaken(c).appliedSeq == c.appliedSeq
  {
  }

  /** A worker lost with nothing left to take: its read failed, its revoke is over, and another worker may be started. */
  lemma ALostWorkerFailsItsRead(c: Control)
    requires c.worker.Some? && c.worker.value.dead && Replies(c) == 0
    ensures var d := Drained(c); var stale := c.readPending || Flying(c);
            && d.worker == None && !d.readPending && d.askedSeq == c.askedSeq
            && d.fence == (if Flying(c) then c.askedSeq + 1 else c.fence)
            && d.listing == (if c.listing.Ready? then c.listing.(stale := c.listing.stale || stale)
                             else if c.readPending then Failed
                             else c.listing)
  {
  }

  /** The newest read is back: it is pending no more, and a flagged one follows it. */
  lemma AFlaggedReadFollows(c: Control)
    requires Replies(c) > 0 && !c.worker.value.dead
    requires c.worker.value.replies[0].Listed? && c.worker.value.replies[0].number == c.askedSeq
    ensures var after := ReplyTaken(c);
            && after.worker.Some? && !after.reread && after.readPending == c.reread
            && after.askedSeq == c.askedSeq + (if c.reread then 1 else 0)
            && after.worker.value.requests == c.worker.value.requests + if c.reread then [List(c.askedSeq + 1)] else []
  {
  }

  /** The slot's answer asks for a new list at once, or flags one behind the read that is pending. */
  lemma AnAnswerAsksForANewList(c: Control)
    requires Replies(c) > 0 && !c.worker.value.dead && c.revoke.Some?
    requires var reply := c.worker.value.replies[0]; reply.Answered? && reply.op == c.revoke.value.op
    ensures var after := ReplyTaken(c);
            && after.fence == c.askedSeq + 1 && after.readPending && after.worker.Some?
            && (if c.readPending then after.reread && after.askedSeq == c.askedSeq
                else after.askedSeq == c.askedSeq + 1
                     && after.worker.value.requests == c.worker.value.requests + [List(c.askedSeq + 1)])
  {
  }

  // ------------------------------------------------------------ a list that is old is read again

  predicate UnderWay(w: Worker, number: nat) {
    List(number) in w.requests || exists r :: r in w.replies && r.Listed? && r.number == number
  }

  /**
    While the worker lives, a pending read is on its way, and while the list shown is from before
    the fence such a read is pending: one from past the fence, or one another is flagged behind.
   */
  predicate FollowInv(c: Control) {
    && (c.worker == None ==> !c.readPending)
    && (c.worker.Some? && !c.worker.value.dead ==>
          && (c.readPending ==> UnderWay(c.worker.value, c.askedSeq))
          && (c.appliedSeq < c.fence ==> c.readPending && (c.askedSeq >= c.fence || c.reread)))
  }

  lemma RefreshedFollows(c: Control, starts: bool)
    requires ControlInv(c) && (c.worker == None ==> !c.readPending)
    requires c.worker.Some? && !c.worker.value.dead && c.readPending ==> FollowInv(c)
    ensures FollowInv(Refreshed(c, starts))
  {
    if !c.readPending && Reachable(c.worker, starts) {
      var after := Refreshed(c, starts);
      assert after.worker.value.requests[|Asked(c.worker)|] == List(after.askedSeq);
    }
  }

  lemma ListReadFollows(c: Control, reply: Reply)
    requires ControlInv(c) && reply.Listed? && ReplyInv(c, reply) && c.worker.Some?
    requires !c.worker.value.dead && c.readPending && reply.number != c.askedSeq ==> UnderWay(c.worker.value, c.askedSeq)
    requires !c.worker.value.dead && c.appliedSeq < c.fence ==> c.readPending && (c.askedSeq >= c.fence || c.reread)
    ensures FollowInv(ListRead(c, reply))
  {
    if reply.number == c.askedSeq && c.reread {
      var done := c.(readPending := false, reread := false);
      RefreshedKeeps(done, false);
      RefreshedFollows(done, false);
    }
  }

  lemma RevokeAnsweredFollows(c: Control, op: nat, answer: Answer)
    requires ControlInv(c) && FollowInv(c) && c.worker.Some? && Flying(c)
    requires forall r :: r in c.worker.value.replies ==> !r.Answered?
    requires forall r :: r in c.worker.value.requests ==> !r.Revoke?
    ensures FollowInv(RevokeAnswered(c, op, answer))
  {
    if c.revoke.value.op == op {
      FencingKeeps(c, Done(answer));
      if !c.readPending {
        RefreshedFollows(Fenced(c, Done(answer)), false);
      }
    }
  }

  lemma ReplyTakenFollows(c: Control)
    requires ControlInv(c) && FollowInv(c) && Replies(c) > 0
    ensures FollowInv(ReplyTaken(c))
  {
    var w := c.worker.value;
    var c1 := c.(worker := Some(w.(replies := w.replies[1..])));
    PoppedKeeps(c);
    assert w.replies == [w.replies[0]] + w.replies[1..];
    assert ReplyInv(c, w.replies[0]);
    match w.replies[0]
    case Listed(_, _, _) => ListReadFollows(c1, w.replies[0]);
    case Answered(op, answer) => RevokeAnsweredFollows(c1, op, answer);
  }

  lemma {:induction false} DrainedFollows(c: Control)
    requires ControlInv(c) && FollowInv(c)
    ensures FollowInv(Drained(c))
    decreases Replies(c)
  {
    if Replies(c) > 0 {
      TakingShortens(c);
      ReplyTakenKeeps(c);
      ReplyTakenFollows(c);
      DrainedFollows(ReplyTaken(c));
    }
  }

  lemma ServedFollows(c: Control, rows: Option<seq<Row>>, answer: Answer)
    requires FollowInv(c)
    ensures FollowInv(Served(c, rows, answer))
  {
    if c.worker.Some? && !c.worker.value.dead && c.worker.value.requests != [] {
      var w, after := c.worker.value, Served(c, rows, answer).worker.value;
      assert w.requests == [w.requests[0]] + w.requests[1..];
      assert after.replies[|w.replies|] in after.replies;
      assert forall r :: r in w.replies ==> r in after.replies;
    }
  }

  lemma RevokeAskedFollows(c: Control, row: Row, starts: bool, now: nat)
    requires FollowInv(c)
    ensures FollowInv(RevokeAsked(c, row, starts, now).0)
  {
    AskingSends(c, row, starts, now);
  }

  lemma PolledFollows(c: Control, now: nat)
    requires ControlInv(c) && FollowInv(c)
    ensures FollowInv(Polled(c, now))
  {
    DrainedFollows(c);
  }

  lemma DeliveredFollows(h: Host)
    requires FollowInv(h.control)
    ensures FollowInv(Delivered(h).control)
  {
  }

  lemma TickedFollows(h: Host, session: Option<nat>, replaced: bool, now: nat)
    requires ControlInv(h.control) && FollowInv(h.control)
    ensures FollowInv(Step(h, Ticks(session, replaced, now)).control)
  {
    var h1 := Evicted(h, session, replaced).(control := Polled(h.control, now));
    PolledFollows(h.control, now);
    DeliveredFollows(h1);
    TickedInSteps(h, session, replaced, now);
    RenderedFrame(Delivered(h1));
  }

  lemma StepFollows(h: Host, e: Event)
    requires ControlInv(h.control) && FollowInv(h.control)
    ensures FollowInv(Step(h, e).control)
  {
    match e
    case OpensView(_, starts) => RefreshedFollows(h.control, starts);
    case Rereads(starts) =>
      RefreshedFollows(h.control, starts);
      RenderedFrame(h.(control := Refreshed(h.control, starts)));
    case Submits(starts, now) =>
      if h.confirm.Some? {
        RevokeAskedFollows(h.control, h.confirm.value, starts, now);
      }
      RenderedFrame(Submitted(h, starts, now));
    case Ticks(session, replaced, now) => TickedFollows(h, session, replaced, now);
    case WorkerServes(rows, answer) => ServedFollows(h.control, rows, answer);
    case _ =>
  }

  /** Over every run: whenever the list shown is from before the last answered revoke, a read that will replace it is on its way. */
  lemma {:induction false} AnOldListIsReadAgain(es: seq<Event>)
    ensures FollowInv(Run(NEW_HOST, es).control)
  {
    if es != [] {
      RunKeepsInv(es[..|es| - 1]);
      AnOldListIsReadAgain(es[..|es| - 1]);
      StepFollows(Run(NEW_HOST, es[..|es| - 1]), es[|es| - 1]);
    }
  }

  /** Opening the view, or asking again, sends one read with the next number unless one is pending. */
  lemma OpeningReads(h: Host, session: Option<nat>, starts: bool)
    ensures var c, after := h.control, Step(h, OpensView(session, starts));
            && after.view && after.session == session && after.confirm == None && after.control.revoke == c.revoke
            && (if c.readPending then after.control == c
                else if Reachable(c.worker, starts) then
                  && after.control.askedSeq == c.askedSeq + 1 && after.control.readPending && after.control.listing == c.listing
                  && after.control.worker.Some?
                  && after.control.worker.value.requests == Asked(c.worker) + [List(c.askedSeq + 1)]
                else after.control == if c.worker == None then c.(listing := Failed) else c)
  {
  }

  // ------------------------------------------------------------ which row is confirmed

  lemma {:induction false} FoundFirst(rows: seq<Row>, i: nat)
    requires i < |rows| && forall j :: 0 <= j < i ==> rows[j].id != rows[i].id
    ensures FindRow(rows, rows[i].id) == Some(rows[i])
  {
    if i > 0 {
      assert forall j :: 0 <= j < i - 1 ==> rows[1..][j] == rows[j + 1];
      FoundFirst(rows[1..], i - 1);
    }
  }

  /** The selected row `i` comes up for confirmation exactly when nothing is in the way. */
  lemma ConfirmationOpensIff(h: Host, i: nat)
    requires h.view && h.confirm == None && h.control.listing.Ready? && i < |h.control.listing.rows|
    requires h.selected == Some(h.control.listing.rows[i].id)
    requires forall j :: 0 <= j < i ==> h.control.listing.rows[j].id != h.control.listing.rows[i].id
    ensures var c, row := h.control, h.control.listing.rows[i];
            Step(h, OpensConfirm)
            == h.(confirm := if c.revoke == None && c.appliedSeq >= c.fence && !c.listing.stale && row.actionable && !row.revoked
                             then Some(row) else None)
  {
    FoundFirst(h.control.listing.rows, i);
  }

  /** A selected device that is no longer listed is let go, and its confirmation closed unless its revoke is under way. */
  lemma ALostRowClosesItsConfirmation(h: Host, id: string)
    requires h.control.listing.Ready? && h.selected == Some(id)
    requires forall row :: row in h.control.listing.rows ==> row.id != id
    ensures var after := Rendered(h);
            && after.selected == None && after.lost
            && after.confirm == if h.confirm.Some? && h.confirm.value.id == id && h.control.revoke == None then None else h.confirm
  {
    FoundIsListed(h.control.listing.rows, id);
  }

  /** What the user picks is selected if it is listed, and the first selection is the first row. */
  lemma PickingSelects(h: Host, row: Row)
    requires h.view && h.confirm == None && h.control.listing.Ready? && row in h.control.listing.rows
    ensures var after := Step(h, PicksRow(Some(row.id))); after.selected == Some(row.id) && !after.lost && after.control == h.control
    ensures Step(h, PicksRow(None)).selected == Some(h.control.listing.rows[0].id)
  {
    FoundIsListed(h.control.listing.rows, row.id);
  }
}
