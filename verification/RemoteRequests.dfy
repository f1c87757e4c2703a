/**
  Device requests on a shared session: taken between keystrokes, decided, queued, promoted
  into steering, started, removed or discarded, and told to the device whatever happens.

  A request's authority is reference counted and reports "not run" when its last owner goes
  without having settled it. `origins` is the table of those shared authorities, with their
  owner counts; the session updates it, its queue and its slots in place.
 */
module RemoteRequests {
  import opened Options

  /** At most this many requests leave the channel in one tick. */
  const REQUESTS_PER_TICK: nat := 8

  datatype Report = Queued | Accepted | Rejected | Done

  /** One request's shared authority: how many owners hold it, whether it was settled, what its device was told. */
  datatype Origin = Origin(owners: nat, settled: bool, told: seq<Report>)

  datatype Disposition = Immediate | FollowUp | Steer

  datatype Slash = Clear | NameSession | SetEffort | Compact(force: bool) | Unavailable

  datatype Command = SendPrompt(disposition: Disposition) | CancelTurn | RunCommand(slash: Slash) | OtherCommand

  /**
    A request, with what its surroundings answer when it is taken: whether its device may
    still do it, whether the terminal takes the prompt, whether the command succeeds.
   */
  datatype Request = Request(command: Command, allowed: bool, item: Option<nat>, succeeds: bool)

  datatype Op = Prompt(item: nat, attachments: bool, origin: Option<nat>) | Shell(item: nat)

  /** The operation chain: about to start an operation, or running it. */
  datatype Current = Idle | Next(op: Op) | Running(op: Op)

  datatype Work = RunPrompt(op: Op) | RunCompact(force: bool)

  datatype Session = Session(
    incoming: seq<Request>, taken: seq<Request>, origins: seq<Origin>,
    queue: seq<Op>, current: Current, steering: seq<(nat, nat)>,
    compact: Option<nat>, compacting: Option<nat>)

  // ------------------------------------------------------------ shared authorities
  // A tag is an index of `origins`; every tag in use is within it (see `Inv`).

  /** Report once: only the first settlement is told. */
  function Settled(os: seq<Origin>, tag: nat, report: Report): seq<Origin> {
    if tag >= |os| || os[tag].settled then os
    else os[tag := os[tag].(settled := true, told := os[tag].told + [report])]
  }

  function Told(os: seq<Origin>, tag: nat, report: Report): seq<Origin> {
    if tag >= |os| then os else os[tag := os[tag].(told := os[tag].told + [report])]
  }

  function Cloned(os: seq<Origin>, tag: nat): seq<Origin> {
    if tag >= |os| then os else os[tag := os[tag].(owners := os[tag].owners + 1)]
  }

  /** An owner goes; the last one settles the request as not run. */
  function Dropped(os: seq<Origin>, tag: nat): seq<Origin> {
    if tag >= |os| || os[tag].owners == 0 then os
    else
      var left := os[tag := os[tag].(owners := os[tag].owners - 1)];
      if left[tag].owners == 0 then Settled(left, tag, Rejected) else left
  }

  function DroppedOp(os: seq<Origin>, op: Op): seq<Origin> {
    if op.Prompt? && op.origin.Some? then Dropped(os, op.origin.value) else os
  }

  function DroppedOps(os: seq<Origin>, ops: seq<Op>): seq<Origin>
    decreases |ops|
  {
    if ops == [] then os else DroppedOps(DroppedOp(os, ops[0]), ops[1..])
  }

  // ------------------------------------------------------------ taking requests

  /** The next request gets its authority, owned by the code that decides it. */
  function Take(s: Session): Session
    requires s.incoming != []
  {
    s.(incoming := s.incoming[1..], taken := s.taken + [s.incoming[0]], origins := s.origins + [Origin(1, false, [])])
  }

  function Reject(s: Session, tag: nat): Session
  {
    s.(origins := Dropped(Settled(s.origins, tag, Rejected), tag))
  }

  function Complete(s: Session, tag: nat, succeeded: bool): Session
  {
    s.(origins := Dropped(Settled(s.origins, tag, if succeeded then Done else Rejected), tag))
  }

  function PhonePrompt(tag: nat, item: nat): Op {
    Prompt(item, false, Some(tag))
  }

  function IdleRequest(s: Session): (Session, Option<Work>)
    requires s.incoming != []
  {
    var r, tag, s1 := s.incoming[0], |s.origins|, Take(s);
    if !r.allowed then (Reject(s1, tag), None)
    else match r.command
      case SendPrompt(disposition) =>
        if disposition.Steer? || r.item == None then (Reject(s1, tag), None)
        else (s1, Some(RunPrompt(PhonePrompt(tag, r.item.value))))
      case CancelTurn => (Reject(s1, tag), None)
      case RunCommand(slash) =>
        (match slash
         case Clear => (Complete(s1, tag, true), None)
         case NameSession | SetEffort => (Complete(s1, tag, r.succeeds), None)
         case Compact(force) =>
           var freed := if s1.compact.Some? then Dropped(s1.origins, s1.compact.value) else s1.origins;
           (s1.(compact := Some(tag), origins := freed), Some(RunCompact(force)))
         case Unavailable => (Reject(s1, tag), None))
      case OtherCommand => (Reject(s1, tag), None)
  }

  function BusyRequest(s: Session, live: bool): Session
    requires s.incoming != []
  {
    var r, tag, s1 := s.incoming[0], |s.origins|, Take(s);
    if !r.allowed then Reject(s1, tag)
    else match r.command
      case SendPrompt(disposition) =>
        if !disposition.FollowUp? || r.item == None then Reject(s1, tag)
        else s1.(origins := Told(s1.origins, tag, Queued), queue := s1.queue + [PhonePrompt(tag, r.item.value)])
      case CancelTurn => Complete(s1, tag, true)
      case RunCommand(slash) =>
        if slash.SetEffort? && live then Complete(s1, tag, r.succeeds) else Reject(s1, tag)
      case OtherCommand => Reject(s1, tag)
  }

  function IdleTake(s: Session, n: nat): (Session, Option<Work>)
    decreases n
  {
    if n == 0 || s.incoming == [] then (s, None)
    else
      var (s1, work) := IdleRequest(s);
      if work.Some? then (s1, work) else IdleTake(s1, n - 1)
  }

  function BusyTake(s: Session, live: bool, n: nat): Session
    decreases n
  {
    if n == 0 || s.incoming == [] then s else BusyTake(BusyRequest(s, live), live, n - 1)
  }

  // ------------------------------------------------------------ holding and starting

  /** Keep the steers still pending; the others go. */
  function Released(s: Session, steering: seq<(nat, nat)>, pending: set<nat>): Session
  {
    if steering == [] then s.(steering := [])
    else
      var before := Released(s, steering[..|steering| - 1], pending);
      var (item, tag) := steering[|steering| - 1];
      if item in pending then before.(steering := before.steering + [(item, tag)])
      else before.(origins := Dropped(before.origins, tag))
  }

  /** The chain moves to the queue's front, if any. */
  function Advanced(s: Session): Session {
    if s.queue == [] then s.(current := Idle) else s.(current := Next(s.queue[0]), queue := s.queue[1..])
  }

  /** The operation next in line runs, or is refused when its device is not among `standing`. */
  function StartNext(s: Session, standing: set<nat>): Session
  {
    if !s.current.Next? then s
    else
      var op := s.current.op;
      if !op.Prompt? || op.origin == None then s.(current := Running(op))
      else if op.origin.value !in standing then
        Advanced(s.(origins := DroppedOp(Settled(s.origins, op.origin.value, Rejected), op)))
      else s.(current := Running(op), origins := Settled(s.origins, op.origin.value, Accepted))
  }

  function FinishRunning(s: Session): Session
  {
    if !s.current.Running? then s else Advanced(s.(origins := DroppedOp(s.origins, s.current.op)))
  }

  /** Leaving: the running operation and the whole queue go. */
  function Discard(s: Session): Session
  {
    var os := if s.current.Idle? then s.origins else DroppedOp(s.origins, s.current.op);
    s.(current := Idle, queue := [], origins := DroppedOps(os, s.queue))
  }

  function Remove(s: Session, i: nat): Session
    requires i < |s.queue|
  {
    s.(queue := s.queue[..i] + s.queue[i + 1..], origins := DroppedOp(s.origins, s.queue[i]))
  }

  /** One prompt at the queue's front enters the running turn as a steer, or is refused. */
  function PromoteOne(s: Session, standing: set<nat>): Session
    requires s.queue != [] && s.queue[0].Prompt?
  {
    var op, popped := s.queue[0], s.(queue := s.queue[1..]);
    if op.origin == None then popped
    else
      var tag := op.origin.value;
      if tag !in standing then popped.(origins := Dropped(Settled(s.origins, tag, Rejected), tag))
      else popped.(origins := Dropped(Cloned(Settled(s.origins, tag, Accepted), tag), tag),
                   steering := s.steering + [(op.item, tag)])
  }

  predicate Promotable(s: Session) {
    s.queue != [] && s.queue[0].Prompt? && !s.queue[0].attachments
  }

  function Promote(s: Session, standing: set<nat>): Session
    decreases |s.queue|
  {
    if !Promotable(s) then s else Promote(PromoteOne(s, standing), standing)
  }

  /** The compaction takes its waiting device along. */
  function BeginCompact(s: Session): Session {
    if s.compacting.Some? then s else s.(compacting := s.compact, compact := None)
  }

  /** The compaction ended: with a result, cancelled, or without either (its closure dropped). */
  datatype CompactEnd = Compacted | Cancelled | Abandoned

  function EndCompact(s: Session, end: CompactEnd): Session
  {
    if s.compacting == None then s
    else
      var tag := s.compacting.value;
      var os := match end
        case Compacted => Settled(s.origins, tag, Done)
        case Cancelled => Settled(s.origins, tag, Rejected)
        case Abandoned => s.origins;
      s.(compacting := None, origins := Dropped(os, tag))
  }

  /** The terminal ends: queue, steers, the running compaction and the waiting one all go. */
  function HostGone(s: Session): Session {
    var s1 := EndCompact(Released(Discard(s), s.steering, {}), Abandoned);
    if s1.compact == None then s1 else s1.(compact := None, origins := Dropped(s1.origins, s1.compact.value))
  }

  lemma CloneThenDrop(os: seq<Origin>, tag: nat)
    requires tag < |os| && os[tag].owners > 0
    ensures Dropped(Cloned(os, tag), tag) == os
  {
  }

  // ------------------------------------------------------------ what a request is due
  // Read off the request alone, beside the code that decides it.

  /** A device that may send prompts sends one the terminal takes, not as a steer. */
  predicate AsksToRun(r: Request) {
    r.allowed && r.command.SendPrompt? && r.command.disposition != Steer && r.item.Some?
  }

  predicate AsksToCompact(r: Request) {
    r.allowed && r.command.RunCommand? && r.command.slash.Compact?
  }

  /** While idle nothing else starts work; what is done at once is done, the rest is not. */
  function IdleEnding(r: Request): Report {
    if r.allowed && r.command.RunCommand?
       && (r.command.slash == Clear || (r.succeeds && r.command.slash in {NameSession, SetEffort}))
    then Done else Rejected
  }

  predicate AsksToQueue(r: Request) {
    r.allowed && r.command == SendPrompt(FollowUp) && r.item.Some?
  }

  function BusyEnding(r: Request, live: bool): Report {
    if r.allowed && (r.command == CancelTurn || (r.command == RunCommand(SetEffort) && live && r.succeeds))
    then Done else Rejected
  }

  // ------------------------------------------------------------ the session

  class RemoteSession {
    var incoming: seq<Request>
    var origins: seq<Origin>
    var queue: seq<Op>
    var current: Current
    var steering: seq<(nat, nat)>
    var compact: Option<nat>
    var compacting: Option<nat>
    ghost var taken: seq<Request>

    ghost function State(): Session
      reads this
    {
      Session(incoming, taken, origins, queue, current, steering, compact, compacting)
    }

    method Settle(tag: nat, report: Report)
      modifies this`origins
      ensures origins == Settled(old(origins), tag, report)
    {
      if tag < |origins| && !origins[tag].settled {
        origins := origins[tag := origins[tag].(settled := true, told := origins[tag].told + [report])];
      }
    }

    method Clone(tag: nat)
      modifies this`origins
      ensures origins == Cloned(old(origins), tag)
    {
      if tag < |origins| {
        origins := origins[tag := origins[tag].(owners := origins[tag].owners + 1)];
      }
    }

    method Drop(tag: nat)
      modifies this`origins
      ensures origins == Dropped(old(origins), tag)
    {
      if tag < |origins| && origins[tag].owners > 0 {
        origins := origins[tag := origins[tag].(owners := origins[tag].owners - 1)];
        if origins[tag].owners == 0 {
          Settle(tag, Rejected);
        }
      }
    }

    method DropOp(op: Op)
      modifies this`origins
      ensures origins == DroppedOp(old(origins), op)
    {
      if op.Prompt? && op.origin.Some? {
        Drop(op.origin.value);
      }
    }

    method NewTag() returns (r: Request, tag: nat)
      requires incoming != []
      modifies this
      ensures r == old(incoming)[0] && tag == |old(origins)|
      ensures State() == Take(old(State()))
    {
      r, tag := incoming[0], |origins|;
      incoming, taken := incoming[1..], taken + [r];
      origins := origins + [Origin(1, false, [])];
    }

    /** The operation for a prompt item, holding one more owner of `tag`; with no item nothing changes. */
    method TakePrompt(tag: nat, item: Option<nat>) returns (op: Option<Op>)
      requires tag < |origins| && origins[tag].owners == 1
      modifies this`origins
      ensures item == None ==> op == None && origins == old(origins)
      ensures item.Some? ==> op == Some(PhonePrompt(tag, item.value)) && origins == Cloned(old(origins), tag)
    {
      Clone(tag);
      match item {
        case Some(i) => op := Some(PhonePrompt(tag, i));
        case None =>
          op := None;
          Drop(tag);
      }
    }

    method RejectAndDrop(tag: nat)
      modifies this`origins
      ensures origins == Dropped(Settled(old(origins), tag, Rejected), tag)
    {
      Settle(tag, Rejected);
      Drop(tag);
    }

    method CompleteAndDrop(tag: nat, succeeded: bool)
      modifies this`origins
      ensures origins == Dropped(Settled(old(origins), tag, if succeeded then Done else Rejected), tag)
    {
      Settle(tag, if succeeded then Done else Rejected);
      Drop(tag);
    }

    method TakeIdleRequest() returns (work: Option<Work>)
      requires incoming != []
      modifies this
      ensures (State(), work) == IdleRequest(old(State()))
      ensures var r := old(incoming)[0];
              && work == WorkOf(r, |old(origins)|)
              && (work == None ==> origins == old(origins) + [IdleDue(r)])
    {
      OneIdleRequest(State());
      var r, tag := NewTag();
      work := None;
      if !r.allowed {
        RejectAndDrop(tag);
        return;
      }
      match r.command {
        case SendPrompt(disposition) =>
          if disposition.Steer? {
            RejectAndDrop(tag);
          } else {
            CloneThenDrop(origins, tag);
            var op := TakePrompt(tag, r.item);
            match op {
              case Some(operation) =>
                work := Some(RunPrompt(operation));
                Drop(tag);
              case None => RejectAndDrop(tag);
            }
          }
        case RunCommand(slash) =>
          match slash {
            case Clear => CompleteAndDrop(tag, true);
            case NameSession => CompleteAndDrop(tag, r.succeeds);
            case SetEffort => CompleteAndDrop(tag, r.succeeds);
            case Compact(force) =>
              var replaced := compact;
              compact := Some(tag);
              if replaced.Some? {
                Drop(replaced.value);
              }
              work := Some(RunCompact(force));
            case Unavailable => RejectAndDrop(tag);
          }
        case _ => RejectAndDrop(tag);
      }
    }

    /** The idle loop's tick: at most eight requests, until one asks for work. */
    method IdleTick() returns (work: Option<Work>)
      modifies this
      ensures (State(), work) == IdleTake(old(State()), REQUESTS_PER_TICK)
    {
      work := None;
      var n := REQUESTS_PER_TICK;
      while n > 0
        invariant IdleTake(State(), n) == IdleTake(old(State()), REQUESTS_PER_TICK)
      {
        if incoming == [] {
          return None;
        }
        var asked := TakeIdleRequest();
        if asked.Some? {
          return asked;
        }
        n := n - 1;
      }
    }

    method TakeBusyRequest(live: bool)
      requires incoming != []
      modifies this
      ensures State() == BusyRequest(old(State()), live)
    {
      var r, tag := NewTag();
      if !r.allowed {
        RejectAndDrop(tag);
        return;
      }
      match r.command {
        case SendPrompt(disposition) =>
          if !disposition.FollowUp? {
            RejectAndDrop(tag);
          } else {
            var op := TakePrompt(tag, r.item);
            match op {
              case Some(operation) =>
                origins := origins[tag := origins[tag].(told := origins[tag].told + [Queued])];
                queue := queue + [operation];
                Drop(tag);
              case None => RejectAndDrop(tag);
            }
          }
        case CancelTurn => CompleteAndDrop(tag, true);
        case RunCommand(slash) =>
          if slash.SetEffort? && live {
            CompleteAndDrop(tag, r.succeeds);
          } else {
            RejectAndDrop(tag);
          }
        case OtherCommand => RejectAndDrop(tag);
      }
    }

    /** A running operation's tick: release consumed steers, then at most eight requests. */
    method BusyTick(live: bool, pending: set<nat>)
      modifies this
      ensures State() == BusyTake(Released(old(State()), old(steering), pending), live, REQUESTS_PER_TICK)
    {
      ReleaseSteering(pending);
      TakeBusyRequests(live);
    }

    method TakeBusyRequests(live: bool)
      modifies this
      ensures State() == BusyTake(old(State()), live, REQUESTS_PER_TICK)
    {
      var n := REQUESTS_PER_TICK;
      while n > 0
        invariant BusyTake(State(), live, n) == BusyTake(old(State()), live, REQUESTS_PER_TICK)
      {
        if incoming == [] {
          return;
        }
        TakeBusyRequest(live);
        n := n - 1;
      }
    }

    method ReleaseSteering(pending: set<nat>)
      modifies this`steering, this`origins
      ensures State() == Released(old(State()), old(steering), pending)
    {
      var all := steering;
      ghost var before := State();
      steering := [];
      for i := 0 to |all|
        invariant State() == Released(before, all[..i], pending)
      {
        assert all[..i + 1][..i] == all[..i];
        if all[i].0 in pending {
          steering := steering + [all[i]];
        } else {
          Drop(all[i].1);
        }
      }
      assert all[..|all|] == all;
    }

    method PopNext()
      modifies this`current, this`queue
      ensures State() == Advanced(old(State()))
    {
      if queue == [] {
        current := Idle;
      } else {
        current, queue := Next(queue[0]), queue[1..];
      }
    }

    method Start(standing: set<nat>)
      modifies this
      ensures State() == StartNext(old(State()), standing)
    {
      if !current.Next? {
        return;
      }
      var op := current.op;
      if op.Prompt? && op.origin.Some? {
        var tag := op.origin.value;
        if tag !in standing {
          Settle(tag, Rejected);
          DropOp(op);
          PopNext();
          return;
        }
        Settle(tag, Accepted);
      }
      current := Running(op);
    }

    method Finish()
      modifies this
      ensures State() == FinishRunning(old(State()))
    {
      if current.Running? {
        DropOp(current.op);
        PopNext();
      }
    }

    method DiscardAll()
      modifies this
      ensures State() == Discard(old(State()))
    {
      if !current.Idle? {
        DropOp(current.op);
      }
      current := Idle;
      ghost var os := origins;
      while queue != []
        invariant DroppedOps(origins, queue) == DroppedOps(os, old(queue))
        invariant State() == old(State()).(current := Idle, queue := queue, origins := origins)
        decreases |queue|
      {
        DropOp(queue[0]);
        queue := queue[1..];
      }
    }

    method PromoteQueued(standing: set<nat>)
      modifies this
      ensures State() == Promote(old(State()), standing)
    {
      while queue != [] && queue[0].Prompt? && !queue[0].attachments
        invariant Promote(State(), standing) == Promote(old(State()), standing)
        decreases |queue|
      {
        var op := queue[0];
        queue := queue[1..];
        if op.origin.Some? {
          var tag := op.origin.value;
          if tag !in standing {
            Settle(tag, Rejected);
            Drop(tag);
          } else {
            Settle(tag, Accepted);
            Clone(tag);
            steering := steering + [(op.item, tag)];
            Drop(tag);
          }
        }
      }
    }

    /** One queued operation goes, wherever it stands. */
    method RemoveQueued(i: nat)
      requires i < |queue|
      modifies this`queue, this`origins
      ensures State() == Remove(old(State()), i)
    {
      var op := queue[i];
      queue := queue[..i] + queue[i + 1..];
      DropOp(op);
    }

    method TakeCompact() returns (device: Option<nat>)
      modifies this`compact
      ensures device == old(compact) && compact == None
    {
      device := compact;
      compact := None;
    }

    method StartCompaction()
      modifies this`compact, this`compacting
      ensures State() == BeginCompact(old(State()))
    {
      if compacting == None {
        compacting := TakeCompact();
      }
    }

    method EndCompaction(end: CompactEnd)
      modifies this`compacting, this`origins
      ensures State() == EndCompact(old(State()), end)
    {
      if compacting.Some? {
        var device := compacting.value;
        compacting := None;
        match end {
          case Compacted => Settle(device, Done);
          case Cancelled => Settle(device, Rejected);
          case Abandoned =>
        }
        Drop(device);
      }
    }

    /** The host is dropped with everything it owns, and the operations with it. */
    method DropHost()
      modifies this
      ensures State() == HostGone(old(State()))
    {
      DiscardAll();
      ReleaseSteering({});
      EndCompaction(Abandoned);
      if compact.Some? {
        var device := compact.value;
        compact := None;
        Drop(device);
      }
    }
  }

  // ------------------------------------------------------------ runs

  datatype Event =
    | Arrives(request: Request)
    | IdleTicked
    | BusyTicked(live: bool, pending: set<nat>)
    | LocalOp(op: Op)
    | Starts(standing: set<nat>)
    | Finishes
    | Exits
    | Removed(index: nat)
    | Promoted(standing: set<nat>)
    | CompactBegins
    | CompactEnds(end: CompactEnd)
    | HostGoes

  function Step(s: Session, e: Event): Session {
    match e
    case Arrives(request) => s.(incoming := s.incoming + [request])
    case IdleTicked =>
      if !s.current.Idle? then s
      else
        var (s1, work) := IdleTake(s, REQUESTS_PER_TICK);
        if work.Some? && work.value.RunPrompt? then s1.(current := Next(work.value.op)) else s1
    case BusyTicked(live, pending) => BusyTake(Released(s, s.steering, pending), live, REQUESTS_PER_TICK)
    case LocalOp(op) =>
      if op.Prompt? && op.origin.Some? then s else s.(queue := s.queue + [op])
    case Starts(standing) => StartNext(s, standing)
    case Finishes => FinishRunning(s)
    case Exits => Discard(s)
    case Removed(index) => if index < |s.queue| then Remove(s, index) else s
    case Promoted(standing) => Promote(s, standing)
    case CompactBegins => BeginCompact(s)
    case CompactEnds(end) => EndCompact(s, end)
    case HostGoes => HostGone(s)
  }

  function Run(s: Session, es: seq<Event>): Session {
    if es == [] then s else Step(Run(s, es[..|es| - 1]), es[|es| - 1])
  }

  const FRESH: Session := Session([], [], [], [], Idle, [], None, None)

  // ------------------------------------------------------------ what every step keeps

  function OpTimes(op: Op, tag: nat): nat {
    if op.Prompt? && op.origin == Some(tag) then 1 else 0
  }

  function QueueTimes(queue: seq<Op>, tag: nat): nat {
    if queue == [] then 0 else OpTimes(queue[0], tag) + QueueTimes(queue[1..], tag)
  }

  function CurrentTimes(current: Current, tag: nat): nat {
    if current.Idle? then 0 else OpTimes(current.op, tag)
  }

  function SteerTimes(steering: seq<(nat, nat)>, tag: nat): nat {
    if steering == [] then 0
    else SteerTimes(steering[..|steering| - 1], tag) + if steering[|steering| - 1].1 == tag then 1 else 0
  }

  function SlotTimes(slot: Option<nat>, tag: nat): nat {
    if slot == Some(tag) then 1 else 0
  }

  /** How many owners hold the tag, counted place by place. */
  function Holders(s: Session, tag: nat): nat {
    QueueTimes(s.queue, tag) + CurrentTimes(s.current, tag) + SteerTimes(s.steering, tag)
    + SlotTimes(s.compact, tag) + SlotTimes(s.compacting, tag)
  }

  predicate Terminal(r: Report) {
    r != Queued
  }

  predicate Untold(o: Origin) {
    !o.settled && o.told == []
  }

  predicate Waiting(o: Origin) {
    !o.settled && o.told == [Queued]
  }

  predicate Started(o: Origin) {
    o.settled && (o.told == [Accepted] || o.told == [Queued, Accepted])
  }

  /** The device was told exactly one ending, after at most one "queued". */
  predicate Ended(o: Origin) {
    o.settled && ((|o.told| == 1 && Terminal(o.told[0])) || (|o.told| == 2 && o.told[0] == Queued && Terminal(o.told[1])))
  }

  /** What a tag's place says about its authority. */
  predicate TagInv(s: Session, tag: nat) {
    if tag >= |s.origins| then Holders(s, tag) == 0
    else
      var o := s.origins[tag];
      && o.owners == Holders(s, tag) <= 1
      && (QueueTimes(s.queue, tag) > 0 ==> Waiting(o))
      && (CurrentTimes(s.current, tag) > 0 ==> if s.current.Next? then Untold(o) || Waiting(o) else Started(o))
      && (SteerTimes(s.steering, tag) > 0 ==> Started(o))
      && (SlotTimes(s.compact, tag) + SlotTimes(s.compacting, tag) > 0 ==> Untold(o))
      && (Holders(s, tag) == 0 ==> Ended(o))
  }

  ghost predicate Inv(s: Session) {
    && |s.taken| == |s.origins|
    && forall tag: nat :: TagInv(s, tag)
  }

  lemma {:induction false} QueueTimesConcat(a: seq<Op>, b: seq<Op>, tag: nat)
    ensures QueueTimes(a + b, tag) == QueueTimes(a, tag) + QueueTimes(b, tag)
  {
    if a == [] {
      assert a + b == b;
    } else {
      assert (a + b)[1..] == a[1..] + b;
      QueueTimesConcat(a[1..], b, tag);
    }
  }

  lemma QueueTimesOne(op: Op, tag: nat)
    ensures QueueTimes([op], tag) == OpTimes(op, tag)
  {
    assert [op][1..] == [];
  }

  lemma SteerTimesSnoc(steering: seq<(nat, nat)>, x: (nat, nat), tag: nat)
    ensures SteerTimes(steering + [x], tag) == SteerTimes(steering, tag) + if x.1 == tag then 1 else 0
  {
    assert (steering + [x])[..|steering|] == steering;
  }

  lemma TakeEnds(s: Session, report: Report)
    requires Inv(s) && s.incoming != [] && Terminal(report)
    ensures var s1 := Take(s); Inv(s1.(origins := Dropped(Settled(s1.origins, |s.origins|, report), |s.origins|)))
  {
    var s1 := Take(s);
    var after := s1.(origins := Dropped(Settled(s1.origins, |s.origins|, report), |s.origins|));
    forall tag: nat
      ensures TagInv(after, tag)
    {
      assert TagInv(s, tag);
    }
  }

  lemma TakenPromptKeeps(s: Session, item: nat)
    requires Inv(s) && s.incoming != [] && s.current.Idle?
    ensures Inv(Take(s).(current := Next(PhonePrompt(|s.origins|, item))))
  {
    var after := Take(s).(current := Next(PhonePrompt(|s.origins|, item)));
    forall tag: nat
      ensures TagInv(after, tag)
    {
      assert TagInv(s, tag);
    }
  }

  /** A second compaction takes the slot; the device that waited in it is told it did not run. */
  lemma TakenCompactKeeps(s: Session)
    requires Inv(s) && s.incoming != []
    ensures var s1 := Take(s);
            var freed := if s1.compact.Some? then Dropped(s1.origins, s1.compact.value) else s1.origins;
            Inv(s1.(compact := Some(|s.origins|), origins := freed))
  {
    var s1 := Take(s);
    var freed := if s1.compact.Some? then Dropped(s1.origins, s1.compact.value) else s1.origins;
    var after := s1.(compact := Some(|s.origins|), origins := freed);
    if s.compact.Some? {
      assert TagInv(s, s.compact.value);
    }
    forall tag: nat
      ensures TagInv(after, tag)
    {
      assert TagInv(s, tag);
    }
  }

  lemma IdleRequestKeeps(s: Session)
    requires Inv(s) && s.incoming != [] && s.current.Idle?
    ensures var (s1, work) := IdleRequest(s);
            Inv(if work.Some? && work.value.RunPrompt? then s1.(current := Next(work.value.op)) else s1)
    ensures var (s1, work) := IdleRequest(s);
            |s1.taken| == |s.taken| + 1 && s1.taken + s1.incoming == s.taken + s.incoming && s1.current.Idle?
  {
    var work := IdleRequest(s).1;
    if work == None {
      TakeEnds(s, Rejected);
      TakeEnds(s, Done);
    } else if work.value.RunPrompt? {
      TakenPromptKeeps(s, s.incoming[0].item.value);
    } else {
      TakenCompactKeeps(s);
    }
  }

  lemma TakenFollowUpKeeps(s: Session, item: nat)
    requires Inv(s) && s.incoming != []
    ensures var s1, tag := Take(s), |s.origins|;
            Inv(s1.(origins := Told(s1.origins, tag, Queued), queue := s1.queue + [PhonePrompt(tag, item)]))
  {
    var s1, mine := Take(s), |s.origins|;
    var op := PhonePrompt(mine, item);
    var after := s1.(origins := Told(s1.origins, mine, Queued), queue := s1.queue + [op]);
    forall tag: nat
      ensures TagInv(after, tag)
    {
      assert TagInv(s, tag);
      QueueTimesConcat(s.queue, [op], tag);
      QueueTimesOne(op, tag);
    }
  }

  lemma BusyRequestKeeps(s: Session, live: bool)
    requires Inv(s) && s.incoming != []
    ensures Inv(BusyRequest(s, live))
    ensures var s1 := BusyRequest(s, live);
            |s1.taken| == |s.taken| + 1 && s1.taken + s1.incoming == s.taken + s.incoming
  {
    var r := s.incoming[0];
    if r.allowed && r.command == SendPrompt(FollowUp) && r.item.Some? {
      TakenFollowUpKeeps(s, r.item.value);
    } else {
      TakeEnds(s, Rejected);
      TakeEnds(s, Done);
    }
  }

  lemma {:induction false} IdleTakeKeeps(s: Session, n: nat)
    requires Inv(s) && s.current.Idle?
    ensures var (s1, work) := IdleTake(s, n);
            Inv(if work.Some? && work.value.RunPrompt? then s1.(current := Next(work.value.op)) else s1)
    ensures var (s1, _) := IdleTake(s, n);
            |s1.taken| <= |s.taken| + n && s1.taken + s1.incoming == s.taken + s.incoming
    decreases n
  {
    if n > 0 && s.incoming != [] {
      IdleRequestKeeps(s);
      var (s1, work) := IdleRequest(s);
      if work == None {
        IdleTakeKeeps(s1, n - 1);
      }
    }
  }

  lemma {:induction false} BusyTakeKeeps(s: Session, live: bool, n: nat)
    requires Inv(s)
    ensures Inv(BusyTake(s, live, n))
    ensures var s1 := BusyTake(s, live, n);
            |s1.taken| <= |s.taken| + n && s1.taken + s1.incoming == s.taken + s.incoming
    decreases n
  {
    if n > 0 && s.incoming != [] {
      BusyRequestKeeps(s, live);
      BusyTakeKeeps(BusyRequest(s, live), live, n - 1);
    }
  }

  /** A released steer's authority loses its owner and tells nothing new; the others are untouched. */
  lemma {:induction false} ReleasedAt(s: Session, steering: seq<(nat, nat)>, pending: set<nat>, tag: nat)
    requires SteerTimes(steering, tag) <= 1
    requires SteerTimes(steering, tag) == 1 ==> tag < |s.origins| && Started(s.origins[tag]) && s.origins[tag].owners == 1
    ensures var r := Released(s, steering, pending);
            && r == s.(steering := r.steering, origins := r.origins) && |r.origins| == |s.origins|
            && SteerTimes(r.steering, tag) <= SteerTimes(steering, tag)
            && (tag < |s.origins| ==>
                  r.origins[tag] == if SteerTimes(r.steering, tag) == SteerTimes(steering, tag) then s.origins[tag]
                                    else s.origins[tag].(owners := 0))
    decreases |steering|
  {
    if steering != [] {
      var n := |steering| - 1;
      ReleasedAt(s, steering[..n], pending, tag);
      var before := Released(s, steering[..n], pending);
      SteerTimesSnoc(before.steering, steering[n], tag);
    }
  }

  lemma ReleasedKeeps(s: Session, pending: set<nat>)
    requires Inv(s)
    ensures Inv(Released(s, s.steering, pending))
    ensures var r := Released(s, s.steering, pending); r.taken == s.taken && r.incoming == s.incoming
  {
    var r := Released(s, s.steering, pending);
    forall tag: nat
      ensures TagInv(r, tag) && |r.origins| == |s.origins| && r.taken == s.taken && r.incoming == s.incoming
    {
      assert TagInv(s, tag);
      ReleasedAt(s, s.steering, pending, tag);
    }
    assert TagInv(r, 0);
  }

  lemma AdvancedHolds(s: Session, tag: nat)
    ensures var a := Advanced(s.(current := Idle));
            QueueTimes(a.queue, tag) + CurrentTimes(a.current, tag) == QueueTimes(s.queue, tag)
  {
  }

  /** The only owner settles and goes. */
  lemma SettleThenDrop(os: seq<Origin>, tag: nat, report: Report)
    requires tag < |os| && os[tag].owners == 1 && !os[tag].settled
    ensures Dropped(Settled(os, tag, report), tag) == os[tag := Origin(0, true, os[tag].told + [report])]
  {
    assert Settled(os, tag, report)[tag] == Origin(1, true, os[tag].told + [report]);
  }

  lemma RefusedAt(s: Session, refused: nat, tag: nat)
    requires TagInv(s, tag) && TagInv(s, refused)
    requires s.current.Next? && s.current.op.Prompt? && s.current.op.origin == Some(refused)
    ensures TagInv(Advanced(s.(origins := Dropped(Settled(s.origins, refused, Rejected), refused))), tag)
  {
    SettleThenDrop(s.origins, refused, Rejected);
    var os := s.origins[refused := Origin(0, true, s.origins[refused].told + [Rejected])];
    AdvancedHolds(s.(origins := os), tag);
  }

  lemma AcceptedAt(s: Session, accepted: nat, tag: nat)
    requires TagInv(s, tag) && TagInv(s, accepted)
    requires s.current.Next? && s.current.op.Prompt? && s.current.op.origin == Some(accepted)
    ensures TagInv(s.(current := Running(s.current.op), origins := Settled(s.origins, accepted, Accepted)), tag)
  {
  }

  lemma StartNextKeeps(s: Session, standing: set<nat>)
    requires Inv(s)
    ensures Inv(StartNext(s, standing))
  {
    forall tag: nat
      ensures TagInv(StartNext(s, standing), tag)
    {
      assert TagInv(s, tag);
      if s.current.Next? && s.current.op.Prompt? && s.current.op.origin.Some? {
        var origin := s.current.op.origin.value;
        assert TagInv(s, origin);
        if origin in standing {
          AcceptedAt(s, origin, tag);
        } else {
          RefusedAt(s, origin, tag);
        }
      }
    }
  }

  lemma FinishRunningKeeps(s: Session)
    requires Inv(s)
    ensures Inv(FinishRunning(s))
  {
    var after := FinishRunning(s);
    forall tag: nat
      ensures TagInv(after, tag)
    {
      assert TagInv(s, tag);
      AdvancedHolds(s, tag);
      if s.current.Running? && s.current.op.Prompt? && s.current.op.origin.Some? {
        assert TagInv(s, s.current.op.origin.value);
      }
    }
  }

  /** A discarded prompt's device is told it did not run; other authorities are untouched. */
  lemma {:induction false} DroppedOpsAt(os: seq<Origin>, ops: seq<Op>, tag: nat)
    requires QueueTimes(ops, tag) <= 1
    requires QueueTimes(ops, tag) == 1 ==> tag < |os| && Waiting(os[tag]) && os[tag].owners == 1
    ensures var r := DroppedOps(os, ops);
            && |r| == |os|
            && (tag < |os| ==> r[tag] == if QueueTimes(ops, tag) == 0 then os[tag] else Origin(0, true, [Queued, Rejected]))
    decreases |ops|
  {
    if ops != [] {
      DroppedOpsAt(DroppedOp(os, ops[0]), ops[1..], tag);
    }
  }

  lemma DiscardKeeps(s: Session)
    requires Inv(s)
    ensures Inv(Discard(s))
  {
    var after := Discard(s);
    var os := if s.current.Idle? then s.origins else DroppedOp(s.origins, s.current.op);
    forall tag: nat
      ensures TagInv(after, tag) && |after.origins| == |s.origins|
    {
      assert TagInv(s, tag);
      DroppedOpsAt(os, s.queue, tag);
    }
    assert TagInv(after, 0);
  }

  lemma RemoveKeeps(s: Session, i: nat)
    requires Inv(s) && i < |s.queue|
    ensures Inv(Remove(s, i))
  {
    forall tag: nat
      ensures TagInv(Remove(s, i), tag)
    {
      assert TagInv(s, tag);
      RemovedTimes(s.queue, i, tag);
    }
  }

  lemma RemovedTimes(queue: seq<Op>, i: nat, tag: nat)
    requires i < |queue|
    ensures QueueTimes(queue, tag) == QueueTimes(queue[..i] + queue[i + 1..], tag) + OpTimes(queue[i], tag)
  {
    var front, op, back := queue[..i], queue[i], queue[i + 1..];
    assert queue == front + ([op] + back);
    QueueTimesConcat(front, [op] + back, tag);
    QueueTimesConcat([op], back, tag);
    QueueTimesConcat(front, back, tag);
    QueueTimesOne(op, tag);
  }

  lemma SettleCloneDrop(os: seq<Origin>, tag: nat)
    requires tag < |os| && os[tag] == Origin(1, false, [Queued])
    ensures Dropped(Cloned(Settled(os, tag, Accepted), tag), tag) == os[tag := Origin(1, true, [Queued, Accepted])]
  {
    var settled := Settled(os, tag, Accepted);
    assert settled[tag] == Origin(1, true, [Queued, Accepted]);
    CloneThenDrop(settled, tag);
  }

  lemma SteeredAt(s: Session, promoted: nat, tag: nat)
    requires TagInv(s, tag) && TagInv(s, promoted)
    requires s.queue != [] && s.queue[0].Prompt? && s.queue[0].origin == Some(promoted)
    ensures TagInv(s.(queue := s.queue[1..], steering := s.steering + [(s.queue[0].item, promoted)],
                      origins := Dropped(Cloned(Settled(s.origins, promoted, Accepted), promoted), promoted)), tag)
  {
    assert QueueTimes(s.queue, tag) == OpTimes(s.queue[0], tag) + QueueTimes(s.queue[1..], tag);
    SettleCloneDrop(s.origins, promoted);
    SteerTimesSnoc(s.steering, (s.queue[0].item, promoted), tag);
  }

  lemma UnqueuedAt(s: Session, refused: nat, tag: nat)
    requires TagInv(s, tag) && TagInv(s, refused)
    requires s.queue != [] && s.queue[0].Prompt? && s.queue[0].origin == Some(refused)
    ensures TagInv(s.(queue := s.queue[1..],
                      origins := Dropped(Settled(s.origins, refused, Rejected), refused)), tag)
  {
    assert QueueTimes(s.queue, tag) == OpTimes(s.queue[0], tag) + QueueTimes(s.queue[1..], tag);
    SettleThenDrop(s.origins, refused, Rejected);
  }

  lemma PromoteOneAt(s: Session, standing: set<nat>, promoted: nat, tag: nat)
    requires TagInv(s, tag) && TagInv(s, promoted)
    requires s.queue != [] && s.queue[0].Prompt? && s.queue[0].origin == Some(promoted)
    ensures TagInv(PromoteOne(s, standing), tag)
  {
    if promoted in standing {
      SteeredAt(s, promoted, tag);
    } else {
      UnqueuedAt(s, promoted, tag);
    }
  }

  lemma PromoteOneKeeps(s: Session, standing: set<nat>)
    requires Inv(s) && s.queue != [] && s.queue[0].Prompt?
    ensures Inv(PromoteOne(s, standing))
  {
    var op, after := s.queue[0], PromoteOne(s, standing);
    forall tag: nat
      ensures TagInv(after, tag) && |after.origins| == |s.origins|
    {
      assert TagInv(s, tag);
      if op.origin.Some? {
        assert TagInv(s, op.origin.value);
        PromoteOneAt(s, standing, op.origin.value, tag);
      }
    }
    assert TagInv(after, 0);
  }

  lemma {:induction false} PromoteKeeps(s: Session, standing: set<nat>)
    requires Inv(s)
    ensures Inv(Promote(s, standing))
    ensures var p := Promote(s, standing); p.taken == s.taken && p.incoming == s.incoming
    decreases |s.queue|
  {
    if Promotable(s) {
      PromoteOneKeeps(s, standing);
      PromoteKeeps(PromoteOne(s, standing), standing);
    }
  }

  lemma CompactKeeps(s: Session, end: CompactEnd)
    requires Inv(s)
    ensures Inv(BeginCompact(s)) && Inv(EndCompact(s, end))
  {
    var begun, ended := BeginCompact(s), EndCompact(s, end);
    forall tag: nat
      ensures TagInv(begun, tag) && TagInv(ended, tag)
    {
      assert TagInv(s, tag);
      if s.compacting.Some? {
        assert TagInv(s, s.compacting.value);
      }
    }
  }

  lemma PlainStepKeeps(s: Session, e: Event)
    requires Inv(s) && (e.Arrives? || e.LocalOp?)
    ensures Inv(Step(s, e))
  {
    forall tag: nat
      ensures TagInv(Step(s, e), tag)
    {
      assert TagInv(s, tag);
      if e.LocalOp? {
        QueueTimesConcat(s.queue, [e.op], tag);
        QueueTimesOne(e.op, tag);
      }
    }
  }

  lemma HostGoneKeeps(s: Session)
    requires Inv(s)
    ensures Inv(HostGone(s))
    ensures HostGone(s).taken == s.taken && HostGone(s).incoming == s.incoming
  {
    DiscardKeeps(s);
    ReleasedKeeps(Discard(s), {});
    var s1 := Released(Discard(s), s.steering, {});
    CompactKeeps(s1, Abandoned);
    CompactKeeps(EndCompact(s1, Abandoned), Abandoned);
    var s2 := EndCompact(s1, Abandoned);
    CompactKeeps(BeginCompact(s2), Abandoned);
    assert HostGone(s) == EndCompact(BeginCompact(s2), Abandoned);
  }

  lemma StepKeeps(s: Session, e: Event)
    requires Inv(s)
    ensures Inv(Step(s, e))
    ensures var s1 := Step(s, e);
            && |s1.taken| <= |s.taken| + REQUESTS_PER_TICK
            && s1.taken + s1.incoming == s.taken + (s.incoming + if e.Arrives? then [e.request] else [])
  {
    match e
    case Arrives(request) =>
      PlainStepKeeps(s, e);
      assert s.taken + (s.incoming + [request]) == s.taken + s.incoming + [request];
    case IdleTicked =>
      if s.current.Idle? {
        IdleTakeKeeps(s, REQUESTS_PER_TICK);
      }
    case BusyTicked(live, pending) =>
      ReleasedKeeps(s, pending);
      BusyTakeKeeps(Released(s, s.steering, pending), live, REQUESTS_PER_TICK);
    case LocalOp(op) => PlainStepKeeps(s, e);
    case Starts(standing) => StartNextKeeps(s, standing);
    case Finishes => FinishRunningKeeps(s);
    case Exits => DiscardKeeps(s);
    case Removed(index) =>
      if index < |s.queue| {
        RemoveKeeps(s, index);
      }
    case Promoted(standing) => PromoteKeeps(s, standing);
    case CompactBegins => CompactKeeps(s, Abandoned);
    case CompactEnds(end) => CompactKeeps(s, end);
    case HostGoes => HostGoneKeeps(s);
  }

  /** Every request that arrives in a run, in order. */
  function Arrivals(es: seq<Event>): seq<Request> {
    if es == [] then []
    else Arrivals(es[..|es| - 1]) + if es[|es| - 1].Arrives? then [es[|es| - 1].request] else []
  }

  /** Requests are taken first come, first served, none skipped or taken twice, at most eight a step. */
  lemma {:induction false} TakenInOrder(es: seq<Event>)
    ensures Inv(Run(FRESH, es))
    ensures var s := Run(FRESH, es); s.taken + s.incoming == Arrivals(es) && |s.origins| == |s.taken|
    ensures es != [] ==> |Run(FRESH, es).taken| <= |Run(FRESH, es[..|es| - 1]).taken| + REQUESTS_PER_TICK
    decreases |es|
  {
    if es != [] {
      var s, e := Run(FRESH, es[..|es| - 1]), es[|es| - 1];
      TakenInOrder(es[..|es| - 1]);
      StepKeeps(s, e);
      assert s.taken + (s.incoming + if e.Arrives? then [e.request] else [])
             == (s.taken + s.incoming) + if e.Arrives? then [e.request] else [];
    }
  }

  /**
    Settlement, over every run: the device of a request taken hears at most one ending,
    exactly one once no owner holds its authority, and "queued" only before it. The
    owner count is the number of places that hold the tag, and never more than one.
   */
  lemma EveryRequestSettledOnce(es: seq<Event>, tag: nat)
    requires tag < |Run(FRESH, es).origins|
    ensures var s := Run(FRESH, es); var o := s.origins[tag];
            && (Untold(o) || Waiting(o) || Ended(o))
            && (o.owners == 0 ==> Ended(o))
            && (o.owners == 0 <==> Holders(s, tag) == 0) && o.owners <= 1
  {
    TakenInOrder(es);
    assert TagInv(Run(FRESH, es), tag);
  }

  /** Nothing a device asked runs unless that device was told it was accepted, and nothing else. */
  lemma RunsOnlyWhatWasAccepted(es: seq<Event>)
    ensures var s := Run(FRESH, es);
            && (s.current.Running? && s.current.op.Prompt? && s.current.op.origin.Some? ==>
                  s.current.op.origin.value < |s.origins| && Started(s.origins[s.current.op.origin.value]))
            && (forall k :: 0 <= k < |s.steering| ==>
                  s.steering[k].1 < |s.origins| && Started(s.origins[s.steering[k].1]))
  {
    TakenInOrder(es);
    var s := Run(FRESH, es);
    if s.current.Running? && s.current.op.Prompt? && s.current.op.origin.Some? {
      assert TagInv(s, s.current.op.origin.value);
    }
    forall k | 0 <= k < |s.steering|
      ensures s.steering[k].1 < |s.origins| && Started(s.origins[s.steering[k].1])
    {
      SteerTimesAt(s.steering, k);
      assert TagInv(s, s.steering[k].1);
    }
  }

  lemma {:induction false} SteerTimesAt(steering: seq<(nat, nat)>, k: nat)
    requires k < |steering|
    ensures SteerTimes(steering, steering[k].1) > 0
    decreases |steering|
  {
    if k < |steering| - 1 {
      SteerTimesAt(steering[..|steering| - 1], k);
    }
  }

  lemma {:induction false} NothingPendingNothingHeld(s: Session, steering: seq<(nat, nat)>)
    ensures Released(s, steering, {}).steering == [] && Released(s, steering, {}).queue == s.queue
    ensures Released(s, steering, {}).current == s.current
    decreases |steering|
  {
    if steering != [] {
      NothingPendingNothingHeld(s, steering[..|steering| - 1]);
    }
  }

  /** When the terminal ends, whatever was queued, running, steering or compacting, every request ever taken is settled. */
  lemma LeavingSettlesEverything(es: seq<Event>)
    ensures var s := Run(FRESH, es + [HostGoes]);
            (forall o :: o in s.origins ==> Ended(o) && o.owners == 0) && forall tag: nat :: Holders(s, tag) == 0
  {
    var all := es + [HostGoes];
    assert all[..|all| - 1] == es;
    TakenInOrder(all);
    var before := Run(FRESH, es);
    NothingPendingNothingHeld(Discard(before), before.steering);
    var s := Run(FRESH, all);
    assert s.queue == [] && s.steering == [] && s.current == Idle && s.compact == None && s.compacting == None;
    forall o | o in s.origins
      ensures Ended(o) && o.owners == 0
    {
      var tag :| 0 <= tag < |s.origins| && s.origins[tag] == o;
      assert TagInv(s, tag);
    }
  }

  // ------------------------------------------------------------ every request gets its due

  /** A request that starts work stays with its owner; any other is ended. */
  function IdleDue(r: Request): Origin {
    if AsksToRun(r) || AsksToCompact(r) then Origin(1, false, []) else Origin(0, true, [IdleEnding(r)])
  }

  function IdleDues(requests: seq<Request>): seq<Origin> {
    seq(|requests|, i requires 0 <= i < |requests| => IdleDue(requests[i]))
  }

  function WorkOf(r: Request, tag: nat): Option<Work> {
    if AsksToRun(r) then Some(RunPrompt(Prompt(r.item.value, false, Some(tag))))
    else if AsksToCompact(r) then Some(RunCompact(r.command.slash.force))
    else None
  }

  /** How many of the waiting requests a tick takes: up to `n`, and none behind one that starts work. */
  function IdleCount(requests: seq<Request>, n: nat): (k: nat)
    ensures k <= n && k <= |requests|
    decreases n
  {
    if n == 0 || requests == [] then 0
    else if AsksToRun(requests[0]) || AsksToCompact(requests[0]) then 1
    else 1 + IdleCount(requests[1..], n - 1)
  }

  lemma {:induction false} IdleCountStopsAtWork(requests: seq<Request>, n: nat)
    ensures var k := IdleCount(requests, n);
            && (forall i :: 0 <= i < k - 1 ==> !AsksToRun(requests[i]) && !AsksToCompact(requests[i]))
            && (k < n && k < |requests| ==> k > 0 && (AsksToRun(requests[k - 1]) || AsksToCompact(requests[k - 1])))
    decreases n
  {
    if n > 0 && requests != [] && !AsksToRun(requests[0]) && !AsksToCompact(requests[0]) {
      IdleCountStopsAtWork(requests[1..], n - 1);
      var k := IdleCount(requests, n);
      forall i | 0 <= i < k - 1
        ensures !AsksToRun(requests[i]) && !AsksToCompact(requests[i])
      {
        assert i > 0 ==> requests[i] == requests[1..][i - 1];
      }
    }
  }

  lemma OneIdleRequest(s: Session)
    requires s.incoming != []
    ensures var r, tag := s.incoming[0], |s.origins|;
            var (s1, work) := IdleRequest(s);
            && work == WorkOf(r, tag)
            && |s1.origins| == tag + 1
            && (work == None ==> s1.origins == s.origins + [IdleDue(r)])
            && ((s.compact.Some? ==> s.compact.value < tag) ==> s1.origins[tag] == IdleDue(r))
  {
    EndedAtOnce(s, Rejected);
    EndedAtOnce(s, Done);
  }

  /** A request decided as it is taken: its only owner settles it and goes. */
  lemma EndedAtOnce(s: Session, report: Report)
    requires s.incoming != []
    ensures Dropped(Settled(Take(s).origins, |s.origins|, report), |s.origins|) == s.origins + [Origin(0, true, [report])]
  {
    var os := Take(s).origins;
    assert os == s.origins + [Origin(1, false, [])];
    SettleThenDrop(os, |s.origins|, report);
    assert [] + [report] == [report];
  }

  lemma OneIdleRequestFrame(s: Session)
    requires s.incoming != []
    ensures var r, s1 := s.incoming[0], IdleRequest(s).0;
            && s1.compact == (if AsksToCompact(r) then Some(|s.origins|) else s.compact)
            && s1.taken == s.taken + [r] && s1.incoming == s.incoming[1..] && s1.current == s.current
  {
  }

  /** What a run of idle requests leaves, and what it asks for. */
  predicate IdleAnswered(s: Session, after: Session, work: Option<Work>, k: nat) {
    && k <= |s.incoming| && after.taken == s.taken + s.incoming[..k] && after.incoming == s.incoming[k..]
    && |after.origins| == |s.origins| + k && after.origins[|s.origins|..] == IdleDues(s.incoming[..k])
    && work == (if k == 0 then None else WorkOf(s.incoming[k - 1], |s.origins| + k - 1))
    && after.compact == (if k > 0 && AsksToCompact(s.incoming[k - 1]) then Some(|s.origins| + k - 1) else s.compact)
    && after.current == s.current
  }

  lemma FirstAnswerAddsUp(s: Session, s1: Session, after: Session, work: Option<Work>, k: nat)
    requires s.incoming != [] && s1.incoming == s.incoming[1..] && s1.taken == s.taken + [s.incoming[0]]
    requires s1.compact == s.compact && s1.current == s.current && WorkOf(s.incoming[0], |s.origins|) == None
    requires |s1.origins| == |s.origins| + 1 && IdleAnswered(s1, after, work, k)
    requires after.origins[|s.origins|] == IdleDue(s.incoming[0])
    ensures IdleAnswered(s, after, work, k + 1)
  {
    var r, rest := s.incoming[0], s.incoming[1..];
    assert s.incoming[..k + 1] == [r] + rest[..k];
    assert after.origins[|s.origins|..] == [IdleDue(r)] + after.origins[|s.origins| + 1..];
    assert IdleDues([r] + rest[..k]) == [IdleDue(r)] + IdleDues(rest[..k]);
    assert after.taken == s.taken + ([r] + rest[..k]);
    if k > 0 {
      assert s.incoming[k] == rest[k - 1];
    }
  }

  lemma {:induction false} IdleTakeKeepsOlder(s: Session, n: nat, t: nat)
    requires (s.compact.Some? ==> s.compact.value < |s.origins|) && t < |s.origins| && Some(t) != s.compact
    ensures var after := IdleTake(s, n).0; t < |after.origins| && after.origins[t] == s.origins[t]
    decreases n
  {
    if n > 0 && s.incoming != [] {
      OneIdleRequest(s);
      OneIdleRequestFrame(s);
      var (s1, work) := IdleRequest(s);
      if work == None {
        IdleTakeKeepsOlder(s1, n - 1, t);
      }
    }
  }

  lemma OneAnswer(s: Session)
    requires s.incoming != [] && (s.compact.Some? ==> s.compact.value < |s.origins|)
    ensures IdleAnswered(s, IdleRequest(s).0, IdleRequest(s).1, 1)
  {
    OneIdleRequest(s);
    OneIdleRequestFrame(s);
    var s1, r := IdleRequest(s).0, s.incoming[0];
    assert s.incoming[..1] == [r] && s1.origins[|s.origins|..] == [IdleDue(r)] && IdleDues([r]) == [IdleDue(r)];
  }

  lemma NoAnswer(s: Session)
    ensures IdleAnswered(s, s, None, 0)
  {
    assert s.taken + s.incoming[..0] == s.taken && s.origins[|s.origins|..] == IdleDues(s.incoming[..0]);
  }

  /** A request that starts no work is ended, and the tick goes on behind it. */
  lemma IdleTakeGoesOn(s: Session, n: nat)
    requires n > 0 && s.incoming != [] && WorkOf(s.incoming[0], |s.origins|) == None
    requires s.compact.Some? ==> s.compact.value < |s.origins|
    ensures var s1 := IdleRequest(s).0;
            && IdleTake(s, n) == IdleTake(s1, n - 1)
            && s1.incoming == s.incoming[1..] && s1.taken == s.taken + [s.incoming[0]]
            && s1.compact == s.compact && s1.current == s.current && |s1.origins| == |s.origins| + 1
            && s1.origins[|s.origins|] == IdleDue(s.incoming[0])
  {
    OneIdleRequest(s);
    OneIdleRequestFrame(s);
  }

  lemma IdleTakeEnds(s: Session, n: nat)
    requires n > 0 && s.incoming != [] && WorkOf(s.incoming[0], |s.origins|).Some?
    ensures IdleTake(s, n) == IdleRequest(s)
  {
    OneIdleRequest(s);
  }

  lemma {:induction false} IdleTakeAnswers(s: Session, n: nat, after: Session, work: Option<Work>)
    requires (s.compact.Some? ==> s.compact.value < |s.origins|) && IdleTake(s, n) == (after, work)
    ensures IdleAnswered(s, after, work, IdleCount(s.incoming, n))
    decreases n
  {
    if n == 0 || s.incoming == [] {
      NoAnswer(s);
    } else if WorkOf(s.incoming[0], |s.origins|).Some? {
      IdleTakeEnds(s, n);
      OneAnswer(s);
    } else {
      IdleTakeGoesOn(s, n);
      var s1 := IdleRequest(s).0;
      IdleTakeAnswers(s1, n - 1, after, work);
      IdleTakeKeepsOlder(s1, n - 1, |s.origins|);
      FirstAnswerAddsUp(s, s1, after, work, IdleCount(s1.incoming, n - 1));
    }
  }

  /**
    The first `k` requests are answered as each is due: a prompt that may run comes next, a
    compaction takes the slot; every other one is told "done" or "not run" at once.
   */
  predicate IdleTickAnswered(s: Session, after: Session, k: nat) {
    && k <= |s.incoming| && after.taken == s.taken + s.incoming[..k] && after.incoming == s.incoming[k..]
    && |after.origins| == |s.origins| + k && after.origins[|s.origins|..] == IdleDues(s.incoming[..k])
    && after.current == (if k > 0 && AsksToRun(s.incoming[k - 1])
                         then Next(Prompt(s.incoming[k - 1].item.value, false, Some(|s.origins| + k - 1)))
                         else Idle)
    && after.compact == (if k > 0 && AsksToCompact(s.incoming[k - 1]) then Some(|s.origins| + k - 1) else s.compact)
  }

  lemma WorkStarts(s: Session, after: Session, work: Option<Work>, k: nat)
    requires s.current.Idle? && IdleAnswered(s, after, work, k)
    ensures IdleTickAnswered(s, if work.Some? && work.value.RunPrompt? then after.(current := Next(work.value.op)) else after, k)
  {
  }

  /** An idle tick answers up to eight requests, none behind one that starts work. */
  lemma {:induction false} IdleRequestsGetTheirDue(s: Session)
    requires s.current.Idle? && (s.compact.Some? ==> s.compact.value < |s.origins|)
    ensures IdleTickAnswered(s, Step(s, IdleTicked), IdleCount(s.incoming, REQUESTS_PER_TICK))
  {
    var (after, work) := IdleTake(s, REQUESTS_PER_TICK);
    IdleTakeAnswers(s, REQUESTS_PER_TICK, after, work);
    WorkStarts(s, after, work, IdleCount(s.incoming, REQUESTS_PER_TICK));
  }

  /** A follow-up waits, told so; any other request is ended. */
  function BusyDue(r: Request, live: bool): Origin {
    if AsksToQueue(r) then Origin(1, false, [Queued]) else Origin(0, true, [BusyEnding(r, live)])
  }

  function BusyDues(requests: seq<Request>, live: bool): seq<Origin> {
    seq(|requests|, i requires 0 <= i < |requests| => BusyDue(requests[i], live))
  }

  /** The prompts queued by `requests`, whose authorities are numbered from `tag` on. */
  function QueuedBy(requests: seq<Request>, tag: nat): seq<Op> {
    if requests == [] then []
    else
      var n := |requests| - 1;
      QueuedBy(requests[..n], tag)
      + if AsksToQueue(requests[n]) then [Prompt(requests[n].item.value, false, Some(tag + n))] else []
  }

  predicate BusyAnswered(s: Session, after: Session, live: bool, k: nat) {
    && k <= |s.incoming| && after.taken == s.taken + s.incoming[..k] && after.incoming == s.incoming[k..]
    && after.origins == s.origins + BusyDues(s.incoming[..k], live)
    && after.queue == s.queue + QueuedBy(s.incoming[..k], |s.origins|)
  }

  lemma OneBusyRequest(s: Session, live: bool)
    requires s.incoming != []
    ensures var r, tag, s1 := s.incoming[0], |s.origins|, BusyRequest(s, live);
            && s1.origins == s.origins + [BusyDue(r, live)]
            && s1.queue == s.queue + (if AsksToQueue(r) then [Prompt(r.item.value, false, Some(tag))] else [])
            && s1.taken == s.taken + [r] && s1.incoming == s.incoming[1..]
  {
    EndedAtOnce(s, Rejected);
    EndedAtOnce(s, Done);
    assert Take(s).origins == s.origins + [Origin(1, false, [])];
    assert Told(Take(s).origins, |s.origins|, Queued) == s.origins + [Origin(1, false, [Queued])] by {
      assert [] + [Queued] == [Queued];
    }
  }

  lemma {:induction false} BusySnoc(s: Session, live: bool, n: nat)
    requires n < |s.incoming|
    ensures BusyTake(s, live, n).incoming == s.incoming[n..]
    ensures BusyTake(s, live, n + 1) == BusyRequest(BusyTake(s, live, n), live)
    decreases n
  {
    OneBusyRequest(s, live);
    var s1 := BusyRequest(s, live);
    if n > 0 {
      BusySnoc(s1, live, n - 1);
      assert s1.incoming[n - 1..] == s.incoming[n..];
    } else {
      assert BusyTake(s1, live, 0) == s1;
    }
  }

  lemma BusyAnswersAddUp(s: Session, before: Session, live: bool, k: nat)
    requires k < |s.incoming| && BusyAnswered(s, before, live, k)
    ensures BusyAnswered(s, BusyRequest(before, live), live, k + 1)
  {
    OneBusyRequest(before, live);
    var r := s.incoming[k];
    var now, next := s.incoming[..k], s.incoming[..k + 1];
    assert before.incoming[0] == r && before.incoming[1..] == s.incoming[k + 1..];
    assert next == now + [r] && next[..k] == now && next[k] == r;
    assert BusyDues(next, live) == BusyDues(now, live) + [BusyDue(r, live)];
    Joined(s.origins, BusyDues(now, live), [BusyDue(r, live)]);
    Joined(s.taken, now, [r]);
    Joined(s.queue, QueuedBy(now, |s.origins|),
           if AsksToQueue(r) then [Prompt(r.item.value, false, Some(|s.origins| + k))] else []);
  }

  lemma Joined<T>(a: seq<T>, b: seq<T>, c: seq<T>)
    ensures a + (b + c) == a + b + c
  {
  }

  lemma {:induction false} BusyTakeAnswers(s: Session, live: bool, k: nat)
    requires k <= |s.incoming|
    ensures BusyAnswered(s, BusyTake(s, live, k), live, k)
    decreases k
  {
    if k > 0 {
      BusyTakeAnswers(s, live, k - 1);
      BusySnoc(s, live, k - 1);
      BusyAnswersAddUp(s, BusyTake(s, live, k - 1), live, k - 1);
    }
  }

  lemma {:induction false} BusyTakeStops(s: Session, live: bool, n: nat)
    requires n >= |s.incoming|
    ensures BusyTake(s, live, n) == BusyTake(s, live, |s.incoming|)
    decreases n
  {
    if s.incoming != [] {
      OneBusyRequest(s, live);
      BusyTakeStops(BusyRequest(s, live), live, n - 1);
    }
  }

  lemma DroppedLength(os: seq<Origin>, tag: nat)
    ensures |Dropped(os, tag)| == |os|
  {
  }

  lemma {:induction false} ReleasedFrame(s: Session, steering: seq<(nat, nat)>, pending: set<nat>)
    ensures var r := Released(s, steering, pending);
            && |r.origins| == |s.origins| && r.incoming == s.incoming && r.taken == s.taken && r.queue == s.queue
            && r.current == s.current && r.compact == s.compact && r.compacting == s.compacting
    decreases |steering|
  {
    if steering != [] {
      var n := |steering| - 1;
      ReleasedFrame(s, steering[..n], pending);
      DroppedLength(Released(s, steering[..n], pending).origins, steering[n].1);
    }
  }

  /**
    A busy tick takes up to eight requests and answers as each is due: a follow-up is told
    "queued" and joins the queue's end, in order; every other one is told "done" or "not run".
   */
  lemma {:induction false} BusyRequestsGetTheirDue(s: Session, live: bool, pending: set<nat>)
    ensures var after := Step(s, BusyTicked(live, pending));
            var k := if |s.incoming| < REQUESTS_PER_TICK then |s.incoming| else REQUESTS_PER_TICK;
            && after.taken == s.taken + s.incoming[..k] && after.incoming == s.incoming[k..]
            && after.queue == s.queue + QueuedBy(s.incoming[..k], |s.origins|)
            && |after.origins| == |s.origins| + k
            && after.origins[|s.origins|..] == BusyDues(s.incoming[..k], live)
  {
    ReleasedFrame(s, s.steering, pending);
    var s1 := Released(s, s.steering, pending);
    var k := if |s.incoming| < REQUESTS_PER_TICK then |s.incoming| else REQUESTS_PER_TICK;
    if k < REQUESTS_PER_TICK {
      BusyTakeStops(s1, live, REQUESTS_PER_TICK);
    }
    BusyTakeAnswers(s1, live, k);
  }

  // ------------------------------------------------------------ what becomes of an accepted request

  /** A device's prompt that comes up runs, told so, if its device may still have it run; if not the next one comes up. */
  lemma StartingAnswers(s: Session, standing: set<nat>, tag: nat)
    requires Inv(s) && s.current.Next? && s.current.op.Prompt? && s.current.op.origin == Some(tag)
    ensures tag < |s.origins|
    ensures var after, o := Step(s, Starts(standing)), s.origins[tag];
            && |after.origins| == |s.origins| && after.origins == s.origins[tag := after.origins[tag]]
            && if tag in standing then
                 after.current == Running(s.current.op) && after.queue == s.queue
                 && after.origins[tag] == Origin(1, true, o.told + [Accepted])
               else
                 && after.current == (if s.queue == [] then Idle else Next(s.queue[0]))
                 && after.queue == (if s.queue == [] then [] else s.queue[1..])
                 && after.origins[tag] == Origin(0, true, o.told + [Rejected])
  {
    assert TagInv(s, tag);
    if tag !in standing {
      SettleThenDrop(s.origins, tag, Rejected);
    }
  }

  /** An operation of the terminal's own runs whatever stands. */
  lemma LocalOperationsStart(s: Session, standing: set<nat>)
    requires s.current.Next? && (s.current.op.Prompt? ==> s.current.op.origin == None)
    ensures Step(s, Starts(standing)) == s.(current := Running(s.current.op))
  {
  }

  /** A finished operation gives way to the queue's front; its device hears nothing more. */
  lemma FinishingAnswers(s: Session)
    requires Inv(s) && s.current.Running?
    ensures s.current.op.Prompt? && s.current.op.origin.Some? ==> s.current.op.origin.value < |s.origins|
    ensures var after := Step(s, Finishes);
            && after.current == (if s.queue == [] then Idle else Next(s.queue[0]))
            && after.queue == (if s.queue == [] then [] else s.queue[1..])
            && after.origins == (if s.current.op.Prompt? && s.current.op.origin.Some?
                                 then var tag := s.current.op.origin.value;
                                      s.origins[tag := s.origins[tag].(owners := 0)]
                                 else s.origins)
  {
    if s.current.op.Prompt? && s.current.op.origin.Some? {
      assert TagInv(s, s.current.op.origin.value);
    }
  }

  lemma SoleOwnerSettles(os: seq<Origin>, tag: nat, report: Report)
    requires tag < |os| && os[tag] == Origin(1, false, [])
    ensures Dropped(Settled(os, tag, report), tag) == os[tag := Origin(0, true, [report])]
  {
    SettleThenDrop(os, tag, report);
    assert [] + [report] == [report];
  }

  /** How a compaction ended is what its device hears: "done" for a result, "not run" without one. */
  lemma CompactingAnswers(s: Session, end: CompactEnd, tag: nat)
    requires Inv(s) && s.compacting == Some(tag)
    ensures tag < |s.origins|
    ensures Step(s, CompactEnds(end))
            == s.(compacting := None, origins := s.origins[tag := Origin(0, true, [if end.Compacted? then Done else Rejected])])
  {
    assert TagInv(s, tag);
    assert s.origins[tag] == Origin(1, false, []);
    match end
    case Compacted => SoleOwnerSettles(s.origins, tag, Done);
    case Cancelled => SoleOwnerSettles(s.origins, tag, Rejected);
    case Abandoned => assert [] + [Rejected] == [Rejected];
  }

  /** A compaction that begins takes the waiting device along; one that runs keeps its own. */
  lemma CompactionTakesItsDevice(s: Session)
    ensures var after := Step(s, CompactBegins);
            if s.compacting.Some? then after == s
            else after.compacting == s.compact && after.compact == None && after.origins == s.origins
  {
  }

  /** Leaving tells every queued device its prompt did not run. */
  lemma ExitingAnswers(s: Session, tag: nat)
    requires Inv(s) && tag < |s.origins| && QueueTimes(s.queue, tag) > 0
    ensures var after := Step(s, Exits);
            after.queue == [] && after.current == Idle && tag < |after.origins|
            && after.origins[tag] == Origin(0, true, [Queued, Rejected])
  {
    assert TagInv(s, tag);
    var os := if s.current.Idle? then s.origins else DroppedOp(s.origins, s.current.op);
    DroppedOpsAt(os, s.queue, tag);
  }

  /** A queued prompt that goes is told "not run", and only it goes. */
  lemma RemovingAnswers(s: Session, i: nat)
    requires Inv(s) && i < |s.queue|
    ensures var after, op := Step(s, Removed(i)), s.queue[i];
            && after.queue == s.queue[..i] + s.queue[i + 1..] && after.current == s.current
            && (op.Prompt? && op.origin.Some? ==>
                  op.origin.value < |after.origins| && after.origins[op.origin.value] == Origin(0, true, [Queued, Rejected]))
  {
    var op := s.queue[i];
    if op.Prompt? && op.origin.Some? {
      assert TagInv(s, op.origin.value);
      RemovedTimes(s.queue, i, op.origin.value);
    }
  }

  /** One prompt at the queue's front becomes a steer, told so, if its device may still have it; if not it is told "not run". */
  lemma PromotingAnswers(s: Session, standing: set<nat>, tag: nat)
    requires Inv(s) && s.queue != [] && s.queue[0].Prompt? && !s.queue[0].attachments && s.queue[0].origin == Some(tag)
    ensures tag < |s.origins|
    ensures Step(s, Promoted(standing))
            == Step(if tag in standing
                    then s.(queue := s.queue[1..], steering := s.steering + [(s.queue[0].item, tag)],
                            origins := s.origins[tag := Origin(1, true, [Queued, Accepted])])
                    else s.(queue := s.queue[1..], origins := s.origins[tag := Origin(0, true, [Queued, Rejected])]),
                    Promoted(standing))
  {
    assert TagInv(s, tag);
    assert s.origins[tag] == Origin(1, false, [Queued]);
    if tag in standing {
      SettleCloneDrop(s.origins, tag);
    } else {
      SettleThenDrop(s.origins, tag, Rejected);
      assert [Queued] + [Rejected] == [Queued, Rejected];
    }
    assert Step(s, Promoted(standing)) == Promote(PromoteOne(s, standing), standing);
  }

  /** Promotion passes the terminal's own prompts, and stops at the first operation that cannot be a steer. */
  lemma PromotionStops(s: Session, standing: set<nat>)
    ensures s.queue == [] || !s.queue[0].Prompt? || s.queue[0].attachments ==> Step(s, Promoted(standing)) == s
    ensures s.queue != [] && s.queue[0].Prompt? && !s.queue[0].attachments && s.queue[0].origin == None ==>
              Step(s, Promoted(standing)) == Step(s.(queue := s.queue[1..]), Promoted(standing))
  {
  }
}
