/**
  Permission asks shared between the keyboard and paired devices: a registry in which the
  first answer wins, and the turn's approver, which opens an ask, waits for either answer,
  and reads back what the registry recorded.

  The registry is shared, so its operations interleave with the approver's between any two
  of its waits; each is one atomic step. An ask without a deadline stands for the source's
  deadline ten years ahead.
 */
module Asks {
  import opened Options

  const RECENT_CAPACITY: nat := 256

  datatype Outcome = Allowed | Denied | Expired | Cancelled

  datatype Principal = Local | Device(id: nat)

  datatype Refusal = AlreadyResolved(outcome: Outcome) | PastDeadline | Unknown

  datatype Answer = Recorded(outcome: Outcome) | Refused(why: Refusal)

  datatype Entry = Entry(id: nat, outcome: Outcome, who: Option<Principal>)

  // ------------------------------------------------------------ the registry

  /**
    Asks awaiting an answer with their deadlines, the last ones that ended, and what each
    ask's waiter was handed. `log` is every ask that ever ended, in order.
   */
  datatype Registry = Registry(
    pending: map<nat, Option<nat>>, recent: seq<Entry>, delivered: map<nat, Outcome>, log: seq<Entry>)

  /** The newest entry for `id`. */
  function Lookup(entries: seq<Entry>, id: nat): Option<Entry> {
    if entries == [] then None
    else if entries[|entries| - 1].id == id then Some(entries[|entries| - 1])
    else Lookup(entries[..|entries| - 1], id)
  }

  /** The one terminal transition of a pending ask. */
  function Finished(r: Registry, id: nat, outcome: Outcome, who: Option<Principal>): Registry {
    if id !in r.pending then r
    else
      var kept := if |r.recent| == RECENT_CAPACITY then r.recent[1..] else r.recent;
      var entry := Entry(id, outcome, who);
      Registry(r.pending - {id}, kept + [entry], r.delivered[id := outcome], r.log + [entry])
  }

  function Replied(r: Registry, id: nat, allow: bool, who: Principal, now: nat): (Registry, Answer) {
    if id !in r.pending then
      var known := Lookup(r.recent, id);
      (r, Refused(if known == None then Unknown else AlreadyResolved(known.value.outcome)))
    else if r.pending[id].Some? && now >= r.pending[id].value then
      (Finished(r, id, Expired, None), Refused(PastDeadline))
    else
      var outcome := if allow then Allowed else Denied;
      (Finished(r, id, outcome, Some(who)), Recorded(outcome))
  }

  class AskRegistry {
    var pending: map<nat, Option<nat>>
    var recent: seq<Entry>
    var delivered: map<nat, Outcome>
    ghost var log: seq<Entry>

    ghost function State(): Registry
      reads this
    {
      Registry(pending, recent, delivered, log)
    }

    constructor ()
      ensures State() == NO_ASKS
    {
      pending, recent, delivered, log := map[], [], map[], [];
    }

    method Register(id: nat, deadline: Option<nat>)
      modifies this
      ensures State() == old(State()).(pending := old(pending)[id := deadline])
    {
      pending := pending[id := deadline];
    }

    method Finish(id: nat, outcome: Outcome, who: Option<Principal>) returns (finished: bool)
      modifies this
      ensures State() == Finished(old(State()), id, outcome, who)
      ensures finished <==> id in old(pending)
    {
      if id !in pending {
        return false;
      }
      pending := pending - {id};
      if |recent| == RECENT_CAPACITY {
        recent := recent[1..];
      }
      recent := recent + [Entry(id, outcome, who)];
      delivered := delivered[id := outcome];
      log := log + [Entry(id, outcome, who)];
      return true;
    }

    /** The newest recorded ending of `id`, searched from the back. */
    method OutcomeOf(id: nat) returns (found: Option<Entry>)
      ensures found == Lookup(recent, id)
    {
      var i := |recent|;
      assert recent[..i] == recent;
      while i > 0
        invariant 0 <= i <= |recent|
        invariant Lookup(recent[..i], id) == Lookup(recent, id)
      {
        assert recent[..i][..i - 1] == recent[..i - 1];
        i := i - 1;
        if recent[i].id == id {
          return Some(recent[i]);
        }
      }
      return None;
    }

    /** A reply either becomes the ask's recorded ending, or is refused with the reason; a late one records `Expired`. */
    method Reply(id: nat, allow: bool, who: Principal, now: nat) returns (answer: Answer)
      modifies this
      ensures (State(), answer) == Replied(old(State()), id, allow, who, now)
    {
      if id !in pending {
        var known := OutcomeOf(id);
        return Refused(if known == None then Unknown else AlreadyResolved(known.value.outcome));
      }
      var deadline := pending[id];
      if deadline.Some? && now >= deadline.value {
        var finished := Finish(id, Expired, None);
        return Refused(PastDeadline);
      }
      var outcome := if allow then Allowed else Denied;
      var finished := Finish(id, outcome, Some(who));
      return Recorded(outcome);
    }

    /** Record `outcome` with no author, if `id` is pending. */
    method End(id: nat, outcome: Outcome)
      modifies this
      ensures State() == Finished(old(State()), id, outcome, None)
    {
      var finished := Finish(id, outcome, None);
    }
  }

  // ------------------------------------------------------------ the approver

  /** The host behind the keyboard: silent, unreachable, an answer given, or its reply dropped. */
  datatype Host = Silent | Closed | Said(allow: bool) | Gone

  /** The approver's turn; `Answered` says whether the ask's outcome is still in its channel. */
  datatype Turn = Asking | Answered(inChannel: bool) | Decided(allowed: bool) | Left

  datatype World = World(registry: Registry, id: nat, host: Host, turn: Turn)

  const NO_ASKS := Registry(map[], [], map[], [])

  predicate HostAnswers(host: Host) {
    host.Said? || host.Gone?
  }

  function HostAnswer(host: Host): bool {
    host.Said? && host.allow
  }

  /** The wait ends: the host is closed, the keyboard answered, or the ask got an outcome. */
  function Wake(w: World, keyboardFirst: bool, now: nat): World {
    if !w.turn.Asking? then w
    else if w.host.Closed? then
      w.(registry := Replied(w.registry, w.id, false, Local, now).0, turn := Answered(true))
    else if HostAnswers(w.host) && keyboardFirst then
      w.(registry := Replied(w.registry, w.id, HostAnswer(w.host), Local, now).0, turn := Answered(true))
    else if w.id in w.registry.delivered && !keyboardFirst then w.(turn := Answered(false))
    else w
  }

  /** The recorded outcome is read, from the channel if it is still there, and the guard goes. */
  function Read(w: World): World {
    if !w.turn.Answered? then w
    else
      var r := w.registry;
      var allowed :=
        if w.turn.inChannel && w.id in r.delivered then r.delivered[w.id] == Allowed
        else Lookup(r.recent, w.id).Some? && Lookup(r.recent, w.id).value.outcome == Allowed;
      w.(registry := Finished(r, w.id, Cancelled, None), turn := Decided(allowed))
  }

  /** The turn goes before it decided: its guard ends the ask. */
  function Abandon(w: World): World {
    if w.turn.Decided? || w.turn.Left? then w
    else w.(registry := Finished(w.registry, w.id, Cancelled, None), turn := Left)
  }

  class TuiApprover {
    const registry: AskRegistry
    const id: nat
    var host: Host
    var turn: Turn

    ghost function Snapshot(): World
      reads this, registry
    {
      World(registry.State(), id, host, turn)
    }

    /** Send the ask to the host and open it in the registry, with no deadline. */
    constructor (registry: AskRegistry, id: nat, hostOpen: bool)
      modifies registry
      ensures this.registry == registry && this.id == id
      ensures Snapshot() == World(old(registry.State()).(pending := old(registry.pending)[id := None]), id,
                                  if hostOpen then Silent else Closed, Asking)
    {
      this.registry, this.id := registry, id;
      this.host := if hostOpen then Silent else Closed;
      this.turn := Asking;
      new;
      registry.Register(id, None);
    }

    method WakeUp(keyboardFirst: bool, now: nat)
      modifies this, registry
      ensures Snapshot() == Wake(old(Snapshot()), keyboardFirst, now)
    {
      if turn != Asking {
        return;
      }
      if host.Closed? {
        var refused := registry.Reply(id, false, Local, now);
        turn := Answered(true);
      } else if HostAnswers(host) && keyboardFirst {
        // `Gone` answers no; `Reply` ignores what comes second.
        var answer := registry.Reply(id, if host.Said? then host.allow else false, Local, now);
        turn := Answered(true);
      } else if id in registry.delivered && !keyboardFirst {
        turn := Answered(false);
      }
    }

    method ReadOutcome() returns (allowed: bool)
      requires turn.Answered?
      modifies this, registry
      ensures Snapshot() == Read(old(Snapshot())) && turn == Decided(allowed)
    {
      if turn.inChannel && id in registry.delivered {
        allowed := registry.delivered[id] == Allowed;
      } else {
        var found := registry.OutcomeOf(id);
        allowed := found.Some? && found.value.outcome == Allowed;
      }
      registry.End(id, Cancelled);
      turn := Decided(allowed);
    }

    method Drop()
      modifies this, registry
      ensures Snapshot() == Abandon(old(Snapshot()))
    {
      if !turn.Decided? && !turn.Left? {
        registry.End(id, Cancelled);
        turn := Left;
      }
    }
  }

  // ------------------------------------------------------------ runs

  datatype Event =
    | KeyboardSays(allow: bool)
    | KeyboardGoes
    | Wakes(keyboardFirst: bool, now: nat)
    | Reads
    | Drops
    | Replies(id: nat, allow: bool, who: Principal, now: nat)
    | OtherOpens(id: nat, deadline: Option<nat>)
    | OtherEnds(id: nat, outcome: Outcome)

  function Step(w: World, e: Event): World {
    match e
    case KeyboardSays(allow) => if w.host.Silent? then w.(host := Said(allow)) else w
    case KeyboardGoes => if w.host.Silent? then w.(host := Gone) else w
    case Wakes(keyboardFirst, now) => Wake(w, keyboardFirst, now)
    case Reads => Read(w)
    case Drops => Abandon(w)
    case Replies(id, allow, who, now) => w.(registry := Replied(w.registry, id, allow, who, now).0)
    // Identifiers are never used twice.
    case OtherOpens(id, deadline) =>
      if id == w.id || id in w.registry.pending || id in w.registry.delivered then w
      else w.(registry := w.registry.(pending := w.registry.pending[id := deadline]))
    // Only its own turn ends an ask unanswered.
    case OtherEnds(id, outcome) => if id == w.id then w else w.(registry := Finished(w.registry, id, outcome, None))
  }

  function Run(w: World, es: seq<Event>): World {
    if es == [] then w else Step(Run(w, es[..|es| - 1]), es[|es| - 1])
  }

  // ------------------------------------------------------------ the invariant

  /** The registry's memory: the last endings, in order, at most 256. */
  predicate Remembers(r: Registry) {
    r.recent == if |r.log| <= RECENT_CAPACITY then r.log else r.log[|r.log| - RECENT_CAPACITY..]
  }

  /** What a waiter was handed is the one ending logged for its ask; a pending ask has none. */
  predicate RecordInv(r: Registry, id: nat) {
    && !(id in r.pending && id in r.delivered)
    && (id in r.delivered <==> Lookup(r.log, id).Some?)
    && (id in r.delivered ==> Lookup(r.log, id).value.outcome == r.delivered[id])
  }

  predicate TurnInv(w: World) {
    match w.turn
    case Asking => (w.id in w.registry.pending && w.registry.pending[w.id] == None) || w.id in w.registry.delivered
    case Answered(_) => w.id in w.registry.delivered
    case Decided(allowed) => w.id in w.registry.delivered && (allowed ==> w.registry.delivered[w.id] == Allowed)
    case Left => w.id in w.registry.delivered
  }

  ghost predicate Inv(w: World) {
    Remembers(w.registry) && TurnInv(w) && forall id: nat :: RecordInv(w.registry, id)
  }

  lemma LookupSnoc(log: seq<Entry>, e: Entry, id: nat)
    ensures Lookup(log + [e], id) == if e.id == id then Some(e) else Lookup(log, id)
  {
    assert (log + [e])[..|log|] == log;
  }

  lemma FinishKeepsMemory(r: Registry, id: nat, outcome: Outcome, who: Option<Principal>)
    requires Remembers(r)
    ensures Remembers(Finished(r, id, outcome, who))
  {
  }

  /** Finishing records the ask's ending, once and for good, and leaves every other ask alone. */
  lemma FinishRecords(r: Registry, id: nat, outcome: Outcome, who: Option<Principal>, other: nat)
    requires RecordInv(r, other)
    ensures var f := Finished(r, id, outcome, who);
            && RecordInv(f, other)
            && id !in f.pending
            && (other in r.delivered ==> other in f.delivered && f.delivered[other] == r.delivered[other])
            && (other != id ==> (other in f.pending <==> other in r.pending) && (other in f.delivered <==> other in r.delivered))
            && (other in r.pending && other in f.pending ==> f.pending[other] == r.pending[other])
            && (other == id && id in r.pending ==> id in f.delivered && f.delivered[id] == outcome)
  {
    LookupSnoc(r.log, Entry(id, outcome, who), other);
  }

  lemma FinishKeeps(r: Registry, id: nat, outcome: Outcome, who: Option<Principal>)
    requires Remembers(r) && forall other: nat :: RecordInv(r, other)
    ensures var f := Finished(r, id, outcome, who); Remembers(f) && forall other: nat :: RecordInv(f, other)
  {
    FinishKeepsMemory(r, id, outcome, who);
    forall other: nat
      ensures RecordInv(Finished(r, id, outcome, who), other)
    {
      FinishRecords(r, id, outcome, who, other);
    }
  }

  /** What a reply does to the registry: nothing, or the ask's one ending. */
  lemma ReplyFinishes(r: Registry, id: nat, allow: bool, who: Principal, now: nat)
    returns (outcome: Outcome, author: Option<Principal>)
    ensures Replied(r, id, allow, who, now).0 == Finished(r, id, outcome, author)
    ensures id in r.pending && r.pending[id] == None ==> outcome == if allow then Allowed else Denied
    ensures outcome == Allowed ==> allow
  {
    if id in r.pending && r.pending[id].Some? && now >= r.pending[id].value {
      outcome, author := Expired, None;
    } else {
      outcome, author := if allow then Allowed else Denied, Some(who);
    }
  }

  /** A newly opened ask, under an identifier never used, starts every run in the invariant. */
  lemma AskOpens(r: Registry, id: nat, host: Host)
    requires Remembers(r) && id !in r.pending && id !in r.delivered
    requires forall other: nat :: RecordInv(r, other)
    ensures Inv(World(r.(pending := r.pending[id := None]), id, host, Asking))
  {
    var withAsk := r.(pending := r.pending[id := None]);
    forall other: nat
      ensures RecordInv(withAsk, other)
    {
      assert RecordInv(r, other);
    }
  }

  /** How each event touches the registry: at most one ask ends by it. */
  lemma StepFinishes(w: World, e: Event) returns (id: nat, outcome: Outcome, who: Option<Principal>)
    requires !e.OtherOpens?
    ensures Step(w, e).registry == w.registry || Step(w, e).registry == Finished(w.registry, id, outcome, who)
    ensures Step(w, e).registry != w.registry && id == w.id && outcome == Allowed ==>
              || (e.Replies? && e.id == w.id && e.allow)
              || (e.Wakes? && w.host == Said(true))
  {
    id, outcome, who := w.id, Cancelled, None;
    match e
    case Wakes(_, now) => outcome, who := ReplyFinishes(w.registry, w.id, HostAnswer(w.host), Local, now);
      if w.host.Closed? {
        outcome, who := ReplyFinishes(w.registry, w.id, false, Local, now);
      }
    case Replies(other, allow, principal, now) =>
      id := other;
      outcome, who := ReplyFinishes(w.registry, other, allow, principal, now);
    case OtherEnds(other, how) => id, outcome := other, how;
    case _ =>
  }

  lemma OpeningKeeps(w: World, id: nat, deadline: Option<nat>)
    requires Inv(w)
    ensures Inv(Step(w, OtherOpens(id, deadline)))
  {
    var after := Step(w, OtherOpens(id, deadline));
    forall other: nat
      ensures RecordInv(after.registry, other)
    {
      assert RecordInv(w.registry, other);
    }
  }

  lemma TurnKeeps(w: World, e: Event)
    requires Inv(w) && !e.OtherOpens?
    ensures TurnInv(Step(w, e))
  {
    var r := w.registry;
    assert RecordInv(r, w.id);
    match e
    case Wakes(_, now) =>
      var outcome, who := ReplyFinishes(r, w.id, HostAnswer(w.host), Local, now);
      FinishRecords(r, w.id, outcome, who, w.id);
      var denied, whoDenied := ReplyFinishes(r, w.id, false, Local, now);
      FinishRecords(r, w.id, denied, whoDenied, w.id);
    case Reads =>
      FinishRecords(r, w.id, Cancelled, None, w.id);
      if w.turn.Answered? {
        RecentAgrees(r, w.id);
      }
    case Drops => FinishRecords(r, w.id, Cancelled, None, w.id);
    case Replies(id, allow, who, now) =>
      var outcome, author := ReplyFinishes(r, id, allow, who, now);
      FinishRecords(r, id, outcome, author, w.id);
    case OtherEnds(id, outcome) => FinishRecords(r, id, outcome, None, w.id);
    case _ =>
  }

  lemma StepKeepsInv(w: World, e: Event)
    requires Inv(w)
    ensures Inv(Step(w, e))
  {
    match e
    case OtherOpens(id, deadline) => OpeningKeeps(w, id, deadline);
    case _ =>
      TurnKeeps(w, e);
      var id, outcome, who := StepFinishes(w, e);
      FinishKeeps(w.registry, id, outcome, who);
  }

  lemma {:induction false} RunKeepsInv(w: World, es: seq<Event>)
    requires Inv(w)
    ensures Inv(Run(w, es))
  {
    if es != [] {
      RunKeepsInv(w, es[..|es| - 1]);
      StepKeepsInv(Run(w, es[..|es| - 1]), es[|es| - 1]);
    }
  }

  // ------------------------------------------------------------ first answer wins

  /** Once an ask has an ending, nothing that happens later changes it. */
  lemma StepKeepsFirst(w: World, e: Event, id: nat)
    requires Inv(w) && id in w.registry.delivered
    ensures var after := Step(w, e).registry; id in after.delivered && after.delivered[id] == w.registry.delivered[id]
  {
    if !e.OtherOpens? {
      var ended, outcome, who := StepFinishes(w, e);
      assert RecordInv(w.registry, id);
      FinishRecords(w.registry, ended, outcome, who, id);
    }
  }

  lemma {:induction false} FirstAnswerWins(w: World, es: seq<Event>, id: nat)
    requires Inv(w) && id in w.registry.delivered
    ensures var after := Run(w, es).registry;
            && id in after.delivered && after.delivered[id] == w.registry.delivered[id]
            && id !in after.pending
  {
    RunKeepsInv(w, es);
    assert RecordInv(Run(w, es).registry, id);
    if es != [] {
      FirstAnswerWins(w, es[..|es| - 1], id);
      RunKeepsInv(w, es[..|es| - 1]);
      StepKeepsFirst(Run(w, es[..|es| - 1]), es[|es| - 1], id);
    }
  }

  /** How many asks ended after `id` did. */
  function EndedSince(log: seq<Entry>, id: nat): nat {
    if log == [] || log[|log| - 1].id == id then 0 else 1 + EndedSince(log[..|log| - 1], id)
  }

  /** A search of the last `n` entries finds `id` exactly when fewer than `n` came after it. */
  lemma {:induction false} LookupTail(log: seq<Entry>, n: nat, id: nat)
    requires n <= |log| && Lookup(log, id).Some?
    ensures Lookup(log[|log| - n..], id) == if EndedSince(log, id) < n then Lookup(log, id) else None
    decreases |log|
  {
    var tail := log[|log| - n..];
    if n > 0 && log[|log| - 1].id != id {
      assert tail[..n - 1] == log[..|log| - 1][|log| - n..];
      LookupTail(log[..|log| - 1], n - 1, id);
    }
  }

  lemma {:induction false} EndedSinceBound(log: seq<Entry>, id: nat)
    requires Lookup(log, id).Some?
    ensures EndedSince(log, id) < |log|
  {
    if log[|log| - 1].id != id {
      EndedSinceBound(log[..|log| - 1], id);
    }
  }

  /** The registry still knows an ending exactly while fewer than 256 others came after it. */
  lemma RecentAgrees(r: Registry, id: nat)
    requires Remembers(r) && RecordInv(r, id) && id in r.delivered
    ensures var found := Lookup(r.recent, id);
            && (found.Some? <==> EndedSince(r.log, id) < RECENT_CAPACITY)
            && (found.Some? ==> found.value.outcome == r.delivered[id])
  {
    var n := if |r.log| <= RECENT_CAPACITY then |r.log| else RECENT_CAPACITY;
    assert r.recent == r.log[|r.log| - n..];
    LookupTail(r.log, n, id);
    EndedSinceBound(r.log, id);
  }

  /**
    The approver answers with the first answer recorded, exactly: unless it was a device's,
    seen through the registry, and 256 other asks ended before the approver read it. Then it
    denies.
   */
  lemma ApproverReadsTheFirstAnswer(w: World, es: seq<Event>)
    requires Inv(w) && Run(w, es).turn.Answered?
    ensures var before := Run(w, es); var r := before.registry;
            && w.id in r.delivered
            && (Step(before, Reads).turn == Decided(true) <==>
                  && r.delivered[w.id] == Allowed
                  && (before.turn.inChannel || EndedSince(r.log, w.id) < RECENT_CAPACITY))
  {
    RunKeepsInv(w, es);
    RunKeepsId(w, es);
    var before := Run(w, es);
    assert RecordInv(before.registry, w.id);
    RecentAgrees(before.registry, w.id);
  }

  lemma {:induction false} RunKeepsId(w: World, es: seq<Event>)
    ensures Run(w, es).id == w.id
    ensures w.host.Closed? ==> Run(w, es).host.Closed?
  {
    if es != [] {
      RunKeepsId(w, es[..|es| - 1]);
    }
  }

  /** An approval, at the end of any run, is the first answer recorded, and a person's: typed here or sent by a device. */
  lemma {:induction false} ApprovalHasAnAuthor(w: World, es: seq<Event>) returns (k: nat)
    requires Inv(w) && w.id !in w.registry.delivered
    requires w.id in Run(w, es).registry.delivered && Run(w, es).registry.delivered[w.id] == Allowed
    ensures k < |es|
    ensures || (es[k].Replies? && es[k].id == w.id && es[k].allow)
            || (es[k].Wakes? && Run(w, es[..k]).host == Said(true))
  {
    var n := |es| - 1;
    var before := Run(w, es[..n]);
    RunKeepsInv(w, es[..n]);
    RunKeepsId(w, es[..n]);
    if w.id in before.registry.delivered {
      StepKeepsFirst(before, es[n], w.id);
      k := ApprovalHasAnAuthor(w, es[..n]);
      assert es[..n][..k] == es[..k];
    } else {
      k := n;
      if !es[n].OtherOpens? {
        var ended, outcome, who := StepFinishes(before, es[n]);
        assert RecordInv(before.registry, w.id);
        FinishRecords(before.registry, ended, outcome, who, w.id);
      }
    }
  }

  /** A closed or silent host alone approves nothing: with no device's yes, every decision is a denial. */
  lemma NoApprovalWithoutAYes(w: World, es: seq<Event>)
    requires Inv(w) && w.id !in w.registry.delivered && w.turn.Asking?
    requires forall k :: 0 <= k < |es| ==> !(es[k].Replies? && es[k].id == w.id && es[k].allow)
    requires w.host.Closed? || (w.host.Silent? && forall k :: 0 <= k < |es| ==> es[k] != KeyboardSays(true))
    ensures Run(w, es).turn != Decided(true)
  {
    RunKeepsInv(w, es);
    RunKeepsId(w, es);
    if Run(w, es).turn == Decided(true) {
      var k := ApprovalHasAnAuthor(w, es);
      NeverSaid(w, es[..k]);
      assert false;
    }
  }

  lemma {:induction false} NeverSaid(w: World, es: seq<Event>)
    requires w.host != Said(true)
    requires w.host.Closed? || forall k :: 0 <= k < |es| ==> es[k] != KeyboardSays(true)
    ensures Run(w, es).host != Said(true)
  {
    RunKeepsId(w, es);
    if es != [] {
      NeverSaid(w, es[..|es| - 1]);
    }
  }

  /** A turn that is over, decided or dropped, leaves no ask outstanding, ever after. */
  lemma NoAskIsLeftBehind(w: World, es: seq<Event>, later: seq<Event>)
    requires Inv(w) && (Run(w, es).turn.Decided? || Run(w, es).turn.Left?)
    ensures w.id !in Run(Run(w, es), later).registry.pending
  {
    RunKeepsInv(w, es);
    RunKeepsId(w, es);
    FirstAnswerWins(Run(w, es), later, w.id);
  }

  // ------------------------------------------------------------ from a new ask on

  /** The approver of a new ask in an empty registry. */
  function NewAsk(id: nat, host: Host): World {
    World(NO_ASKS.(pending := map[id := None]), id, host, Asking)
  }

  lemma NewAskHolds(id: nat, host: Host)
    ensures Inv(NewAsk(id, host))
  {
    AskOpens(NO_ASKS, id, host);
    assert NO_ASKS.pending[id := None] == map[id := None];
  }

  /**
    From a new ask on, whoever answers and whatever other asks come and go: the decision is a
    yes exactly when the first answer recorded is one and can still be read, and then somebody
    gave that yes.
   */
  lemma {:induction false} ANewAskIsDecidedByItsFirstAnswer(id: nat, host: Host, es: seq<Event>) returns (k: nat)
    requires Run(NewAsk(id, host), es).turn.Answered?
    ensures var before := Run(NewAsk(id, host), es); var r := before.registry;
            && id in r.delivered
            && (Step(before, Reads).turn == Decided(true) <==>
                  r.delivered[id] == Allowed && (before.turn.inChannel || EndedSince(r.log, id) < RECENT_CAPACITY))
    ensures Step(Run(NewAsk(id, host), es), Reads).turn == Decided(true) ==>
              k < |es| && ((es[k].Replies? && es[k].id == id && es[k].allow)
                           || (es[k].Wakes? && Run(NewAsk(id, host), es[..k]).host == Said(true)))
  {
    NewAskHolds(id, host);
    ApproverReadsTheFirstAnswer(NewAsk(id, host), es);
    k := 0;
    if Step(Run(NewAsk(id, host), es), Reads).turn == Decided(true) {
      k := ApprovalHasAnAuthor(NewAsk(id, host), es);
    }
  }

  /** A new ask whose host is closed, or never says yes, is denied unless a device says yes. */
  lemma {:induction false} ANewAskNeedsAYes(id: nat, host: Host, es: seq<Event>)
    requires forall k :: 0 <= k < |es| ==> !(es[k].Replies? && es[k].id == id && es[k].allow)
    requires host.Closed? || (host.Silent? && forall k :: 0 <= k < |es| ==> es[k] != KeyboardSays(true))
    ensures Run(NewAsk(id, host), es).turn != Decided(true)
  {
    NewAskHolds(id, host);
    NoApprovalWithoutAYes(NewAsk(id, host), es);
  }

  // ------------------------------------------------------------ every answer is recorded as given

  /** What the keyboard said first, if anything: nothing said later counts. */
  function FirstWord(es: seq<Event>): Host {
    if es == [] then Silent
    else
      var earlier, e := FirstWord(es[..|es| - 1]), es[|es| - 1];
      if earlier != Silent then earlier
      else if e.KeyboardSays? then Said(e.allow)
      else if e.KeyboardGoes? then Gone
      else Silent
  }

  lemma {:induction false} TheHostKeepsItsWord(id: nat, es: seq<Event>)
    ensures Run(NewAsk(id, Silent), es).host == FirstWord(es)
  {
    if es != [] {
      TheHostKeepsItsWord(id, es[..|es| - 1]);
    }
  }

  /** An ask read from its channel is decided as it was recorded, however the run goes on. */
  lemma {:induction false} TheChannelIsRead(w: World, es: seq<Event>, x: bool)
    requires Inv(w) && w.turn == Answered(true) && w.id in w.registry.delivered
    requires w.registry.delivered[w.id] == if x then Allowed else Denied
    ensures Run(w, es).turn in {Answered(true), Decided(x), Left}
    ensures Run(w, es).turn.Answered? ==> Step(Run(w, es), Reads).turn == Decided(x)
  {
    FirstAnswerWins(w, es, w.id);
    RunKeepsId(w, es);
    if es != [] {
      var before := es[..|es| - 1];
      TheChannelIsRead(w, before, x);
      FirstAnswerWins(w, before, w.id);
      RunKeepsId(w, before);
    }
  }

  /** One entry is logged for the ask, and its waiter is handed the same ending. */
  predicate Records(before: World, after: World, entry: Entry) {
    && after.registry.log == before.registry.log + [entry]
    && after.registry.pending == before.registry.pending - {entry.id}
    && after.registry.delivered == before.registry.delivered[entry.id := entry.outcome]
  }

  /**
    The keyboard's answer to a pending ask is recorded as it was given, by the person here: a yes
    as a yes, and a no, or an answer that will never come, as a denial.
   */
  lemma {:induction false} TheKeyboardsAnswerIsRecorded(id: nat, es: seq<Event>, x: bool, now: nat)
    requires var w := Run(NewAsk(id, Silent), es); w.turn.Asking? && id in w.registry.pending
    requires FirstWord(es) == Said(x) || (!x && FirstWord(es) == Gone)
    ensures var w := Run(NewAsk(id, Silent), es); var after := Step(w, Wakes(true, now));
            && Records(w, after, Entry(id, if x then Allowed else Denied, Some(Local)))
            && after.turn == Answered(true)
  {
    var w := Run(NewAsk(id, Silent), es);
    NewAskHolds(id, Silent);
    RunKeepsInv(NewAsk(id, Silent), es);
    RunKeepsId(NewAsk(id, Silent), es);
    TheHostKeepsItsWord(id, es);
    assert RecordInv(w.registry, id);
  }

  /** And the turn is decided by it, whatever happens between. */
  lemma {:induction false} TheKeyboardsAnswerDecides(id: nat, es: seq<Event>, x: bool, now: nat, later: seq<Event>)
    requires var w := Run(NewAsk(id, Silent), es); w.turn.Asking? && id in w.registry.pending
    requires FirstWord(es) == Said(x) || (!x && FirstWord(es) == Gone)
    ensures var end := Run(Step(Run(NewAsk(id, Silent), es), Wakes(true, now)), later);
            end.turn in {Answered(true), Decided(x), Left} && (end.turn.Answered? ==> Step(end, Reads).turn == Decided(x))
  {
    var w := Run(NewAsk(id, Silent), es);
    NewAskHolds(id, Silent);
    RunKeepsInv(NewAsk(id, Silent), es);
    RunKeepsId(NewAsk(id, Silent), es);
    StepKeepsInv(w, Wakes(true, now));
    TheKeyboardsAnswerIsRecorded(id, es, x, now);
    TheChannelIsRead(Step(w, Wakes(true, now)), later, x);
  }

  /** While the keyboard says nothing and the ask is pending, the approver waits. */
  lemma {:induction false} NothingSaidNothingRecorded(id: nat, es: seq<Event>, keyboardFirst: bool, now: nat)
    requires var w := Run(NewAsk(id, Silent), es); w.turn.Asking? && id in w.registry.pending
    requires FirstWord(es) == Silent
    ensures var w := Run(NewAsk(id, Silent), es); Step(w, Wakes(keyboardFirst, now)) == w
  {
    NewAskHolds(id, Silent);
    RunKeepsInv(NewAsk(id, Silent), es);
    RunKeepsId(NewAsk(id, Silent), es);
    TheHostKeepsItsWord(id, es);
    assert RecordInv(Run(NewAsk(id, Silent), es).registry, id);
  }

  /** An ask that could not be shown is denied, here, as soon as its approver runs. */
  lemma {:induction false} AClosedHostDenies(id: nat, es: seq<Event>, keyboardFirst: bool, now: nat, later: seq<Event>)
    requires var w := Run(NewAsk(id, Closed), es); w.turn.Asking? && id in w.registry.pending
    ensures var w := Run(NewAsk(id, Closed), es); var after := Step(w, Wakes(keyboardFirst, now));
            && Records(w, after, Entry(id, Denied, Some(Local)))
            && Run(after, later).turn in {Answered(true), Decided(false), Left}
  {
    var w := Run(NewAsk(id, Closed), es);
    NewAskHolds(id, Closed);
    RunKeepsInv(NewAsk(id, Closed), es);
    RunKeepsId(NewAsk(id, Closed), es);
    assert RecordInv(w.registry, id);
    StepKeepsInv(w, Wakes(keyboardFirst, now));
    TheChannelIsRead(Step(w, Wakes(keyboardFirst, now)), later, false);
  }

  /** A device's answer to a pending ask is recorded as it was given, by that device, and decides the turn that wakes for it. */
  lemma {:induction false} ADevicesAnswerIsRecorded(id: nat, host: Host, es: seq<Event>, x: bool, who: Principal, at: nat, now: nat)
    requires var w := Run(NewAsk(id, host), es); w.turn.Asking? && id in w.registry.pending
    ensures var w := Run(NewAsk(id, host), es); var after := Step(w, Replies(id, x, who, at));
            && Records(w, after, Entry(id, if x then Allowed else Denied, Some(who)))
            && after.turn == w.turn && after.host == w.host
            && var woken := Step(after, Wakes(false, now));
               woken.registry == after.registry && woken.turn == Answered(w.host.Closed?) && Step(woken, Reads).turn == Decided(x)
  {
    var w := Run(NewAsk(id, host), es);
    NewAskHolds(id, host);
    RunKeepsInv(NewAsk(id, host), es);
    RunKeepsId(NewAsk(id, host), es);
    assert RecordInv(w.registry, id);
    var after := Step(w, Replies(id, x, who, at));
    assert after.registry.recent[|after.registry.recent| - 1] == Entry(id, if x then Allowed else Denied, Some(who));
  }

  /** A turn that goes while its ask is pending records it as cancelled, by nobody; one that goes later records nothing. */
  lemma ADroppedTurnCancels(w: World)
    requires Inv(w) && (w.turn.Asking? || w.turn.Answered?)
    ensures var after := Step(w, Drops);
            && after.turn == Left
            && if w.id in w.registry.pending then Records(w, after, Entry(w.id, Cancelled, None)) else after.registry == w.registry
  {
  }

  /** Any ask's first reply ends it: in time as given, by its author, and from its deadline on as expired, by nobody. */
  lemma RepliesAreRecorded(w: World, id: nat, x: bool, who: Principal, now: nat)
    ensures var after := Step(w, Replies(id, x, who, now));
            if id !in w.registry.pending then after == w
            else
              var late := w.registry.pending[id].Some? && now >= w.registry.pending[id].value;
              Records(w, after, if late then Entry(id, Expired, None) else Entry(id, if x then Allowed else Denied, Some(who)))
  {
  }

  /** And its author is told: recorded, too late, already answered and how, or never heard of. */
  lemma RepliersAreTold(r: Registry, id: nat, x: bool, who: Principal, now: nat)
    requires Remembers(r) && RecordInv(r, id)
    ensures var told := Replied(r, id, x, who, now).1;
            if id in r.pending then
              told == if r.pending[id].Some? && now >= r.pending[id].value then Refused(PastDeadline)
                      else Recorded(if x then Allowed else Denied)
            else if id in r.delivered && EndedSince(r.log, id) < RECENT_CAPACITY then
              told == Refused(AlreadyResolved(r.delivered[id]))
            else told == Refused(Unknown)
  {
    if id in r.delivered {
      RecentAgrees(r, id);
    } else {
      NothingToFind(r.log, |r.log| - |r.recent|, id);
    }
  }

  lemma {:induction false} NothingToFind(log: seq<Entry>, from: nat, id: nat)
    requires from <= |log| && Lookup(log, id) == None
    ensures Lookup(log[from..], id) == None
    decreases |log|
  {
    if from < |log| {
      assert log[from..][..|log| - from - 1] == log[..|log| - 1][from..];
      NothingToFind(log[..|log| - 1], from, id);
    }
  }

  // ------------------------------------------------------------ a yes that is forgotten

  lemma RunSnoc(w: World, es: seq<Event>, e: Event)
    ensures Run(w, es + [e]) == Step(Run(w, es), e)
  {
    assert (es + [e])[..|es|] == es;
  }

  /** A device allows ask 0, the approver wakes for it, and `n` other asks open and end before it reads. */
  function Forgetting(n: nat): seq<Event> {
    if n == 0 then [Replies(0, true, Device(0), 0)] + [Wakes(false, 0)]
    else Forgetting(n - 1) + [OtherOpens(n, None)] + [OtherEnds(n, Cancelled)]
  }

  /** Ask 0 was allowed and seen; `n` others ended since, under numbers up to `n`. */
  predicate Forgot(w: World, n: nat) {
    var r := w.registry;
    && w.turn == Answered(false) && w.id == 0
    && 0 in r.delivered && r.delivered[0] == Allowed
    && Lookup(r.log, 0).Some? && EndedSince(r.log, 0) == n
    && (forall k :: k in r.pending ==> k <= n) && (forall k :: k in r.delivered ==> k <= n)
  }

  lemma ForgetOne(w: World, n: nat)
    requires Forgot(w, n)
    ensures Forgot(Step(Step(w, OtherOpens(n + 1, None)), OtherEnds(n + 1, Cancelled)), n + 1)
  {
    var r, entry := w.registry, Entry(n + 1, Cancelled, None);
    var after := Step(Step(w, OtherOpens(n + 1, None)), OtherEnds(n + 1, Cancelled));
    assert after.registry.log == r.log + [entry] && after.registry.delivered == r.delivered[n + 1 := Cancelled];
    assert (r.log + [entry])[..|r.log|] == r.log;
  }

  lemma {:induction false} AfterForgetting(n: nat)
    ensures Forgot(Run(NewAsk(0, Silent), Forgetting(n)), n)
    decreases n
  {
    var start := NewAsk(0, Silent);
    if n == 0 {
      var yes := Replies(0, true, Device(0), 0);
      assert Run(start, []) == start;
      RunSnoc(start, [], yes);
      assert [] + [yes] == [yes];
      RunSnoc(start, [yes], Wakes(false, 0));
      assert Step(start, yes).registry.log == [Entry(0, Allowed, Some(Device(0)))];
    } else {
      AfterForgetting(n - 1);
      var before := Forgetting(n - 1);
      RunSnoc(start, before, OtherOpens(n, None));
      RunSnoc(start, before + [OtherOpens(n, None)], OtherEnds(n, Cancelled));
      ForgetOne(Run(start, before), n - 1);
    }
  }

  /** After 256 other endings the approver denies what the device allowed, and not after fewer. */
  lemma AForgottenYesIsDenied(n: nat)
    ensures var w := Run(NewAsk(0, Silent), Forgetting(n));
            && w.registry.delivered.Keys >= {0} && w.registry.delivered[0] == Allowed
            && Step(w, Reads).turn == Decided(n < RECENT_CAPACITY)
  {
    AfterForgetting(n);
    NewAskHolds(0, Silent);
    ApproverReadsTheFirstAnswer(NewAsk(0, Silent), Forgetting(n));
  }
}
