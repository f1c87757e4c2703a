/**
  Starting a background server on the user's choice, for the sharing intent of that moment,
  and keeping track of starts whose choice is gone.

  The choice, the app, the share and the starts are objects updated in place. Their methods
  are specified by functions on the value `World`, and the theorems are about every run of
  user keys, ticks, finished starts and changes of the share.
 */
module ServerStarts {
  import opened Options

  datatype Then = Share | Reconnect

  datatype Act = Start | Retry | Cancel

  datatype Stage = Offer | Waiting | Starting(attempt: nat) | Failed(reason: string) | NotYet

  datatype Outcome = Ready(started: bool) | CouldNotStart(why: string) | StillStarting

  datatype Notice =
    | OrphanRuns | OrphanMayRun | OrphanDidNotStart
    | NothingStarted | SharingStopped | SharingCancelled | ServerStarted

  datatype StartKey = StillOpen | Closed

  // ------------------------------------------------------------ the share

  datatype ShareState = Off | Connecting | Shared | Interrupted | ServerStopped

  datatype Tracked = Tracked(session: nat, claim: Option<nat>, owned: bool)

  datatype Ticket = Ticket(intent: nat, session: nat, claim: Option<nat>)

  datatype Sharing = Sharing(intent: nat, tracked: Option<Tracked>, neededFor: Option<(nat, nat)>, state: ShareState) {
    function Issue(): Option<Ticket> {
      if tracked == None then None
      else Some(Ticket(intent, tracked.value.session, tracked.value.claim))
    }

    /** `t` is of the present intent, and of the session and claim tracked, which is owned. */
    predicate Current(t: Ticket) {
      && intent == t.intent && tracked.Some?
      && tracked.value.session == t.session && tracked.value.claim == t.claim && tracked.value.owned
    }

    predicate ServerNeeded() {
      neededFor.Some? && tracked.Some? && neededFor.value == (intent, tracked.value.session)
    }

    /** The next intent: no ticket issued before is of it. */
    function Retired(): Sharing {
      this.(intent := intent + 1, neededFor := None)
    }

    function Stopped(): Sharing {
      Retired().(state := Off)
    }
  }

  class RemoteShare {
    var sharing: Sharing

    method CancelIntent()
      modifies this
      ensures sharing == old(sharing).Retired()
    {
      sharing := sharing.(intent := sharing.intent + 1, neededFor := None);
    }

    method Stop()
      modifies this
      ensures sharing == old(sharing).Stopped()
    {
      CancelIntent();
      if sharing.state != Off {
        sharing := sharing.(state := Off);
      }
    }
  }

  // ------------------------------------------------------------ server starts

  /** The attempt running, the last one finished, and how many were begun. */
  datatype Slot = Slot(running: Option<nat>, finished: Option<(nat, Outcome)>, attempts: nat) {
    function Begin(): (Slot, Option<nat>) {
      if running.Some? then (this, None)
      else (Slot(Some(attempts + 1), finished, attempts + 1), Some(attempts + 1))
    }

    function OutcomeOf(attempt: nat): Option<Outcome> {
      if finished.Some? && finished.value.0 == attempt then Some(finished.value.1) else None
    }

    /** The running attempt ends: only the last ending is remembered. */
    function Finish(outcome: Outcome): Slot {
      if running == None then this else Slot(None, Some((running.value, outcome)), attempts)
    }
  }

  class ServerStart {
    var slot: Slot

    method Begin() returns (attempt: Option<nat>)
      modifies this
      ensures (slot, attempt) == old(slot).Begin()
    {
      if slot.running.Some? {
        return None;
      }
      slot := slot.(attempts := slot.attempts + 1);
      slot := slot.(running := Some(slot.attempts));
      return Some(slot.attempts);
    }

    function OutcomeOf(attempt: nat): Option<Outcome>
      reads this
    {
      slot.OutcomeOf(attempt)
    }
  }

  // ------------------------------------------------------------ the app's choice

  function Label(act: Act, then_: Then): string {
    match act
    case Start => if then_.Share? then "Start server and share" else "Start server and reconnect"
    case Retry => "Retry"
    case Cancel => "Cancel"
  }

  function Labels(acts: seq<Act>, then_: Then): seq<string> {
    seq(|acts|, i requires 0 <= i < |acts| => Label(acts[i], then_))
  }

  datatype Choice = Choice(options: seq<string>, selected: nat)

  /** Where `name` stands among the options. */
  function IndexOf(name: string, options: seq<string>): Option<nat> {
    if options == [] then None
    else if options[0] == name then Some(0)
    else
      var rest := IndexOf(name, options[1..]);
      if rest == None then None else Some(rest.value + 1)
  }

  datatype App = App(choice: Option<Choice>, notices: seq<Notice>) {
    function Told(n: Notice): App {
      this.(notices := notices + [n])
    }

    function Opened(options: seq<string>): App {
      this.(choice := Some(Choice(options, 0)))
    }

    /** The selected label is looked up among the new options; if it is gone the last one is selected. */
    function Updated(options: seq<string>): App {
      if choice == None then this
      else
        var c := choice.value;
        var kept := if c.selected < |c.options| then IndexOf(c.options[c.selected], options) else None;
        var last := if options == [] then 0 else |options| - 1;
        this.(choice := Some(Choice(options, if kept.Some? then kept.value else last)))
    }

    function Closed(): App {
      this.(choice := None)
    }
  }

  class AppModel {
    var app: App

    method Notify(n: Notice)
      modifies this
      ensures app == old(app).Told(n)
    {
      app := app.(notices := app.notices + [n]);
    }

    method OpenChoice(options: seq<string>)
      modifies this
      ensures app == old(app).Opened(options)
    {
      app := app.(choice := Some(Choice(options, 0)));
    }

    method UpdateChoice(options: seq<string>)
      modifies this
      ensures app == old(app).Updated(options)
    {
      if app.choice.Some? {
        app := app.Updated(options);
      }
    }

    method CloseChoice()
      modifies this
      ensures app == old(app).Closed()
    {
      app := app.(choice := None);
    }
  }

  // ------------------------------------------------------------ the start choice

  function Acts(stage: Stage): seq<Act> {
    match stage
    case Offer => [Start, Cancel]
    case Waiting | Starting(_) => [Cancel]
    case Failed(_) | NotYet => [Retry, Cancel]
  }

  datatype Open = Open(ticket: Ticket, then_: Then, stage: Stage, acts: seq<Act>)

  /**
    Everything together. `acted` lists each start whose outcome was acted on, with it:
    reported after a cancel, or turned into the choice's next stage or result.
   */
  datatype World = World(
    app: App, share: Sharing, slot: Slot,
    open: Option<Open>, orphans: seq<nat>, acted: seq<(nat, Outcome)>)

  function Fits(then_: Then, share: Sharing): bool {
    match then_
    case Share => share.ServerNeeded()
    case Reconnect => share.state == ServerStopped
  }

  function OpenStart(w: World, then_: Then): World {
    if w.app.choice.Some? || w.open.Some? || !Fits(then_, w.share) || w.share.Issue() == None then w
    else w.(app := w.app.Opened(Labels(Acts(Offer), then_)),
            open := Some(Open(w.share.Issue().value, then_, Offer, Acts(Offer))))
  }

  function Redrawn(w: World, open: Open, stage: Stage): World {
    w.(open := Some(open.(stage := stage, acts := Acts(stage))),
       app := w.app.Updated(Labels(Acts(stage), open.then_)))
  }

  /** The start a closing choice leaves behind is watched on. */
  function Left(w: World, open: Open): World {
    w.(open := None,
       orphans := if open.stage.Starting? then w.orphans + [open.stage.attempt] else w.orphans)
  }

  function GiveUp(share: Sharing, open: Open): Sharing {
    if !share.Current(open.ticket) then share
    else match open.then_
      case Share => share.Retired()
      case Reconnect => share.Stopped()
  }

  function Cancelled(w: World, open: Open): World {
    var stopped := w.share.Current(open.ticket) && open.then_.Reconnect?;
    Left(w.(share := GiveUp(w.share, open),
            app := w.app.Closed().Told(if stopped then SharingStopped else SharingCancelled)), open)
  }

  function Chosen(w: World, open: Open, enter: bool): Act {
    if enter && w.app.choice.Some? && w.app.choice.value.selected < |open.acts|
    then open.acts[w.app.choice.value.selected] else Cancel
  }

  function Begun(w: World, open: Open): World {
    var (slot, attempt) := w.slot.Begin();
    Redrawn(w.(slot := slot), open, if attempt == None then Waiting else Starting(attempt.value))
  }

  function KeyStep(w: World, enter: bool): (World, StartKey) {
    if w.open == None then (w, Closed)
    else
      var open := w.open.value;
      if Chosen(w, open, enter) == Cancel then (Cancelled(w, open), Closed)
      else if !w.share.Current(open.ticket) then
        (Left(w.(app := w.app.Closed().Told(NothingStarted)), open), Closed)
      else (Begun(w, open), StillOpen)
  }

  function OrphanNotice(outcome: Outcome): Notice {
    match outcome
    case Ready(_) => OrphanRuns
    case StillStarting => OrphanMayRun
    case CouldNotStart(_) => OrphanDidNotStart
  }

  /** Report the orphans that ended and keep the others. */
  function Report(w: World, orphans: seq<nat>): World {
    if orphans == [] then w.(orphans := [])
    else
      var before := Report(w, orphans[..|orphans| - 1]);
      var o := orphans[|orphans| - 1];
      var outcome := w.slot.OutcomeOf(o);
      if outcome == None then before.(orphans := before.orphans + [o])
      else before.(app := before.app.Told(OrphanNotice(outcome.value)), acted := before.acted + [(o, outcome.value)])
  }

  function Retired(w: World, open: Open, ours: bool): World {
    Left(w.(share := if ours then w.share else GiveUp(w.share, open),
            app := (if ours then w.app.Closed() else w.app).Told(SharingCancelled)), open)
  }

  function Finished(w: World, open: Open, outcome: Outcome): (World, Option<Then>)
    requires open.stage.Starting?
  {
    var w1 := w.(acted := w.acted + [(open.stage.attempt, outcome)]);
    match outcome
    case Ready(started) =>
      (w1.(open := None, app := if started then w.app.Closed().Told(ServerStarted) else w.app.Closed()), Some(open.then_))
    case CouldNotStart(why) => (Redrawn(w1, open, Failed(why)), None)
    case StillStarting => (Redrawn(w1, open, NotYet), None)
  }

  function TickStep(w: World, ours: bool): (World, Option<Then>) {
    Continued(Report(w, w.orphans), ours)
  }

  /** The tick after the orphans were reported. */
  function Continued(w: World, ours: bool): (World, Option<Then>) {
    if w.open == None then (w, None)
    else
      var open := w.open.value;
      if !ours || !w.share.Current(open.ticket) then (Retired(w, open, ours), None)
      else match open.stage
        case Waiting => (if w.slot.running.Some? then w else Begun(w, open), None)
        case Starting(attempt) =>
          var outcome := w.slot.OutcomeOf(attempt);
          if outcome == None then (w, None) else Finished(w, open, outcome.value)
        case _ => (w, None)
  }

  class StartHost {
    const server: ServerStart
    var open: Option<Open>
    var orphans: seq<nat>
    ghost var acted: seq<(nat, Outcome)>

    ghost function Snapshot(app: AppModel, share: RemoteShare): World
      reads this, server, app, share
    {
      World(app.app, share.sharing, server.slot, open, orphans, acted)
    }

    constructor (server: ServerStart)
      ensures this.server == server && open == None && orphans == [] && acted == []
    {
      this.server := server;
      open, orphans, acted := None, [], [];
    }

    /** A choice with a ticket of the present intent, unless one is open or `then_` does not fit. */
    method OpenChoice(app: AppModel, share: RemoteShare, then_: Then) returns (shown: bool)
      modifies this, app
      ensures Snapshot(app, share) == OpenStart(old(Snapshot(app, share)), then_)
      ensures shown <==> old(open) == None && open.Some?
    {
      if app.app.choice.Some? || open.Some? {
        return false;
      }
      var fits;
      match then_ {
        case Share => fits := share.sharing.ServerNeeded();
        case Reconnect => fits := share.sharing.state == ServerStopped;
      }
      if !fits {
        return false;
      }
      var ticket := share.sharing.Issue();
      if ticket == None {
        return false;
      }
      var stage := Offer;
      app.OpenChoice(Labels(Acts(stage), then_));
      open := Some(Open(ticket.value, then_, stage, Acts(stage)));
      return true;
    }

    method Redraw(app: AppModel, stage: Stage)
      requires open.Some?
      modifies this`open, app
      ensures open == Some(old(open).value.(stage := stage, acts := Acts(stage)))
      ensures app.app == old(app.app).Updated(Labels(Acts(stage), old(open).value.then_))
    {
      open := Some(open.value.(stage := stage, acts := Acts(stage)));
      app.UpdateChoice(Labels(open.value.acts, open.value.then_));
    }

    /** Take the choice down, watching on a start it leaves running. */
    method Leave() returns (left: Open)
      requires open.Some?
      modifies this`open, this`orphans
      ensures left == old(open).value && open == None
      ensures orphans == if left.stage.Starting? then old(orphans) + [left.stage.attempt] else old(orphans)
    {
      left := open.value;
      open := None;
      if left.stage.Starting? {
        orphans := orphans + [left.stage.attempt];
      }
    }

    method GiveUpIntent(share: RemoteShare, left: Open)
      modifies share
      ensures share.sharing == GiveUp(old(share.sharing), left)
    {
      if share.sharing.Current(left.ticket) {
        match left.then_ {
          case Share => share.CancelIntent();
          case Reconnect => share.Stop();
        }
      }
    }

    method Begin(app: AppModel)
      requires open.Some?
      modifies this`open, app, server
      ensures server.slot == old(server.slot).Begin().0
      ensures var attempt := old(server.slot).Begin().1;
              var stage := if attempt == None then Waiting else Starting(attempt.value);
              && open == Some(old(open).value.(stage := stage, acts := Acts(stage)))
              && app.app == old(app.app).Updated(Labels(Acts(stage), old(open).value.then_))
    {
      var attempt := server.Begin();
      match attempt {
        case Some(a) => Redraw(app, Starting(a));
        case None => Redraw(app, Waiting);
      }
    }

    /** One key: `enter` chooses the selected action, anything else cancels. */
    method Key(app: AppModel, share: RemoteShare, enter: bool) returns (key: StartKey)
      modifies this, app, share, server
      ensures (Snapshot(app, share), key) == KeyStep(old(Snapshot(app, share)), enter)
    {
      if open == None {
        return Closed;
      }
      var act := Cancel;
      if enter && app.app.choice.Some? && app.app.choice.value.selected < |open.value.acts| {
        act := open.value.acts[app.app.choice.value.selected];
      }
      match act {
        case Cancel =>
          var stopped := share.sharing.Current(open.value.ticket) && open.value.then_.Reconnect?;
          GiveUpIntent(share, open.value);
          var left := Leave();
          app.CloseChoice();
          app.Notify(if stopped then SharingStopped else SharingCancelled);
          return Closed;
        case _ =>
          if !share.sharing.Current(open.value.ticket) {
            var left := Leave();
            app.CloseChoice();
            app.Notify(NothingStarted);
            return Closed;
          }
          Begin(app);
          return StillOpen;
      }
    }

    method ReportOrphans(app: AppModel, ghost share: RemoteShare)
      modifies this`orphans, this`acted, app
      ensures Snapshot(app, share) == Report(old(Snapshot(app, share)), old(orphans))
    {
      var all := orphans;
      ghost var before := Snapshot(app, share);
      orphans := [];
      for i := 0 to |all|
        invariant Snapshot(app, share) == Report(before, all[..i])
      {
        assert all[..i + 1][..i] == all[..i];
        var outcome := server.OutcomeOf(all[i]);
        match outcome {
          case None => orphans := orphans + [all[i]];
          case Some(o) =>
            app.Notify(OrphanNotice(o));
            acted := acted + [(all[i], o)];
        }
      }
      assert all[..|all|] == all;
    }

    /** `ReportOrphans`, then the open choice is retired, begun, finished or left waiting. */
    method Tick(app: AppModel, share: RemoteShare, ours: bool) returns (then_: Option<Then>)
      modifies this, app, share, server
      ensures (Snapshot(app, share), then_) == TickStep(old(Snapshot(app, share)), ours)
    {
      ReportOrphans(app, share);
      if open == None {
        return None;
      }
      if !ours || !share.sharing.Current(open.value.ticket) {
        var left := Leave();
        if ours {
          app.CloseChoice();
        } else {
          GiveUpIntent(share, left);
        }
        app.Notify(SharingCancelled);
        return None;
      }
      match open.value.stage {
        case Waiting =>
          if server.slot.running == None {
            Begin(app);
          }
          return None;
        case Starting(attempt) =>
          var outcome := server.OutcomeOf(attempt);
          if outcome == None {
            return None;
          }
          acted := acted + [(attempt, outcome.value)];
          match outcome.value {
            case Ready(started) =>
              then_ := Some(open.value.then_);
              open := None;
              app.CloseChoice();
              if started {
                app.Notify(ServerStarted);
              }
            case CouldNotStart(why) =>
              Redraw(app, Failed(why));
              then_ := None;
            case StillStarting =>
              Redraw(app, NotYet);
              then_ := None;
          }
        case _ =>
          return None;
      }
    }
  }

  // ------------------------------------------------------------ runs

  datatype Event =
    | Offered(then_: Then)
    | Pressed(enter: bool)
    | Ticked(ours: bool)
    | AttemptEnds(outcome: Outcome)
    | ShareMoves(share: Sharing)
    | ChoiceMoves(choice: Option<Choice>)

  /**
    How the share moves on by itself. Intents only grow, and another session or claim is a new
    intent; under one intent the ownership may be lost and come back, as it does when a
    hand-over is prepared and then given up.
   */
  predicate MayMove(before: Sharing, after: Sharing) {
    after.intent > before.intent
    || (after.intent == before.intent
        && (before.tracked.Some? ==>
              after.tracked.Some? && after.tracked.value.session == before.tracked.value.session
              && after.tracked.value.claim == before.tracked.value.claim))
  }

  function Step(w: World, e: Event): World {
    match e
    case Offered(then_) => OpenStart(w, then_)
    case Pressed(enter) => KeyStep(w, enter).0
    case Ticked(ours) => TickStep(w, ours).0
    case AttemptEnds(outcome) => w.(slot := w.slot.Finish(outcome))
    case ShareMoves(share) => if MayMove(w.share, share) then w.(share := share) else w
    case ChoiceMoves(choice) => w.(app := w.app.(choice := choice))
  }

  function Run(w: World, es: seq<Event>): World {
    if es == [] then w else Step(Run(w, es[..|es| - 1]), es[|es| - 1])
  }

  predicate Initial(w: World) {
    w.open == None && w.orphans == [] && w.acted == [] && w.slot == Slot(None, None, 0)
  }

  // ------------------------------------------------------------ conservation

  /** How often `a` occurs. */
  function Times(xs: seq<nat>, a: nat): nat {
    if xs == [] then 0 else Times(xs[..|xs| - 1], a) + if xs[|xs| - 1] == a then 1 else 0
  }

  function TimesActed(acted: seq<(nat, Outcome)>, a: nat): nat {
    if acted == [] then 0
    else TimesActed(acted[..|acted| - 1], a) + if acted[|acted| - 1].0 == a then 1 else 0
  }

  function TimesWaited(open: Option<Open>, a: nat): nat {
    if open.Some? && open.value.stage == Starting(a) then 1 else 0
  }

  /** How often start `a` is held: as an orphan, or as what the open choice waits for. */
  function Held(w: World, a: nat): nat {
    Times(w.orphans, a) + TimesWaited(w.open, a)
  }

  /** Each start begun is held once or was acted on once, never both; nothing else is. */
  ghost predicate Accounted(w: World) {
    forall a: nat :: Held(w, a) + TimesActed(w.acted, a) == if 1 <= a <= w.slot.attempts then 1 else 0
  }

  predicate SlotInv(slot: Slot) {
    && (slot.running.Some? ==> slot.running.value == slot.attempts && slot.attempts > 0)
    && (slot.finished.Some? ==> 1 <= slot.finished.value.0 <= slot.attempts)
    && (slot.running.Some? && slot.finished.Some? ==> slot.finished.value.0 < slot.attempts)
    && (slot.running == None && slot.attempts > 0 ==>
          slot.finished.Some? && slot.finished.value.0 == slot.attempts)
  }

  /** The choice draws the actions of its stage and waits only for the latest start; a running start is held. */
  predicate ChoiceInv(w: World) {
    && (w.open.Some? ==> w.open.value.acts == Acts(w.open.value.stage))
    && (w.open.Some? && w.open.value.stage.Starting? ==> w.open.value.stage.attempt == w.slot.attempts)
    && (w.slot.running.Some? ==> Held(w, w.slot.attempts) == 1)
  }

  ghost predicate Inv(w: World) {
    SlotInv(w.slot) && ChoiceInv(w) && Accounted(w)
  }

  lemma TimesSnoc(xs: seq<nat>, x: nat, a: nat)
    ensures Times(xs + [x], a) == Times(xs, a) + if x == a then 1 else 0
  {
    assert (xs + [x])[..|xs|] == xs;
  }

  lemma TimesActedSnoc(acted: seq<(nat, Outcome)>, x: (nat, Outcome), a: nat)
    ensures TimesActed(acted + [x], a) == TimesActed(acted, a) + if x.0 == a then 1 else 0
  {
    assert (acted + [x])[..|acted|] == acted;
  }

  lemma {:induction false} TimesIn(xs: seq<nat>, a: nat)
    ensures a in xs <==> Times(xs, a) > 0
  {
    if xs != [] {
      TimesIn(xs[..|xs| - 1], a);
      assert xs == xs[..|xs| - 1] + [xs[|xs| - 1]];
    }
  }

  lemma {:induction false} ReportFrame(w: World, orphans: seq<nat>)
    ensures var r := Report(w, orphans);
            && r.slot == w.slot && r.open == w.open && r.share == w.share && r.app.choice == w.app.choice
    ensures forall o :: o in Report(w, orphans).orphans <==> o in orphans && w.slot.OutcomeOf(o) == None
    decreases |orphans|
  {
    if orphans != [] {
      var n := |orphans| - 1;
      ReportFrame(w, orphans[..n]);
      assert orphans == orphans[..n] + [orphans[n]];
    }
  }

  /** Reporting moves an ended orphan from the held to the acted on. */
  lemma {:induction false} ReportMoves(w: World, orphans: seq<nat>, a: nat)
    ensures var r := Report(w, orphans);
            && Times(r.orphans, a) == (if w.slot.OutcomeOf(a) == None then Times(orphans, a) else 0)
            && Times(r.orphans, a) + TimesActed(r.acted, a) == Times(orphans, a) + TimesActed(w.acted, a)
    decreases |orphans|
  {
    if orphans != [] {
      var n := |orphans| - 1;
      var before, o := Report(w, orphans[..n]), orphans[n];
      ReportMoves(w, orphans[..n], a);
      var outcome := w.slot.OutcomeOf(o);
      if outcome == None {
        TimesSnoc(before.orphans, o, a);
      } else {
        TimesActedSnoc(before.acted, (o, outcome.value), a);
      }
    }
  }

  lemma ReportKeepsInv(w: World)
    requires Inv(w)
    ensures Inv(Report(w, w.orphans))
  {
    ReportFrame(w, w.orphans);
    var r := Report(w, w.orphans);
    forall a: nat
      ensures Held(r, a) + TimesActed(r.acted, a) == Held(w, a) + TimesActed(w.acted, a)
    {
      ReportMoves(w, w.orphans, a);
    }
    ReportMoves(w, w.orphans, w.slot.attempts);
  }

  lemma LeftKeepsHeld(w: World, open: Open, a: nat)
    requires w.open == Some(open)
    ensures Held(Left(w, open), a) == Held(w, a)
  {
    if open.stage.Starting? {
      TimesSnoc(w.orphans, open.stage.attempt, a);
    }
  }

  /** Closing the choice, whatever else changes on screen or in the share, keeps the account. */
  lemma LeavingKeepsInv(w: World, open: Open, app: App, share: Sharing)
    requires Inv(w) && w.open == Some(open)
    ensures Inv(Left(w.(app := app, share := share), open))
  {
    var after := Left(w.(app := app, share := share), open);
    assert after.open == None && after.slot == w.slot && after.acted == w.acted;
    forall a: nat
      ensures Held(after, a) == Held(w, a)
    {
      LeftKeepsHeld(w.(app := app, share := share), open, a);
    }
  }

  lemma BegunKeepsInv(w: World, open: Open)
    requires Inv(w) && w.open == Some(open) && !open.stage.Starting?
    ensures Inv(Begun(w, open))
  {
    var after := Begun(w, open);
    var n := after.slot.attempts;
    assert Held(w, n) + TimesActed(w.acted, n) == if 1 <= n <= w.slot.attempts then 1 else 0;
    forall a: nat
      ensures Held(after, a) == Held(w, a) + if a == n && n > w.slot.attempts then 1 else 0
    {
    }
  }

  /** The start waited for is acted on, and nothing is waited for any more: the account moves it over. */
  lemma ActedOnKeepsAccount(w: World, after: World, attempt: nat, outcome: Outcome)
    requires Accounted(w) && w.open.Some? && w.open.value.stage == Starting(attempt)
    requires after.orphans == w.orphans && after.slot.attempts == w.slot.attempts
    requires after.acted == w.acted + [(attempt, outcome)]
    requires after.open.Some? ==> !after.open.value.stage.Starting?
    ensures Accounted(after)
  {
    forall a: nat
      ensures Held(after, a) + TimesActed(after.acted, a) == if 1 <= a <= after.slot.attempts then 1 else 0
    {
      TimesActedSnoc(w.acted, (attempt, outcome), a);
      assert Held(w, a) + TimesActed(w.acted, a) == if 1 <= a <= w.slot.attempts then 1 else 0;
    }
  }

  lemma FinishedKeepsInv(w: World, open: Open, outcome: Outcome)
    requires Inv(w) && w.open == Some(open) && open.stage.Starting?
    requires w.slot.OutcomeOf(open.stage.attempt) == Some(outcome)
    ensures Inv(Finished(w, open, outcome).0)
  {
    var after := Finished(w, open, outcome).0;
    assert after.slot == w.slot && after.orphans == w.orphans;
    ActedOnKeepsAccount(w, after, open.stage.attempt, outcome);
  }

  lemma KeyKeepsInv(w: World, enter: bool)
    requires Inv(w)
    ensures Inv(KeyStep(w, enter).0)
  {
    if w.open.Some? {
      var open := w.open.value;
      var after := KeyStep(w, enter).0;
      if after.open == None {
        LeavingKeepsInv(w, open, after.app, after.share);
      } else {
        BegunKeepsInv(w, open);
      }
    }
  }

  lemma TickKeepsInv(w: World, ours: bool)
    requires Inv(w)
    ensures Inv(TickStep(w, ours).0)
  {
    ReportFrame(w, w.orphans);
    ReportKeepsInv(w);
    var r := Report(w, w.orphans);
    if r.open.Some? {
      var open := r.open.value;
      if !ours || !r.share.Current(open.ticket) {
        var after := Retired(r, open, ours);
        LeavingKeepsInv(r, open, after.app, after.share);
      } else if open.stage.Waiting? {
        BegunKeepsInv(r, open);
      } else if open.stage.Starting? && r.slot.OutcomeOf(open.stage.attempt).Some? {
        FinishedKeepsInv(r, open, r.slot.OutcomeOf(open.stage.attempt).value);
      }
    }
  }

  /** A step that touches neither the host's holdings nor the count of starts keeps the account. */
  lemma SameAccount(w: World, after: World)
    requires Accounted(w)
    requires after.orphans == w.orphans && after.acted == w.acted && after.slot.attempts == w.slot.attempts
    requires forall a: nat :: TimesWaited(after.open, a) == TimesWaited(w.open, a)
    ensures Accounted(after)
    ensures forall a: nat :: Held(after, a) == Held(w, a)
  {
    forall a: nat
      ensures Held(after, a) == Held(w, a)
    {
    }
  }

  lemma StepKeepsInv(w: World, e: Event)
    requires Inv(w)
    ensures Inv(Step(w, e))
  {
    match e
    case Pressed(enter) => KeyKeepsInv(w, enter);
    case Ticked(ours) => TickKeepsInv(w, ours);
    case _ => SameAccount(w, Step(w, e));
  }

  lemma {:induction false} RunKeepsInv(w: World, es: seq<Event>)
    requires Initial(w)
    ensures Inv(Run(w, es))
    decreases |es|
  {
    if es != [] {
      RunKeepsInv(w, es[..|es| - 1]);
      StepKeepsInv(Run(w, es[..|es| - 1]), es[|es| - 1]);
    }
  }

  /**
    Conservation: in every run each start begun is either held once (by the open choice or
    as an orphan) or was acted on exactly once.
   */
  lemma {:induction false} EveryStartHeldOrActedOnOnce(w: World, es: seq<Event>, a: nat)
    requires Initial(w)
    ensures var r := Run(w, es);
            Held(r, a) + TimesActed(r.acted, a) == if 1 <= a <= r.slot.attempts then 1 else 0
  {
    RunKeepsInv(w, es);
  }

  /** The start a choice waits for is running or has its outcome at hand: it is never lost. */
  lemma {:induction false} WaitedForOutcomeIsNeverLost(w: World, es: seq<Event>)
    requires Initial(w)
    requires var r := Run(w, es); r.open.Some? && r.open.value.stage.Starting?
    ensures var r := Run(w, es);
            r.slot.running == Some(r.open.value.stage.attempt) || r.slot.OutcomeOf(r.open.value.stage.attempt).Some?
  {
    RunKeepsInv(w, es);
    var r := Run(w, es);
    var a := r.open.value.stage.attempt;
    assert Held(r, a) + TimesActed(r.acted, a) == if 1 <= a <= r.slot.attempts then 1 else 0;
  }

  // ------------------------------------------------------------ what a tick may do

  /**
    A tick leads to sharing or reconnecting exactly when the choice shown is this one, its intent is
    current at that tick and its start is ready; it then does what the choice was opened for.
   */
  lemma ActsOnlyForACurrentReadyStart(w: World, ours: bool)
    ensures var then_ := TickStep(w, ours).1;
            then_.Some? <==>
              && ours && w.open.Some? && w.open.value.stage.Starting?
              && w.share.Current(w.open.value.ticket)
              && w.slot.OutcomeOf(w.open.value.stage.attempt).Some?
              && w.slot.OutcomeOf(w.open.value.stage.attempt).value.Ready?
    ensures var (after, then_) := TickStep(w, ours);
            then_.Some? ==> then_.value == w.open.value.then_ && after.open == None && after.app.choice == None
  {
    ReportFrame(w, w.orphans);
  }

  lemma {:induction false} IntentsOnlyGrow(w: World, es: seq<Event>)
    ensures Run(w, es).share.intent >= w.share.intent
    decreases |es|
  {
    if es != [] {
      var before, e := Run(w, es[..|es| - 1]), es[|es| - 1];
      IntentsOnlyGrow(w, es[..|es| - 1]);
      if e.Ticked? {
        ReportFrame(before, before.orphans);
      }
    }
  }

  /** The open choice's ticket is of this intent, for the session and claim tracked, or of an earlier one. */
  predicate TicketInv(w: World) {
    w.open.Some? ==>
      var t := w.open.value.ticket;
      && t.intent <= w.share.intent
      && (t.intent == w.share.intent ==>
            w.share.tracked.Some? && w.share.tracked.value.session == t.session && w.share.tracked.value.claim == t.claim)
  }

  lemma StepKeepsTicket(w: World, e: Event)
    requires TicketInv(w)
    ensures TicketInv(Step(w, e))
  {
    if e.Ticked? {
      ReportFrame(w, w.orphans);
    }
  }

  lemma {:induction false} RunKeepsTicket(w: World, es: seq<Event>)
    requires Initial(w)
    ensures TicketInv(Run(w, es))
    decreases |es|
  {
    if es != [] {
      RunKeepsTicket(w, es[..|es| - 1]);
      StepKeepsTicket(Run(w, es[..|es| - 1]), es[|es| - 1]);
    }
  }

  /** Some continuation makes `t` current again. */
  ghost predicate MayReturn(w: World, t: Ticket) {
    exists es :: Run(w, es).share.Current(t)
  }

  /** The intent still stands, and its session is not owned at this moment. */
  predicate Suspended(share: Sharing, t: Ticket) {
    share.intent == t.intent && share.tracked.Some? && !share.tracked.value.owned
  }

  lemma OwnershipReturns(w: World, t: Ticket)
    requires w.share.intent == t.intent && w.share.tracked.Some?
    requires w.share.tracked.value.session == t.session && w.share.tracked.value.claim == t.claim
    ensures MayReturn(w, t)
  {
    var es := [ShareMoves(w.share.(tracked := Some(w.share.tracked.value.(owned := true))))];
    assert es[..0] == [] && Run(w, []) == w;
    assert Run(w, es).share.Current(t);
  }

  lemma PassedIntentIsOver(w: World, t: Ticket)
    requires w.share.intent > t.intent
    ensures !MayReturn(w, t)
  {
    forall es
      ensures !Run(w, es).share.Current(t)
    {
      IntentsOnlyGrow(w, es);
    }
  }

  /**
    A cancelled intent may be acted for again, by a probe still out say, if and only if it
    stood at the cancel while its session was not owned. In every other case its ticket is
    never current again.
   */
  lemma CancelledIntentReturnsIff(w: World)
    requires w.open.Some? && TicketInv(w)
    ensures var t := w.open.value.ticket;
            MayReturn(KeyStep(w, false).0, t) <==> Suspended(w.share, t)
  {
    var t, after := w.open.value.ticket, KeyStep(w, false).0;
    if Suspended(w.share, t) {
      OwnershipReturns(after, t);
    } else {
      PassedIntentIsOver(after, t);
    }
  }

  /** The same when another choice replaced it on screen, at the tick that notices. */
  lemma ReplacedIntentReturnsIff(w: World)
    requires w.open.Some? && TicketInv(w)
    ensures var t := w.open.value.ticket;
            MayReturn(TickStep(w, false).0, t) <==> Suspended(w.share, t)
  {
    ReportFrame(w, w.orphans);
    var t, after := w.open.value.ticket, TickStep(w, false).0;
    if Suspended(w.share, t) {
      OwnershipReturns(after, t);
    } else {
      PassedIntentIsOver(after, t);
    }
  }

  /** Such a moment is reached from a fresh host: the choice opens, and a hand-over is prepared. */
  lemma SuspensionIsReached(w: World, s: Sharing)
    requires Initial(w) && w.app.choice == None && w.share == s && s.ServerNeeded() && s.tracked.value.owned
    ensures var lost := s.(tracked := Some(s.tracked.value.(owned := false)));
            var r := Run(w, [Offered(Share)] + [ShareMoves(lost)]);
            r.open.Some? && Suspended(r.share, r.open.value.ticket)
  {
    var lost := s.(tracked := Some(s.tracked.value.(owned := false)));
    var es := [Offered(Share)] + [ShareMoves(lost)];
    assert es[..1] == [Offered(Share)] && es[..1][..0] == [] && Run(w, []) == w;
    assert Run(w, es[..1]) == Step(w, Offered(Share));
  }

  /** A start that fails or is late offers Retry without selecting it: Enter still cancels. */
  lemma RetryIsNeverSelectedForTheUser(w: World, ours: bool)
    requires w.open.Some? && w.open.value.acts == Acts(w.open.value.stage)
    requires w.app.choice == Some(Choice(Labels(w.open.value.acts, w.open.value.then_), 0))
    requires w.open.value.stage.Starting?
    ensures var after := TickStep(w, ours).0;
            after.open.Some? ==> Chosen(after, after.open.value, true) == Cancel
  {
    ReportFrame(w, w.orphans);
    var labels := Labels([Retry, Cancel], w.open.value.then_);
    assert labels == ["Retry", "Cancel"] && labels[1..] == ["Cancel"];
    assert |"Retry"| != |"Cancel"|;
    assert IndexOf("Cancel", ["Cancel"]) == Some(0);
    assert IndexOf("Cancel", labels) == Some(1);
  }

  // ------------------------------------------------------------ orphans

  /** Orphans whose outcome is gone: not running, and no longer the last one remembered. */
  function Lost(w: World): set<nat> {
    set o | o in w.orphans && w.slot.running != Some(o) && w.slot.OutcomeOf(o) == None
  }

  /** The running start ends while the last ending, an orphan's, has not been reported yet. */
  predicate Overwrites(w: World, e: Event) {
    e.AttemptEnds? && w.slot.running.Some? && w.slot.finished.Some? && w.slot.finished.value.0 in w.orphans
  }

  lemma OrphansAreBegun(w: World)
    requires Inv(w)
    ensures forall o :: o in w.orphans ==> 1 <= o <= w.slot.attempts && Times(w.orphans, o) == 1
    ensures forall o :: o in w.orphans ==> TimesActed(w.acted, o) == 0
  {
    forall o | o in w.orphans
      ensures 1 <= o <= w.slot.attempts && Times(w.orphans, o) == 1 && TimesActed(w.acted, o) == 0
    {
      TimesIn(w.orphans, o);
      assert Held(w, o) + TimesActed(w.acted, o) == if 1 <= o <= w.slot.attempts then 1 else 0;
    }
  }

  /** Leaving adds an orphan that is running or remembered, so nothing is lost by it. */
  lemma LeavingLosesNothing(w: World, open: Open, app: App, share: Sharing)
    requires Inv(w) && w.open == Some(open)
    ensures Lost(Left(w.(app := app, share := share), open)) == Lost(w)
  {
    if open.stage.Starting? {
      var a := open.stage.attempt;
      assert Held(w, a) + TimesActed(w.acted, a) == if 1 <= a <= w.slot.attempts then 1 else 0;
    }
  }

  lemma ContinuingLosesNothing(w: World, ours: bool)
    requires Inv(w)
    ensures Lost(Continued(w, ours).0) == Lost(w)
  {
    OrphansAreBegun(w);
    if w.open.Some? && (!ours || !w.share.Current(w.open.value.ticket)) {
      var after := Retired(w, w.open.value, ours);
      LeavingLosesNothing(w, w.open.value, after.app, after.share);
    }
  }

  lemma TickLosesNothing(w: World, ours: bool)
    requires Inv(w)
    ensures Lost(TickStep(w, ours).0) == Lost(w)
  {
    ReportFrame(w, w.orphans);
    ReportKeepsInv(w);
    assert Lost(Report(w, w.orphans)) == Lost(w);
    ContinuingLosesNothing(Report(w, w.orphans), ours);
  }

  /** Orphans are lost by such an ending, and by nothing else; and none is ever found again. */
  lemma LostStep(w: World, e: Event)
    requires Inv(w)
    ensures Lost(Step(w, e)) == Lost(w) + if Overwrites(w, e) then {w.slot.finished.value.0} else {}
  {
    OrphansAreBegun(w);
    match e
    case Ticked(ours) => TickLosesNothing(w, ours);
    case Pressed(enter) =>
      var after := KeyStep(w, enter).0;
      if w.open.Some? && after.open == None {
        LeavingLosesNothing(w, w.open.value, after.app, after.share);
      }
    case _ =>
  }

  /** No start ends in this run while an orphan's ending is still unreported. */
  predicate NeverOverwrites(w: World, es: seq<Event>) {
    es == [] || (NeverOverwrites(w, es[..|es| - 1]) && !Overwrites(Run(w, es[..|es| - 1]), es[|es| - 1]))
  }

  /**
    Every orphan of a run that ended was told of, or still can be, exactly when no start ends
    while an orphan's ending waits for its tick.
   */
  lemma {:induction false} NothingLostIffNeverOverwritten(w: World, es: seq<Event>)
    requires Initial(w)
    ensures Lost(Run(w, es)) == {} <==> NeverOverwrites(w, es)
    decreases |es|
  {
    if es != [] {
      NothingLostIffNeverOverwritten(w, es[..|es| - 1]);
      RunKeepsInv(w, es[..|es| - 1]);
      LostStep(Run(w, es[..|es| - 1]), es[|es| - 1]);
    }
  }

  /** A lost orphan stays lost, and is never reported. */
  lemma {:induction false} LostForGood(w: World, es: seq<Event>, o: nat)
    requires Inv(w) && o in Lost(w)
    ensures Inv(Run(w, es)) && o in Lost(Run(w, es)) && TimesActed(Run(w, es).acted, o) == 0
    decreases |es|
  {
    if es != [] {
      LostForGood(w, es[..|es| - 1], o);
      StepKeepsInv(Run(w, es[..|es| - 1]), es[|es| - 1]);
      LostStep(Run(w, es[..|es| - 1]), es[|es| - 1]);
    }
    OrphansAreBegun(Run(w, es));
  }

  lemma TickOnlyAdds(w: World, ours: bool, o: nat)
    ensures TimesActed(Continued(w, ours).0.acted, o) >= TimesActed(w.acted, o)
  {
    if w.open.Some? && w.open.value.stage.Starting? && w.slot.OutcomeOf(w.open.value.stage.attempt).Some? {
      var a := w.open.value.stage.attempt;
      TimesActedSnoc(w.acted, (a, w.slot.OutcomeOf(a).value), o);
    }
  }

  /** An orphan's end is reported by the next tick, once, while it is the last ending remembered. */
  lemma OrphanIsReported(w: World, ours: bool, o: nat)
    requires Inv(w) && o in w.orphans && w.slot.OutcomeOf(o).Some?
    ensures TimesActed(w.acted, o) == 0 && TimesActed(TickStep(w, ours).0.acted, o) == 1
    ensures o !in TickStep(w, ours).0.orphans
  {
    ReportMoves(w, w.orphans, o);
    OrphansAreBegun(w);
    TickKeepsInv(w, ours);
    TickOnlyAdds(Report(w, w.orphans), ours, o);
    var after := TickStep(w, ours).0;
    assert Held(after, o) + TimesActed(after.acted, o) <= 1;
    TimesIn(after.orphans, o);
  }

  /**
    How one is lost: a cancelled start ends, and before the next tick the user starts
    another, which ends too.
   */
  lemma AnotherStartCanLoseIt(w: World, outcome: Outcome)
    requires Inv(w) && w.open == None && w.app.choice == None
    requires w.slot.running == None && w.slot.finished.Some? && w.slot.finished.value.0 in w.orphans
    requires w.share.ServerNeeded() && w.share.tracked.value.owned
    ensures w.slot.finished.value.0 in
            Lost(Step(Step(Step(w, Offered(Share)), Pressed(true)), AttemptEnds(outcome)))
  {
    var w1 := Step(w, Offered(Share));
    var w2 := Step(w1, Pressed(true));
    assert w2.slot == w.slot.Begin().0 && w2.orphans == w.orphans;
    OrphansAreBegun(w);
  }

  /** And such a moment is reached from a fresh host: start, cancel, the start ends, sharing needs a server again. */
  lemma SuchAMomentIsReached(w: World, s: Sharing, again: Sharing)
    requires Initial(w) && w.app.choice == None && w.share == s
    requires s.ServerNeeded() && s.tracked.value.owned
    requires again.ServerNeeded() && again.tracked.value.owned && again.intent > s.intent + 1
    ensures var r := Step(Step(Step(Step(Step(w, Offered(Share)), Pressed(true)), Pressed(false)),
                                    AttemptEnds(Ready(true))), ShareMoves(again));
            && r.open == None && r.app.choice == None
            && r.slot.running == None && r.slot.finished == Some((1, Ready(true))) && 1 in r.orphans
            && r.share == again
  {
    var w1 := Step(w, Offered(Share));
    var w2 := Step(w1, Pressed(true));
    assert w2.slot == Slot(Some(1), None, 1) && w2.open.value.stage == Starting(1);
    var w3 := Step(w2, Pressed(false));
    assert w3.orphans == [1] && w3.share == s.Retired();
  }

  // ------------------------------------------------------------ what each step does, and tells

  /** What is due to be told of a start whose choice is gone: it runs, may run yet, or did not start. */
  function OrphanNews(w: World): seq<Notice> {
    if w.slot.finished.Some? && w.slot.finished.value.0 in w.orphans then
      [match w.slot.finished.value.1
       case Ready(_) => OrphanRuns
       case StillStarting => OrphanMayRun
       case CouldNotStart(_) => OrphanDidNotStart]
    else []
  }

  lemma {:induction false} ReportTells(w: World, orphans: seq<nat>)
    requires w.slot.finished.Some? ==> Times(orphans, w.slot.finished.value.0) <= 1
    ensures Report(w, orphans).app == w.app.(notices := w.app.notices + OrphanNews(w.(orphans := orphans)))
    decreases |orphans|
  {
    if orphans != [] {
      var n := |orphans| - 1;
      ReportTells(w, orphans[..n]);
      assert orphans == orphans[..n] + [orphans[n]];
      if w.slot.finished.Some? {
        TimesIn(orphans[..n], w.slot.finished.value.0);
      }
    }
  }

  /** The share as the end of a choice of its present intent leaves it: that intent is over, and for a reconnect sharing is off. */
  predicate GivenUp(share: Sharing, then_: Then, after: Sharing) {
    && after.intent == share.intent + 1 && after.neededFor == None && after.tracked == share.tracked
    && after.state == if then_.Reconnect? then Off else share.state
  }

  /** The start an open choice waits for has ended so. */
  predicate Ended(w: World, outcome: Outcome) {
    w.open.Some? && w.open.value.stage.Starting? && w.slot.finished == Some((w.open.value.stage.attempt, outcome))
  }

  /** A tick tells what became of starts let go, then what it did with the open choice. */
  lemma TicksTell(w: World, ours: bool)
    requires Inv(w)
    ensures var after := Step(w, Ticked(ours));
            after.app.notices == w.app.notices + OrphanNews(w)
                                 + if w.open == None then []
                                   else if !ours || !w.share.Current(w.open.value.ticket) then [SharingCancelled]
                                   else if Ended(w, Ready(true)) then [ServerStarted]
                                   else []
  {
    EachStartHeldOnce(w);
    ReportTells(w, w.orphans);
    ReportFrame(w, w.orphans);
  }

  lemma EachStartHeldOnce(w: World)
    requires Inv(w)
    ensures w.slot.finished.Some? ==> Times(w.orphans, w.slot.finished.value.0) <= 1
  {
    if w.slot.finished.Some? {
      assert Held(w, w.slot.finished.value.0) + TimesActed(w.acted, w.slot.finished.value.0) <= 1;
    }
  }

  /**
    What a tick makes of the open choice: gone when it is no longer this one's or its intent is
    over, started once no other start runs, or moved on as its start ended.
   */
  lemma TicksMoveTheChoice(w: World, ours: bool)
    requires w.open.Some?
    ensures var (after, then_) := TickStep(w, ours); var open := w.open.value;
            if !ours || !w.share.Current(open.ticket) then
              && after.open == None && then_ == None && after.slot == w.slot
              && (if !ours && w.share.Current(open.ticket) then GivenUp(w.share, open.then_, after.share) else after.share == w.share)
              && (open.stage.Starting? ==> open.stage.attempt in after.orphans)
              && after.app.choice == if ours then None else w.app.choice
            else
              && after.share == w.share && after.orphans == Report(w, w.orphans).orphans
              && match open.stage
                 case Waiting =>
                   if w.slot.running.Some? then after.open == w.open && after.slot == w.slot
                   else
                     && after.slot == Slot(Some(w.slot.attempts + 1), w.slot.finished, w.slot.attempts + 1)
                     && after.open == Some(Open(open.ticket, open.then_, Starting(w.slot.attempts + 1), [Cancel]))
                 case Starting(attempt) =>
                   && after.slot == w.slot
                   && after.open == (if w.slot.finished == None || w.slot.finished.value.0 != attempt then w.open
                                     else match w.slot.finished.value.1
                                          case Ready(_) => None
                                          case CouldNotStart(why) => Some(Open(open.ticket, open.then_, Failed(why), [Retry, Cancel]))
                                          case StillStarting => Some(Open(open.ticket, open.then_, NotYet, [Retry, Cancel])))
                 case _ => after.open == w.open && after.slot == w.slot
  {
    ReportFrame(w, w.orphans);
  }

  /** Pressing anything but an action, or Cancel itself, gives the choice and its intent up. */
  lemma CancellingGivesUp(w: World, enter: bool)
    requires w.open.Some?
    requires var open := w.open.value;
             !enter || w.app.choice == None || w.app.choice.value.selected >= |open.acts|
             || open.acts[w.app.choice.value.selected] == Cancel
    ensures var after, open := Step(w, Pressed(enter)), w.open.value; var current := w.share.Current(open.ticket);
            && after.open == None && after.app.choice == None && after.slot == w.slot
            && after.orphans == w.orphans + (if open.stage.Starting? then [open.stage.attempt] else [])
            && (if current then GivenUp(w.share, open.then_, after.share) else after.share == w.share)
            && after.app.notices == w.app.notices + [if current && open.then_ == Reconnect then SharingStopped else SharingCancelled]
  {
  }

  /** Start or Retry begins a start at once if none runs, waits for its turn if one does, and begins nothing for an intent that is over. */
  lemma StartingBegins(w: World)
    requires w.open.Some? && w.app.choice.Some? && w.app.choice.value.selected < |w.open.value.acts|
    requires w.open.value.acts[w.app.choice.value.selected] in {Start, Retry}
    ensures var after, open := Step(w, Pressed(true)), w.open.value;
            && after.share == w.share
            && if !w.share.Current(open.ticket) then
                 && after.open == None && after.app.choice == None && after.slot == w.slot
                 && after.app.notices == w.app.notices + [NothingStarted]
               else
                 && after.app.notices == w.app.notices && after.orphans == w.orphans
                 && if w.slot.running.Some? then
                      after.slot == w.slot && after.open == Some(Open(open.ticket, open.then_, Waiting, [Cancel]))
                    else
                      && after.slot == Slot(Some(w.slot.attempts + 1), w.slot.finished, w.slot.attempts + 1)
                      && after.open == Some(Open(open.ticket, open.then_, Starting(w.slot.attempts + 1), [Cancel]))
  {
  }

  /** The choice opens exactly for a need of the present intent, and never over another. */
  lemma ChoicesOpenIff(w: World, then_: Then)
    ensures var after := Step(w, Offered(then_));
            if w.app.choice == None && w.open == None && w.share.tracked.Some?
               && (if then_.Share? then w.share.neededFor == Some((w.share.intent, w.share.tracked.value.session))
                   else w.share.state == ServerStopped)
            then
              && after.open == Some(Open(Ticket(w.share.intent, w.share.tracked.value.session, w.share.tracked.value.claim),
                                         then_, Offer, [Start, Cancel]))
              && after.app.choice.Some? && after.app.choice.value.selected == 0
              && after.app.choice.value.options
                 == [if then_.Share? then "Start server and share" else "Start server and reconnect", "Cancel"]
              && after.app.notices == w.app.notices
            else after == w
  {
  }
}
