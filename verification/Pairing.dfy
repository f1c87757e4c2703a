/**
  Pairing a device: the attempt behind a pairing code, and the host that shows the code,
  closes it, and tells how it ended, whatever happens to its view.

  The attempt's tasks and the host share the attempt's state; each of their steps is atomic
  here. The host's methods are specified by functions on the value `World`.
 */
module Pairing {
  import opened Options

  // ------------------------------------------------------------ the attempt

  datatype Ended = NoCode | Used | OtherOutcome | Refused

  datatype Phase =
    | Checking | Opening | Active(deadline: nat) | Closing
    | Finished(ended: Ended) | Unconfirmed(restarted: bool)

  /** The phases before a close: a code is being made or is out. */
  predicate Live(phase: Phase) {
    phase.Checking? || phase.Opening? || phase.Active?
  }

  /**
    What the attempt's tasks are at: checking, asking for a code, handing it over (offered, not
    yet announced as active), waiting on it, settling; or none runs.
   */
  datatype Task = Checks | Opens | HandsOver(deadline: nat) | Waits | Settles | Idle

  /** One attempt: its phase, the code waiting to be taken (its deadline), and whether it may be shown. */
  datatype Attempt = Attempt(id: nat, phase: Phase, code: Option<nat>, presented: bool, task: Task) {
    /** `Finished` absorbs; any other phase gives way to `next`, and a `Finished` next clears the code. */
    function Set(next: Phase): Attempt {
      if phase.Finished? then this
      else this.(phase := next, code := if next.Finished? then None else code)
    }

    /** Takes effect only from the expected phase. */
    function Advance(from: Phase, next: Phase): Attempt {
      if phase == from then this.(phase := next) else this
    }

    predicate MayShow(deadline: nat, now: nat) {
      !phase.Finished? && presented && deadline > now
    }

    function Offer(deadline: nat, now: nat): Attempt {
      if MayShow(deadline, now) then this.(code := Some(deadline)) else this
    }

    /** What is in the slot leaves it, and is handed out if it may be shown at `now`. */
    function Take(now: nat): (Attempt, Option<nat>) {
      if code == None then (this, None)
      else (this.(code := None), if MayShow(code.value, now) then code else None)
    }

    function Retire(): Attempt {
      this.(presented := false, code := None)
    }

    /** Hide at once, then settle with the server. */
    function Close(): Attempt {
      Retire().Set(Closing)
    }

    /** Retry or Check: only while unconfirmed and nothing works on it. */
    function Settle(): Attempt {
      if task.Idle? && phase.Unconfirmed? then this.(task := Settles) else this
    }

    /** Neither finished nor known to have lost its server. */
    predicate Unresolved() {
      !phase.Finished? && phase != Unconfirmed(true)
    }
  }

  /** What the attempt's own tasks do to it. */
  datatype TaskStep =
    | Proceeds
    | CodeOffered(deadline: nat, now: nat)
    | CodeAnnounced
    | TurnsUncertain
    | Concludes(ended: Ended)
    | StaysUnconfirmed(restarted: bool)

  /** Where a task may conclude with which ending: no code before one could exist, an outcome only after. */
  predicate CanConclude(task: Task, ended: Ended) {
    match ended
    case NoCode => task.Checks? || task.Opens?
    case Refused => task.Opens?
    case _ => task.Opens? || task.Waits? || task.Settles?
  }

  function Worked(a: Attempt, t: TaskStep): Attempt {
    match t
    case Proceeds =>
      if a.task.Checks? then a.Advance(Checking, Opening).(task := Opens) else a
    case CodeOffered(deadline, now) =>
      if a.task.Opens? then a.Offer(deadline, now).(task := HandsOver(deadline)) else a
    case CodeAnnounced =>
      if a.task.HandsOver? then a.Advance(Opening, Active(a.task.deadline)).(task := Waits) else a
    case TurnsUncertain =>
      if a.task.Opens? || a.task.Waits? then a.Set(Closing).(task := Settles) else a
    case Concludes(ended) =>
      if CanConclude(a.task, ended) then a.Set(Finished(ended)).(task := Idle) else a
    case StaysUnconfirmed(restarted) =>
      if a.task.Settles? then a.Set(Unconfirmed(restarted)).(task := Idle) else a
  }

  function WorkedAll(a: Attempt, steps: seq<TaskStep>): Attempt {
    if steps == [] then a else Worked(WorkedAll(a, steps[..|steps| - 1]), steps[|steps| - 1])
  }

  class PairingAttempt {
    var state: Attempt

    constructor (id: nat)
      ensures state == Attempt(id, Checking, None, true, Checks)
    {
      state := Attempt(id, Checking, None, true, Checks);
    }

    method Set(next: Phase)
      modifies this
      ensures state == old(state).Set(next)
    {
      if state.phase.Finished? {
        return;
      }
      state := state.(phase := next);
      if next.Finished? {
        state := state.(code := None);
      }
    }

    /** The tasks run on by themselves. */
    method Work(steps: seq<TaskStep>)
      modifies this
      ensures state == WorkedAll(old(state), steps)
    {
      state := WorkedAll(state, steps);
    }

    method TakeCode(now: nat) returns (code: Option<nat>)
      modifies this
      ensures (state, code) == old(state).Take(now)
    {
      code := state.code;
      if code == None {
        return;
      }
      state := state.(code := None);
      if !state.MayShow(code.value, now) {
        code := None;
      }
    }

    method Retire()
      modifies this
      ensures state == old(state).Retire()
    {
      state := state.(presented := false);
      state := state.(code := None);
    }

    method Close()
      modifies this
      ensures state == old(state).Close()
    {
      Retire();
      if !state.phase.Finished? {
        Set(Closing);
      }
    }

    /** Retry invalidation, or check status: at most one settling task at a time. */
    method Settle() returns (began: bool)
      modifies this
      ensures state == old(state).Settle()
      ensures began <==> old(state).task.Idle? && old(state).phase.Unconfirmed?
      ensures state == if began then old(state).(task := Settles) else old(state)
    {
      if !state.task.Idle? || !state.phase.Unconfirmed? {
        return false;
      }
      state := state.(task := Settles);
      return true;
    }
  }

  // ------------------------------------------------------------ the screen

  /** A code as the view holds it: the attempt's number and the deadline. */
  datatype Secret = Secret(attempt: nat, deadline: nat)

  datatype Act = Look | Cancel | Close | Hide | Retry | Check | Again | Share | Devices

  datatype View = View(secret: Option<Secret>, acts: seq<Act>)

  const FRESH_VIEW := View(None, [])

  datatype Notice = SessionChanged | OtherViewOpened | Said(phase: Phase)

  /** The pairing overlays; whether something opened over them; whether a dialog holds them back. */
  datatype Screen = Screen(setup: bool, view: Option<View>, navigated: bool, dialog: bool, notices: seq<Notice>) {
    predicate Open() {
      setup || view.Some?
    }

    predicate Replaced() {
      Open() && navigated
    }

    predicate Shown() {
      view.Some? && !dialog && !Replaced()
    }

    function Wiped(): Screen {
      if view.Some? then this.(view := Some(view.value.(secret := None))) else this
    }

    function Told(n: Notice): Screen {
      this.(notices := notices + [n])
    }

    function WithSetup(): Screen {
      this.(setup := true, view := None, navigated := false)
    }

    function WithView(v: View): Screen {
      this.(setup := false, view := Some(v), navigated := false)
    }
  }

  class AppModel {
    var screen: Screen

    method Notify(n: Notice)
      modifies this
      ensures screen == old(screen).Told(n)
    {
      screen := screen.(notices := screen.notices + [n]);
    }

    method OpenSetup()
      modifies this
      ensures screen == old(screen).WithSetup()
    {
      screen := screen.(setup := true, view := None, navigated := false);
    }

    method OpenView(v: View)
      modifies this
      ensures screen == old(screen).WithView(v)
    {
      screen := screen.(setup := false, view := Some(v), navigated := false);
    }

    method CloseSetup()
      modifies this
      ensures screen == old(screen).(setup := false)
    {
      screen := screen.(setup := false);
    }

    method CloseView()
      modifies this
      ensures screen == old(screen).(view := None)
    {
      screen := screen.(view := None);
    }

    method WipeSecret()
      modifies this
      ensures screen == old(screen).Wiped()
    {
      if screen.view.Some? {
        screen := screen.(view := Some(screen.view.value.(secret := None)));
      }
    }
  }

  // ------------------------------------------------------------ the host

  /** When the host acts, and what the tasks do between its reading the phase and its taking the code. */
  datatype Moment = Moment(now: nat, between: seq<TaskStep>)

  /** The host acts with the tasks at rest. */
  function At(now: nat): Moment {
    Moment(now, [])
  }

  /** A Used attempt noted for the registry's followers, and a `TakeUsed` that said so. */
  datatype Mark = Noted(attempt: nat) | ReportedUsed

  datatype World = World(
    screen: Screen, attempt: Option<Attempt>, session: Option<nat>, told: Option<Phase>,
    usedTold: bool, usedPending: bool, attempts: nat, marks: seq<Mark>)

  /** The actions drawn for an attempt in `phase`; `active` while its deadline is ahead. */
  function Offers(phase: Phase, settling: bool, active: bool, shared: bool): seq<Act> {
    match phase
    case Checking | Opening => [Cancel]
    case Active(_) => if active then [Look, Close] else [Hide]
    case Closing => [Hide]
    case Unconfirmed(restarted) => if restarted then [Close] else if settling then [Hide] else [Retry, Check, Hide]
    case Finished(ended) =>
      if !ended.Used? then [Again, Close] else if shared then [Devices, Close] else [Share, Devices, Close]
  }

  function Note(w: World, a: Attempt): World {
    if a.phase == Finished(Used) && !w.usedTold then
      w.(usedTold := true, usedPending := true, marks := w.marks + [Noted(a.id)])
    else w
  }

  function UsedTaken(w: World): (World, bool) {
    var noted := if w.attempt.Some? then Note(w, w.attempt.value) else w;
    if noted.usedPending then (noted.(usedPending := false, marks := noted.marks + [ReportedUsed]), true)
    else (noted, false)
  }

  /** `Note`, then the slot is empty. */
  function Released(w: World): World {
    if w.attempt == None then w else Note(w, w.attempt.value).(attempt := None)
  }

  function TellOnce(w: World, phase: Phase): World {
    if w.told == Some(phase) || !(phase.Finished? || phase.Unconfirmed?) then w
    else w.(told := Some(phase), screen := w.screen.Told(Said(phase)))
  }

  predicate ActiveAt(phase: Phase, now: nat) {
    phase.Active? && phase.deadline > now
  }

  /** The view brought up to date: a taken code shown under an active phase, anything else wiped. */
  function Drawn(v: View, a: Attempt, code: Option<nat>, shared: bool, now: nat): View {
    View(if !ActiveAt(a.phase, now) then None
         else if code.Some? then Some(Secret(a.id, a.phase.deadline))
         else v.secret,
         Offers(a.phase, a.task.Settles?, ActiveAt(a.phase, now), shared))
  }

  /** The phase is read, the tasks may run on, and only then is a waiting code taken. */
  function Refreshed(w: World, shared: bool, at: Moment): World {
    if w.attempt == None then w.(screen := w.screen.Wiped())
    else
      var a := w.attempt.value;
      var later := WorkedAll(a, at.between);
      var (taken, code) := if w.screen.Replaced() then (later, None) else later.Take(at.now);
      var w1 := Note(w, a).(attempt := Some(taken));
      if w.screen.view == None then w1
      else
        w1.(screen := w.screen.(view := Some(Drawn(w.screen.view.value, a, code, shared, at.now))),
            told := if w.screen.Shown() && (a.phase.Finished? || a.phase.Unconfirmed?) then Some(a.phase) else w.told)
  }

  function ViewOpened(w: World, at: Moment): World {
    Refreshed(w.(screen := w.screen.WithView(FRESH_VIEW)), false, at)
  }

  /** An attempt whose view went away: ended ones are told and let go, the others kept. */
  function Settled(w: World, phase: Phase): World {
    if phase.Finished? || phase == Unconfirmed(true) then TellOnce(w, phase).(attempt := None)
    else if phase.Unconfirmed? then TellOnce(w.(told := None), phase)
    else w
  }

  function ViewHidden(w: World): World {
    var w1 := w.(screen := w.screen.(view := None));
    if w.attempt == None then w1
    else
      var a := w.attempt.value;
      var gone := if Live(a.phase) then a.Close() else a.Retire();
      Settled(Note(w1.(attempt := Some(gone)), gone), gone.phase)
  }

  function AttemptClosed(w: World, at: Moment): World {
    var closed := if w.attempt == None then None else Some(w.attempt.value.Close());
    Refreshed(w.(screen := w.screen.Wiped(), attempt := closed), false, at)
  }

  function Left(w: World, at: Moment): World {
    if w.attempt.Some? && Live(w.attempt.value.phase) then AttemptClosed(w, at) else ViewHidden(w)
  }

  function PairingOpened(w: World, session: Option<nat>, at: Moment): World {
    var w1 := w.(session := session);
    if w.attempt.Some? && w.attempt.value.Unresolved() then ViewOpened(w1, at)
    else
      var w2 := Released(w1);
      w2.(screen := w2.screen.WithSetup())
  }

  /** Create from the form; an earlier attempt would be replaced, its outcome noted first. */
  function Created(w: World, starts: bool, at: Moment): World {
    if !w.screen.setup || !starts then w
    else
      var started := Attempt(w.attempts + 1, Checking, None, true, Checks);
      ViewOpened(Released(w).(attempt := Some(started), attempts := w.attempts + 1, usedTold := false, told := None), at)
  }

  datatype PairingKey = Handled | ThenShare | ThenDevices

  function Chosen(w: World, act: Act, shared: bool, at: Moment): (World, PairingKey) {
    if w.screen.view == None || act !in w.screen.view.value.acts then (w, Handled)
    else match act
      case Look => (Refreshed(w, shared, at), Handled)
      case Cancel => (AttemptClosed(w, at), Handled)
      case Close => (Left(w, at), Handled)
      case Hide => (ViewHidden(w), Handled)
      case Retry | Check =>
        var settling := if w.attempt == None then None else Some(w.attempt.value.Settle());
        (Refreshed(w.(attempt := settling), shared, at), Handled)
      case Again =>
        var w1 := Released(w);
        (w1.(screen := w1.screen.WithSetup()), Handled)
      case Share => (ViewHidden(w), ThenShare)
      case Devices => (ViewHidden(w), ThenDevices)
  }

  function HiddenTold(w: World): World {
    if w.attempt == None then w
    else
      var phase := w.attempt.value.phase;
      var w1 := Note(w, w.attempt.value);
      if phase.Finished? || phase == Unconfirmed(true) then TellOnce(w1, phase).(attempt := None)
      else TellOnce(w1, phase)
  }

  function ClosedForDevices(w: World): World {
    var w1 := w.(screen := w.screen.(setup := false));
    if w.screen.view.Some? then ViewHidden(w1.(screen := w1.screen.Wiped())) else w1
  }

  /** Why the open overlay must go, if it must. */
  function Reason(screen: Screen, shownFor: Option<nat>, session: Option<nat>): Option<Notice> {
    if screen.Open() && shownFor != session then Some(SessionChanged)
    else if screen.Replaced() then Some(OtherViewOpened)
    else None
  }

  function Evicted(w: World, session: Option<nat>): World {
    var why := Reason(w.screen, w.session, session);
    if why == None then w
    else
      var w1 := w.(screen := w.screen.(setup := false));
      if w.screen.view == None then w1
      else ViewHidden(w1.(screen := w1.screen.Told(why.value).Wiped()))
  }

  /** The tick after eviction: a view is refreshed; with none, a live attempt closes, and one that is over is told. */
  function Kept(w: World, shared: bool, at: Moment): World {
    if w.screen.view.Some? then Refreshed(w, shared, at)
    else if w.attempt.Some? && Live(w.attempt.value.phase) then
      HiddenTold(w.(attempt := Some(w.attempt.value.Close())))
    else HiddenTold(w)
  }

  function Ticked(w: World, session: Option<nat>, shared: bool, at: Moment): World {
    Kept(Evicted(w, session), shared, at)
  }

  class PairingHost {
    var attempt: PairingAttempt?
    var session: Option<nat>
    var told: Option<Phase>
    var usedTold: bool
    var usedPending: bool
    var issued: nat
    ghost var marks: seq<Mark>

    ghost function Snapshot(app: AppModel): World
      reads this, app, attempt
    {
      World(app.screen, if attempt == null then None else Some(attempt.state),
            session, told, usedTold, usedPending, issued, marks)
    }

    constructor ()
      ensures attempt == null && session == None && told == None
      ensures !usedTold && !usedPending && issued == 0 && marks == []
    {
      attempt, session, told := null, None, None;
      usedTold, usedPending, issued, marks := false, false, 0, [];
    }

    /** A Used attempt not noted yet is marked, and a report falls due. */
    method NoteUsed(app: AppModel)
      requires attempt != null
      modifies this`usedTold, this`usedPending, this`marks
      ensures Snapshot(app) == Note(old(Snapshot(app)), attempt.state)
    {
      if attempt.state.phase == Finished(Used) && !usedTold {
        usedTold := true;
        usedPending := true;
        marks := marks + [Noted(attempt.state.id)];
      }
    }

    method TakeUsed(app: AppModel) returns (used: bool)
      modifies this`usedTold, this`usedPending, this`marks
      ensures (Snapshot(app), used) == UsedTaken(old(Snapshot(app)))
    {
      if attempt != null {
        NoteUsed(app);
      }
      used := usedPending;
      usedPending := false;
      if used {
        marks := marks + [ReportedUsed];
      }
    }

    method Release(app: AppModel)
      modifies this`attempt, this`usedTold, this`usedPending, this`marks
      ensures attempt == null
      ensures Snapshot(app) == Released(old(Snapshot(app)))
    {
      if attempt == null {
        return;
      }
      NoteUsed(app);
      attempt := null;
    }

    method Tell(app: AppModel, phase: Phase)
      modifies this`told, app
      ensures Snapshot(app) == TellOnce(old(Snapshot(app)), phase)
    {
      if told == Some(phase) {
        return;
      }
      match phase {
        case Finished(_) => app.Notify(Said(phase));
        case Unconfirmed(_) => app.Notify(Said(phase));
        case _ => return;
      }
      told := Some(phase);
    }

    /** `Refreshed`: the view's code and actions follow the phase read at the start. */
    method Refresh(app: AppModel, shared: bool, at: Moment)
      modifies this`usedTold, this`usedPending, this`marks, this`told, app, attempt
      ensures Snapshot(app) == Refreshed(old(Snapshot(app)), shared, at)
    {
      var replaced := app.screen.Replaced();
      var shown := app.screen.Shown();
      if attempt == null {
        app.WipeSecret();
        return;
      }
      var phase := attempt.state.phase;
      NoteUsed(app);
      var settling := attempt.state.task.Settles?;
      var id := attempt.state.id;
      var code := None;
      attempt.Work(at.between);
      if !replaced {
        code := attempt.TakeCode(at.now);
      }
      if app.screen.view == None {
        return;
      }
      var view := app.screen.view.value;
      var active := ActiveAt(phase, at.now);
      if code.Some? && active {
        view := view.(secret := Some(Secret(id, phase.deadline)));
      }
      if !active {
        view := view.(secret := None);
      }
      if shown && (phase.Finished? || phase.Unconfirmed?) {
        told := Some(phase);
      }
      app.screen := app.screen.(view := Some(view.(acts := Offers(phase, settling, active, shared))));
    }

    method OpenView(app: AppModel, at: Moment)
      modifies this`usedTold, this`usedPending, this`marks, this`told, app, attempt
      ensures Snapshot(app) == ViewOpened(old(Snapshot(app)), at)
    {
      app.OpenView(FRESH_VIEW);
      Refresh(app, false, at);
    }

    /** An unresolved attempt gets a fresh view; otherwise the slot is emptied and the form opens. */
    method OpenPairing(app: AppModel, session: Option<nat>, at: Moment)
      modifies this, app, attempt
      ensures Snapshot(app) == PairingOpened(old(Snapshot(app)), session, at)
    {
      this.session := session;
      if attempt != null && attempt.state.Unresolved() {
        OpenView(app, at);
        return;
      }
      Release(app);
      app.OpenSetup();
    }

    /** The form gives way to a new attempt's view; `starts` is whether a number was left for it. */
    method Create(app: AppModel, starts: bool, at: Moment)
      modifies this, app, attempt
      ensures Snapshot(app) == Created(old(Snapshot(app)), starts, at)
    {
      if !app.screen.setup || !starts {
        return;
      }
      Release(app);
      issued := issued + 1;
      attempt := new PairingAttempt(issued);
      usedTold := false;
      told := None;
      OpenView(app, at);
    }

    /** No view afterwards; `Settled` decides what becomes of the attempt. */
    method HideView(app: AppModel)
      modifies this, app, attempt
      ensures attempt == old(attempt) || attempt == null
      ensures Snapshot(app) == ViewHidden(old(Snapshot(app)))
    {
      app.CloseView();
      if attempt == null {
        return;
      }
      if Live(attempt.state.phase) {
        attempt.Close();
      } else {
        attempt.Retire();
      }
      var phase := attempt.state.phase;
      NoteUsed(app);
      if phase.Finished? || phase == Unconfirmed(true) {
        Tell(app, phase);
        attempt := null;
      } else if phase.Unconfirmed? {
        told := None;
        Tell(app, phase);
      }
    }

    method CloseAttempt(app: AppModel, at: Moment)
      modifies this`usedTold, this`usedPending, this`marks, this`told, app, attempt
      ensures Snapshot(app) == AttemptClosed(old(Snapshot(app)), at)
    {
      app.WipeSecret();
      if attempt != null {
        attempt.Close();
      }
      Refresh(app, false, at);
    }

    /** `CloseAttempt` for a live attempt, `HideView` for any other. */
    method Leave(app: AppModel, at: Moment)
      modifies this, app, attempt
      ensures Snapshot(app) == Left(old(Snapshot(app)), at)
    {
      if attempt != null && Live(attempt.state.phase) {
        CloseAttempt(app, at);
      } else {
        HideView(app);
      }
    }

    /** One of the view's actions. */
    method Choose(app: AppModel, act: Act, shared: bool, at: Moment) returns (key: PairingKey)
      modifies this, app, attempt
      ensures (Snapshot(app), key) == Chosen(old(Snapshot(app)), act, shared, at)
    {
      key := Handled;
      if app.screen.view == None || act !in app.screen.view.value.acts {
        return;
      }
      match act {
        case Look => Refresh(app, shared, at);
        case Cancel => CloseAttempt(app, at);
        case Close => Leave(app, at);
        case Hide => HideView(app);
        case Retry | Check =>
          if attempt != null {
            var began := attempt.Settle();
          }
          Refresh(app, shared, at);
        case Again =>
          Release(app);
          app.OpenSetup();
        case Share =>
          HideView(app);
          key := ThenShare;
        case Devices =>
          HideView(app);
          key := ThenDevices;
      }
    }

    /** Makes room for another overlay: no form, no view, and the view's attempt hidden. */
    method CloseForDevices(app: AppModel)
      modifies this, app, attempt
      ensures Snapshot(app) == ClosedForDevices(old(Snapshot(app)))
    {
      app.CloseSetup();
      if app.screen.view.Some? {
        app.WipeSecret();
        HideView(app);
      }
    }

    /** With no view: an attempt that is over is told and let go, an unconfirmed one told. */
    method TellHidden(app: AppModel)
      modifies this, app
      ensures Snapshot(app) == HiddenTold(old(Snapshot(app)))
    {
      if attempt == null {
        return;
      }
      var phase := attempt.state.phase;
      NoteUsed(app);
      if phase.Finished? || phase == Unconfirmed(true) {
        Tell(app, phase);
        attempt := null;
      } else {
        Tell(app, phase);
      }
    }

    /** A stale overlay goes: the session changed, or something opened over it. */
    method Evict(app: AppModel, session: Option<nat>)
      modifies this, app, attempt
      ensures Snapshot(app) == Evicted(old(Snapshot(app)), session)
      ensures attempt == old(attempt) || attempt == null
    {
      var why := Reason(app.screen, this.session, session);
      if why.Some? {
        app.CloseSetup();
        if app.screen.view.Some? {
          app.Notify(why.value);
          app.WipeSecret();
          HideView(app);
        }
      }
    }

    method Keep(app: AppModel, shared: bool, at: Moment)
      modifies this, app, attempt
      ensures Snapshot(app) == Kept(old(Snapshot(app)), shared, at)
    {
      if app.screen.view == None && attempt != null && Live(attempt.state.phase) {
        attempt.Close();
      }
      if app.screen.view.Some? {
        Refresh(app, shared, at);
      } else {
        TellHidden(app);
      }
    }

    /** `Evict`, then `Keep`. */
    method Tick(app: AppModel, session: Option<nat>, shared: bool, at: Moment)
      modifies this, app, attempt
      ensures Snapshot(app) == Ticked(old(Snapshot(app)), session, shared, at)
    {
      Evict(app, session);
      Keep(app, shared, at);
    }
  }

  // ------------------------------------------------------------ runs

  datatype Event =
    | OpensPairing(session: Option<nat>, at: Moment)
    | Creates(starts: bool, at: Moment)
    | DropsForm
    | Chooses(act: Act, shared: bool, at: Moment)
    | Escapes(at: Moment)
    | Ticks(session: Option<nat>, shared: bool, at: Moment)
    | TakesUsed
    | OpensDevices
    | Works(task: TaskStep)
    | Navigates
    | DialogMoves(dialog: bool)
    | LosesView

  function Step(w: World, e: Event): World {
    match e
    case OpensPairing(session, at) => PairingOpened(w, session, at)
    case Creates(starts, at) => Created(w, starts, at)
    case DropsForm => w.(screen := w.screen.(setup := false))
    case Chooses(act, shared, at) => Chosen(w, act, shared, at).0
    case Escapes(at) => if w.screen.view.Some? then Left(w, at) else w
    case Ticks(session, shared, at) => Ticked(w, session, shared, at)
    case TakesUsed => UsedTaken(w).0
    case OpensDevices => ClosedForDevices(w)
    case Works(task) => if w.attempt == None then w else w.(attempt := Some(Worked(w.attempt.value, task)))
    // Something opened over the overlay: its code is wiped at once.
    case Navigates => w.(screen := w.screen.Wiped().(navigated := w.screen.Open()))
    case DialogMoves(dialog) => w.(screen := w.screen.(dialog := dialog))
    // The view taken away by anything but this host.
    case LosesView => w.(screen := w.screen.(view := None))
  }

  function Run(w: World, es: seq<Event>): World {
    if es == [] then w else Step(Run(w, es[..|es| - 1]), es[|es| - 1])
  }

  predicate Initial(w: World) {
    w.attempt == None && !w.screen.setup && w.screen.view == None
    && !w.usedTold && !w.usedPending && w.attempts == 0 && w.marks == []
  }

  // ------------------------------------------------------------ the invariant

  /** A waiting code is still presented, was offered, and belongs to the phase it will be shown under. */
  predicate CodeInv(a: Attempt) {
    && (a.code.Some? ==> a.presented && !a.phase.Finished? && Offered(a.task))
    && (a.code.Some? && a.phase.Active? ==> a.code.value == a.phase.deadline)
    && (a.code.Some? && a.task.HandsOver? ==> a.code.value == a.task.deadline)
  }

  /** The attempt's one code was offered: no other ever will be. */
  predicate Offered(task: Task) {
    !task.Checks? && !task.Opens?
  }

  /** Each phase belongs to what the tasks are at; a close shows as `Closing` and ends the presentation. */
  predicate TaskInv(a: Attempt) {
    match a.task
    case Checks => a.phase.Checking? || (a.phase.Closing? && !a.presented)
    case Opens => a.phase.Opening? || (a.phase.Closing? && !a.presented)
    case HandsOver(_) => a.phase.Opening? || (a.phase.Closing? && !a.presented)
    case Waits => a.phase.Active? || (a.phase.Closing? && !a.presented)
    case Settles => a.phase.Closing? || a.phase.Unconfirmed?
    case Idle => a.phase.Finished? || a.phase.Unconfirmed? || (a.phase.Closing? && !a.presented)
  }

  predicate AttemptInv(a: Attempt) {
    CodeInv(a) && TaskInv(a)
  }

  /** The view shows only the kept attempt's code, and only while it may be shown. */
  predicate ViewInv(w: World) {
    w.screen.view.Some? ==>
      && (w.screen.view.value.secret.Some? ==>
        && w.attempt.Some? && w.attempt.value.presented
        && w.screen.view.value.secret.value.attempt == w.attempt.value.id
        && (w.attempt.value.task.Waits? || w.attempt.value.task.Settles? || w.attempt.value.task.Idle?)
        && (w.attempt.value.phase.Active? ==>
              w.attempt.value.phase.deadline == w.screen.view.value.secret.value.deadline))
      && (Again in w.screen.view.value.acts ==> w.attempt.Some? && w.attempt.value.phase.Finished?)
  }

  /** The form and the view never stand together, and no attempt waits behind the form. */
  predicate ScreenInv(w: World) {
    && (w.screen.setup ==> w.screen.view == None && w.attempt == None)
    && (w.attempt.Some? ==> w.attempts > 0 && w.attempt.value.id == w.attempts && AttemptInv(w.attempt.value))
  }

  predicate Inv(w: World) {
    ViewInv(w) && ScreenInv(w)
  }

  /** What the tasks never do to an attempt, whatever they do. */
  predicate Follows(before: Attempt, after: Attempt) {
    && after.id == before.id && after.presented == before.presented
    && (before.phase.Finished? ==> after.phase == before.phase)
    && (!Live(before.phase) ==> !Live(after.phase))
    && (before.task.Idle? ==> after == before)
    && (after.phase.Closing? && after.task.Idle? ==> after == before)
    && (Offered(before.task) ==> Offered(after.task) && (before.code == None ==> after.code == None))
    && (before.phase.Active? && after.phase.Active? ==> after.phase == before.phase)
    && (!before.task.Checks? && !before.task.Opens? && !before.task.HandsOver? ==>
          !after.task.Checks? && !after.task.Opens? && !after.task.HandsOver? && (after.phase.Active? ==> before.phase.Active?))
  }

  lemma TaskKeepsInv(a: Attempt, t: TaskStep)
    requires AttemptInv(a)
    ensures AttemptInv(Worked(a, t)) && Follows(a, Worked(a, t))
  {
  }

  lemma FollowsOn(a: Attempt, b: Attempt, c: Attempt)
    requires AttemptInv(a) && AttemptInv(b) && Follows(a, b) && Follows(b, c)
    ensures Follows(a, c)
  {
  }

  lemma {:induction false} TasksKeepInv(a: Attempt, steps: seq<TaskStep>)
    requires AttemptInv(a)
    ensures AttemptInv(WorkedAll(a, steps)) && Follows(a, WorkedAll(a, steps))
  {
    if steps != [] {
      var before := WorkedAll(a, steps[..|steps| - 1]);
      TasksKeepInv(a, steps[..|steps| - 1]);
      TaskKeepsInv(before, steps[|steps| - 1]);
      FollowsOn(a, before, WorkedAll(a, steps));
    }
  }

  lemma TakeKeepsInv(a: Attempt, now: nat)
    requires AttemptInv(a)
    ensures AttemptInv(a.Take(now).0)
    ensures a.Take(now).1.Some? ==> a.presented && Offered(a.task)
  {
  }

  lemma {:induction false} RefreshedKeepsInv(w: World, shared: bool, at: Moment)
    requires Inv(w)
    ensures Inv(Refreshed(w, shared, at))
  {
    if w.attempt.Some? {
      var a := w.attempt.value;
      TasksKeepInv(a, at.between);
      TakeKeepsInv(WorkedAll(a, at.between), at.now);
      if w.screen.view.Some? {
        assert Again in Offers(a.phase, a.task.Settles?, ActiveAt(a.phase, at.now), shared) ==> a.phase.Finished?;
      }
    }
  }

  lemma {:induction false} ViewHiddenKeepsInv(w: World)
    requires Inv(w.(screen := w.screen.(view := None)))
    ensures Inv(ViewHidden(w))
  {
  }

  lemma {:induction false} AttemptClosedKeepsInv(w: World, at: Moment)
    requires Inv(w)
    ensures Inv(AttemptClosed(w, at))
  {
    var closed := if w.attempt == None then None else Some(w.attempt.value.Close());
    RefreshedKeepsInv(w.(screen := w.screen.Wiped(), attempt := closed), false, at);
  }

  lemma {:induction false} OpeningKeepsInv(w: World, session: Option<nat>, at: Moment)
    requires Inv(w)
    ensures Inv(PairingOpened(w, session, at))
  {
    var w1 := w.(session := session);
    RefreshedKeepsInv(w1.(screen := w1.screen.WithView(FRESH_VIEW)), false, at);
  }

  lemma {:induction false} CreatedKeepsInv(w: World, starts: bool, at: Moment)
    requires Inv(w)
    ensures Inv(Created(w, starts, at))
  {
    if w.screen.setup && starts {
      var started := Attempt(w.attempts + 1, Checking, None, true, Checks);
      var w1 := w.(attempt := Some(started), attempts := w.attempts + 1, usedTold := false, told := None);
      RefreshedKeepsInv(w1.(screen := w1.screen.WithView(FRESH_VIEW)), false, at);
    }
  }

  lemma {:induction false} ChosenKeepsInv(w: World, act: Act, shared: bool, at: Moment)
    requires Inv(w)
    ensures Inv(Chosen(w, act, shared, at).0)
  {
    if w.screen.view.Some? && act in w.screen.view.value.acts {
      match act
      case Look => RefreshedKeepsInv(w, shared, at);
      case Cancel => AttemptClosedKeepsInv(w, at);
      case Close => AttemptClosedKeepsInv(w, at); ViewHiddenKeepsInv(w);
      case Hide | Share | Devices => ViewHiddenKeepsInv(w);
      case Retry | Check =>
        var settling := if w.attempt == None then None else Some(w.attempt.value.Settle());
        RefreshedKeepsInv(w.(attempt := settling), shared, at);
      case Again =>
    }
  }

  lemma {:induction false} EvictedKeepsInv(w: World, session: Option<nat>)
    requires Inv(w)
    ensures Inv(Evicted(w, session))
  {
    var why := Reason(w.screen, w.session, session);
    if why.Some? && w.screen.view.Some? {
      ViewHiddenKeepsInv(w.(screen := w.screen.(setup := false).Told(why.value).Wiped()));
    }
  }

  lemma HiddenToldKeepsInv(w: World)
    requires Inv(w) && w.screen.view == None
    ensures Inv(HiddenTold(w))
  {
  }

  lemma {:induction false} TickedKeepsInv(w: World, session: Option<nat>, shared: bool, at: Moment)
    requires Inv(w)
    ensures Inv(Ticked(w, session, shared, at))
  {
    EvictedKeepsInv(w, session);
    var w1 := Evicted(w, session);
    if w1.screen.view.Some? {
      RefreshedKeepsInv(w1, shared, at);
    } else if w1.attempt.Some? && Live(w1.attempt.value.phase) {
      HiddenToldKeepsInv(w1.(attempt := Some(w1.attempt.value.Close())));
    } else {
      HiddenToldKeepsInv(w1);
    }
  }

  lemma {:induction false} StepKeepsInv(w: World, e: Event)
    requires Inv(w)
    ensures Inv(Step(w, e))
  {
    match e
    case OpensPairing(session, at) => OpeningKeepsInv(w, session, at);
    case Creates(starts, at) => CreatedKeepsInv(w, starts, at);
    case Chooses(act, shared, at) => ChosenKeepsInv(w, act, shared, at);
    case Escapes(at) => AttemptClosedKeepsInv(w, at); ViewHiddenKeepsInv(w);
    case Ticks(session, shared, at) => TickedKeepsInv(w, session, shared, at);
    case OpensDevices => ClosedForDevicesKeepsInv(w);
    case Works(task) => WorkKeepsInv(w, task);
    case _ => PlainStepKeepsInv(w, e);
  }

  lemma ClosedForDevicesKeepsInv(w: World)
    requires Inv(w)
    ensures Inv(ClosedForDevices(w))
  {
    if w.screen.view.Some? {
      ViewHiddenKeepsInv(w.(screen := w.screen.(setup := false).Wiped()));
    }
  }

  lemma PlainStepKeepsInv(w: World, e: Event)
    requires Inv(w) && (e.DropsForm? || e.TakesUsed? || e.Navigates? || e.DialogMoves? || e.LosesView?)
    ensures Inv(Step(w, e))
  {
  }

  lemma WorkKeepsInv(w: World, task: TaskStep)
    requires Inv(w)
    ensures Inv(Step(w, Works(task)))
  {
    if w.attempt.Some? {
      TaskKeepsInv(w.attempt.value, task);
    }
  }

  lemma {:induction false} RunKeepsInv(w: World, es: seq<Event>)
    requires Inv(w)
    ensures Inv(Run(w, es))
  {
    if es != [] {
      RunKeepsInv(w, es[..|es| - 1]);
      StepKeepsInv(Run(w, es[..|es| - 1]), es[|es| - 1]);
    }
  }

  // ------------------------------------------------------------ codes and their views

  predicate Attended(w: World) {
    w.attempt.Some? && Live(w.attempt.value.phase) ==> w.screen.view.Some?
  }

  /**
    A code shown by the tick is the kept attempt's, active and before its deadline when the
    tick read it, on a view of this session that nothing replaced.
   */
  predicate Truthful(before: World, after: World, session: Option<nat>, now: nat) {
    after.screen.view.Some? ==>
      && after.session == session && !after.screen.Replaced()
      && (after.screen.view.value.secret.Some? ==>
            && before.attempt.Some? && before.attempt.value.presented && ActiveAt(before.attempt.value.phase, now)
            && after.screen.view.value.secret.value == Secret(before.attempt.value.id, before.attempt.value.phase.deadline))
  }

  lemma RefreshedFrame(w: World, shared: bool, at: Moment)
    ensures var r := Refreshed(w, shared, at);
            && r.screen.setup == w.screen.setup && r.screen.navigated == w.screen.navigated && r.session == w.session
            && r.screen.view.Some? == w.screen.view.Some? && r.attempts == w.attempts
            && r.attempt == if w.attempt == None then None
                            else Some(WorkedAll(w.attempt.value, at.between).(code := r.attempt.value.code))
  {
  }

  lemma SettledFrame(w: World, phase: Phase)
    ensures var r := Settled(w, phase);
            && r.screen.setup == w.screen.setup && r.screen.view == w.screen.view
            && r.screen.navigated == w.screen.navigated && r.attempts == w.attempts
            && (r.attempt == w.attempt || r.attempt == None)
  {
    var w1 := if phase == Unconfirmed(false) then w.(told := None) else w;
    assert TellOnce(w1, phase).(screen := w.screen, told := w1.told) == w1;
  }

  lemma ViewHiddenFrame(w: World)
    ensures var r := ViewHidden(w);
            && r.screen.setup == w.screen.setup && r.screen.view == None && r.attempts == w.attempts
            && (r.attempt.Some? ==>
                  && w.attempt.Some? && !r.attempt.value.presented && !Live(r.attempt.value.phase)
                  && r.attempt == Some(if Live(w.attempt.value.phase) then w.attempt.value.Close()
                                       else w.attempt.value.Retire()))
  {
    if w.attempt.Some? {
      var a := w.attempt.value;
      var gone := if Live(a.phase) then a.Close() else a.Retire();
      var w1 := w.(screen := w.screen.(view := None), attempt := Some(gone));
      SettledFrame(Note(w1, gone), gone.phase);
    }
  }

  lemma AttemptClosedFrame(w: World, at: Moment)
    ensures var r := AttemptClosed(w, at);
            && r.screen.view.Some? == w.screen.view.Some? && r.attempts == w.attempts
            && r.attempt == if w.attempt == None then None
                            else Some(WorkedAll(w.attempt.value.Close(), at.between).(code := r.attempt.value.code))
  {
    var closed := if w.attempt == None then None else Some(w.attempt.value.Close());
    RefreshedFrame(w.(screen := w.screen.Wiped(), attempt := closed), false, at);
  }

  lemma OpeningFrame(w: World, session: Option<nat>, at: Moment)
    ensures var r := PairingOpened(w, session, at);
            && r.attempts == w.attempts
            && (r.attempt.Some? ==>
                  w.attempt.Some? && r.screen.view.Some?
                  && r.attempt == Some(WorkedAll(w.attempt.value, at.between).(code := r.attempt.value.code)))
  {
    var w1 := w.(session := session);
    RefreshedFrame(w1.(screen := w1.screen.WithView(FRESH_VIEW)), false, at);
  }

  lemma CreatedFrame(w: World, starts: bool, at: Moment)
    requires Inv(w)
    ensures var r := Created(w, starts, at);
            r == w || (r.attempts == w.attempts + 1 && r.screen.view.Some?
                       && r.attempt.Some? && r.attempt.value.id == r.attempts && !Stranded(r))
  {
    if w.screen.setup && starts {
      var started := Attempt(w.attempts + 1, Checking, None, true, Checks);
      var w1 := w.(attempt := Some(started), attempts := w.attempts + 1, usedTold := false, told := None);
      TasksKeepInv(started, at.between);
      RefreshedFrame(w1.(screen := w1.screen.WithView(FRESH_VIEW)), false, at);
    }
  }

  lemma EvictedFrame(w: World, session: Option<nat>)
    ensures var r := Evicted(w, session);
            if r.screen.view.Some? then r == w && w.session == session && !w.screen.Replaced()
            else r.attempts == w.attempts && (r.attempt == None || r.attempt == w.attempt || r.attempt == ViewHidden(w).attempt)
  {
    var why := Reason(w.screen, w.session, session);
    if why.Some? && w.screen.view.Some? {
      ViewHiddenFrame(w.(screen := w.screen.(setup := false).Told(why.value).Wiped()));
    }
  }

  /** Hidden attempts are closed if live, and then only kept or let go. */
  lemma KeptFrame(w: World, shared: bool, at: Moment)
    ensures var r := Kept(w, shared, at);
            && r.attempts == w.attempts && r.screen.view.Some? == w.screen.view.Some?
            && (if w.screen.view.Some? then r == Refreshed(w, shared, at)
                else r.attempt.Some? ==>
                       && w.attempt.Some?
                       && r.attempt == Some(if Live(w.attempt.value.phase) then w.attempt.value.Close() else w.attempt.value))
  {
    RefreshedFrame(w, shared, at);
    HiddenToldFrame(w);
    if w.attempt.Some? {
      HiddenToldFrame(w.(attempt := Some(w.attempt.value.Close())));
    }
  }

  lemma HiddenToldFrame(w: World)
    ensures var r := HiddenTold(w);
            && r.attempts == w.attempts && r.screen.view == w.screen.view
            && (r.attempt == w.attempt || r.attempt == None)
  {
  }

  lemma {:induction false} EveryTickIsSafe(w: World, session: Option<nat>, shared: bool, at: Moment)
    requires Inv(w)
    ensures Attended(Ticked(w, session, shared, at))
    ensures Truthful(w, Ticked(w, session, shared, at), session, at.now)
  {
    EvictedFrame(w, session);
    var w1 := Evicted(w, session);
    KeptFrame(w1, shared, at);
    if w1.screen.view.Some? {
      RefreshedFrame(w, shared, at);
      if w.attempt.Some? {
        RefreshShows(w, shared, at);
      }
    }
  }

  /** What a refresh leaves on the view. */
  lemma RefreshShows(w: World, shared: bool, at: Moment)
    requires Inv(w) && w.attempt.Some? && w.screen.view.Some?
    ensures var a := w.attempt.value; var r := Refreshed(w, shared, at);
            r.screen.view.value.secret.Some? ==>
              a.presented && ActiveAt(a.phase, at.now) && r.screen.view.value.secret.value == Secret(a.id, a.phase.deadline)
  {
    var a := w.attempt.value;
    TasksKeepInv(a, at.between);
    TakeKeepsInv(WorkedAll(a, at.between), at.now);
  }

  /** Whatever is chosen, the tasks only follow on from what it leaves. */
  lemma ChoicesFollow(w: World, at: Moment)
    requires Inv(w)
    ensures w.attempt.Some? ==>
              var a := w.attempt.value;
              && Follows(a, WorkedAll(a, at.between)) && Follows(a.Close(), WorkedAll(a.Close(), at.between))
              && Follows(a.Settle(), WorkedAll(a.Settle(), at.between))
  {
    if w.attempt.Some? {
      TasksKeepInv(w.attempt.value, at.between);
      TasksKeepInv(w.attempt.value.Close(), at.between);
      TasksKeepInv(w.attempt.value.Settle(), at.between);
    }
  }

  lemma ChosenKeepsAttended(w: World, act: Act, shared: bool, at: Moment)
    requires Inv(w) && Attended(w)
    ensures Attended(Chosen(w, act, shared, at).0)
  {
    ChoicesFollow(w, at);
    if w.screen.view.Some? && act in w.screen.view.value.acts {
      match act
      case Look => RefreshedFrame(w, shared, at);
      case Cancel => AttemptClosedFrame(w, at);
      case Close => AttemptClosedFrame(w, at); ViewHiddenFrame(w);
      case Hide | Share | Devices => ViewHiddenFrame(w);
      case Retry | Check =>
        var settling := if w.attempt == None then None else Some(w.attempt.value.Settle());
        RefreshedFrame(w.(attempt := settling), shared, at);
      case Again =>
    }
  }

  lemma StepKeepsAttended(w: World, e: Event)
    requires Inv(w) && Attended(w) && e != LosesView
    ensures Attended(Step(w, e))
  {
    match e
    case OpensPairing(session, at) => ChoicesFollow(w, at); OpeningFrame(w, session, at);
    case Creates(starts, at) => CreatedFrame(w, starts, at);
    case Chooses(act, shared, at) => ChosenKeepsAttended(w, act, shared, at);
    case Escapes(at) => ChoicesFollow(w, at); AttemptClosedFrame(w, at); ViewHiddenFrame(w);
    case Ticks(session, shared, at) => EveryTickIsSafe(w, session, shared, at);
    case OpensDevices =>
      if w.screen.view.Some? {
        ViewHiddenFrame(w.(screen := w.screen.(setup := false).Wiped()));
      }
    case _ =>
  }

  /** At every moment a live attempt has its view, unless another hand took the view since the last tick. */
  lemma {:induction false} LiveCodeNeverOutlivesItsView(w: World, es: seq<Event>)
    requires Initial(w)
    ensures es != [] && es[|es| - 1].Ticks? ==>
      var tick := es[|es| - 1];
      Attended(Run(w, es)) && Truthful(Run(w, es[..|es| - 1]), Run(w, es), tick.session, tick.at.now)
    ensures LosesView !in es ==> Attended(Run(w, es))
  {
    if es != [] {
      var before, e := es[..|es| - 1], es[|es| - 1];
      RunKeepsInv(w, before);
      if e.Ticks? {
        EveryTickIsSafe(Run(w, before), e.session, e.shared, e.at);
      }
      if LosesView !in es {
        LiveCodeNeverOutlivesItsView(w, before);
        StepKeepsAttended(Run(w, before), e);
      }
    }
  }

  // ------------------------------------------------------------ what is over stays over

  /** Nothing of attempt `id` is shown, and nothing of it can be taken. */
  predicate Gone(w: World, id: nat) {
    && id <= w.attempts
    && (w.screen.view.Some? && w.screen.view.value.secret.Some? ==> w.screen.view.value.secret.value.attempt != id)
    && (w.attempt.Some? && w.attempt.value.id == id ==> !w.attempt.value.presented)
  }

  /** Attempt `id` is let go, or kept in phase `phase`. */
  predicate StandsAt(w: World, id: nat, phase: Phase) {
    id <= w.attempts && (w.attempt.Some? && w.attempt.value.id == id ==> w.attempt.value.phase == phase)
  }

  /** Attempt numbers only grow, the kept attempt is the same or the newest, and retiring is for good. */
  predicate Moves(before: World, after: World) {
    && before.attempts <= after.attempts
    && (after.attempt.Some? ==>
          || (before.attempt.Some? && after.attempt.value.id == before.attempt.value.id
              && (!before.attempt.value.presented ==> !after.attempt.value.presented)
              && (before.attempt.value.phase.Finished? ==> after.attempt.value.phase == before.attempt.value.phase))
          || after.attempt.value.id > before.attempts)
  }

  /** A refresh after anything that keeps the attempt's identity, ending and retirement. */
  lemma RefreshedMoves(w: World, readied: World, shared: bool, at: Moment)
    requires readied.attempts == w.attempts && (readied.attempt.Some? ==> w.attempt.Some? && AttemptInv(readied.attempt.value))
    requires readied.attempt.Some? ==>
               && readied.attempt.value.id == w.attempt.value.id
               && (!w.attempt.value.presented ==> !readied.attempt.value.presented)
               && (w.attempt.value.phase.Finished? ==> readied.attempt.value.phase == w.attempt.value.phase)
    ensures Moves(w, Refreshed(readied, shared, at))
  {
    RefreshedFrame(readied, shared, at);
    if readied.attempt.Some? {
      TasksKeepInv(readied.attempt.value, at.between);
    }
  }

  lemma ClosedMoves(w: World, at: Moment)
    requires Inv(w)
    ensures Moves(w, AttemptClosed(w, at))
  {
    var closed := if w.attempt == None then None else Some(w.attempt.value.Close());
    RefreshedMoves(w, w.(screen := w.screen.Wiped(), attempt := closed), false, at);
  }

  lemma HiddenMoves(w: World)
    ensures Moves(w, ViewHidden(w))
  {
    ViewHiddenFrame(w);
  }

  lemma ChosenMoves(w: World, act: Act, shared: bool, at: Moment)
    requires Inv(w)
    ensures Moves(w, Chosen(w, act, shared, at).0)
  {
    if w.screen.view.Some? && act in w.screen.view.value.acts {
      match act
      case Look => RefreshedMoves(w, w, shared, at);
      case Cancel => ClosedMoves(w, at);
      case Close => ClosedMoves(w, at); HiddenMoves(w);
      case Hide | Share | Devices => HiddenMoves(w);
      case Retry | Check =>
        var settling := if w.attempt == None then None else Some(w.attempt.value.Settle());
        RefreshedMoves(w, w.(attempt := settling), shared, at);
      case Again =>
    }
  }

  lemma TickedMoves(w: World, session: Option<nat>, shared: bool, at: Moment)
    requires Inv(w)
    ensures Moves(w, Ticked(w, session, shared, at))
  {
    ChoicesFollow(w, at);
    EvictedFrame(w, session);
    ViewHiddenFrame(w);
    KeptFrame(Evicted(w, session), shared, at);
    RefreshedFrame(w, shared, at);
  }

  lemma StepMoves(w: World, e: Event)
    requires Inv(w)
    ensures Moves(w, Step(w, e))
  {
    match e
    case OpensPairing(session, at) => ChoicesFollow(w, at); OpeningFrame(w, session, at);
    case Creates(starts, at) => CreatedFrame(w, starts, at);
    case Chooses(act, shared, at) => ChosenMoves(w, act, shared, at);
    case Escapes(at) => ChoicesFollow(w, at); AttemptClosedFrame(w, at); ViewHiddenFrame(w);
    case Ticks(session, shared, at) => TickedMoves(w, session, shared, at);
    case OpensDevices =>
      if w.screen.view.Some? {
        ViewHiddenFrame(w.(screen := w.screen.(setup := false).Wiped()));
      }
    case Works(task) =>
      if w.attempt.Some? {
        TaskKeepsInv(w.attempt.value, task);
      }
    case _ =>
  }

  lemma GoneStep(w: World, e: Event, id: nat)
    requires Inv(w) && Gone(w, id)
    ensures Gone(Step(w, e), id)
  {
    StepMoves(w, e);
    StepKeepsInv(w, e);
  }

  /** Once an attempt is retired (hidden, closed or let go), no run shows a code of its again. */
  lemma {:induction false} RetiredCodeNeverReturns(w: World, es: seq<Event>, id: nat)
    requires Inv(w) && Gone(w, id)
    ensures Gone(Run(w, es), id)
  {
    if es != [] {
      RetiredCodeNeverReturns(w, es[..|es| - 1], id);
      RunKeepsInv(w, es[..|es| - 1]);
      GoneStep(Run(w, es[..|es| - 1]), es[|es| - 1], id);
    }
  }

  /** Closing or hiding the view retires the attempt behind it. */
  lemma {:induction false} ClosingRetires(w: World, at: Moment)
    requires Inv(w) && w.attempt.Some?
    ensures Gone(AttemptClosed(w, at), w.attempt.value.id)
    ensures Gone(ViewHidden(w), w.attempt.value.id)
  {
    ChoicesFollow(w, at);
    AttemptClosedFrame(w, at);
    AttemptClosedKeepsInv(w, at);
    ViewHiddenFrame(w);
  }

  /** An ended attempt never changes how it ended. */
  lemma {:induction false} EndedStaysEnded(w: World, es: seq<Event>, id: nat, ended: Ended)
    requires Inv(w) && StandsAt(w, id, Finished(ended))
    ensures StandsAt(Run(w, es), id, Finished(ended))
  {
    if es != [] {
      var before := Run(w, es[..|es| - 1]);
      EndedStaysEnded(w, es[..|es| - 1], id, ended);
      RunKeepsInv(w, es[..|es| - 1]);
      StepMoves(before, es[|es| - 1]);
    }
  }

  // ------------------------------------------------------------ every paired device is reported

  function NotesOf(marks: seq<Mark>, id: nat): nat {
    if marks == [] then 0
    else NotesOf(marks[..|marks| - 1], id) + if marks[|marks| - 1] == Noted(id) then 1 else 0
  }

  function Notes(marks: seq<Mark>): nat {
    if marks == [] then 0 else Notes(marks[..|marks| - 1]) + if marks[|marks| - 1].Noted? then 1 else 0
  }

  function Reports(marks: seq<Mark>): nat {
    if marks == [] then 0 else Reports(marks[..|marks| - 1]) + if marks[|marks| - 1].ReportedUsed? then 1 else 0
  }

  /** Something was noted since the last report. */
  predicate Owed(marks: seq<Mark>) {
    marks != [] && marks[|marks| - 1].Noted?
  }

  /** Attempt `id` was noted, and a report followed. */
  predicate Followed(marks: seq<Mark>, id: nat) {
    marks != [] && (Followed(marks[..|marks| - 1], id)
                    || (marks[|marks| - 1].ReportedUsed? && NotesOf(marks[..|marks| - 1], id) > 0))
  }

  /** At most one note an attempt and one report a note; a report is pending exactly when one is owed. */
  ghost predicate UsedInv(w: World) {
    && (w.usedPending <==> Owed(w.marks))
    && Reports(w.marks) + (if Owed(w.marks) then 1 else 0) <= Notes(w.marks)
    && (forall id: nat :: NotesOf(w.marks, id) <= if 1 <= id <= w.attempts then 1 else 0)
    && (w.usedTold <==> NotesOf(w.marks, w.attempts) == 1)
  }

  predicate SameBooks(w: World, r: World) {
    r.marks == w.marks && r.usedTold == w.usedTold && r.usedPending == w.usedPending && r.attempts == w.attempts
  }

  /** An attempt let go was noted; one still kept may have been. */
  predicate Booked(w: World, r: World) {
    if w.attempt == None then SameBooks(w, r) && r.attempt == None
    else
      || SameBooks(Note(w, w.attempt.value), r)
      || (SameBooks(w, r) && r.attempt.Some? && r.attempt.value.id == w.attempt.value.id
          && (w.attempt.value.phase.Finished? ==> r.attempt.value.phase == w.attempt.value.phase))
  }

  lemma RefreshedBooks(w: World, shared: bool, at: Moment)
    ensures var r := Refreshed(w, shared, at);
            if w.attempt == None then SameBooks(w, r) && r.attempt == None else SameBooks(Note(w, w.attempt.value), r)
  {
  }

  lemma ViewHiddenBooks(w: World)
    ensures var r := ViewHidden(w);
            if w.attempt == None then SameBooks(w, r) && r.attempt == None else SameBooks(Note(w, w.attempt.value), r)
  {
    if w.attempt.Some? {
      var a := w.attempt.value;
      var gone := if Live(a.phase) then a.Close() else a.Retire();
      var w1 := Note(w.(screen := w.screen.(view := None), attempt := Some(gone)), gone);
      assert SameBooks(Note(w, a), w1);
      SettledBooks(w1, gone.phase);
    }
  }

  lemma SettledBooks(w: World, phase: Phase)
    ensures SameBooks(w, Settled(w, phase))
  {
    var w1 := if phase == Unconfirmed(false) then w.(told := None) else w;
    assert TellOnce(w1, phase).(screen := w.screen, told := w1.told) == w1;
  }

  lemma AttemptClosedBooks(w: World, at: Moment)
    ensures var r := AttemptClosed(w, at);
            if w.attempt == None then SameBooks(w, r) && r.attempt == None else SameBooks(Note(w, w.attempt.value), r)
  {
    var closed := if w.attempt == None then None else Some(w.attempt.value.Close());
    RefreshedBooks(w.(screen := w.screen.Wiped(), attempt := closed), false, at);
  }

  lemma HiddenToldBooks(w: World)
    ensures var r := HiddenTold(w);
            if w.attempt == None then r == w else SameBooks(Note(w, w.attempt.value), r)
  {
    if w.attempt.Some? {
      var w1 := Note(w, w.attempt.value);
      assert TellOnce(w1, w.attempt.value.phase).(screen := w1.screen, told := w1.told) == w1;
    }
  }

  lemma ChosenBooks(w: World, act: Act, shared: bool, at: Moment)
    requires Inv(w)
    ensures Booked(w, Chosen(w, act, shared, at).0)
  {
    if w.screen.view.Some? && act in w.screen.view.value.acts {
      match act
      case Look => RefreshedBooks(w, shared, at);
      case Cancel => AttemptClosedBooks(w, at);
      case Close => AttemptClosedBooks(w, at); ViewHiddenBooks(w);
      case Hide | Share | Devices => ViewHiddenBooks(w);
      case Retry | Check =>
        var settling := if w.attempt == None then None else Some(w.attempt.value.Settle());
        RefreshedBooks(w.(attempt := settling), shared, at);
      case Again =>
    }
  }

  lemma OpeningBooks(w: World, session: Option<nat>, at: Moment)
    ensures Booked(w, PairingOpened(w, session, at))
  {
    var w1 := w.(session := session);
    RefreshedBooks(w1.(screen := w1.screen.WithView(FRESH_VIEW)), false, at);
  }

  lemma TickedBooks(w: World, session: Option<nat>, shared: bool, at: Moment)
    ensures Booked(w, Ticked(w, session, shared, at))
  {
    var why := Reason(w.screen, w.session, session);
    var w1 := Evicted(w, session);
    if why.Some? && w.screen.view.Some? {
      ViewHiddenBooks(w.(screen := w.screen.(setup := false).Told(why.value).Wiped()));
      ViewHiddenFrame(w.(screen := w.screen.(setup := false).Told(why.value).Wiped()));
    }
    if w1.screen.view.Some? {
      RefreshedBooks(w1, shared, at);
    } else {
      HiddenToldBooks(if w1.attempt.Some? && Live(w1.attempt.value.phase)
                      then w1.(attempt := Some(w1.attempt.value.Close())) else w1);
    }
  }

  lemma StepBooks(w: World, e: Event)
    requires Inv(w) && !e.TakesUsed? && !e.Creates?
    ensures Booked(w, Step(w, e))
  {
    match e
    case OpensPairing(session, at) => OpeningBooks(w, session, at);
    case Chooses(act, shared, at) => ChosenBooks(w, act, shared, at);
    case Escapes(at) => AttemptClosedBooks(w, at); ViewHiddenBooks(w);
    case Ticks(session, shared, at) => TickedBooks(w, session, shared, at);
    case OpensDevices =>
      if w.screen.view.Some? {
        ViewHiddenBooks(w.(screen := w.screen.(setup := false).Wiped()));
      }
    case Works(task) =>
      if w.attempt.Some? {
        TaskKeepsInv(w.attempt.value, task);
      }
    case _ =>
  }

  lemma CreatedBooks(w: World, starts: bool, at: Moment)
    requires Inv(w)
    ensures var r := Created(w, starts, at);
            r == w || (w.attempt == None && SameBooks(w.(attempts := w.attempts + 1, usedTold := false), r))
  {
    if w.screen.setup && starts {
      var started := Attempt(w.attempts + 1, Checking, None, true, Checks);
      var w1 := w.(attempt := Some(started), attempts := w.attempts + 1, usedTold := false, told := None);
      RefreshedBooks(w1.(screen := w1.screen.WithView(FRESH_VIEW)), false, at);
    }
  }

  lemma NotedSnoc(marks: seq<Mark>, m: Mark)
    ensures forall id: nat :: NotesOf(marks + [m], id) == NotesOf(marks, id) + if m == Noted(id) then 1 else 0
    ensures Notes(marks + [m]) == Notes(marks) + if m.Noted? then 1 else 0
    ensures Reports(marks + [m]) == Reports(marks) + if m.ReportedUsed? then 1 else 0
    ensures forall id: nat :: Followed(marks + [m], id) <==>
              Followed(marks, id) || (m.ReportedUsed? && NotesOf(marks, id) > 0)
  {
    assert (marks + [m])[..|marks|] == marks;
  }

  lemma NoteKeepsUsed(w: World)
    requires Inv(w) && UsedInv(w) && w.attempt.Some?
    ensures UsedInv(Note(w, w.attempt.value))
  {
    NotedSnoc(w.marks, Noted(w.attempt.value.id));
    assert NotesOf(w.marks, w.attempts) <= 1;
  }

  lemma BookedKeepsUsed(w: World, r: World)
    requires Inv(w) && UsedInv(w) && Booked(w, r)
    ensures UsedInv(r)
  {
    if w.attempt.Some? {
      NoteKeepsUsed(w);
    }
  }

  lemma ReportingKeepsUsed(w: World)
    requires UsedInv(w) && w.usedPending
    ensures UsedInv(w.(usedPending := false, marks := w.marks + [ReportedUsed]))
  {
    NotedSnoc(w.marks, ReportedUsed);
  }

  lemma TakingKeepsUsed(w: World)
    requires Inv(w) && UsedInv(w)
    ensures UsedInv(UsedTaken(w).0)
  {
    if w.attempt.Some? {
      NoteKeepsUsed(w);
    }
    var noted := if w.attempt.Some? then Note(w, w.attempt.value) else w;
    if noted.usedPending {
      ReportingKeepsUsed(noted);
    }
  }

  lemma StepKeepsUsed(w: World, e: Event)
    requires Inv(w) && UsedInv(w)
    ensures UsedInv(Step(w, e))
  {
    match e
    case TakesUsed => TakingKeepsUsed(w);
    case Creates(starts, at) =>
      CreatedBooks(w, starts, at);
      assert NotesOf(w.marks, w.attempts + 1) == 0;
    case _ => StepBooks(w, e); BookedKeepsUsed(w, Step(w, e));
  }

  /** Never more reports than noted attempts, and never two notes for one attempt, over any run. */
  lemma {:induction false} ReportsNeverExceedUsedAttempts(w: World, es: seq<Event>)
    requires Inv(w) && UsedInv(w)
    ensures UsedInv(Run(w, es))
  {
    if es != [] {
      ReportsNeverExceedUsedAttempts(w, es[..|es| - 1]);
      RunKeepsInv(w, es[..|es| - 1]);
      StepKeepsUsed(Run(w, es[..|es| - 1]), es[|es| - 1]);
    }
  }

  /** Attempt `id` ended Used and the host still has it, or has noted it. */
  predicate Remembered(w: World, id: nat) {
    NotesOf(w.marks, id) > 0 || (w.attempt.Some? && w.attempt.value.id == id && w.attempt.value.phase == Finished(Used))
  }

  lemma BookedRemembers(w: World, r: World, id: nat)
    requires Inv(w) && UsedInv(w) && Remembered(w, id) && Booked(w, r)
    ensures Remembered(r, id)
  {
    NotedSnoc(w.marks, Noted(w.attempts));
  }

  lemma TakingRemembers(w: World, id: nat)
    requires Inv(w) && UsedInv(w) && Remembered(w, id)
    ensures NotesOf(UsedTaken(w).0.marks, id) > 0
  {
    NotedSnoc(w.marks, Noted(w.attempts));
    NotedSnoc((if w.attempt.Some? then Note(w, w.attempt.value) else w).marks, ReportedUsed);
  }

  lemma StepRemembers(w: World, e: Event, id: nat)
    requires Inv(w) && UsedInv(w) && Remembered(w, id)
    ensures Remembered(Step(w, e), id)
  {
    match e
    case TakesUsed => TakingRemembers(w, id);
    case Creates(starts, at) => CreatedBooks(w, starts, at);
    case _ => StepBooks(w, e); BookedRemembers(w, Step(w, e), id);
  }

  lemma {:induction false} RunRemembers(w: World, es: seq<Event>, id: nat)
    requires Inv(w) && UsedInv(w) && Remembered(w, id)
    ensures Remembered(Run(w, es), id)
  {
    if es != [] {
      RunRemembers(w, es[..|es| - 1], id);
      RunKeepsInv(w, es[..|es| - 1]);
      ReportsNeverExceedUsedAttempts(w, es[..|es| - 1]);
      StepRemembers(Run(w, es[..|es| - 1]), es[|es| - 1], id);
    }
  }

  lemma {:induction false} SettledNotesAreFollowed(marks: seq<Mark>, id: nat)
    requires NotesOf(marks, id) > 0 && !Owed(marks)
    ensures Followed(marks, id)
  {
  }

  /**
    No pairing is lost to the followers: however its attempt is hidden, told, replaced or let go
    in `later`, the next `TakeUsed` leaves a report standing after its note.
   */
  lemma {:induction false} PairedDeviceIsAlwaysReported(start: World, es: seq<Event>, later: seq<Event>)
    requires Initial(start)
    requires var w := Run(start, es); w.attempt.Some? && w.attempt.value.phase == Finished(Used)
    ensures var w := Run(start, es); Followed(Step(Run(w, later), TakesUsed).marks, w.attempt.value.id)
  {
    RunKeepsInv(start, es);
    ReportsNeverExceedUsedAttempts(start, es);
    var w := Run(start, es);
    var id := w.attempt.value.id;
    RunRemembers(w, later, id);
    RunKeepsInv(w, later);
    ReportsNeverExceedUsedAttempts(w, later);
    var w1 := Run(w, later);
    TakingRemembers(w1, id);
    StepKeepsUsed(w1, TakesUsed);
    SettledNotesAreFollowed(Step(w1, TakesUsed).marks, id);
  }

  /** Conversely, only an attempt that ended Used while kept is ever noted. */
  lemma {:induction false} OnlyUsedAttemptsAreNoted(w: World, es: seq<Event>, id: nat) returns (k: nat)
    requires Initial(w) && NotesOf(Run(w, es).marks, id) > 0
    ensures k <= |es| && Run(w, es[..k]).attempt.Some?
    ensures var a := Run(w, es[..k]).attempt.value; a.id == id && a.phase == Finished(Used)
  {
    var n := |es| - 1;
    var before := Run(w, es[..n]);
    RunKeepsInv(w, es[..n]);
    if NotesOf(before.marks, id) > 0 {
      k := OnlyUsedAttemptsAreNoted(w, es[..n], id);
      assert es[..n][..k] == es[..k];
    } else {
      k := n;
      NewlyNoted(before, es[n], id);
    }
  }

  lemma NotedIsUsed(w: World, id: nat)
    requires w.attempt.Some? && NotesOf(w.marks, id) == 0
    ensures NotesOf(Note(w, w.attempt.value).marks, id) > 0 ==>
              w.attempt.value.id == id && w.attempt.value.phase == Finished(Used)
  {
    NotedSnoc(w.marks, Noted(w.attempt.value.id));
  }

  lemma TakingNotes(w: World, id: nat)
    ensures NotesOf(UsedTaken(w).0.marks, id)
            == NotesOf((if w.attempt.Some? then Note(w, w.attempt.value) else w).marks, id)
  {
    NotedSnoc((if w.attempt.Some? then Note(w, w.attempt.value) else w).marks, ReportedUsed);
  }

  /** A step notes only the attempt it found ended Used. */
  lemma NewlyNoted(w: World, e: Event, id: nat)
    requires Inv(w) && NotesOf(w.marks, id) == 0 && NotesOf(Step(w, e).marks, id) > 0
    ensures w.attempt.Some? && w.attempt.value.id == id && w.attempt.value.phase == Finished(Used)
  {
    if w.attempt.Some? {
      NotedIsUsed(w, id);
    }
    if e.TakesUsed? {
      TakingNotes(w, id);
    } else if e.Creates? {
      CreatedBooks(w, e.starts, e.at);
    } else {
      StepBooks(w, e);
      assert Booked(w, Step(w, e));
    }
  }

  // ------------------------------------------------------------ an attempt that nothing settles

  /** Shown as closing while no task is left to settle it. */
  predicate Stranded(w: World) {
    w.attempt.Some? && w.attempt.value.phase.Closing? && w.attempt.value.task.Idle?
  }

  /** `Cancel`, drawn for an earlier phase, chosen after the tasks gave up unconfirmed. */
  predicate CancelsTooLate(w: World, e: Event) {
    && e.Chooses? && e.act.Cancel? && w.screen.view.Some? && Cancel in w.screen.view.value.acts
    && w.attempt.Some? && w.attempt.value.phase.Unconfirmed? && w.attempt.value.task.Idle?
  }

  lemma ChosenStrands(w: World, act: Act, shared: bool, at: Moment)
    requires Inv(w) && !Stranded(w)
    ensures Stranded(Chosen(w, act, shared, at).0) <==> CancelsTooLate(w, Chooses(act, shared, at))
  {
    ChoicesFollow(w, at);
    if w.screen.view.Some? && act in w.screen.view.value.acts {
      match act
      case Look => RefreshedFrame(w, shared, at);
      case Cancel => AttemptClosedFrame(w, at);
      case Close => AttemptClosedFrame(w, at); ViewHiddenFrame(w);
      case Hide | Share | Devices => ViewHiddenFrame(w);
      case Retry | Check =>
        var settling := if w.attempt == None then None else Some(w.attempt.value.Settle());
        RefreshedFrame(w.(attempt := settling), shared, at);
      case Again =>
    }
  }

  lemma TickedStrandsNothing(w: World, session: Option<nat>, shared: bool, at: Moment)
    requires Inv(w) && !Stranded(w)
    ensures !Stranded(Ticked(w, session, shared, at))
  {
    ChoicesFollow(w, at);
    EvictedFrame(w, session);
    ViewHiddenFrame(w);
    KeptFrame(Evicted(w, session), shared, at);
    RefreshedFrame(w, shared, at);
  }

  /** The one step that strands an attempt. */
  lemma {:induction false} StrandedOnlyByALateCancel(w: World, e: Event)
    requires Inv(w) && !Stranded(w)
    ensures Stranded(Step(w, e)) <==> CancelsTooLate(w, e)
  {
    match e
    case OpensPairing(session, at) => ChoicesFollow(w, at); OpeningFrame(w, session, at);
    case Creates(starts, at) => CreatedFrame(w, starts, at);
    case Chooses(act, shared, at) => ChosenStrands(w, act, shared, at);
    case Escapes(at) => ChoicesFollow(w, at); AttemptClosedFrame(w, at); ViewHiddenFrame(w);
    case Ticks(session, shared, at) => TickedStrandsNothing(w, session, shared, at);
    case OpensDevices =>
      if w.screen.view.Some? {
        ViewHiddenFrame(w.(screen := w.screen.(setup := false).Wiped()));
      }
    case _ =>
  }

  lemma ClosingIsKept(w: World, session: Option<nat>, at: Moment)
    requires w.attempt.Some? && w.attempt.value.phase.Closing?
    ensures ViewHidden(w).attempt == Some(w.attempt.value.Retire())
    ensures HiddenTold(w) == w
    ensures var r := PairingOpened(w, session, at);
            r.attempt.Some? && r.attempt == Some(WorkedAll(w.attempt.value, at.between).(code := r.attempt.value.code))
  {
    var w1 := w.(session := session);
    RefreshedFrame(w1.(screen := w1.screen.WithView(FRESH_VIEW)), false, at);
  }

  lemma StrandedChoice(w: World, act: Act, shared: bool, at: Moment)
    requires Inv(w) && Stranded(w)
    ensures var r := Chosen(w, act, shared, at).0;
            Stranded(r) && r.attempt.value.id == w.attempt.value.id
  {
    ChoicesFollow(w, at);
    if w.screen.view.Some? && act in w.screen.view.value.acts {
      match act
      case Look => RefreshedFrame(w, shared, at);
      case Cancel => AttemptClosedFrame(w, at);
      case Close => AttemptClosedFrame(w, at); ClosingIsKept(w, None, at);
      case Hide | Share | Devices => ClosingIsKept(w, None, at);
      case Retry | Check =>
        var settling := if w.attempt == None then None else Some(w.attempt.value.Settle());
        RefreshedFrame(w.(attempt := settling), shared, at);
      case Again =>
    }
  }

  lemma EvictedKeepsStranded(w: World, session: Option<nat>)
    requires Stranded(w)
    ensures Stranded(Evicted(w, session)) && Evicted(w, session).attempt.value.id == w.attempt.value.id
  {
    var why := Reason(w.screen, w.session, session);
    if why.Some? && w.screen.view.Some? {
      ClosingIsKept(w.(screen := w.screen.(setup := false).Told(why.value).Wiped()), None, At(0));
    }
  }

  lemma StrandedTick(w: World, session: Option<nat>, shared: bool, at: Moment)
    requires Inv(w) && Stranded(w)
    ensures var r := Ticked(w, session, shared, at);
            Stranded(r) && r.attempt.value.id == w.attempt.value.id
  {
    ChoicesFollow(w, at);
    EvictedKeepsStranded(w, session);
    var w1 := Evicted(w, session);
    RefreshedFrame(w1, shared, at);
    ClosingIsKept(w1, None, at);
  }

  lemma StrandedStep(w: World, e: Event)
    requires Inv(w) && Stranded(w)
    ensures Stranded(Step(w, e)) && Step(w, e).attempt.value.id == w.attempt.value.id
  {
    match e
    case OpensPairing(session, at) => ChoicesFollow(w, at); ClosingIsKept(w, session, at);
    case Creates(starts, at) => CreatedFrame(w, starts, at);
    case Chooses(act, shared, at) => StrandedChoice(w, act, shared, at);
    case Escapes(at) => ChoicesFollow(w, at); ClosingIsKept(w, None, at);
    case Ticks(session, shared, at) => StrandedTick(w, session, shared, at);
    case OpensDevices =>
      if w.screen.view.Some? {
        ClosingIsKept(w.(screen := w.screen.(setup := false).Wiped()), None, At(0));
      }
    case _ =>
  }

  /** No key, tick or task ever moves a stranded attempt again, and no other can be created. */
  lemma {:induction false} StrandedForGood(w: World, es: seq<Event>)
    requires Inv(w) && Stranded(w)
    ensures Stranded(Run(w, es)) && Run(w, es).attempt.value.id == w.attempt.value.id
    ensures Run(w, es).attempts == w.attempts
  {
    if es != [] {
      StrandedForGood(w, es[..|es| - 1]);
      RunKeepsInv(w, es[..|es| - 1]);
      StrandedStep(Run(w, es[..|es| - 1]), es[|es| - 1]);
      StepKeepsInv(Run(w, es[..|es| - 1]), es[|es| - 1]);
    }
  }

  lemma RunSnoc(w: World, es: seq<Event>, e: Event)
    ensures Run(w, es + [e]) == Step(Run(w, es), e)
  {
    assert (es + [e])[..|es|] == es;
  }

  const FRESH := World(Screen(false, None, false, false, []), None, None, None, false, false, 0, [])

  /** The world right after an attempt is created: its view offers `Cancel`. */
  function Begun(): World {
    FRESH.(screen := FRESH.screen.(view := Some(View(None, [Cancel]))), attempts := 1,
           attempt := Some(Attempt(1, Checking, None, true, Checks)))
  }

  /** Some run of a fresh host gets there. */
  ghost predicate Reached(w: World) {
    exists es :: Run(FRESH, es) == w
  }

  lemma ReachedOn(w: World, e: Event)
    requires Reached(w)
    ensures Reached(Step(w, e))
  {
    var es :| Run(FRESH, es) == w;
    RunSnoc(FRESH, es, e);
  }

  lemma WorkReaches(w: World, t: TaskStep)
    requires Reached(w) && w.attempt.Some?
    ensures Reached(w.(attempt := Some(Worked(w.attempt.value, t))))
  {
    ReachedOn(w, Works(t));
  }

  lemma DialogReaches(w: World, dialog: bool)
    requires Reached(w)
    ensures Reached(w.(screen := w.screen.(dialog := dialog)))
  {
    ReachedOn(w, DialogMoves(dialog));
  }

  lemma TickReaches(w: World, now: nat)
    requires Reached(w)
    ensures Reached(Ticked(w, None, false, At(now)))
  {
    ReachedOn(w, Ticks(None, false, At(now)));
  }

  lemma ChoiceReaches(w: World, act: Act, now: nat)
    requires Reached(w)
    ensures Reached(Chosen(w, act, false, At(now)).0)
  {
    ReachedOn(w, Chooses(act, false, At(now)));
  }

  lemma FreshIsReached()
    ensures Initial(FRESH) && Reached(FRESH)
  {
    assert Run(FRESH, []) == FRESH;
  }

  lemma BegunIsReached()
    ensures Reached(Begun())
  {
    var form := FRESH.(screen := FRESH.screen.(setup := true));
    FreshIsReached();
    ReachedOn(FRESH, OpensPairing(None, At(0)));
    assert Step(FRESH, OpensPairing(None, At(0))) == form;
    ReachedOn(form, Creates(true, At(0)));
    CreatingBegins(form);
  }

  lemma CreatingBegins(form: World)
    requires form == FRESH.(screen := FRESH.screen.(setup := true))
    ensures Step(form, Creates(true, At(0))) == Begun()
  {
    var started := Attempt(1, Checking, None, true, Checks);
    assert Released(form) == form;
    assert started.Take(0) == (started, None);
    assert WorkedAll(started, []) == started;
  }

  /** The world right after an attempt is created, with its attempt moved on to `a`. */
  function BegunWith(a: Attempt): World {
    Begun().(attempt := Some(a))
  }

  lemma BegunWorkReaches(a: Attempt, t: TaskStep, b: Attempt)
    requires Reached(BegunWith(a)) && Worked(a, t) == b
    ensures Reached(BegunWith(b))
  {
    WorkReaches(BegunWith(a), t);
  }

  lemma AskingIsReached()
    ensures Reached(BegunWith(Attempt(1, Opening, None, true, Opens)))
  {
    var started := Attempt(1, Checking, None, true, Checks);
    BegunIsReached();
    assert Begun() == BegunWith(started);
    BegunWorkReaches(started, Proceeds, Attempt(1, Opening, None, true, Opens));
  }

  lemma SettlingIsReached()
    ensures Reached(BegunWith(Attempt(1, Closing, None, true, Settles)))
  {
    AskingIsReached();
    BegunWorkReaches(Attempt(1, Opening, None, true, Opens), TurnsUncertain, Attempt(1, Closing, None, true, Settles));
  }

  lemma UnconfirmedIsReached()
    ensures Reached(BegunWith(Attempt(1, Unconfirmed(false), None, true, Idle)))
  {
    SettlingIsReached();
    BegunWorkReaches(Attempt(1, Closing, None, true, Settles), StaysUnconfirmed(false),
                     Attempt(1, Unconfirmed(false), None, true, Idle));
  }

  /** The server is lost while a code is asked for, and `Cancel` is chosen before the next tick. */
  lemma ALateCancelHappens() returns (w: World)
    ensures Reached(w) && Stranded(w)
  {
    var before := BegunWith(Attempt(1, Unconfirmed(false), None, true, Idle));
    var cancel := Chooses(Cancel, false, At(2));
    UnconfirmedIsReached();
    ReachedOn(before, cancel);
    assert Inv(before) && CancelsTooLate(before, cancel);
    StrandedOnlyByALateCancel(before, cancel);
    w := Step(before, cancel);
  }

  // ------------------------------------------------------------ a code that never reaches its view

  /** A waiting code that may be shown. */
  predicate Waiting(a: Attempt, now: nat) {
    a.code.Some? && a.MayShow(a.code.value, now)
  }

  /** Taken, and not on the view. */
  predicate LostFrom(w: World) {
    && w.attempt.Some? && w.attempt.value.code == None
    && w.screen.view.Some? && w.screen.view.value.secret == None
  }

  /**
    A code that waits when it is taken reaches the open view exactly when the phase, read
    before, was active and in time; on a replaced view it is left waiting; otherwise it is
    taken and lost.
   */
  lemma ACodeReachesItsViewIff(w: World, shared: bool, at: Moment)
    requires Inv(w) && w.attempt.Some? && w.screen.view.Some?
    requires Waiting(WorkedAll(w.attempt.value, at.between), at.now)
    ensures var a := w.attempt.value; var r := Refreshed(w, shared, at); var secret := r.screen.view.value.secret;
            && (LostFrom(r) <==> !w.screen.Replaced() && !ActiveAt(a.phase, at.now))
            && (w.screen.Replaced() ==> r.attempt.value.code.Some?)
            && (!w.screen.Replaced() && ActiveAt(a.phase, at.now) ==> secret == Some(Secret(a.id, a.phase.deadline)))
  {
    TasksKeepInv(w.attempt.value, at.between);
  }

  /** Attempt `id` has no code left, and none can be offered any more. */
  predicate NoCodeLeft(w: World, id: nat) {
    && id <= w.attempts
    && (w.screen.view.Some? && w.screen.view.value.secret.Some? ==> w.screen.view.value.secret.value.attempt != id)
    && (w.attempt.Some? && w.attempt.value.id == id ==> Offered(w.attempt.value.task) && w.attempt.value.code == None)
  }

  lemma RefreshKeepsNoCode(w: World, shared: bool, at: Moment, id: nat)
    requires Inv(w) && NoCodeLeft(w, id)
    ensures NoCodeLeft(Refreshed(w, shared, at), id)
  {
    if w.attempt.Some? {
      TasksKeepInv(w.attempt.value, at.between);
    }
  }

  lemma HideKeepsNoCode(w: World, id: nat)
    requires NoCodeLeft(w, id)
    ensures NoCodeLeft(ViewHidden(w), id)
  {
    ViewHiddenFrame(w);
  }

  lemma ChoiceKeepsNoCode(w: World, act: Act, shared: bool, at: Moment, id: nat)
    requires Inv(w) && NoCodeLeft(w, id)
    ensures NoCodeLeft(Chosen(w, act, shared, at).0, id)
  {
    if w.screen.view.Some? && act in w.screen.view.value.acts {
      match act
      case Look => RefreshKeepsNoCode(w, shared, at, id);
      case Cancel => CloseKeepsNoCode(w, at, id);
      case Close => CloseKeepsNoCode(w, at, id); HideKeepsNoCode(w, id);
      case Hide | Share | Devices => HideKeepsNoCode(w, id);
      case Retry | Check =>
        var settling := if w.attempt == None then None else Some(w.attempt.value.Settle());
        RefreshKeepsNoCode(w.(attempt := settling), shared, at, id);
      case Again =>
    }
  }

  lemma CloseKeepsNoCode(w: World, at: Moment, id: nat)
    requires Inv(w) && NoCodeLeft(w, id)
    ensures NoCodeLeft(AttemptClosed(w, at), id)
  {
    var closed := if w.attempt == None then None else Some(w.attempt.value.Close());
    RefreshKeepsNoCode(w.(screen := w.screen.Wiped(), attempt := closed), false, at, id);
  }

  lemma TickKeepsNoCode(w: World, session: Option<nat>, shared: bool, at: Moment, id: nat)
    requires Inv(w) && NoCodeLeft(w, id)
    ensures NoCodeLeft(Ticked(w, session, shared, at), id)
  {
    EvictedFrame(w, session);
    EvictedKeepsInv(w, session);
    ViewHiddenFrame(w);
    var w1 := Evicted(w, session);
    assert NoCodeLeft(w1, id);
    KeptFrame(w1, shared, at);
    if w1.screen.view.Some? {
      RefreshKeepsNoCode(w1, shared, at, id);
    }
  }

  lemma StepKeepsNoCode(w: World, e: Event, id: nat)
    requires Inv(w) && NoCodeLeft(w, id)
    ensures NoCodeLeft(Step(w, e), id)
  {
    match e
    case OpensPairing(session, at) =>
      var w1 := w.(session := session);
      RefreshKeepsNoCode(w1.(screen := w1.screen.WithView(FRESH_VIEW)), false, at, id);
    case Creates(starts, at) => CreatedFrame(w, starts, at); CreatedKeepsInv(w, starts, at); CreateKeepsNoCode(w, starts, at, id);
    case Chooses(act, shared, at) => ChoiceKeepsNoCode(w, act, shared, at, id);
    case Escapes(at) => CloseKeepsNoCode(w, at, id); HideKeepsNoCode(w, id);
    case Ticks(session, shared, at) => TickKeepsNoCode(w, session, shared, at, id);
    case OpensDevices =>
      if w.screen.view.Some? {
        HideKeepsNoCode(w.(screen := w.screen.(setup := false).Wiped()), id);
      }
    case Works(task) =>
      if w.attempt.Some? {
        TaskKeepsInv(w.attempt.value, task);
      }
    case _ =>
  }

  lemma CreateKeepsNoCode(w: World, starts: bool, at: Moment, id: nat)
    requires Inv(w) && NoCodeLeft(w, id)
    ensures NoCodeLeft(Created(w, starts, at), id)
  {
    CreatedFrame(w, starts, at);
    CreatedKeepsInv(w, starts, at);
  }

  /** A lost code never shows: no run brings one of that attempt onto a view again. */
  lemma {:induction false} ALostCodeNeverShows(w: World, es: seq<Event>, id: nat)
    requires Inv(w) && NoCodeLeft(w, id)
    ensures NoCodeLeft(Run(w, es), id)
  {
    if es != [] {
      ALostCodeNeverShows(w, es[..|es| - 1], id);
      RunKeepsInv(w, es[..|es| - 1]);
      StepKeepsNoCode(Run(w, es[..|es| - 1]), es[|es| - 1], id);
    }
  }

  lemma TakenUnderOpening()
    ensures Ticked(BegunWith(Attempt(1, Opening, Some(100), true, HandsOver(100))), None, false, At(2))
            == BegunWith(Attempt(1, Opening, None, true, HandsOver(100)))
  {
    var w := BegunWith(Attempt(1, Opening, Some(100), true, HandsOver(100)));
    assert Evicted(w, None) == w;
    assert WorkedAll(w.attempt.value, []) == w.attempt.value;
  }

  lemma ActiveWithoutACode()
    ensures Ticked(BegunWith(Attempt(1, Active(100), None, true, Waits)), None, false, At(3))
            == BegunWith(Attempt(1, Active(100), None, true, Waits)).(
                 screen := Begun().screen.(view := Some(View(None, [Look, Close]))))
  {
    var w := BegunWith(Attempt(1, Active(100), None, true, Waits));
    assert Evicted(w, None) == w;
    assert WorkedAll(w.attempt.value, []) == w.attempt.value;
  }

  lemma OfferedIsReached()
    ensures Reached(BegunWith(Attempt(1, Opening, Some(100), true, HandsOver(100))))
  {
    AskingIsReached();
    BegunWorkReaches(Attempt(1, Opening, None, true, Opens), CodeOffered(100, 1),
                     Attempt(1, Opening, Some(100), true, HandsOver(100)));
  }

  lemma TakenIsReached()
    ensures Reached(BegunWith(Attempt(1, Opening, None, true, HandsOver(100))))
  {
    OfferedIsReached();
    TickReaches(BegunWith(Attempt(1, Opening, Some(100), true, HandsOver(100))), 2);
    TakenUnderOpening();
  }

  lemma AnnouncedIsReached()
    ensures Reached(BegunWith(Attempt(1, Active(100), None, true, Waits)))
  {
    TakenIsReached();
    BegunWorkReaches(Attempt(1, Opening, None, true, HandsOver(100)), CodeAnnounced, Attempt(1, Active(100), None, true, Waits));
  }

  /** A tick between the offer and the announcement: the attempt turns active behind a view that has no code. */
  lemma ACodeCanBeLost() returns (w: World)
    ensures Reached(w) && w.attempt.Some? && w.attempt.value.phase == Active(100)
    ensures LostFrom(w) && NoCodeLeft(w, 1) && Close in w.screen.view.value.acts
  {
    var announced := BegunWith(Attempt(1, Active(100), None, true, Waits));
    AnnouncedIsReached();
    TickReaches(announced, 3);
    ActiveWithoutACode();
    w := Ticked(announced, None, false, At(3));
  }

  // ------------------------------------------------------------ what the user is told

  /** Reopening pairing, or asking for a new code, lets an ended attempt go without a word. */
  predicate LetsGoSilently(e: Event) {
    e.OpensPairing? || (e.Chooses? && e.act.Again?)
  }

  predicate Over(phase: Phase) {
    phase.Finished? || phase == Unconfirmed(true)
  }

  /** Only an attempt that is over is let go, and told unless `silent`. */
  predicate LetGo(w: World, r: World, silent: bool) {
    w.attempt.Some? && r.attempt == None ==>
      && Over(w.attempt.value.phase)
      && r.told == if silent then w.told else Some(w.attempt.value.phase)
  }

  lemma TellingTells(w: World, phase: Phase)
    requires Over(phase)
    ensures TellOnce(w, phase).told == Some(phase)
  {
  }

  lemma ViewHiddenTells(w: World)
    ensures LetGo(w, ViewHidden(w), false)
  {
    if w.attempt.Some? {
      var a := w.attempt.value;
      var gone := if Live(a.phase) then a.Close() else a.Retire();
      var w1 := Note(w.(screen := w.screen.(view := None), attempt := Some(gone)), gone);
      SettledFrame(w1, gone.phase);
      if Over(gone.phase) {
        TellingTells(w1, gone.phase);
      }
    }
  }

  lemma HiddenToldTells(w: World)
    ensures LetGo(w, HiddenTold(w), false)
  {
    if w.attempt.Some? {
      var phase := w.attempt.value.phase;
      var w1 := Note(w, w.attempt.value);
      if Over(phase) {
        TellingTells(w1, phase);
      }
      assert TellOnce(w1, phase).attempt == w1.attempt;
    }
  }

  lemma ChosenTells(w: World, act: Act, shared: bool, at: Moment)
    requires Inv(w)
    ensures LetGo(w, Chosen(w, act, shared, at).0, act.Again?)
  {
    ChoicesFollow(w, at);
    if w.screen.view.Some? && act in w.screen.view.value.acts {
      match act
      case Look => RefreshedFrame(w, shared, at);
      case Cancel => AttemptClosedFrame(w, at);
      case Close => AttemptClosedFrame(w, at); ViewHiddenTells(w);
      case Hide | Share | Devices => ViewHiddenTells(w);
      case Retry | Check =>
        var settling := if w.attempt == None then None else Some(w.attempt.value.Settle());
        RefreshedFrame(w.(attempt := settling), shared, at);
      case Again =>
    }
  }

  lemma TickedTells(w: World, session: Option<nat>, shared: bool, at: Moment)
    ensures LetGo(w, Ticked(w, session, shared, at), false)
  {
    var why := Reason(w.screen, w.session, session);
    var w1 := Evicted(w, session);
    if why.Some? && w.screen.view.Some? {
      ViewHiddenTells(w.(screen := w.screen.(setup := false).Told(why.value).Wiped()));
      ViewHiddenFrame(w.(screen := w.screen.(setup := false).Told(why.value).Wiped()));
    }
    assert LetGo(w, w1, false);
    if w1.screen.view.Some? {
      RefreshedFrame(w1, shared, at);
    } else {
      HiddenToldTells(if w1.attempt.Some? && Live(w1.attempt.value.phase)
                      then w1.(attempt := Some(w1.attempt.value.Close())) else w1);
    }
  }

  /** An attempt is let go only once it is over; its ending goes untold exactly when one of two actions drops it. */
  lemma {:induction false} EndingIsToldUnlessDropped(w: World, e: Event)
    requires Inv(w) && w.attempt.Some? && Step(w, e).attempt == None
    ensures Over(w.attempt.value.phase)
    ensures Step(w, e).told != Some(w.attempt.value.phase) <==>
              LetsGoSilently(e) && w.told != Some(w.attempt.value.phase)
  {
    match e
    case OpensPairing(session, at) =>
      var w1 := w.(session := session);
      RefreshedFrame(w1.(screen := w1.screen.WithView(FRESH_VIEW)), false, at);
    case Creates(starts, at) => CreatedFrame(w, starts, at);
    case Chooses(act, shared, at) => ChosenTells(w, act, shared, at);
    case Escapes(at) => ChoicesFollow(w, at); AttemptClosedFrame(w, at); ViewHiddenTells(w);
    case Ticks(session, shared, at) => TickedTells(w, session, shared, at);
    case OpensDevices =>
      if w.screen.view.Some? {
        ViewHiddenTells(w.(screen := w.screen.(setup := false).Wiped()));
      }
    case _ =>
  }

  /** Untold: the attempt is gone, and the last thing the user was told is not how it ended. */
  predicate GoesUntold(w: World, e: Event) {
    w.attempt.Some? && Step(w, e).attempt == None && Step(w, e).told != Some(w.attempt.value.phase)
  }

  lemma CancellingHides()
    ensures Reached(BegunWith(Attempt(1, Closing, None, false, Checks)).(screen := FRESH.screen))
  {
    BegunIsReached();
    ChoiceReaches(Begun(), Cancel, 1);
    CancelDrawsHide();
    ChoiceReaches(BegunWith(Attempt(1, Closing, None, false, Checks)).(
                    screen := Begun().screen.(view := Some(View(None, [Hide])))), Hide, 2);
    HidingKeepsIt();
  }

  lemma CancelDrawsHide()
    ensures Chosen(Begun(), Cancel, false, At(1)).0
            == BegunWith(Attempt(1, Closing, None, false, Checks)).(screen := Begun().screen.(view := Some(View(None, [Hide]))))
  {
    var closing := Attempt(1, Closing, None, false, Checks);
    assert WorkedAll(closing, []) == closing;
  }

  lemma HidingKeepsIt()
    ensures var closing := BegunWith(Attempt(1, Closing, None, false, Checks));
            Chosen(closing.(screen := Begun().screen.(view := Some(View(None, [Hide])))), Hide, false, At(2)).0
            == closing.(screen := FRESH.screen)
  {
  }

  lemma OpeningGoesUntold(w: World, now: nat)
    requires w.attempt.Some? && w.attempt.value.phase.Finished? && w.told == None
    ensures GoesUntold(w, OpensPairing(None, At(now)))
  {
  }

  /** A hidden attempt ends, and pairing is opened again before the next tick. */
  lemma ReopeningCanDropAnEnding() returns (w: World, e: Event)
    ensures Reached(w) && GoesUntold(w, e) && e.OpensPairing?
  {
    CancellingHides();
    WorkReaches(BegunWith(Attempt(1, Closing, None, false, Checks)).(screen := FRESH.screen), Concludes(NoCode));
    w := BegunWith(Attempt(1, Finished(NoCode), None, false, Idle)).(screen := FRESH.screen);
    e := OpensPairing(None, At(3));
    OpeningGoesUntold(w, 3);
  }

  /** The same, with a dialog over the view. */
  function HeldWith(a: Attempt): World {
    BegunWith(a).(screen := Begun().screen.(dialog := true))
  }

  lemma DialogHidesTheEnding()
    ensures var w := HeldWith(Attempt(1, Finished(NoCode), None, true, Idle));
            Ticked(w, None, false, At(1)) == w.(screen := w.screen.(view := Some(View(None, [Again, Close]))))
  {
    var w := HeldWith(Attempt(1, Finished(NoCode), None, true, Idle));
    assert Evicted(w, None) == w;
    assert WorkedAll(w.attempt.value, []) == w.attempt.value;
  }

  lemma HeldIsReached()
    ensures Reached(HeldWith(Attempt(1, Checking, None, true, Checks)))
  {
    BegunIsReached();
    DialogReaches(Begun(), true);
    assert Begun().(screen := Begun().screen.(dialog := true)) == HeldWith(Attempt(1, Checking, None, true, Checks));
  }

  lemma HeldWorkReaches(a: Attempt, t: TaskStep, b: Attempt)
    requires Reached(HeldWith(a)) && Worked(a, t) == b
    ensures Reached(HeldWith(b))
  {
    WorkReaches(HeldWith(a), t);
  }

  lemma EndedUnderADialogIsReached()
    ensures Reached(HeldWith(Attempt(1, Finished(NoCode), None, true, Idle)))
  {
    HeldIsReached();
    HeldWorkReaches(Attempt(1, Checking, None, true, Checks), Concludes(NoCode), Attempt(1, Finished(NoCode), None, true, Idle));
  }

  lemma DrawnUnderADialogIsReached()
    ensures var w := BegunWith(Attempt(1, Finished(NoCode), None, true, Idle));
            Reached(w.(screen := Begun().screen.(view := Some(View(None, [Again, Close])))))
  {
    var ended := HeldWith(Attempt(1, Finished(NoCode), None, true, Idle));
    EndedUnderADialogIsReached();
    TickReaches(ended, 1);
    DialogHidesTheEnding();
    DialogReaches(ended.(screen := ended.screen.(view := Some(View(None, [Again, Close])))), false);
  }

  /** An attempt ends under a dialog, the dialog goes, and a new code is asked for before the next tick. */
  lemma AskingAgainCanDropAnEnding() returns (w: World, e: Event)
    ensures Reached(w) && GoesUntold(w, e) && e.Chooses? && e.act.Again?
  {
    DrawnUnderADialogIsReached();
    w := BegunWith(Attempt(1, Finished(NoCode), None, true, Idle)).(
           screen := Begun().screen.(view := Some(View(None, [Again, Close]))));
    e := Chooses(Again, false, At(2));
    AgainGoesUntold(w);
  }

  lemma AgainGoesUntold(w: World)
    requires w.attempt == Some(Attempt(1, Finished(NoCode), None, true, Idle)) && w.told == None
    requires w.screen.view == Some(View(None, [Again, Close]))
    ensures GoesUntold(w, Chooses(Again, false, At(2)))
  {
  }

  // ------------------------------------------------------------ what each act does

  predicate Draws(w: World, act: Act) {
    w.screen.view.Some? && act in w.screen.view.value.acts
  }

  /** The attempt as it stands after a refresh that takes what waits in the slot. */
  predicate SameBut(a: Attempt, after: Option<Attempt>, phase: Phase, task: Task) {
    after.Some? && after.value.id == a.id && after.value.phase == phase && after.value.task == task
    && after.value.presented == a.presented && (after.value.code == None || after.value.code == a.code)
  }

  lemma RefreshKeeps(w: World, shared: bool, now: nat)
    requires w.attempt.Some?
    ensures SameBut(w.attempt.value, Refreshed(w, shared, At(now)).attempt, w.attempt.value.phase, w.attempt.value.task)
  {
    assert WorkedAll(w.attempt.value, []) == w.attempt.value;
  }

  /** A drawn Retry or Check sets an unconfirmed attempt that nothing works on settling, and touches nothing else of it. */
  lemma RetryingSettles(w: World, act: Act, shared: bool, now: nat)
    requires Draws(w, act) && act in {Retry, Check}
    requires w.attempt.Some? && w.attempt.value.phase.Unconfirmed? && w.attempt.value.task.Idle?
    ensures var a, after := w.attempt.value, Step(w, Chooses(act, shared, At(now)));
            && SameBut(a, after.attempt, a.phase, Settles)
            && after.screen.view == Some(View(None, if a.phase.restarted then [Close] else [Hide]))
  {
  }

  /** Any other attempt goes on as it was. */
  lemma RetryingElseNothing(w: World, act: Act, shared: bool, now: nat)
    requires Draws(w, act) && act in {Retry, Check}
    requires w.attempt.Some? && !(w.attempt.value.phase.Unconfirmed? && w.attempt.value.task.Idle?)
    ensures var a := w.attempt.value;
            SameBut(a, Step(w, Chooses(act, shared, At(now))).attempt, a.phase, a.task)
  {
    RefreshKeeps(w, shared, now);
    assert w.attempt.value.Settle() == w.attempt.value;
  }

  /** One conclusion ends whatever settles. */
  lemma ConcludingEnds(w: World, ended: Ended)
    requires w.attempt.Some? && w.attempt.value.task.Settles? && !w.attempt.value.phase.Finished?
    requires ended in {Used, OtherOutcome}
    ensures Step(w, Works(Concludes(ended)))
            == w.(attempt := Some(w.attempt.value.(phase := Finished(ended), code := None, task := Idle)))
  {
  }

  /** Or it stays unconfirmed, and can be retried once more. */
  lemma StayingUnconfirmed(w: World, restarted: bool)
    requires w.attempt.Some? && w.attempt.value.task.Settles? && !w.attempt.value.phase.Finished?
    ensures Step(w, Works(StaysUnconfirmed(restarted)))
            == w.(attempt := Some(w.attempt.value.(phase := Unconfirmed(restarted), task := Idle)))
  {
  }

  /**
    No unconfirmed attempt whose view draws Retry or Check is stuck: choosing it, and one
    conclusion of the task it begins, end the attempt either way it can have gone.
   */
  lemma AnUnconfirmedAttemptCanBeEnded(w: World, act: Act, shared: bool, now: nat, ended: Ended) returns (es: seq<Event>)
    requires Inv(w) && Draws(w, act) && act in {Retry, Check} && ended in {Used, OtherOutcome}
    requires w.attempt.Some? && w.attempt.value.phase.Unconfirmed?
    ensures |es| == 2 && es[0] == Chooses(act, shared, At(now)) && es[1].Works?
    ensures var after := Run(w, es).attempt;
            after.Some? && after.value.id == w.attempt.value.id && after.value.phase == Finished(ended)
  {
    var choice, conclusion := Chooses(act, shared, At(now)), Works(Concludes(ended));
    if w.attempt.value.task.Idle? {
      RetryingSettles(w, act, shared, now);
    } else {
      RetryingElseNothing(w, act, shared, now);
    }
    ConcludingEnds(Step(w, choice), ended);
    RunSnoc(w, [], choice);
    RunSnoc(w, [choice], conclusion);
    assert Run(w, []) == w && [] + [choice] == [choice];
    es := [choice] + [conclusion];
  }

  /** Which actions belong to an attempt as it is. */
  predicate ActsFor(acts: seq<Act>, a: Attempt, shared: bool, now: nat) {
    var ahead := a.phase.Active? && a.phase.deadline > now;
    && (Look in acts <==> ahead)
    && (Cancel in acts <==> a.phase.Checking? || a.phase.Opening?)
    && (Retry in acts <==> a.phase == Unconfirmed(false) && !a.task.Settles?)
    && (Check in acts <==> Retry in acts)
    && (Again in acts <==> a.phase.Finished? && a.phase != Finished(Used))
    && (Devices in acts <==> a.phase == Finished(Used))
    && (Share in acts <==> a.phase == Finished(Used) && !shared)
    && (Hide in acts <==> (a.phase.Active? && !ahead) || a.phase.Closing? || a.phase == Unconfirmed(false))
    && (Close in acts <==> ahead || a.phase == Unconfirmed(true) || a.phase.Finished?)
  }

  lemma OffersFit(a: Attempt, shared: bool, now: nat)
    ensures ActsFor(Offers(a.phase, a.task.Settles?, ActiveAt(a.phase, now), shared), a, shared, now)
  {
  }

  /** A tick that leaves the view open draws the actions of the attempt as it is. */
  lemma TicksDraw(w: World, shared: bool, now: nat)
    requires w.screen.view.Some? && !w.screen.navigated && w.attempt.Some?
    ensures var after := Step(w, Ticks(w.session, shared, At(now)));
            after.screen.view.Some? && ActsFor(after.screen.view.value.acts, w.attempt.value, shared, now)
  {
    assert Evicted(w, w.session) == w;
    OffersFit(w.attempt.value, shared, now);
  }

  /** Closing is at once: hidden for good, no code, `Closing`, and only Hide left on the view. */
  predicate ClosedInView(a: Attempt, after: World) {
    && after.attempt == Some(a.(phase := Closing, presented := false, code := None))
    && after.screen.view == Some(View(None, [Hide]))
  }

  /** Cancel, Close and leaving all close a live attempt and keep its view. */
  lemma LiveAttemptsCloseInTheirView(w: World, act: Act, shared: bool, now: nat)
    requires w.screen.view.Some? && w.attempt.Some? && Live(w.attempt.value.phase)
    ensures ClosedInView(w.attempt.value, Step(w, Escapes(At(now))))
    ensures Draws(w, act) && act in {Cancel, Close} ==> ClosedInView(w.attempt.value, Step(w, Chooses(act, shared, At(now))))
  {
  }

  /** An ending as the user comes to know it: told unless it was told last. */
  function Telling(w: World, phase: Phase): seq<Notice> {
    if w.told == Some(phase) then w.screen.notices else w.screen.notices + [Said(phase)]
  }

  /** Without its view a live attempt closes, one that is over is told and let go, any other is kept. */
  predicate HiddenAs(w: World, after: World) {
    && after.screen.view == None && after.screen.setup == w.screen.setup
    && (w.attempt.Some? ==>
          var a := w.attempt.value;
          if Live(a.phase) then
            after.attempt == Some(a.(phase := Closing, presented := false, code := None))
            && after.screen.notices == w.screen.notices
          else if a.phase.Finished? || a.phase == Unconfirmed(true) then
            after.attempt == None && after.screen.notices == Telling(w, a.phase)
          else
            && after.attempt == Some(a.(presented := false, code := None))
            && after.screen.notices == w.screen.notices + if a.phase.Closing? then [] else [Said(a.phase)])
  }

  lemma TellingSays(w: World, phase: Phase)
    requires phase.Finished? || phase.Unconfirmed?
    ensures var after := TellOnce(w, phase);
            after.screen == w.screen.(notices := Telling(w, phase)) && after.attempt == w.attempt
  {
  }

  lemma SettlingTells(w: World, phase: Phase)
    ensures var after := Settled(w, phase);
            && after.screen.view == w.screen.view && after.screen.setup == w.screen.setup
            && after.attempt == (if phase.Finished? || phase == Unconfirmed(true) then None else w.attempt)
            && after.screen.notices == (if phase.Finished? || phase == Unconfirmed(true) then Telling(w, phase)
                                        else if phase.Unconfirmed? then w.screen.notices + [Said(phase)]
                                        else w.screen.notices)
  {
    if phase.Finished? || phase == Unconfirmed(true) {
      TellingSays(w, phase);
    } else if phase.Unconfirmed? {
      TellingSays(w.(told := None), phase);
    }
  }

  lemma NotingTellsNothing(w: World, a: Attempt)
    ensures Note(w, a).screen == w.screen && Note(w, a).attempt == w.attempt && Note(w, a).told == w.told
  {
  }

  lemma ViewsHide(w: World)
    ensures HiddenAs(w, ViewHidden(w))
    ensures w.screen.notices <= ViewHidden(w).screen.notices
  {
    if w.attempt.Some? {
      var a := w.attempt.value;
      var gone := if Live(a.phase) then a.Close() else a.Retire();
      var w1 := w.(screen := w.screen.(view := None), attempt := Some(gone));
      NotingTellsNothing(w1, gone);
      SettlingTells(Note(w1, gone), gone.phase);
    }
  }

  /** Hiding takes the view away at once. */
  lemma Hiding(w: World, shared: bool, now: nat)
    requires Draws(w, Hide)
    ensures HiddenAs(w, Step(w, Chooses(Hide, shared, At(now))))
  {
    ViewsHide(w);
  }

  /** Opening the device list takes form and view away, the view as Hide does, and leaves an attempt without a view alone. */
  lemma TheDeviceListTakesOver(w: World)
    ensures var after, closed := Step(w, OpensDevices), w.(screen := w.screen.(setup := false));
            if w.screen.view.Some? then HiddenAs(closed, after) else after == closed
  {
    var w1 := w.(screen := w.screen.(setup := false));
    if w.screen.view.Some? {
      ViewsHide(w1.(screen := w1.screen.Wiped()));
    }
  }

  /** Sharing and the device list leave the view as Hide does, and say what comes next. */
  lemma LeavingForElsewhere(w: World, shared: bool, now: nat)
    requires Draws(w, Hide)
    ensures Draws(w, Share) ==> Chosen(w, Share, shared, At(now)) == (Step(w, Chooses(Hide, shared, At(now))), ThenShare)
    ensures Draws(w, Devices) ==> Chosen(w, Devices, shared, At(now)) == (Step(w, Chooses(Hide, shared, At(now))), ThenDevices)
  {
  }

  /** Asking again lets the old attempt go and opens the form. */
  lemma AskingAgain(w: World, shared: bool, now: nat)
    requires Draws(w, Again)
    ensures var after := Step(w, Chooses(Again, shared, At(now)));
            after.screen == w.screen.(setup := true, view := None, navigated := false) && after.attempt == None
  {
  }

  /** Opening pairing shows an attempt that is not over, and otherwise the form. */
  lemma OpeningShows(w: World, session: Option<nat>, now: nat)
    ensures var after := Step(w, OpensPairing(session, At(now)));
            && after.session == session && !after.screen.navigated
            && if w.attempt.Some? && !w.attempt.value.phase.Finished? && w.attempt.value.phase != Unconfirmed(true) then
                 && after.screen.view.Some? && !after.screen.setup
                 && SameBut(w.attempt.value, after.attempt, w.attempt.value.phase, w.attempt.value.task)
               else after.screen.view == None && after.screen.setup && after.attempt == None
  {
  }

  /** The form makes one new attempt, under the next number, behind its own view. */
  lemma Creating(w: World, starts: bool, now: nat)
    ensures var after := Step(w, Creates(starts, At(now)));
            if w.screen.setup && starts then
              && after.attempt == Some(Attempt(w.attempts + 1, Checking, None, true, Checks))
              && after.attempts == w.attempts + 1 && after.told == None && !after.usedTold
              && after.screen == w.screen.(setup := false, view := Some(View(None, [Cancel])), navigated := false)
            else after == w
  {
  }

  /** Without a view a tick closes what is live, tells what is over and lets it go, and tells once what is unconfirmed. */
  predicate KeptAs(w: World, after: World) {
    && after.screen.view == None && after.screen.setup == w.screen.setup
    && (w.attempt.Some? ==>
          var a := w.attempt.value;
          if Live(a.phase) then
            after.attempt == Some(a.(phase := Closing, presented := false, code := None))
            && after.screen.notices == w.screen.notices
          else
            && after.attempt == (if a.phase.Finished? || a.phase == Unconfirmed(true) then None else Some(a))
            && after.screen.notices == (if a.phase.Closing? then w.screen.notices else Telling(w, a.phase)))
  }

  lemma HiddenAttemptsAreKept(w: World, shared: bool, now: nat)
    requires w.screen.view == None
    ensures KeptAs(w, Kept(w, shared, At(now)))
    ensures w.attempt == None ==> Kept(w, shared, At(now)) == w
  {
    if w.attempt.Some? {
      var a := w.attempt.value;
      if Live(a.phase) {
        NotingTellsNothing(w.(attempt := Some(a.Close())), a.Close());
      } else {
        NotingTellsNothing(w, a);
        if !a.phase.Closing? {
          TellingSays(Note(w, a), a.phase);
        }
      }
    }
  }

  lemma HiddenTicks(w: World, shared: bool, now: nat)
    requires w.screen.view == None && !w.screen.setup
    ensures KeptAs(w, Step(w, Ticks(w.session, shared, At(now))))
  {
    assert Evicted(w, w.session) == w;
    HiddenAttemptsAreKept(w, shared, now);
  }

  /** What eviction leaves: no form, no view, the reason told first, and a live attempt closing. */
  lemma StaleOverlaysAreEvicted(w: World, session: Option<nat>)
    requires (w.screen.setup || w.screen.view.Some?) && (w.session != session || w.screen.navigated)
    ensures var after := Evicted(w, session);
            && after.screen.view == None && !after.screen.setup
            && (w.screen.view.Some? ==>
                  w.screen.notices + [if w.session != session then SessionChanged else OtherViewOpened] <= after.screen.notices)
            && (w.screen.view.Some? && w.attempt.Some? && Live(w.attempt.value.phase) ==>
                  after.attempt == Some(w.attempt.value.(phase := Closing, presented := false, code := None)))
  {
    if w.screen.view.Some? {
      var why := if w.session != session then SessionChanged else OtherViewOpened;
      var w1 := w.(screen := w.screen.(setup := false).Told(why).Wiped());
      assert Evicted(w, session) == ViewHidden(w1);
      assert w1.screen.notices == w.screen.notices + [why] && w1.attempt == w.attempt;
      ViewsHide(w1);
    }
  }

  /** A stale overlay goes with the next tick, and its attempt with it: the session changed, or something opened over it. */
  lemma StaleOverlaysGo(w: World, session: Option<nat>, shared: bool, now: nat)
    requires (w.screen.setup || w.screen.view.Some?) && (w.session != session || w.screen.navigated)
    ensures var after := Step(w, Ticks(session, shared, At(now)));
            && after.screen.view == None && !after.screen.setup
            && (w.screen.view.Some? ==>
                  w.screen.notices + [if w.session != session then SessionChanged else OtherViewOpened] <= after.screen.notices)
            && (w.screen.view.Some? && w.attempt.Some? && Live(w.attempt.value.phase) ==>
                  after.attempt == Some(w.attempt.value.(phase := Closing, presented := false, code := None)))
  {
    StaleOverlaysAreEvicted(w, session);
    HiddenAttemptsAreKept(Evicted(w, session), shared, now);
  }

  // ------------------------------------------------------------ a pairing that succeeds

  /** The tasks of a new attempt ask for a code, offer it and announce it. */
  lemma ACodeIsAnnounced(w: World, id: nat, deadline: nat, now: nat)
    requires w.attempt == Some(Attempt(id, Checking, None, true, Checks)) && now < deadline
    ensures Step(Step(Step(w, Works(Proceeds)), Works(CodeOffered(deadline, now))), Works(CodeAnnounced))
            == w.(attempt := Some(Attempt(id, Active(deadline), Some(deadline), true, Waits)))
  {
    var w1 := w.(attempt := Some(Attempt(id, Opening, None, true, Opens)));
    var w2 := w.(attempt := Some(Attempt(id, Opening, Some(deadline), true, HandsOver(deadline))));
    assert Step(w, Works(Proceeds)) == w1;
    assert Step(w1, Works(CodeOffered(deadline, now))) == w2;
  }

  /** And the next tick takes an announced code from its slot and shows it. */
  lemma ACodeIsShown(w: World, deadline: nat, shared: bool, now: nat)
    requires w.screen.view.Some? && !w.screen.navigated && now < deadline
    requires w.attempt.Some? && w.attempt.value.phase == Active(deadline) && w.attempt.value.code == Some(deadline)
    requires w.attempt.value.presented
    ensures var after := Step(w, Ticks(w.session, shared, At(now)));
            && after.screen.view == Some(View(Some(Secret(w.attempt.value.id, deadline)), [Look, Close]))
            && after.attempt == Some(w.attempt.value.(code := None))
            && after.screen.notices == w.screen.notices && after.usedTold == w.usedTold
  {
    assert Evicted(w, w.session) == w;
    assert WorkedAll(w.attempt.value, []) == w.attempt.value;
  }

  /** When a device has used it, the next tick takes the code off and offers what comes next, and the device list hears of it once. */
  lemma AUsedCodeIsReported(w: World, shared: bool, now: nat)
    requires w.screen.view.Some? && !w.screen.navigated && w.attempt.Some? && w.attempt.value.task.Waits? && !w.usedTold
    requires !w.attempt.value.phase.Finished?
    ensures var ended := Step(Step(w, Works(Concludes(Used))), Ticks(w.session, shared, At(now)));
            && ended.screen.view == Some(View(None, if shared then [Devices, Close] else [Share, Devices, Close]))
            && ended.attempt.Some? && ended.attempt.value.phase == Finished(Used)
            && ended.marks == w.marks + [Noted(w.attempt.value.id)] && ended.usedPending
            && var told := Step(ended, TakesUsed);
               told.marks == ended.marks + [ReportedUsed] && Step(told, TakesUsed) == told
  {
    var w1 := Step(w, Works(Concludes(Used)));
    assert Evicted(w1, w.session) == w1;
  }
}
