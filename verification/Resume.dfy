/**
  A paused run: the polls and naps until it may go on or must not, the steps it then takes,
  and what each way out does to the stored record of the pause.

  The wall clock, the cancel flag and the state of the workspace are read anew at each poll,
  and the outcome of each step is up to the provider and the gates: all of them are inputs.
 */
module Resume {
  import opened Options

  const WAIT_POLL_CAP: nat := 30
  const MAX_STEPS: nat := 100
  const U32_MAX: nat := 0xFFFF_FFFF

  // ------------------------------------------------------------ the decision

  datatype Mode = Off | Ask | RunOnce | Global

  datatype Policy = Policy(mode: Mode, maxWait: nat, needsClean: bool, needsNoApproval: bool, atBoundaryOnly: bool)

  datatype PausedRun = PausedRun(
    pausedAt: nat, reason: string, eligible: Option<nat>, step: nat, provider: string, attempt: nat)

  datatype Context = Context(
    windowElapsed: bool, atBoundary: bool, clean: bool, approvalPending: bool,
    cancelled: bool, providerChanged: bool, waited: nat)

  datatype Blocked =
    | UserCancelled | ProviderChanged | WaitedTooLong | NotAtBoundary | ApprovalPending | WorkspaceDirty | AutoResumeOff

  datatype Decision = GoOn | KeepWaiting | AskUser | BlockedBy(why: Blocked)

  /** The gates in order, then the mode: the first that does not pass decides. */
  function Decide(policy: Policy, ctx: Context): Decision {
    if ctx.cancelled then BlockedBy(UserCancelled)
    else if ctx.providerChanged then BlockedBy(ProviderChanged)
    else if ctx.waited > policy.maxWait then BlockedBy(WaitedTooLong)
    else if !ctx.windowElapsed then KeepWaiting
    else if policy.atBoundaryOnly && !ctx.atBoundary then BlockedBy(NotAtBoundary)
    else if policy.needsNoApproval && ctx.approvalPending then BlockedBy(ApprovalPending)
    else if policy.needsClean && !ctx.clean then BlockedBy(WorkspaceDirty)
    else match policy.mode
      case Off => BlockedBy(AutoResumeOff)
      case Ask => AskUser
      case _ => GoOn
  }

  /** When each answer is given: a stop for the first gate in order that does not hold, and then as the mode says. */
  lemma DecisionIff(policy: Policy, ctx: Context)
    ensures var d := Decide(policy, ctx);
            var called := ctx.cancelled || ctx.providerChanged || ctx.waited > policy.maxWait;
            var awaits := policy.needsNoApproval && ctx.approvalPending;
            var open := !called && ctx.windowElapsed && (ctx.atBoundary || !policy.atBoundaryOnly) && !awaits
                        && (ctx.clean || !policy.needsClean);
            && (d == BlockedBy(UserCancelled) <==> ctx.cancelled)
            && (d == BlockedBy(ProviderChanged) <==> !ctx.cancelled && ctx.providerChanged)
            && (d == BlockedBy(WaitedTooLong) <==> !ctx.cancelled && !ctx.providerChanged && ctx.waited > policy.maxWait)
            && (d == KeepWaiting <==> !called && !ctx.windowElapsed)
            && (d == BlockedBy(NotAtBoundary) <==> !called && ctx.windowElapsed && policy.atBoundaryOnly && !ctx.atBoundary)
            && (d == BlockedBy(ApprovalPending) <==>
                  !called && ctx.windowElapsed && (ctx.atBoundary || !policy.atBoundaryOnly) && awaits)
            && (d == BlockedBy(WorkspaceDirty) <==>
                  !called && ctx.windowElapsed && (ctx.atBoundary || !policy.atBoundaryOnly) && !awaits
                  && policy.needsClean && !ctx.clean)
            && (d == BlockedBy(AutoResumeOff) <==> open && policy.mode == Off)
            && (d == AskUser <==> open && policy.mode == Ask)
            && (d == GoOn <==> open && policy.mode in {RunOnce, Global})
  {
  }

  /** Seconds since the pause, as a saturating subtraction. */
  function Waited(paused: PausedRun, now: nat): nat {
    if now < paused.pausedAt then 0 else now - paused.pausedAt
  }

  function Min(a: nat, b: nat): nat {
    if a <= b then a else b
  }

  /** How long to sleep before deciding again; `None` when there is nothing to sleep for. */
  function WaitNap(paused: PausedRun, policy: Policy, now: nat, pollCap: nat): Option<nat> {
    if paused.eligible == None || now >= paused.eligible.value then None
    else
      var waited := Waited(paused, now);
      if waited >= policy.maxWait then None
      else
        var nap := Min(Min(paused.eligible.value - now, pollCap), policy.maxWait - waited);
        Some(if nap < 1 then 1 else nap)
  }

  /** With a positive poll cap a nap is at least a second and passes no bound; none is offered exactly when one is met. */
  lemma NapIsSafe(paused: PausedRun, policy: Policy, now: nat, pollCap: nat)
    requires pollCap > 0
    ensures var nap := WaitNap(paused, policy, now, pollCap);
            && (nap == None <==> paused.eligible == None || now >= paused.eligible.value
                                 || Waited(paused, now) >= policy.maxWait)
            && (nap.Some? ==> 1 <= nap.value <= pollCap && now + nap.value <= paused.eligible.value
                              && Waited(paused, now) + nap.value <= policy.maxWait
                              && (nap.value == pollCap || now + nap.value == paused.eligible.value
                                  || Waited(paused, now) + nap.value == policy.maxWait))
  {
  }

  // ------------------------------------------------------------ the wait

  /** What one poll reads: clock, cancel flag (before deciding, while deciding, while asleep), workspace. */
  datatype Reading = Reading(now: nat, cancelled: bool, cancelledSince: bool, cancelledAsleep: bool, clean: bool)

  datatype WaitEnd = Cancelled | Ready | Asks | Stopped(why: Blocked)

  function ContextAt(paused: PausedRun, changed: bool, r: Reading): Context {
    Context(paused.eligible == None || r.now >= paused.eligible.value, true, r.clean, false,
            r.cancelledSince, changed, Waited(paused, r.now))
  }

  predicate Waits(paused: PausedRun, policy: Policy, changed: bool, r: Reading) {
    !r.cancelled && !r.cancelledAsleep && Decide(policy, ContextAt(paused, changed, r)) == KeepWaiting
  }

  function EndAt(paused: PausedRun, policy: Policy, changed: bool, r: Reading): WaitEnd {
    if r.cancelled then Cancelled
    else match Decide(policy, ContextAt(paused, changed, r))
      case GoOn => Ready
      case AskUser => Asks
      case BlockedBy(why) => Stopped(why)
      case KeepWaiting => Cancelled
  }

  /** Each poll's clock is past the one before it. */
  ghost predicate Ticking(env: nat -> Reading) {
    forall i: nat, j: nat :: j == i + 1 ==> env(i).now < env(j).now
  }

  /** What is left to wait, from the deadline itself rather than from the time waited. */
  function Remaining(paused: PausedRun, policy: Policy, now: nat): nat {
    if now > paused.pausedAt + policy.maxWait then 0 else paused.pausedAt + policy.maxWait + 1 - now
  }

  /** The first poll from `i` on, and before `n`, that does not keep waiting. */
  function Stop(paused: PausedRun, policy: Policy, changed: bool, env: nat -> Reading, i: nat, n: nat): Option<nat>
    decreases n - i
  {
    if i >= n then None
    else if !Waits(paused, policy, changed, env(i)) then Some(i)
    else Stop(paused, policy, changed, env, i + 1, n)
  }

  class Waiting {
    var naps: seq<nat>

    constructor ()
      ensures naps == []
    {
      naps := [];
    }

    /** A wait that ends, within `n` polls: each poll but its last sleeps a nap and decides again. */
    method Wait(paused: PausedRun, policy: Policy, changed: bool, env: nat -> Reading, ghost n: nat)
      returns (end: WaitEnd, ghost last: nat)
      requires Stop(paused, policy, changed, env, 0, n).Some? && naps == []
      modifies this
      ensures Stop(paused, policy, changed, env, 0, n) == Some(last)
      ensures end == EndAt(paused, policy, changed, env(last))
      ensures |naps| == last + if end == Cancelled && !env(last).cancelled then 1 else 0
      ensures Naps(naps, paused, policy, env)
    {
      var i := 0;
      while true
        invariant Stop(paused, policy, changed, env, i, n) == Stop(paused, policy, changed, env, 0, n)
        invariant |naps| == i
        invariant Naps(naps, paused, policy, env)
        decreases n - i
      {
        var r := env(i);
        last := i;
        if r.cancelled {
          return Cancelled, i;
        }
        var decision := Decide(policy, ContextAt(paused, changed, r));
        if decision != KeepWaiting {
          return EndAt(paused, policy, changed, r), i;
        }
        var nap := WaitNap(paused, policy, r.now, WAIT_POLL_CAP);
        NapsSnoc(naps, paused, policy, env);
        naps := naps + [if nap == None then 1 else nap.value];
        if r.cancelledAsleep {
          return Cancelled, i;
        }
        i := i + 1;
      }
    }
  }

  /** The naps of the first polls. */
  ghost predicate Naps(naps: seq<nat>, paused: PausedRun, policy: Policy, env: nat -> Reading) {
    forall k :: 0 <= k < |naps| ==> naps[k] == NapAt(paused, policy, env(k).now)
  }

  lemma NapsSnoc(naps: seq<nat>, paused: PausedRun, policy: Policy, env: nat -> Reading)
    requires Naps(naps, paused, policy, env)
    ensures Naps(naps + [NapAt(paused, policy, env(|naps|).now)], paused, policy, env)
  {
  }

  /** The nap taken, with the one-second fallback. */
  function NapAt(paused: PausedRun, policy: Policy, now: nat): nat {
    var nap := WaitNap(paused, policy, now, WAIT_POLL_CAP);
    if nap == None then 1 else nap.value
  }

  /** The poll found is the first that does not keep waiting; none is found while every poll waits. */
  lemma {:induction false} StopIsFirst(paused: PausedRun, policy: Policy, changed: bool, env: nat -> Reading, i: nat, n: nat)
    ensures match Stop(paused, policy, changed, env, i, n)
            case None => forall k :: i <= k < n ==> Waits(paused, policy, changed, env(k))
            case Some(last) =>
              && i <= last < n && !Waits(paused, policy, changed, env(last))
              && forall k :: i <= k < last ==> Waits(paused, policy, changed, env(k))
    decreases n - i
  {
    if i < n && Waits(paused, policy, changed, env(i)) {
      StopIsFirst(paused, policy, changed, env, i + 1, n);
    }
  }

  /** With a clock that moves on between polls the wait ends, within `Remaining` naps. */
  lemma {:induction false} WaitIsBounded(paused: PausedRun, policy: Policy, changed: bool, env: nat -> Reading, i: nat, n: nat)
    requires Ticking(env) && n > i + Remaining(paused, policy, env(i).now)
    ensures Stop(paused, policy, changed, env, i, n).Some?
    ensures Stop(paused, policy, changed, env, i, n).value <= i + Remaining(paused, policy, env(i).now)
    decreases Remaining(paused, policy, env(i).now)
  {
    if Waits(paused, policy, changed, env(i)) {
      assert env(i).now < env(i + 1).now;
      WaitIsBounded(paused, policy, changed, env, i + 1, n);
    }
  }

  /** That needs the clock: one that stands still while a poll waits is polled for ever. */
  lemma {:induction false} AStoppedClockIsPolledForEver(paused: PausedRun, policy: Policy, changed: bool, r: Reading, i: nat, n: nat)
    requires Waits(paused, policy, changed, r)
    ensures Stop(paused, policy, changed, (_: nat) => r, i, n) == None
    decreases n - i
  {
    if i < n {
      AStoppedClockIsPolledForEver(paused, policy, changed, r, i + 1, n);
    }
  }

  /** All naps of a run: none once no poll is left to take one. */
  function NapsFrom(paused: PausedRun, policy: Policy, env: nat -> Reading, i: nat, last: nat): nat
    requires i <= last
    decreases last - i
  {
    if i == last then 0 else NapAt(paused, policy, env(i).now) + NapsFrom(paused, policy, env, i + 1, last)
  }

  /** The clock moves on by at least each nap. */
  ghost predicate SleepsThrough(paused: PausedRun, policy: Policy, env: nat -> Reading) {
    forall i: nat, j: nat :: j == i + 1 ==> env(i).now + NapAt(paused, policy, env(i).now) <= env(j).now
  }

  /** Together the naps fill at most the time left to the deadline, and one second past it. */
  lemma {:induction false} NapsFitTheDeadline(
      paused: PausedRun, policy: Policy, changed: bool, env: nat -> Reading, i: nat, last: nat)
    requires Ticking(env) && SleepsThrough(paused, policy, env)
    requires i <= last && forall k :: i <= k < last ==> Waits(paused, policy, changed, env(k))
    ensures NapsFrom(paused, policy, env, i, last) <= Remaining(paused, policy, env(i).now)
    decreases last - i
  {
    if i < last {
      NapsFitTheDeadline(paused, policy, changed, env, i + 1, last);
      assert env(i).now + NapAt(paused, policy, env(i).now) <= env(i + 1).now;
      NapIsSafe(paused, policy, env(i).now, WAIT_POLL_CAP);
    }
  }

  /** The fallback second is taken exactly at the deadline, and ends the wait unless the clock is behind the pause. */
  lemma FallbackIsTheLastSecond(paused: PausedRun, policy: Policy, changed: bool, r: Reading, next: Reading)
    requires Waits(paused, policy, changed, r) && r.now < next.now
    ensures WaitNap(paused, policy, r.now, WAIT_POLL_CAP) == None <==> Waited(paused, r.now) == policy.maxWait
    ensures WaitNap(paused, policy, r.now, WAIT_POLL_CAP) == None && r.now >= paused.pausedAt ==>
              !Waits(paused, policy, changed, next)
  {
    NapIsSafe(paused, policy, r.now, WAIT_POLL_CAP);
  }

  /** "`max_wait` less the time waited" falls between two polls exactly when the later one is past the pause. */
  lemma MeasureFallsIffClockPastPause(paused: PausedRun, policy: Policy, now: nat, later: nat)
    requires now < later
    ensures policy.maxWait - Waited(paused, later) < policy.maxWait - Waited(paused, now) <==> later > paused.pausedAt
  {
  }

  /** A clock read `n` seconds after the first. */
  function SteadyClock(start: nat, clean: bool): nat -> Reading {
    (n: nat) => Reading(start + n, false, false, false, clean)
  }

  /** So a run can be polled long past `max_wait`: a clock behind the pause first has to catch up with it. */
  lemma {:induction false} ClockBehindThePauseWaitsLonger(paused: PausedRun, policy: Policy, i: nat, n: nat)
    requires paused.eligible.Some? && paused.eligible.value > paused.pausedAt + policy.maxWait
    requires i <= paused.pausedAt + policy.maxWait + 1 < n
    ensures Ticking(SteadyClock(0, true))
    ensures var last := paused.pausedAt + policy.maxWait + 1;
            && Stop(paused, policy, false, SteadyClock(0, true), i, n) == Some(last)
            && EndAt(paused, policy, false, SteadyClock(0, true)(last)) == Stopped(WaitedTooLong)
    decreases paused.pausedAt + policy.maxWait + 1 - i
  {
    var env := SteadyClock(0, true);
    assert Ticking(env);
    if i <= paused.pausedAt + policy.maxWait {
      assert Waits(paused, policy, false, env(i));
      ClockBehindThePauseWaitsLonger(paused, policy, i + 1, n);
    }
  }

  /** Ready means every gate held at that very poll. */
  lemma ReadyMeansSafe(paused: PausedRun, policy: Policy, changed: bool, r: Reading)
    ensures !Waits(paused, policy, changed, r) ==>
              (EndAt(paused, policy, changed, r) == Ready <==>
                && !r.cancelled && !r.cancelledSince && !changed
                && Waited(paused, r.now) <= policy.maxWait
                && (paused.eligible == None || r.now >= paused.eligible.value)
                && (policy.needsClean ==> r.clean)
                && (policy.mode == RunOnce || policy.mode == Global))
  {
  }

  // ------------------------------------------------------------ the steps

  datatype Plan = NextStep | AllComplete(reviewFails: bool) | NotResumable

  /** How a step ended. A provider limit stores a new pause (if it can) and stops the step. */
  datatype StepEnd =
    | Committed(gateBlocks: bool, checkpoint: bool)
    | StepBlocked
    | LimitHit(pausedAt: nat, wait: nat, reason: string, step: nat, provider: string, stored: bool)
    | StepFails

  datatype StepInput = StepInput(plan: Plan, setupFails: bool, end: StepEnd)

  datatype Progress = Advanced(committed: nat) | Failed

  /** The record's serialized form; the program relies only on reading back what it wrote. */
  datatype Codec = Codec(parse: string -> Option<PausedRun>, encode: PausedRun -> string) {
    ghost predicate RoundTrips() {
      forall run: PausedRun :: parse(encode(run)) == Some(run)
    }
  }

  /** The pause a limit writes: its attempt count grows from the stored one's. */
  function NewPause(codec: Codec, record: Option<string>, hit: StepEnd): PausedRun
    requires hit.LimitHit?
  {
    var prev := if record == None then None else codec.parse(record.value);
    var attempt := if prev == None then 1 else Min(prev.value.attempt + 1, U32_MAX);
    PausedRun(hit.pausedAt, hit.reason, Some(hit.pausedAt + hit.wait), hit.step, hit.provider,
              if attempt < 1 then 1 else attempt)
  }

  /** A new pause is the limit's own, eligible once its wait is over, and one attempt further than the stored one's. */
  lemma NewPauseIsTheLimits(codec: Codec, record: Option<string>, hit: StepEnd)
    requires hit.LimitHit?
    ensures var p := NewPause(codec, record, hit);
            && p.pausedAt == hit.pausedAt && p.eligible == Some(hit.pausedAt + hit.wait)
            && p.reason == hit.reason && p.step == hit.step && p.provider == hit.provider
            && 1 <= p.attempt <= U32_MAX
            && (record == None || codec.parse(record.value) == None ==> p.attempt == 1)
            && (record.Some? && codec.parse(record.value).Some? ==>
                  var earlier := codec.parse(record.value).value.attempt;
                  p.attempt == if earlier < U32_MAX then earlier + 1 else U32_MAX)
  {
  }

  function Recorded(codec: Codec, record: Option<string>, end: StepEnd): Option<string> {
    if end.LimitHit? && end.stored then Some(codec.encode(NewPause(codec, record, end))) else record
  }

  /** The step loop from step `k` on, with `committed` steps behind it. */
  function Steps(codec: Codec, inputs: nat -> StepInput, k: nat, committed: nat, record: Option<string>)
    : (Progress, Option<string>)
    decreases MAX_STEPS - k
  {
    if k >= MAX_STEPS then (Advanced(committed), record)
    else
      var input := inputs(k);
      match input.plan
      case NotResumable => (Failed, record)
      case AllComplete(fails) => (if fails then Failed else Advanced(committed), record)
      case NextStep =>
        if input.setupFails then (Failed, record)
        else
          var after := Recorded(codec, record, input.end);
          match input.end
          case StepFails => (Failed, after)
          case StepBlocked => (Advanced(committed), after)
          case LimitHit(_, _, _, _, _, _) => (Advanced(committed), after)
          case Committed(gateBlocks, checkpoint) =>
            if gateBlocks || checkpoint then (Advanced(committed + 1), after)
            else Steps(codec, inputs, k + 1, committed + 1, after)
  }

  predicate Commits(input: StepInput) {
    input.plan.NextStep? && !input.setupFails && input.end.Committed?
  }

  predicate StopsAfter(input: StepInput) {
    input.end.Committed? && (input.end.gateBlocks || input.end.checkpoint)
  }

  /**
    A run's count is exact: the first `n` steps committed, and the run went no further because
    the next did not, the last asked it to stop, or a hundred were taken. The record is the
    one found, or a pause stored by one of the steps.
   */
  lemma {:induction false} StepsAreCounted(codec: Codec, inputs: nat -> StepInput, k: nat, committed: nat, record: Option<string>)
    requires k <= MAX_STEPS
    ensures var (progress, after) := Steps(codec, inputs, k, committed, record);
            && (progress.Advanced? ==>
                  && committed <= progress.committed <= committed + (MAX_STEPS - k)
                  && (forall i :: k <= i < k + (progress.committed - committed) ==> Commits(inputs(i)))
                  && var last := k + (progress.committed - committed);
                     last == MAX_STEPS || !Commits(inputs(last)) || (last > k && StopsAfter(inputs(last - 1))))
            && (after == record
                || exists i: nat :: k <= i < MAX_STEPS && inputs(i).end.LimitHit?
                                    && after == Some(codec.encode(NewPause(codec, record, inputs(i).end))))
    decreases MAX_STEPS - k
  {
    if k < MAX_STEPS {
      var input := inputs(k);
      if Commits(input) && !input.end.gateBlocks && !input.end.checkpoint {
        StepsAreCounted(codec, inputs, k + 1, committed + 1, record);
      }
    }
  }

  /** A step at which a run fails: no plan to resume, a completed plan whose review fails, or a step that cannot be set up or breaks. */
  predicate Breaks(input: StepInput) {
    match input.plan
    case NotResumable => true
    case AllComplete(reviewFails) => reviewFails
    case NextStep => input.setupFails || input.end.StepFails?
  }

  /** Step `n` breaks, and the run went on past every one before it. */
  ghost predicate BreaksAt(inputs: nat -> StepInput, k: nat, n: nat) {
    k <= n < MAX_STEPS && Breaks(inputs(n)) && forall i :: k <= i < n ==> Commits(inputs(i)) && !StopsAfter(inputs(i))
  }

  /** A continuation fails exactly when it comes to a step that breaks. */
  lemma {:induction false} FailsIff(codec: Codec, inputs: nat -> StepInput, k: nat, committed: nat, record: Option<string>)
    requires k <= MAX_STEPS
    ensures Steps(codec, inputs, k, committed, record).0 == Failed <==> exists n: nat :: BreaksAt(inputs, k, n)
    decreases MAX_STEPS - k
  {
    if k < MAX_STEPS {
      if Commits(inputs(k)) && !StopsAfter(inputs(k)) {
        var next := k + 1;
        FailsIff(codec, inputs, next, committed + 1, record);
        if n: nat :| BreaksAt(inputs, next, n) {
          assert BreaksAt(inputs, k, n);
        }
        if n: nat :| BreaksAt(inputs, k, n) {
          assert BreaksAt(inputs, next, n);
        }
      } else if Breaks(inputs(k)) {
        assert BreaksAt(inputs, k, k);
      }
    }
  }

  // ------------------------------------------------------------ the stored record

  datatype Outcome =
    | NoPausedRun | InvalidRecord | PlanRefused | StillWaiting | WaitCancelled | AskedUser | CannotResume(why: Blocked)
    | Ran(progress: Progress)

  /**
    Everything outside the stored record that a run meets: the plan when it starts, what the
    polls read, the plan again, whether the continuation can start, and its steps.
   */
  datatype Surroundings = Surroundings(
    policy: Policy, chosen: Option<string>, planHolds: bool, env: nat -> Reading,
    planStillHolds: bool, canStart: bool, steps: nat -> StepInput)

  function Changed(s: Surroundings, paused: PausedRun): bool {
    s.chosen.Some? && s.chosen.value != paused.provider
  }

  function Continuation(codec: Codec, s: Surroundings, record: Option<string>): (Progress, Option<string>) {
    if s.canStart then Steps(codec, s.steps, 0, 0, record) else (Failed, record)
  }

  /** What a `wait-resume` has done to the stored record after at most `n` polls, whatever the clock does. */
  function WholeRun(codec: Codec, s: Surroundings, record: Option<string>, n: nat): (Outcome, Option<string>) {
    if record == None then (NoPausedRun, record)
    else
      var parsed := codec.parse(record.value);
      if parsed == None then (InvalidRecord, record)
      else if !s.planHolds then (PlanRefused, record)
      else
        var paused := parsed.value;
        var last := Stop(paused, s.policy, Changed(s, paused), s.env, 0, n);
        if last == None then (StillWaiting, record)
        else
          match EndAt(paused, s.policy, Changed(s, paused), s.env(last.value))
          case Cancelled => (WaitCancelled, record)
          case Asks => (AskedUser, record)
          case Stopped(why) => (CannotResume(why), record)
          case Ready =>
            if !s.planStillHolds then (PlanRefused, record)
            else
              var (progress, after) := Continuation(codec, s, record);
              (Ran(progress),
               if progress.Advanced? && progress.committed > 0 && after == record then None else after)
  }

  class Store {
    var record: Option<string>

    constructor (record: Option<string>)
      ensures this.record == record
    {
      this.record := record;
    }

    /** Compare and delete: the record goes if it equals `original`. */
    method ConsumeIfUnchanged(original: string) returns (consumed: bool)
      modifies this
      ensures consumed <==> old(record) == Some(original)
      ensures record == if consumed then None else old(record)
    {
      if record == Some(original) {
        record := None;
        return true;
      }
      return false;
    }

    /** The step loop: at most a hundred steps, each inspecting the plan anew. */
    method TakeSteps(codec: Codec, inputs: nat -> StepInput) returns (progress: Progress)
      modifies this
      ensures (progress, record) == Steps(codec, inputs, 0, 0, old(record))
    {
      var committed := 0;
      for k := 0 to MAX_STEPS
        invariant Steps(codec, inputs, k, committed, record) == Steps(codec, inputs, 0, 0, old(record))
      {
        var input := inputs(k);
        match input.plan {
          case NotResumable => return Failed;
          case AllComplete(fails) => return if fails then Failed else Advanced(committed);
          case NextStep =>
        }
        if input.setupFails {
          return Failed;
        }
        match input.end {
          case StepFails => return Failed;
          case StepBlocked => return Advanced(committed);
          case LimitHit(_, _, _, _, _, stored) =>
            if stored {
              record := Some(codec.encode(NewPause(codec, record, input.end)));
            }
            return Advanced(committed);
          case Committed(gateBlocks, checkpoint) =>
            committed := committed + 1;
            if gateBlocks || checkpoint {
              return Advanced(committed);
            }
        }
      }
      return Advanced(committed);
    }

    /** Continue a paused run, if its wait ends (within `n` polls) with every gate open. */
    method WaitResume(codec: Codec, s: Surroundings, ghost n: nat) returns (outcome: Outcome)
      requires WholeRun(codec, s, record, n).0 != StillWaiting
      modifies this
      ensures (outcome, record) == WholeRun(codec, s, old(record), n)
    {
      if record == None {
        return NoPausedRun;
      }
      var original := record.value;
      var parsed := codec.parse(original);
      if parsed == None {
        return InvalidRecord;
      }
      if !s.planHolds {
        return PlanRefused;
      }
      var waiting := new Waiting();
      var end, _ := waiting.Wait(parsed.value, s.policy, Changed(s, parsed.value), s.env, n);
      match end {
        case Cancelled => return WaitCancelled;
        case Asks => return AskedUser;
        case Stopped(why) => return CannotResume(why);
        case Ready =>
      }
      if !s.planStillHolds {
        return PlanRefused;
      }
      var progress := Failed;
      if s.canStart {
        progress := TakeSteps(codec, s.steps);
      }
      if progress.Advanced? && progress.committed > 0 {
        var consumed := ConsumeIfUnchanged(original);
      }
      return Ran(progress);
    }
  }

  /**
    Recovery-record safety: the record goes exactly when the continuation succeeded with at
    least one step committed and left the very bytes read at the start; otherwise it stands
    as the continuation left it. Nothing is asked of the clock: a wait that never ends leaves
    the record alone.
   */
  lemma RecordGoesOnlyForProgress(codec: Codec, s: Surroundings, bytes: string, n: nat)
    ensures var (outcome, after) := WholeRun(codec, s, Some(bytes), n);
            var (progress, left) := Continuation(codec, s, Some(bytes));
            && (after == None <==> outcome.Ran? && progress.Advanced? && progress.committed > 0 && left == Some(bytes))
            && (after != None ==> after == if outcome.Ran? then left else Some(bytes))
            && (outcome.Ran? ==> outcome.progress == progress)
            && (outcome.Ran? && progress.Advanced? && progress.committed > 0 ==>
                  s.canStart && Commits(s.steps(0)))
  {
    StepsAreCounted(codec, s.steps, 0, 0, Some(bytes));
  }

  /** How a run that never continued ended: the first thing in the way, as it was found. */
  lemma OutcomesAreToldAsFound(codec: Codec, s: Surroundings, bytes: string, n: nat)
    ensures WholeRun(codec, s, None, n) == (NoPausedRun, None)
    ensures var outcome, parsed := WholeRun(codec, s, Some(bytes), n).0, codec.parse(bytes);
            && (outcome == InvalidRecord <==> parsed == None)
            && (parsed.Some? ==>
                  var paused, changed := parsed.value, s.chosen.Some? && s.chosen.value != parsed.value.provider;
                  var last := Stop(paused, s.policy, changed, s.env, 0, n);
                  && (outcome == StillWaiting <==> s.planHolds && last == None)
                  && (last.Some? ==>
                        var end := EndAt(paused, s.policy, changed, s.env(last.value));
                        && (outcome == PlanRefused <==> !s.planHolds || (end == Ready && !s.planStillHolds))
                        && (outcome == WaitCancelled <==> s.planHolds && end == Cancelled)
                        && (outcome == AskedUser <==> s.planHolds && end == Asks)
                        && (outcome.CannotResume? ==> end == Stopped(outcome.why))
                        && (outcome.Ran? <==> s.planHolds && end == Ready && s.planStillHolds)))
  {
  }

  /** The continuation commits `n` steps, then meets the limit and stores a pause of its own. */
  ghost predicate PausesAt(inputs: nat -> StepInput, n: nat) {
    && n < MAX_STEPS
    && (forall i: nat :: i < n ==> Commits(inputs(i)) && !inputs(i).end.gateBlocks && !inputs(i).end.checkpoint)
    && inputs(n).plan.NextStep? && !inputs(n).setupFails && inputs(n).end.LimitHit? && inputs(n).end.stored
  }

  lemma {:induction false} PauseIsStored(codec: Codec, inputs: nat -> StepInput, k: nat, n: nat, record: Option<string>)
    requires k <= n && PausesAt(inputs, n)
    ensures Steps(codec, inputs, k, k, record) == (Advanced(n), Some(codec.encode(NewPause(codec, record, inputs(n).end))))
    decreases n - k
  {
    if k < n {
      PauseIsStored(codec, inputs, k + 1, n, record);
    }
  }

  /** A pause written by the run it continues never has the old bytes, short of a saturated attempt count. */
  lemma NewPauseHasNewBytes(codec: Codec, bytes: string, hit: StepEnd)
    requires codec.RoundTrips() && hit.LimitHit?
    requires codec.encode(NewPause(codec, Some(bytes), hit)) == bytes
    ensures codec.parse(bytes).Some?
    ensures codec.parse(bytes).value.attempt == U32_MAX && codec.parse(bytes).value.pausedAt == hit.pausedAt
  {
    var run := NewPause(codec, Some(bytes), hit);
    assert codec.parse(codec.encode(run)) == Some(run);
  }

  /** A newer pause is erased exactly when steps were committed before it and it repeats the old bytes. */
  lemma NewerPauseErasedIffSameBytes(codec: Codec, s: Surroundings, bytes: string, n: nat, polls: nat)
    requires s.canStart && PausesAt(s.steps, n)
    requires WholeRun(codec, s, Some(bytes), polls).0.Ran?
    ensures var newer := codec.encode(NewPause(codec, Some(bytes), s.steps(n).end));
            WholeRun(codec, s, Some(bytes), polls).1 == if n > 0 && newer == bytes then None else Some(newer)
  {
    PauseIsStored(codec, s.steps, 0, n, Some(bytes));
  }

  /** So while the stored attempt count is below its ceiling, a newer pause is never erased. */
  lemma NewerPauseIsKept(codec: Codec, s: Surroundings, bytes: string, n: nat, polls: nat)
    requires s.canStart && PausesAt(s.steps, n)
    requires WholeRun(codec, s, Some(bytes), polls).0.Ran?
    requires codec.RoundTrips() && (codec.parse(bytes).Some? ==> codec.parse(bytes).value.attempt < U32_MAX)
    ensures WholeRun(codec, s, Some(bytes), polls).1
            == Some(codec.encode(NewPause(codec, Some(bytes), s.steps(n).end)))
  {
    NewerPauseErasedIffSameBytes(codec, s, bytes, n, polls);
    if codec.encode(NewPause(codec, Some(bytes), s.steps(n).end)) == bytes {
      NewPauseHasNewBytes(codec, bytes, s.steps(n).end);
    }
  }

  /** A pause at its last attempt, over at once; a step commits, and the limit strikes again in the same second. */
  function SameSecond(): Surroundings {
    Surroundings(Policy(RunOnce, 0, false, false, false), None, true, (_: nat) => Reading(0, false, false, false, true),
                 true, true,
                 (k: nat) => StepInput(NextStep, false,
                                       if k == 0 then Committed(false, false) else LimitHit(0, 0, "limit", 1, "p", true)))
  }

  /** Then the newer pause is erased, with any serialization that reads back what it wrote. */
  lemma ANewerPauseCanBeErased(codec: Codec)
    requires codec.RoundTrips()
    ensures var bytes := codec.encode(PausedRun(0, "limit", Some(0), 1, "p", U32_MAX));
            && PausesAt(SameSecond().steps, 1)
            && WholeRun(codec, SameSecond(), Some(bytes), 1) == (Ran(Advanced(1)), None)
  {
    var run := PausedRun(0, "limit", Some(0), 1, "p", U32_MAX);
    var bytes, s := codec.encode(run), SameSecond();
    assert codec.parse(bytes) == Some(run);
    assert NewPause(codec, Some(bytes), s.steps(1).end) == run;
    assert Stop(run, s.policy, Changed(s, run), s.env, 0, 1) == Some(0);
    assert PausesAt(s.steps, 1);
    PauseIsStored(codec, s.steps, 0, 1, Some(bytes));
    NewerPauseErasedIffSameBytes(codec, s, bytes, 1, 1);
  }
}
