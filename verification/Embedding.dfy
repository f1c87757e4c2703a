/**
  The lifecycle of the embedding server LocalPilot may start: who may stop it, and when.

  The lease registry is another component. Its answers are inputs, under one contract: it
  never hands out the same stop token twice. The effects (starting, stopping, reading the
  runtime state, spawning a reaper) are inputs too. Any number of owners and reapers run at
  once; each of their calls is one atomic step of the machine.
 */
module Embedding {
  import opened Options

  /** The server's recorded state, and whether its address is the configured endpoint's. */
  datatype RuntimeState = RuntimeState(pid: nat, sameEndpoint: bool) {
    predicate Matches() {
      pid > 0 && sameEndpoint
    }
  }

  datatype OwnerPreparation = Acquired | Legacy | MayStart | UserManaged | BeingStopped | Unavailable

  datatype Release = StopOwned(token: nat) | OthersRemain | Unowned

  datatype StopPreparation = Waiting | Ready(token: nat) | NotOurs

  /** Everything the registry and the server answer to one run's entry. */
  datatype Answers = Answers(
    prepared: OwnerPreparation, state: Option<RuntimeState>, migrates: bool,
    starts: bool, claims: bool, stops: bool)

  // ------------------------------------------------------------ one process

  /** What a process did to the server, and the registry's answers that licensed it. */
  datatype Act =
    | Started(ok: bool)
    | Unverified
    | ClaimRefused
    | Granted(token: nat)
    | Stopped(ok: bool)
    | Completed(token: nat, ok: bool)
    | Deferred(pid: nat)

  /** The process identifier a lease is held for, if the server's own state confirms the endpoint. */
  function Guard(state: Option<RuntimeState>): Option<nat> {
    if state.Some? && state.value.Matches() then Some(state.value.pid) else None
  }

  /** Entry: what a run does to the server, and the lease it then holds. */
  function Entered(a: Answers): (seq<Act>, Option<nat>) {
    match a.prepared
    case Acquired => ([], Guard(a.state))
    case Legacy => ([], if a.migrates then Guard(a.state) else None)
    case MayStart =>
      if !a.starts then ([Started(false)], None)
      else if Guard(a.state) == None then ([Started(true), Unverified, Stopped(a.stops)], None)
      else if !a.claims then ([Started(true), ClaimRefused, Stopped(a.stops)], None)
      else ([Started(true)], Guard(a.state))
    case _ => ([], None)
  }

  /** The lease goes: stop if the registry grants it, leave the draining to a reaper if others remain. */
  function Released(pid: nat, outcome: Release, stops: bool): seq<Act> {
    match outcome
    case StopOwned(token) => [Granted(token), Stopped(stops), Completed(token, stops)]
    case OthersRemain => [Deferred(pid)]
    case Unowned => []
  }

  function Reaped(answer: StopPreparation, stops: bool): seq<Act> {
    if answer.Ready? then [Granted(answer.token), Stopped(stops), Completed(answer.token, stops)] else []
  }

  class OwnerProcess {
    var lease: Option<nat>
    ghost var acts: seq<Act>

    constructor ()
      ensures lease == None && acts == []
    {
      lease, acts := None, [];
    }

    /** A lease is guarded only once the server's own state confirms the endpoint. */
    method GuardFor(state: RuntimeState)
      requires lease == None
      modifies this`lease
      ensures lease == Guard(Some(state))
    {
      if state.Matches() {
        lease := Some(state.pid);
      }
    }

    /** Acquire the configured endpoint for this run, or start it. */
    method EnsureWith(a: Answers)
      requires lease == None && acts == []
      modifies this
      ensures (acts, lease) == Entered(a)
    {
      match a.prepared {
        case Acquired =>
          if a.state.Some? {
            GuardFor(a.state.value);
          }
        case Legacy =>
          if a.state.Some? && a.state.value.Matches() && a.migrates {
            GuardFor(a.state.value);
          }
        case MayStart =>
          acts := acts + [Started(a.starts)];
          if !a.starts {
            assert acts == [Started(false)];
            return;
          }
          if a.state == None || !a.state.value.Matches() {
            acts := acts + [Unverified] + [Stopped(a.stops)];
            assert acts == [Started(true), Unverified, Stopped(a.stops)];
            return;
          }
          if a.claims {
            GuardFor(a.state.value);
            assert acts == [Started(true)];
          } else {
            acts := acts + [ClaimRefused] + [Stopped(a.stops)];
            assert acts == [Started(true), ClaimRefused, Stopped(a.stops)];
          }
        case _ =>
      }
    }

    /** The lease is given up: its acts are those of `Released` for the registry's answer. */
    method Drop(outcome: Release, stops: bool)
      modifies this
      ensures lease == None
      ensures acts == old(acts) + if old(lease) == None then [] else Released(old(lease).value, outcome, stops)
    {
      if lease == None {
        return;
      }
      var pid := lease.value;
      lease := None;
      match outcome {
        case StopOwned(token) =>
          acts := acts + [Granted(token), Stopped(stops), Completed(token, stops)];
        case OthersRemain => acts := acts + [Deferred(pid)];
        case Unowned =>
      }
    }

    /** The detached reaper polls until the registry says something other than "wait". */
    method Reap(answers: nat -> StopPreparation, stops: bool, ghost until: nat) returns (polls: nat)
      requires acts == [] && !answers(until).Waiting?
      modifies this`acts
      ensures polls <= until && !answers(polls).Waiting? && forall k :: 0 <= k < polls ==> answers(k).Waiting?
      ensures acts == Reaped(answers(polls), stops)
    {
      polls := 0;
      while answers(polls).Waiting?
        invariant polls <= until && forall k :: 0 <= k < polls ==> answers(k).Waiting?
        decreases until - polls
      {
        polls := polls + 1;
      }
      match answers(polls) {
        case Ready(token) => acts := acts + [Granted(token), Stopped(stops), Completed(token, stops)];
        case _ =>
      }
    }
  }

  /** Who did what, and what each process still has to do: `done` acts of its script are done. */
  datatype Process = Process(script: seq<Act>, done: nat, lease: Option<nat>, dead: bool)

  /**
    Every process, everything done in order, and which process was handed each stop token.
    A process carries out its script whatever the others do; only its own death stops it.
   */
  datatype Machine = Machine(processes: map<nat, Process>, log: seq<(nat, Act)>, granted: map<nat, nat>)

  datatype Event =
    | Enters(p: nat, answers: Answers)
    | Releases(p: nat, outcome: Release, stops: bool)
    | Reaps(p: nat, answer: StopPreparation, stops: bool)
    | Acts(p: nat)
    | Dies(p: nat)

  /** The token an event hands out. */
  function Token(m: Machine, e: Event): Option<nat> {
    match e
    case Releases(p, StopOwned(token), _) => if MayRelease(m, p) then Some(token) else None
    case Reaps(p, Ready(token), _) => if p !in m.processes then Some(token) else None
    case _ => None
  }

  /** A live process that has done everything so far and holds a lease. */
  predicate MayRelease(m: Machine, p: nat) {
    p in m.processes && !m.processes[p].dead && m.processes[p].lease.Some?
    && m.processes[p].done >= |m.processes[p].script|
  }

  function Granting(m: Machine, e: Event, p: nat): map<nat, nat> {
    if Token(m, e) == None then m.granted else m.granted[Token(m, e).value := p]
  }

  function Step(m: Machine, e: Event): Machine {
    match e
    case Enters(p, answers) =>
      if p in m.processes then m
      else m.(processes := m.processes[p := Process(Entered(answers).0, 0, Entered(answers).1, false)])
    case Releases(p, outcome, stops) =>
      if !MayRelease(m, p) then m
      else
        var before := m.processes[p];
        var after := before.(script := before.script + Released(before.lease.value, outcome, stops), lease := None);
        m.(processes := m.processes[p := after], granted := Granting(m, e, p))
    case Reaps(p, answer, stops) =>
      if p in m.processes then m
      else m.(processes := m.processes[p := Process(Reaped(answer, stops), 0, None, false)], granted := Granting(m, e, p))
    case Acts(p) =>
      if p !in m.processes || m.processes[p].dead || m.processes[p].done >= |m.processes[p].script| then m
      else
        var before := m.processes[p];
        m.(processes := m.processes[p := before.(done := before.done + 1)],
           log := m.log + [(p, before.script[before.done])])
    case Dies(p) =>
      if p in m.processes then m.(processes := m.processes[p := m.processes[p].(dead := true)]) else m
  }

  function Run(m: Machine, es: seq<Event>): Machine {
    if es == [] then m else Step(Run(m, es[..|es| - 1]), es[|es| - 1])
  }

  const NOBODY := Machine(map[], [], map[])

  /** The registry's contract: no stop token is handed out twice. */
  predicate Honest(es: seq<Event>) {
    es == [] ||
    var m, e := Run(NOBODY, es[..|es| - 1]), es[|es| - 1];
    Honest(es[..|es| - 1]) && (Token(m, e).Some? ==> Token(m, e).value !in m.granted)
  }

  /** What process `p` did, in order. */
  function Own(log: seq<(nat, Act)>, p: nat): seq<Act> {
    if log == [] then []
    else Own(log[..|log| - 1], p) + if log[|log| - 1].0 == p then [log[|log| - 1].1] else []
  }

  // ------------------------------------------------------------ what the scripts of the program are

  /** `s[i]` stands where it may: a stop licensed, a grant stopped and completed at once, with that result. */
  predicate InPlace(s: seq<Act>, i: nat)
    requires i < |s|
  {
    match s[i]
    case Unverified | ClaimRefused =>
      i > 0 && s[i - 1] == Started(true) && i + 1 < |s| && s[i + 1].Stopped?
    case Granted(token) => i + 2 < |s| && s[i + 1].Stopped? && s[i + 2] == Completed(token, s[i + 1].ok)
    case Stopped(ok) => Licensed(s, i)
    case Completed(token, ok) => i > 1 && s[i - 1] == Stopped(ok) && s[i - 2] == Granted(token)
    case _ => true
  }

  /** The act before is a granted token, or the failed check of the server started just before that. */
  predicate Licensed(s: seq<Act>, i: nat)
    requires i <= |s|
  {
    i > 0 && (s[i - 1].Granted?
              || ((s[i - 1].Unverified? || s[i - 1].ClaimRefused?) && i > 1 && s[i - 2] == Started(true)))
  }

  predicate Ordered(s: seq<Act>) {
    forall i :: 0 <= i < |s| ==> InPlace(s, i)
  }

  lemma OrderedConcat(a: seq<Act>, b: seq<Act>)
    requires Ordered(a) && Ordered(b)
    ensures Ordered(a + b)
  {
    var s := a + b;
    forall i | 0 <= i < |s|
      ensures InPlace(s, i)
    {
      if i < |a| {
        assert InPlace(a, i);
      } else {
        assert InPlace(b, i - |a|);
      }
    }
  }

  /** Whatever is answered, an entry, a release and a reaper do only what may be done there. */
  lemma ScriptsAreOrdered(a: Answers, pid: nat, outcome: Release, answer: StopPreparation, stops: bool)
    ensures Ordered(Entered(a).0) && Ordered(Released(pid, outcome, stops)) && Ordered(Reaped(answer, stops))
  {
  }

  /** A run that started the server holds a lease on it, or stopped it. */
  lemma AStartIsGuardedOrUndone(a: Answers)
    ensures var (acts, lease) := Entered(a);
            Started(true) in acts ==> lease.Some? || acts[|acts| - 1].Stopped?
    ensures var (acts, lease) := Entered(a);
            lease.Some? ==> a.state.Some? && a.state.value.Matches() && lease.value == a.state.value.pid
                            && forall act :: act in acts ==> act == Started(true)
  {
  }

  /**
    A run starts the server exactly when it may, holds a lease exactly on a server whose state
    confirms the endpoint and which it may use, and stops what it started exactly when it
    cannot hold it.
   */
  lemma EnteringIff(m: Machine, p: nat, a: Answers)
    requires p !in m.processes
    ensures var process := Step(m, Enters(p, a)).processes[p];
            var confirmed := a.state.Some? && a.state.value.pid > 0 && a.state.value.sameEndpoint;
            && (forall ok :: Started(ok) in process.script <==> a.prepared == MayStart && a.starts == ok)
            && process.lease == (if confirmed && (a.prepared == Acquired || (a.prepared == Legacy && a.migrates)
                                                  || (a.prepared == MayStart && a.starts && a.claims))
                                 then Some(a.state.value.pid) else None)
            && (forall ok :: Stopped(ok) in process.script <==>
                  a.prepared == MayStart && a.starts && !(confirmed && a.claims) && a.stops == ok)
            && (Unverified in process.script <==> a.prepared == MayStart && a.starts && !confirmed)
  {
  }

  /** A lease given up is stopped and reported under the token granted for it, left to a reaper while others remain, or nobody's. */
  lemma ReleasingPlans(m: Machine, p: nat, outcome: Release, stops: bool)
    requires p in m.processes && !m.processes[p].dead && m.processes[p].lease.Some?
    requires m.processes[p].done == |m.processes[p].script|
    ensures var before, after := m.processes[p], Step(m, Releases(p, outcome, stops)).processes[p];
            && after.lease == None && after.done == before.done && before.script <= after.script
            && var more := after.script[|before.script|..];
               && (outcome == OthersRemain ==> more == [Deferred(before.lease.value)])
               && (outcome == Unowned ==> more == [])
               && (outcome.StopOwned? ==>
                     |more| == 3 && more[0] == Granted(outcome.token) && more[1] == Stopped(stops)
                     && more[2] == Completed(outcome.token, stops))
  {
  }

  /** A reaper does the same once it is granted a token, and otherwise nothing. */
  lemma ReapingPlans(m: Machine, p: nat, answer: StopPreparation, stops: bool)
    requires p !in m.processes
    ensures var script := Step(m, Reaps(p, answer, stops)).processes[p].script;
            && (script == [] <==> !answer.Ready?)
            && (answer.Ready? ==>
                  |script| == 3 && script[0] == Granted(answer.token) && script[1] == Stopped(stops)
                  && script[2] == Completed(answer.token, stops))
  {
  }

  // ------------------------------------------------------------ every interleaving

  predicate ProcessInv(m: Machine, p: nat) {
    if p !in m.processes then Own(m.log, p) == []
    else
      var process := m.processes[p];
      process.done <= |process.script| && Own(m.log, p) == process.script[..process.done] && Ordered(process.script)
  }

  lemma OwnSnoc(log: seq<(nat, Act)>, x: (nat, Act), p: nat)
    ensures Own(log + [x], p) == Own(log, p) + if x.0 == p then [x.1] else []
  {
    assert (log + [x])[..|log|] == log;
  }

  lemma StepKeepsProcess(m: Machine, e: Event, p: nat)
    requires ProcessInv(m, p)
    ensures ProcessInv(Step(m, e), p)
  {
    match e
    case Enters(_, answers) => ScriptsAreOrdered(answers, 0, Unowned, Waiting, false);
    case Releases(q, outcome, stops) =>
      if q == p && MayRelease(m, p) {
        var before := m.processes[p];
        var more := Released(before.lease.value, outcome, stops);
        ScriptsAreOrdered(Answers(Acquired, None, false, false, false, false), before.lease.value, outcome, Waiting, stops);
        OrderedConcat(before.script, more);
        assert (before.script + more)[..before.done] == before.script[..before.done];
      }
    case Reaps(_, answer, stops) =>
      ScriptsAreOrdered(Answers(Acquired, None, false, false, false, false), 0, Unowned, answer, stops);
    case Acts(q) =>
      if Step(m, e) != m {
        OwnSnoc(m.log, (q, m.processes[q].script[m.processes[q].done]), p);
      }
    case Dies(_) =>
  }

  lemma {:induction false} RunKeepsProcesses(es: seq<Event>, p: nat)
    ensures ProcessInv(Run(NOBODY, es), p)
  {
    if es != [] {
      RunKeepsProcesses(es[..|es| - 1], p);
      StepKeepsProcess(Run(NOBODY, es[..|es| - 1]), es[|es| - 1], p);
    }
  }

  /** The part of a log before `i` holds the first of a process's acts. */
  lemma {:induction false} OwnBefore(log: seq<(nat, Act)>, i: nat, p: nat)
    requires i <= |log|
    ensures |Own(log[..i], p)| <= |Own(log, p)|
    ensures Own(log[..i], p) == Own(log, p)[..|Own(log[..i], p)|]
    decreases |log|
  {
    if i == |log| {
      assert log[..i] == log;
    } else {
      OwnBefore(log[..|log| - 1], i, p);
      assert log[..|log| - 1][..i] == log[..i];
    }
  }

  /** An entry of the log stands in its process's script, after what the process had done. */
  lemma InScript(m: Machine, i: nat)
    requires i < |m.log| && ProcessInv(m, m.log[i].0)
    ensures var (p, act) := m.log[i];
            var own := Own(m.log[..i], p);
            && p in m.processes && |own| < m.processes[p].done <= |m.processes[p].script|
            && own == m.processes[p].script[..|own|] && m.processes[p].script[|own|] == act
            && InPlace(m.processes[p].script, |own|)
  {
    var (p, act) := m.log[i];
    assert m.log[..i + 1] == m.log[..i] + [(p, act)];
    OwnSnoc(m.log[..i], (p, act), p);
    OwnBefore(m.log, i, p);
    OwnBefore(m.log, i + 1, p);
    assert Own(m.log[..i + 1], p)[|Own(m.log[..i], p)|] == act;
  }

  /**
    Licensed stops: in every interleaving of entries, releases and reapers, the act of the
    same process just before a stop is a granted token, or the failed verification or claim
    of the server that process had started just before.
   */
  lemma {:induction false} EveryStopIsLicensed(es: seq<Event>, i: nat)
    requires var log := Run(NOBODY, es).log; i < |log| && log[i].1.Stopped?
    ensures var log := Run(NOBODY, es).log; var own := Own(log[..i], log[i].0);
            Licensed(own, |own|)
  {
    var m := Run(NOBODY, es);
    RunKeepsProcesses(es, m.log[i].0);
    InScript(m, i);
  }

  /** A token is completed with the result of the stop it was granted for, made just before. */
  lemma {:induction false} CompletedWithTheStopsResult(es: seq<Event>, i: nat)
    requires var log := Run(NOBODY, es).log; i < |log| && log[i].1.Completed?
    ensures var log := Run(NOBODY, es).log; var own := Own(log[..i], log[i].0); var n := |own|;
            n > 1 && own[n - 1] == Stopped(log[i].1.ok) && own[n - 2] == Granted(log[i].1.token)
  {
    var m := Run(NOBODY, es);
    RunKeepsProcesses(es, m.log[i].0);
    InScript(m, i);
  }

  /** A process that has nothing to do and no lease never does anything. */
  predicate Idles(m: Machine, p: nat) {
    p in m.processes && m.processes[p].script == [] && m.processes[p].lease == None
  }

  lemma {:induction false} IdlersStayIdle(es: seq<Event>, k: nat, p: nat)
    requires k <= |es| && Idles(Run(NOBODY, es[..k]), p)
    ensures Idles(Run(NOBODY, es), p)
    decreases |es|
  {
    if k == |es| {
      assert es[..k] == es;
    } else {
      assert es[..|es| - 1][..k] == es[..k];
      IdlersStayIdle(es[..|es| - 1], k, p);
    }
  }

  /** A run that finds the endpoint managed by somebody else, or stopping, or unreadable, never touches the server. */
  lemma {:induction false} UserManagedIsUntouched(es: seq<Event>, k: nat, p: nat)
    requires k < |es| && es[k].Enters? && es[k].p == p && p !in Run(NOBODY, es[..k]).processes
    requires var prepared := es[k].answers.prepared; prepared.UserManaged? || prepared.BeingStopped? || prepared.Unavailable?
    ensures Own(Run(NOBODY, es).log, p) == []
  {
    assert es[..k + 1][..k] == es[..k];
    assert Idles(Run(NOBODY, es[..k + 1]), p);
    IdlersStayIdle(es, k + 1, p);
    RunKeepsProcesses(es, p);
  }

  // ------------------------------------------------------------ each token once

  function Grants(acts: seq<Act>, token: nat): nat {
    if acts == [] then 0
    else Grants(acts[..|acts| - 1], token) + if acts[|acts| - 1] == Granted(token) then 1 else 0
  }

  function Completions(acts: seq<Act>, token: nat): nat {
    if acts == [] then 0
    else
      var last := acts[|acts| - 1];
      Completions(acts[..|acts| - 1], token) + if last.Completed? && last.token == token then 1 else 0
  }

  /** Everything in the log, whoever did it. */
  function All(log: seq<(nat, Act)>): seq<Act> {
    seq(|log|, i requires 0 <= i < |log| => log[i].1)
  }

  lemma CountSnoc(acts: seq<Act>, act: Act, token: nat)
    ensures Grants(acts + [act], token) == Grants(acts, token) + if act == Granted(token) then 1 else 0
    ensures Completions(acts + [act], token)
            == Completions(acts, token) + if act.Completed? && act.token == token then 1 else 0
  {
    assert (acts + [act])[..|acts|] == acts;
  }

  lemma {:induction false} CountConcat(a: seq<Act>, b: seq<Act>, token: nat)
    ensures Grants(a + b, token) == Grants(a, token) + Grants(b, token)
    ensures Completions(a + b, token) == Completions(a, token) + Completions(b, token)
    decreases |b|
  {
    if b == [] {
      assert a + b == a;
    } else {
      var n := |b| - 1;
      CountConcat(a, b[..n], token);
      CountSnoc(a + b[..n], b[n], token);
      CountSnoc(b[..n], b[n], token);
      assert a + b == a + b[..n] + [b[n]] && b == b[..n] + [b[n]];
    }
  }

  lemma {:induction false} CountAt(acts: seq<Act>, i: nat, token: nat)
    requires i < |acts|
    ensures acts[i] == Granted(token) ==> Grants(acts, token) > 0
    ensures acts[i].Completed? && acts[i].token == token ==> Completions(acts, token) > 0
    decreases |acts|
  {
    if i < |acts| - 1 {
      CountAt(acts[..|acts| - 1], i, token);
    }
  }

  lemma {:induction false} CompletionAt(acts: seq<Act>, token: nat) returns (i: nat)
    requires Completions(acts, token) > 0
    ensures i < |acts| && acts[i].Completed? && acts[i].token == token
    decreases |acts|
  {
    i := |acts| - 1;
    if !(acts[i].Completed? && acts[i].token == token) {
      i := CompletionAt(acts[..|acts| - 1], token);
    }
  }

  lemma CountThree(a: Act, b: Act, c: Act, token: nat)
    ensures Grants([a, b, c], token) == Grants([a], token) + Grants([b], token) + Grants([c], token)
    ensures Completions([a, b, c], token) == Completions([a], token) + Completions([b], token) + Completions([c], token)
  {
    CountConcat([a], [b], token);
    CountConcat([a, b], [c], token);
    assert [a] + [b] == [a, b] && [a, b] + [c] == [a, b, c];
  }

  /** A script grants and completes only the token it was made for, once. */
  predicate Mentions(acts: seq<Act>, only: Option<nat>, token: nat) {
    var n := if only == Some(token) then 1 else 0;
    Grants(acts, token) == n && Completions(acts, token) == n
  }

  lemma ScriptsMention(a: Answers, pid: nat, outcome: Release, answer: StopPreparation, stops: bool, token: nat)
    ensures Mentions(Entered(a).0, None, token)
    ensures Mentions(Released(pid, outcome, stops), if outcome.StopOwned? then Some(outcome.token) else None, token)
    ensures Mentions(Reaped(answer, stops), if answer.Ready? then Some(answer.token) else None, token)
  {
    CountThree(Started(true), Unverified, Stopped(a.stops), token);
    CountThree(Started(true), ClaimRefused, Stopped(a.stops), token);
    if outcome.StopOwned? {
      CountThree(Granted(outcome.token), Stopped(stops), Completed(outcome.token, stops), token);
    }
    if answer.Ready? {
      CountThree(Granted(answer.token), Stopped(stops), Completed(answer.token, stops), token);
    }
  }

  function ScriptOf(m: Machine, p: nat): seq<Act> {
    if p in m.processes then m.processes[p].script else []
  }

  /** A token stands in the script of the process it was handed to, once, and in no other. */
  predicate Planned(m: Machine, token: nat, p: nat) {
    Mentions(ScriptOf(m, p), if token in m.granted && m.granted[token] == p then Some(token) else None, token)
  }

  /** What the log says of a token, its holder did. */
  predicate CountedIn(log: seq<(nat, Act)>, holder: Option<nat>, token: nat) {
    var own := if holder.Some? then Own(log, holder.value) else [];
    Grants(All(log), token) == Grants(own, token) && Completions(All(log), token) == Completions(own, token)
  }

  function Holder(m: Machine, token: nat): Option<nat> {
    if token in m.granted then Some(m.granted[token]) else None
  }

  predicate Counted(m: Machine, token: nat) {
    CountedIn(m.log, Holder(m, token), token)
  }

  lemma ReleaseKeepsPlanned(m: Machine, q: nat, outcome: Release, stops: bool, token: nat, p: nat)
    requires Planned(m, token, p) && MayRelease(m, q)
    requires outcome.StopOwned? ==> outcome.token !in m.granted
    ensures Planned(Step(m, Releases(q, outcome, stops)), token, p)
  {
    var before := m.processes[q];
    var more := Released(before.lease.value, outcome, stops);
    ScriptsMention(Answers(Acquired, None, false, false, false, false), before.lease.value, outcome, Waiting, stops, token);
    CountConcat(before.script, more, token);
    var after := Step(m, Releases(q, outcome, stops));
    assert ScriptOf(after, p) == if p == q then before.script + more else ScriptOf(m, p);
  }

  lemma ReapKeepsPlanned(m: Machine, q: nat, answer: StopPreparation, stops: bool, token: nat, p: nat)
    requires Planned(m, token, p) && q !in m.processes
    requires answer.Ready? ==> answer.token !in m.granted
    ensures Planned(Step(m, Reaps(q, answer, stops)), token, p)
  {
    ScriptsMention(Answers(Acquired, None, false, false, false, false), 0, Unowned, answer, stops, token);
    assert ScriptOf(Step(m, Reaps(q, answer, stops)), p) == if p == q then Reaped(answer, stops) else ScriptOf(m, p);
  }

  lemma StepKeepsPlanned(m: Machine, e: Event, token: nat, p: nat)
    requires Planned(m, token, p) && (Token(m, e).Some? ==> Token(m, e).value !in m.granted)
    ensures Planned(Step(m, e), token, p)
  {
    match e
    case Enters(_, answers) => ScriptsMention(answers, 0, Unowned, Waiting, false, token);
    case Releases(q, outcome, stops) =>
      if MayRelease(m, q) {
        ReleaseKeepsPlanned(m, q, outcome, stops, token, p);
      }
    case Reaps(q, answer, stops) =>
      if q !in m.processes {
        ReapKeepsPlanned(m, q, answer, stops, token, p);
      }
    case Acts(_) =>
    case Dies(_) =>
  }

  lemma AllSnoc(log: seq<(nat, Act)>, x: (nat, Act))
    ensures All(log + [x]) == All(log) + [x.1]
  {
  }

  predicate About(act: Act, token: nat) {
    act == Granted(token) || (act.Completed? && act.token == token)
  }

  lemma CountOther(acts: seq<Act>, act: Act, token: nat)
    requires !About(act, token)
    ensures Grants(acts + [act], token) == Grants(acts, token)
    ensures Completions(acts + [act], token) == Completions(acts, token)
  {
    CountSnoc(acts, act, token);
  }

  /** An act about a token is its holder's. */
  lemma OnlyTheHolder(m: Machine, token: nat, p: nat)
    requires p in m.processes && m.processes[p].done < |m.processes[p].script| && Planned(m, token, p)
    requires About(m.processes[p].script[m.processes[p].done], token)
    ensures token in m.granted && m.granted[token] == p
  {
    CountAt(m.processes[p].script, m.processes[p].done, token);
  }

  lemma HoldersActCounts(log: seq<(nat, Act)>, p: nat, act: Act, token: nat)
    requires CountedIn(log, Some(p), token)
    ensures CountedIn(log + [(p, act)], Some(p), token)
  {
    AllSnoc(log, (p, act));
    OwnSnoc(log, (p, act), p);
    CountSnoc(All(log), act, token);
    CountSnoc(Own(log, p), act, token);
  }

  lemma OtherActCounts(log: seq<(nat, Act)>, p: nat, act: Act, holder: Option<nat>, token: nat)
    requires CountedIn(log, holder, token) && !About(act, token) && holder != Some(p)
    ensures CountedIn(log + [(p, act)], holder, token)
  {
    AllSnoc(log, (p, act));
    CountOther(All(log), act, token);
    if holder.Some? {
      OwnSnoc(log, (p, act), holder.value);
      assert Own(log, holder.value) + [] == Own(log, holder.value);
    }
  }

  lemma ActKeepsCounted(m: Machine, p: nat, token: nat)
    requires Counted(m, token) && Planned(m, token, p)
    ensures Counted(Step(m, Acts(p)), token)
  {
    if Step(m, Acts(p)) != m {
      var act := m.processes[p].script[m.processes[p].done];
      if Holder(m, token) == Some(p) {
        HoldersActCounts(m.log, p, act, token);
      } else {
        if About(act, token) {
          OnlyTheHolder(m, token, p);
        }
        OtherActCounts(m.log, p, act, Holder(m, token), token);
      }
    }
  }

  /** A token just handed out has not been used by anyone. */
  lemma GrantKeepsCounted(m: Machine, e: Event, token: nat, p: nat)
    requires Counted(m, token) && Token(m, e) == Some(token) && token !in m.granted
    requires e.p == p && ProcessInv(m, p) && Planned(m, token, p)
    ensures Counted(Step(m, e), token)
  {
    var own := Own(m.log, p);
    if p in m.processes {
      var process := m.processes[p];
      CountConcat(process.script[..process.done], process.script[process.done..], token);
      assert process.script == process.script[..process.done] + process.script[process.done..];
    }
  }

  lemma StepKeepsCounted(m: Machine, e: Event, token: nat)
    requires Counted(m, token) && Planned(m, token, e.p) && ProcessInv(m, e.p)
    requires Token(m, e).Some? ==> Token(m, e).value !in m.granted
    ensures Counted(Step(m, e), token)
  {
    if e.Acts? {
      ActKeepsCounted(m, e.p, token);
    } else if Token(m, e) == Some(token) {
      GrantKeepsCounted(m, e, token, e.p);
    }
  }

  lemma {:induction false} RunKeepsPlanned(es: seq<Event>, token: nat, p: nat)
    requires Honest(es)
    ensures Planned(Run(NOBODY, es), token, p)
  {
    if es != [] {
      RunKeepsPlanned(es[..|es| - 1], token, p);
      StepKeepsPlanned(Run(NOBODY, es[..|es| - 1]), es[|es| - 1], token, p);
    }
  }

  lemma {:induction false} RunKeepsCounted(es: seq<Event>, token: nat)
    requires Honest(es)
    ensures Counted(Run(NOBODY, es), token)
  {
    if es != [] {
      var before, e := es[..|es| - 1], es[|es| - 1];
      RunKeepsCounted(before, token);
      RunKeepsPlanned(before, token, e.p);
      RunKeepsProcesses(before, e.p);
      StepKeepsCounted(Run(NOBODY, before), e, token);
    }
  }

  /**
    Each stop token the registry hands out is used by one process, completed at most once,
    and exactly once when that process has done all it had to do.
   */
  lemma {:induction false} TokensAreCompletedOnce(es: seq<Event>, token: nat)
    requires Honest(es)
    ensures var m := Run(NOBODY, es); var all := All(m.log);
            && Completions(all, token) <= Grants(all, token) <= 1
            && (Grants(all, token) == 1 ==> token in m.granted)
            && (token in m.granted ==>
                  var p := m.granted[token];
                  && p in m.processes
                  && (m.processes[p].done == |m.processes[p].script| ==>
                        Grants(all, token) == 1 && Completions(all, token) == 1))
  {
    var m := Run(NOBODY, es);
    RunKeepsCounted(es, token);
    if token in m.granted {
      var p := m.granted[token];
      RunKeepsPlanned(es, token, p);
      RunKeepsProcesses(es, p);
      var process := m.processes[p];
      var own, rest := process.script[..process.done], process.script[process.done..];
      CountConcat(own, rest, token);
      assert process.script == own + rest;
      if Completions(own, token) > 0 {
        var i := CompletionAt(own, token);
        assert InPlace(process.script, i) && own[i - 2] == Granted(token);
        CountAt(own, i - 2, token);
      }
      if process.done == |process.script| {
        assert own == process.script;
      }
    }
  }
}
