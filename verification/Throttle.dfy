/**
  Ingestion progress, drained from a queue into notices: milestones are told as they come,
  parsing ticks only as they reach a new quarter. The multiplication saturates at 64 bits.
 */
module Throttle {

  const U64_MAX: nat := 0xFFFF_FFFF_FFFF_FFFF

  datatype Progress =
    | Discovering
    | Discovered(candidates: nat, skipped: nat)
    | Parsing(completed: nat, total: nat)
    | Indexing
    | Writing
    | Completed

  datatype Notice =
    | ToldDiscovering | ToldDiscovered(candidates: nat, skipped: nat)
    | ToldParsed(completed: nat, total: nat) | ToldIndexing | ToldWriting

  function SaturatingMul(a: nat, b: nat): nat {
    if a * b > U64_MAX then U64_MAX else a * b
  }

  /** Which quarter a tick has reached. */
  function Quarter(completed: nat, total: nat): nat {
    if total == 0 || completed == 0 then 0 else SaturatingMul(completed, 4) / total
  }

  /** The throttle's state across calls, and everything told. */
  datatype State = State(total: nat, bucket: nat, told: seq<Notice>) {
    function Tell(n: Notice): State {
      this.(told := told + [n])
    }
  }

  function Took(s: State, p: Progress): State {
    match p
    case Discovering => s.Tell(ToldDiscovering)
    case Discovered(candidates, skipped) => s.(total := candidates).Tell(ToldDiscovered(candidates, skipped))
    case Parsing(completed, total) =>
      var s1 := s.(total := total);
      if Quarter(completed, total) > s.bucket then
        s1.(bucket := Quarter(completed, total)).Tell(ToldParsed(completed, total))
      else s1
    case Indexing => s.Tell(ToldIndexing)
    case Writing => s.Tell(ToldWriting)
    case Completed => s
  }

  function Drained(s: State, queue: seq<Progress>): State {
    if queue == [] then s else Took(Drained(s, queue[..|queue| - 1]), queue[|queue| - 1])
  }

  class IngestThrottle {
    var total: nat
    var bucket: nat
    var told: seq<Notice>

    function Snapshot(): State
      reads this
    {
      State(total, bucket, told)
    }

    constructor ()
      ensures Snapshot() == State(0, 0, [])
    {
      total, bucket, told := 0, 0, [];
    }

    method Emit(n: Notice)
      modifies this`told
      ensures told == old(told) + [n]
    {
      told := told + [n];
    }

    /** Drain the queued stages. */
    method Drain(queue: seq<Progress>)
      modifies this
      ensures Snapshot() == Drained(old(Snapshot()), queue)
    {
      for i := 0 to |queue|
        invariant Snapshot() == Drained(old(Snapshot()), queue[..i])
      {
        assert queue[..i + 1][..i] == queue[..i];
        match queue[i] {
          case Discovering => Emit(ToldDiscovering);
          case Discovered(candidates, skipped) =>
            total := candidates;
            Emit(ToldDiscovered(candidates, skipped));
          case Parsing(completed, count) =>
            total := count;
            if count > 0 && completed > 0 {
              var quarter := SaturatingMul(completed, 4) / count;
              if quarter > bucket {
                bucket := quarter;
                Emit(ToldParsed(completed, count));
              }
            }
          case Indexing => Emit(ToldIndexing);
          case Writing => Emit(ToldWriting);
          case Completed =>
        }
      }
      assert queue[..|queue|] == queue;
    }
  }

  /** Draining in several calls tells what draining once does, in the same order. */
  lemma {:induction false} SeveralDrainsAreOne(s: State, a: seq<Progress>, b: seq<Progress>)
    ensures Drained(s, a + b) == Drained(Drained(s, a), b)
    decreases |b|
  {
    if b == [] {
      assert a + b == a;
    } else {
      var n := |b| - 1;
      assert (a + b)[..|a + b| - 1] == a + b[..n];
      SeveralDrainsAreOne(s, a, b[..n]);
    }
  }

  // ------------------------------------------------------------ the throttle

  /** The parsing notices among those told. */
  function Parsed(told: seq<Notice>): seq<(nat, nat)> {
    if told == [] then []
    else
      var before := Parsed(told[..|told| - 1]);
      var last := told[|told| - 1];
      if last.ToldParsed? then before + [(last.completed, last.total)] else before
  }

  /** One total throughout, and never more completed than that. */
  predicate Steady(queue: seq<Progress>, total: nat) {
    forall i :: 0 <= i < |queue| && queue[i].Parsing? ==>
      queue[i].total == total && queue[i].completed <= total
  }

  lemma MulGrows(a: nat, b: nat, total: nat)
    requires a >= b
    ensures a * total >= b * total
  {
  }

  /** A quarter is at most four, whole or saturated; short of saturation it is the exact one. */
  lemma QuarterIsBounded(completed: nat, total: nat)
    requires completed <= total
    ensures Quarter(completed, total) <= 4
    ensures total > 0 && completed * 4 <= U64_MAX ==>
              Quarter(completed, total) * total <= completed * 4 < (Quarter(completed, total) + 1) * total
  {
    if total > 0 && completed > 0 {
      var q := SaturatingMul(completed, 4) / total;
      assert q * total <= SaturatingMul(completed, 4) <= 4 * total;
      if q >= 5 {
        MulGrows(q, 5, total);
      }
    }
  }

  /** Each notice stands at a strictly higher quarter than the one before it, up to the bucket. */
  predicate Rising(parsed: seq<(nat, nat)>, floor: nat, bucket: nat) {
    && (forall i :: 0 <= i < |parsed| ==> floor < Quarter(parsed[i].0, parsed[i].1) <= bucket)
    && (forall i, j :: 0 <= i < j < |parsed| ==> Quarter(parsed[i].0, parsed[i].1) < Quarter(parsed[j].0, parsed[j].1))
    && |parsed| <= bucket - floor
  }

  lemma RisingSnoc(parsed: seq<(nat, nat)>, floor: nat, bucket: nat, next: (nat, nat))
    requires floor <= bucket && Rising(parsed, floor, bucket) && Quarter(next.0, next.1) > bucket
    ensures Rising(parsed + [next], floor, Quarter(next.0, next.1))
  {
  }

  /** What is told before does not matter: only the bucket is carried over. */
  lemma ToldSnoc(told: seq<Notice>, n: Notice)
    ensures Parsed(told + [n]) == Parsed(told) + if n.ToldParsed? then [(n.completed, n.total)] else []
  {
    assert (told + [n])[..|told|] == told;
  }

  lemma TookKeepsRising(s: State, p: Progress, floor: nat)
    requires floor <= s.bucket && Rising(Parsed(s.told), floor, s.bucket)
    ensures var s1 := Took(s, p); s1.bucket >= floor && Rising(Parsed(s1.told), floor, s1.bucket)
  {
    var s1 := Took(s, p);
    if p.Parsing? {
      if Quarter(p.completed, p.total) > s.bucket {
        ToldSnoc(s.told, ToldParsed(p.completed, p.total));
        RisingSnoc(Parsed(s.told), floor, s.bucket, (p.completed, p.total));
      }
    } else if !p.Completed? {
      ToldSnoc(s.told, s1.told[|s.told|]);
    }
  }

  /** Whatever the stream, parsing notices rise strictly and the bucket is the highest quarter told. */
  lemma {:induction false} NoticesRise(total: nat, bucket: nat, queue: seq<Progress>)
    ensures var s := Drained(State(total, bucket, []), queue);
            s.bucket >= bucket && Rising(Parsed(s.told), bucket, s.bucket)
  {
    if queue != [] {
      var n := |queue| - 1;
      NoticesRise(total, bucket, queue[..n]);
      TookKeepsRising(Drained(State(total, bucket, []), queue[..n]), queue[n], bucket);
    }
  }

  lemma {:induction false} BucketIsReached(total: nat, bucket: nat, queue: seq<Progress>)
    ensures var s := Drained(State(total, bucket, []), queue);
            && (s.bucket == bucket || exists i :: 0 <= i < |queue| && queue[i].Parsing?
                                                  && s.bucket == Quarter(queue[i].completed, queue[i].total))
            && forall i :: 0 <= i < |queue| && queue[i].Parsing? ==>
                 Quarter(queue[i].completed, queue[i].total) <= s.bucket
  {
    if queue != [] {
      BucketIsReached(total, bucket, queue[..|queue| - 1]);
    }
  }

  lemma DrainSnoc(s: State, queue: seq<Progress>, p: Progress)
    ensures Drained(s, queue + [p]) == Took(Drained(s, queue), p)
  {
    assert (queue + [p])[..|queue|] == queue;
  }

  /** A parsing tick is told exactly when its quarter is higher than every one before it. */
  lemma ATickIsToldIff(total: nat, bucket: nat, queue: seq<Progress>, completed: nat, count: nat)
    ensures var before, after := Drained(State(total, bucket, []), queue), Drained(State(total, bucket, []), queue + [Parsing(completed, count)]);
            var higher := Quarter(completed, count) > bucket
                          && forall i :: 0 <= i < |queue| && queue[i].Parsing? ==>
                               Quarter(queue[i].completed, queue[i].total) < Quarter(completed, count);
            after.told == before.told + (if higher then [ToldParsed(completed, count)] else [])
  {
    DrainSnoc(State(total, bucket, []), queue, Parsing(completed, count));
    BucketIsReached(total, bucket, queue);
    NoticesRise(total, bucket, queue);
  }

  /** Every milestone is told, as it was queued, at its place. */
  lemma MilestonesAreTold(s: State, queue: seq<Progress>, candidates: nat, skipped: nat)
    ensures Drained(s, queue + [Discovering]).told == Drained(s, queue).told + [ToldDiscovering]
    ensures var after := Drained(s, queue + [Discovered(candidates, skipped)]);
            after.told == Drained(s, queue).told + [ToldDiscovered(candidates, skipped)] && after.total == candidates
    ensures Drained(s, queue + [Indexing]).told == Drained(s, queue).told + [ToldIndexing]
    ensures Drained(s, queue + [Writing]).told == Drained(s, queue).told + [ToldWriting]
    ensures Drained(s, queue + [Completed]) == Drained(s, queue)
  {
    DrainSnoc(s, queue, Discovering);
    DrainSnoc(s, queue, Discovered(candidates, skipped));
    DrainSnoc(s, queue, Indexing);
    DrainSnoc(s, queue, Writing);
    DrainSnoc(s, queue, Completed);
  }

  /** With one total and never more completed than it, at most four parsing notices, and none above the quarter reached. */
  lemma AtMostFourNotices(start: nat, queue: seq<Progress>, total: nat)
    requires Steady(queue, total)
    ensures |Parsed(Drained(State(start, 0, []), queue).told)| <= 4
  {
    NoticesRise(start, 0, queue);
    BucketIsReached(start, 0, queue);
    var s := Drained(State(start, 0, []), queue);
    if s.bucket > 0 {
      var i :| 0 <= i < |queue| && queue[i].Parsing? && s.bucket == Quarter(queue[i].completed, queue[i].total);
      QuarterIsBounded(queue[i].completed, queue[i].total);
    }
  }

  /** `n` ticks of a walk of one file that never says it is done. */
  function Ticks(n: nat): seq<Progress> {
    if n == 0 then [] else Ticks(n - 1) + [Parsing(n, 1)]
  }

  /** The bound needs that: past its total each of these ticks is told of. */
  lemma {:induction false} PastTheTotalThereIsNoBound(n: nat)
    requires 4 * n <= U64_MAX
    ensures var s := Drained(State(0, 0, []), Ticks(n)); |Parsed(s.told)| == n && s.bucket == 4 * n
  {
    if n > 0 {
      PastTheTotalThereIsNoBound(n - 1);
      var before := Drained(State(0, 0, []), Ticks(n - 1));
      assert Ticks(n)[..n - 1] == Ticks(n - 1) by {
        TicksLength(n - 1);
      }
      TicksLength(n);
      assert Quarter(n, 1) == 4 * n;
      ToldSnoc(before.told, ToldParsed(n, 1));
    }
  }

  lemma {:induction false} TicksLength(n: nat)
    ensures |Ticks(n)| == n
  {
    if n > 0 {
      TicksLength(n - 1);
    }
  }
}
