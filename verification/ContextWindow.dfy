/**
  The context window, the input budget planned within it, and the warning when the two do
  not fit together. Token counts fit 64 bits in the program; every operation here stays
  within its arguments or the reserve, so none can leave that range.
 */
module ContextWindow {
  import opened Options

  /** Tokens held back for the reply when no cap is known, and the smallest input budget. */
  const RESERVE: nat := 4_096

  datatype Source = Server | Configured | Default

  datatype Window = Window(tokens: nat, source: Source, server: Option<nat>, configured: Option<nat>) {
    function Known(): Option<nat> {
      if source != Default then Some(tokens) else None
    }

    /** The session's input budget. */
    function Budget(fallback: nat, maxOutput: Option<nat>): nat {
      EffectiveLimit(Known(), fallback, maxOutput)
    }

    /** What a reply cap leaves of the window, beside the planned budget. */
    function RoomFor(fallback: nat, maxOutput: Option<nat>): Option<Capacity> {
      if Known() == None then None
      else
        var reserve := if maxOutput == None then RESERVE else maxOutput.value;
        Some(Capacity(tokens, maxOutput, SaturatingSub(tokens, reserve), Budget(fallback, maxOutput)))
    }
  }

  function SaturatingSub(a: nat, b: nat): nat {
    if a < b then 0 else a - b
  }

  function FromSignals(server: Option<nat>, configured: Option<nat>, fallback: nat): Window {
    var configured := if configured == Some(0) then None else configured;
    match (server, configured)
    case (Some(s), Some(cap)) =>
      if cap < s then Window(cap, Configured, server, configured) else Window(s, Server, server, configured)
    case (Some(s), None) => Window(s, Server, server, configured)
    case (None, Some(cap)) => Window(cap, Configured, server, configured)
    case (None, None) => Window(fallback, Default, server, configured)
  }

  function EffectiveLimit(window: Option<nat>, configured: nat, maxOutput: Option<nat>): nat {
    if window == None then configured
    else
      var left := SaturatingSub(window.value, if maxOutput == None then RESERVE else maxOutput.value);
      if left < RESERVE then RESERVE else left
  }

  datatype Remedy = LargerWindow | CapAtMost(most: nat, example: nat)

  datatype Warning = BelowMinimum | TooLittleRoom(remedy: Remedy)

  datatype Capacity = Capacity(window: nat, replyCap: Option<nat>, remaining: nat, budget: nat) {
    function Warns(): Option<Warning> {
      if budget <= remaining then None
      else if window < RESERVE then Some(BelowMinimum)
      else
        var suggested := SuggestedReplyCap(window);
        Some(TooLittleRoom(if suggested == None then LargerWindow
                           else CapAtMost(window - RESERVE, suggested.value)))
    }
  }

  /** `window / 4` cut down to at most `window - RESERVE`, and at least one token. */
  function SuggestedReplyCap(window: nat): Option<nat> {
    if window <= RESERVE then None
    else
      var most := window - RESERVE;
      var quarter := window / 4;
      Some(if quarter < 1 then 1 else if quarter > most then most else quarter)
  }

  // ------------------------------------------------------------ the window

  /** The smaller of what the server and the configuration say, whichever of them says anything. */
  lemma WindowIsTheSmallerSignal(server: Option<nat>, configured: Option<nat>, fallback: nat)
    ensures var w := FromSignals(server, configured, fallback);
            && (server.Some? ==> w.tokens <= server.value)
            && (configured.Some? && configured.value > 0 ==> w.tokens <= configured.value)
            && (w.Known() == None <==> server == None && (configured == None || configured.value == 0))
            && (w.Known() == None ==> w.tokens == fallback)
            && (w.Known().Some? ==> w.Known() == server || w.Known() == configured)
            && (w.source == Server <==>
                  server.Some? && (configured == None || configured.value == 0 || server.value <= configured.value))
  {
  }

  /** An unknown window is a budget already: nothing is reserved from it and it never warns. */
  lemma UnknownWindowIsTheFallback(fallback: nat, maxOutput: Option<nat>)
    ensures var w := FromSignals(None, None, fallback);
            w.Budget(fallback, maxOutput) == fallback && w.RoomFor(fallback, maxOutput) == None
  {
  }

  // ------------------------------------------------------------ the boundary

  predicate Quiet(w: Window, fallback: nat, maxOutput: Option<nat>) {
    var capacity := w.RoomFor(fallback, maxOutput);
    capacity == None || capacity.value.Warns() == None
  }

  /**
    Where a known window falls silent: at caps up to `tokens - RESERVE`, and with no cap from
    twice the reserve on.
   */
  lemma QuietIffTheMinimumFits(w: Window, fallback: nat, maxOutput: Option<nat>)
    requires w.Known().Some?
    ensures Quiet(w, fallback, maxOutput) <==>
              w.tokens >= RESERVE + if maxOutput == None then RESERVE else maxOutput.value
    ensures w.tokens >= RESERVE ==>
              (Quiet(w, fallback, maxOutput) <==>
                 if maxOutput == None then w.tokens >= 2 * RESERVE else maxOutput.value <= w.tokens - RESERVE)
    ensures w.tokens < RESERVE ==>
              !Quiet(w, fallback, maxOutput)
              && w.RoomFor(fallback, maxOutput).value.Warns() == Some(BelowMinimum)
  {
  }

  /** The budget never exceeds the room beside the reply exactly when there is no warning. */
  lemma QuietMeansTheBudgetFits(w: Window, fallback: nat, cap: nat)
    requires w.Known().Some?
    ensures Quiet(w, fallback, Some(cap)) <==> w.Budget(fallback, Some(cap)) + cap <= w.tokens
  {
  }

  /** Every suggested cap is positive and quiet, and one is suggested exactly when some positive cap is quiet. */
  lemma SuggestionsWork(w: Window, fallback: nat)
    requires w.Known().Some?
    ensures var cap := SuggestedReplyCap(w.tokens);
            && (cap.Some? ==> cap.value > 0 && Quiet(w, fallback, cap) && cap.value <= w.tokens - RESERVE)
            && (cap.Some? ==> cap.value == w.tokens / 4 || (cap.value == w.tokens - RESERVE && cap.value < w.tokens / 4))
            && (cap == None <==> forall c: nat :: c > 0 ==> !Quiet(w, fallback, Some(c)))
  {
    if SuggestedReplyCap(w.tokens) == None {
      forall c: nat | c > 0
        ensures !Quiet(w, fallback, Some(c))
      {
        QuietIffTheMinimumFits(w, fallback, Some(c));
      }
    } else {
      QuietIffTheMinimumFits(w, fallback, SuggestedReplyCap(w.tokens));
    }
  }

  /** The remedy told with a warning is exact: following it silences the warning, going past it does not. */
  lemma RemedyIsExact(w: Window, fallback: nat, maxOutput: Option<nat>, cap: nat)
    requires w.Known().Some?
    requires var c := w.RoomFor(fallback, maxOutput).value; c.Warns().Some? && c.Warns().value.TooLittleRoom?
    ensures var remedy := w.RoomFor(fallback, maxOutput).value.Warns().value.remedy;
            match remedy
            case CapAtMost(most, example) =>
              (Quiet(w, fallback, Some(cap)) <==> cap <= most) && 0 < example <= most
            case LargerWindow => Quiet(w, fallback, Some(cap)) ==> cap == 0
  {
    QuietIffTheMinimumFits(w, fallback, Some(cap));
    SuggestionsWork(w, fallback);
  }

  // ------------------------------------------------------------ once per process

  datatype Key = Key(provider: string, model: string, window: nat, maxOutput: Option<nat>)

  datatype Report = Report(key: Key, warning: Warning)

  datatype Asked = Asked(provider: string, model: string, window: Window, fallback: nat, maxOutput: Option<nat>)

  function KeyOf(a: Asked): Key {
    Key(a.provider, a.model, a.window.tokens, a.maxOutput)
  }

  function WarningFor(a: Asked): Option<Warning> {
    var capacity := a.window.RoomFor(a.fallback, a.maxOutput);
    if capacity == None then None else capacity.value.Warns()
  }

  /** What was reported so far, and which keys were. */
  datatype Reports = Reports(seen: set<Key>, told: seq<Report>)

  function AskedOnce(r: Reports, a: Asked): Reports {
    var warning := WarningFor(a);
    if warning == None || KeyOf(a) in r.seen then r
    else Reports(r.seen + {KeyOf(a)}, r.told + [Report(KeyOf(a), warning.value)])
  }

  function AskedAll(r: Reports, asks: seq<Asked>): Reports {
    if asks == [] then r else AskedOnce(AskedAll(r, asks[..|asks| - 1]), asks[|asks| - 1])
  }

  class CapacityWarnings {
    var seen: set<Key>
    ghost var told: seq<Report>

    ghost function State(): Reports
      reads this
    {
      Reports(seen, told)
    }

    constructor ()
      ensures State() == Reports({}, [])
    {
      seen, told := {}, [];
    }

    method WarnOnce(a: Asked) returns (warning: Option<Warning>)
      modifies this
      ensures State() == AskedOnce(old(State()), a)
      ensures warning == if KeyOf(a) in old(seen) then None else WarningFor(a)
    {
      warning := WarningFor(a);
      if warning == None {
        return;
      }
      if KeyOf(a) in seen {
        return None;
      }
      seen := seen + {KeyOf(a)};
      told := told + [Report(KeyOf(a), warning.value)];
    }
  }

  function TimesTold(told: seq<Report>, key: Key): nat {
    if told == [] then 0 else TimesTold(told[..|told| - 1], key) + if told[|told| - 1].key == key then 1 else 0
  }

  predicate Warned(asks: seq<Asked>, key: Key) {
    exists i :: 0 <= i < |asks| && KeyOf(asks[i]) == key && WarningFor(asks[i]).Some?
  }

  lemma WarnedSnoc(asks: seq<Asked>, a: Asked, key: Key)
    ensures Warned(asks + [a], key) <==> Warned(asks, key) || (KeyOf(a) == key && WarningFor(a).Some?)
  {
    var all := asks + [a];
    assert all[|asks|] == a && forall i :: 0 <= i < |asks| ==> all[i] == asks[i];
    if Warned(asks, key) {
      var i :| 0 <= i < |asks| && KeyOf(asks[i]) == key && WarningFor(asks[i]).Some?;
      assert KeyOf(all[i]) == key;
    }
    if KeyOf(a) == key && WarningFor(a).Some? {
      assert KeyOf(all[|asks|]) == key;
    }
  }

  lemma TimesToldSnoc(told: seq<Report>, r: Report, key: Key)
    ensures TimesTold(told + [r], key) == TimesTold(told, key) + if r.key == key then 1 else 0
  {
    assert (told + [r])[..|told|] == told;
  }

  /** Each key that ever warns is reported exactly once, and no other is. */
  lemma {:induction false} EachWarningOnce(asks: seq<Asked>, key: Key)
    ensures var r := AskedAll(Reports({}, []), asks);
            && TimesTold(r.told, key) == (if key in r.seen then 1 else 0)
            && (key in r.seen <==> Warned(asks, key))
  {
    if asks != [] {
      var n := |asks| - 1;
      var before, a := AskedAll(Reports({}, []), asks[..n]), asks[n];
      EachWarningOnce(asks[..n], key);
      assert asks == asks[..n] + [a];
      WarnedSnoc(asks[..n], a, key);
      if WarningFor(a).Some? {
        TimesToldSnoc(before.told, Report(KeyOf(a), WarningFor(a).value), key);
      }
    }
  }
}
