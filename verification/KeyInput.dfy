/**
  The unbracketed-paste heuristic: a timed transducer that decides, key by key, whether
  input is typing, pasted text or a submit, and that stages pasted text until it can be
  handed over.

  `PasteBurst` updates its fields in place; its methods are specified by functions on the
  value `Burst`. The theorems at the end are about whole runs of those functions.
 */
module KeyInput {
  import opened Options

  /** Milliseconds for which a burst stays live after a key it absorbed. */
  const PASTE_BURST_WINDOW: nat := 150

  datatype Modifier = Shift | Control | Alt | Super | Hyper | Meta

  datatype KeyCode = Char(c: char) | Enter | OtherKey

  datatype Key = Key(code: KeyCode, modifiers: set<Modifier>)

  datatype PasteAction = Pass | Absorbed | Flush(text: string) | FlushThenPass(rest: string)

  /** What a plain or shifted key would type: its character, or a newline for Enter. */
  function PasteChar(key: Key): Option<char> {
    if key.modifiers - {Shift} != {} then None
    else match key.code
      case Char(c) => Some(c)
      case Enter => Some('\n')
      case OtherKey => None
  }

  predicate IsNewline(c: char) {
    c == '\n' || c == '\r'
  }

  /** The transducer's state. */
  datatype Burst = Burst(
    buffer: string,
    activeUntil: Option<nat>,
    multilineConfirmed: bool,
    pendingCr: bool,
    bracketedPasteSeen: bool)
  {
    predicate Live(now: nat) {
      activeUntil.Some? && now <= activeUntil.value
    }

    predicate Idle(now: nat) {
      activeUntil.Some? && now > activeUntil.value
    }

    predicate HasPending() {
      buffer != ""
    }
  }

  const FRESH: Burst := Burst("", None, false, false, false)

  /** Whether a text key belongs to the paste: the whole classification in one place. */
  predicate Absorbs(b: Burst, c: char, bufferedAfter: bool, now: nat) {
    if !IsNewline(c) then bufferedAfter || b.Live(now)
    else if b.Live(now) && b.multilineConfirmed then bufferedAfter || b.HasPending()
    else bufferedAfter && (b.HasPending() || b.Live(now))
  }

  function Ended(b: Burst): Burst {
    Burst("", None, false, false, b.bracketedPasteSeen)
  }

  function HandOver(text: string): PasteAction {
    if text == "" then Pass else FlushThenPass(text)
  }

  function Taken(text: string): Option<string> {
    if text == "" then None else Some(text)
  }

  /** What absorbing `c` adds to the staged text: a CR is a LF, the LF of a CRLF is nothing. */
  function Normalized(c: char, afterCr: bool): string {
    if c == '\r' then "\n"
    else if c == '\n' && afterCr then ""
    else [c]
  }

  function Observed(b: Burst, key: Key, bufferedAfter: bool, now: nat): (Burst, PasteAction) {
    var ch := PasteChar(key);
    if b.bracketedPasteSeen || ch == None || !Absorbs(b, ch.value, bufferedAfter, now) then
      (Ended(b), HandOver(b.buffer))
    else
      var c := ch.value;
      var staged := b.buffer + Normalized(c, b.pendingCr);
      var confirmed := IsNewline(c) || (b.Live(now) && b.multilineConfirmed);
      var next := Burst(if bufferedAfter then staged else "",
                        Some(now + PASTE_BURST_WINDOW), confirmed, c == '\r', false);
      (next, if bufferedAfter || staged == "" then Absorbed else Flush(staged))
  }

  class PasteBurst {
    var buffer: string
    var activeUntil: Option<nat>
    var multilineConfirmed: bool
    var pendingCr: bool
    var bracketedPasteSeen: bool

    function State(): Burst
      reads this
    {
      Burst(buffer, activeUntil, multilineConfirmed, pendingCr, bracketedPasteSeen)
    }

    constructor ()
      ensures State() == FRESH
    {
      buffer := "";
      activeUntil := None;
      multilineConfirmed, pendingCr, bracketedPasteSeen := false, false, false;
    }

    predicate HasPending()
      reads this
    {
      buffer != ""
    }

    predicate UnbracketedEnabled()
      reads this
    {
      !bracketedPasteSeen
    }

    /** A real bracketed paste arrived: the heuristic is retired, the staged prefix handed over. */
    method NoteBracketedPaste() returns (text: Option<string>)
      modifies this
      ensures State() == Ended(old(State())).(bracketedPasteSeen := true)
      ensures text == Taken(old(buffer))
    {
      bracketedPasteSeen := true;
      text := FlushPending();
    }

    /** Commit a burst that has gone idle; a live burst is left alone. */
    method FlushIfIdle(now: nat) returns (text: Option<string>)
      modifies this
      ensures State() == if old(State()).Idle(now) then Ended(old(State())) else old(State())
      ensures text == if old(State()).Idle(now) then Taken(old(buffer)) else None
    {
      var idle := activeUntil.Some? && now > activeUntil.value;
      if !idle {
        return None;
      }
      text := EndAndTake();
    }

    method FlushPending() returns (text: Option<string>)
      modifies this
      ensures State() == Ended(old(State()))
      ensures text == Taken(old(buffer))
    {
      text := EndAndTake();
    }

    method TakeText() returns (text: Option<string>)
      modifies this`buffer
      ensures buffer == "" && text == Taken(old(buffer))
    {
      if HasPending() {
        text := Some(buffer);
        buffer := "";
      } else {
        text := None;
      }
    }

    method EndBurst()
      modifies this
      ensures State() == Ended(old(State())).(buffer := old(buffer))
    {
      activeUntil := None;
      multilineConfirmed := false;
      pendingCr := false;
    }

    method EndAndTake() returns (text: Option<string>)
      modifies this
      ensures State() == Ended(old(State()))
      ensures text == Taken(old(buffer))
    {
      EndBurst();
      text := TakeText();
    }

    method Push(c: char)
      modifies this`buffer, this`pendingCr
      ensures buffer == old(buffer) + Normalized(c, old(pendingCr))
      ensures pendingCr == (c == '\r')
    {
      match c {
        case '\r' =>
          buffer := buffer + ['\n'];
          pendingCr := true;
        case _ =>
          if c == '\n' && pendingCr {
            pendingCr := false;
          } else {
            buffer := buffer + [c];
            pendingCr := false;
          }
      }
    }

    method EndWith() returns (action: PasteAction)
      modifies this
      ensures State() == Ended(old(State()))
      ensures action == HandOver(old(buffer))
    {
      var taken := EndAndTake();
      match taken {
        case Some(text) => action := FlushThenPass(text);
        case None => action := Pass;
      }
    }

    /** Classify one key press. */
    method Observe(key: Key, bufferedAfter: bool, now: nat) returns (action: PasteAction)
      modifies this
      ensures (State(), action) == Observed(old(State()), key, bufferedAfter, now)
    {
      if !UnbracketedEnabled() {
        action := EndWith();
        return;
      }
      var pasted := PasteChar(key);
      if pasted == None {
        action := EndWith();
        return;
      }
      var c := pasted.value;
      var live := activeUntil.Some? && now <= activeUntil.value;
      if !live {
        multilineConfirmed := false;
      }
      var inBurst := bufferedAfter || live;
      if c == '\n' || c == '\r' {
        var content;
        if multilineConfirmed {
          content := bufferedAfter || HasPending();
        } else {
          content := bufferedAfter && (HasPending() || live);
        }
        if !content {
          action := EndWith();
          return;
        }
        multilineConfirmed := true;
      }
      if inBurst {
        Push(c);
        activeUntil := Some(now + PASTE_BURST_WINDOW);
        if bufferedAfter {
          action := Absorbed;
        } else {
          var taken := TakeText();
          match taken {
            case Some(text) => action := Flush(text);
            case None => action := Absorbed;
          }
        }
      } else {
        action := EndWith();
      }
    }
  }

  // ---------------------------------------------------------------- runs

  /** Everything that can reach the transducer. */
  datatype Event =
    | KeyPress(key: Key, bufferedAfter: bool, at: nat)
    | IdleCheck(now: nat)
    | OwnerChange
    | Bracketed

  /** What comes out: composer text, one character at a time, and keys passed on. */
  datatype Out = Text(c: char) | Passed(key: Key)

  function Texts(s: string): seq<Out> {
    seq(|s|, i requires 0 <= i < |s| => Text(s[i]))
  }

  function Optional(text: Option<string>): seq<Out> {
    if text.Some? then Texts(text.value) else []
  }

  function Delivered(action: PasteAction, key: Key): seq<Out> {
    match action
    case Pass => [Passed(key)]
    case Absorbed => []
    case Flush(text) => Texts(text)
    case FlushThenPass(text) => Texts(text) + [Passed(key)]
  }

  function Step(b: Burst, e: Event): (Burst, seq<Out>) {
    match e
    case KeyPress(key, bufferedAfter, at) =>
      var (next, action) := Observed(b, key, bufferedAfter, at);
      (next, Delivered(action, key))
    case IdleCheck(now) =>
      if b.Idle(now) then (Ended(b), Optional(Taken(b.buffer))) else (b, [])
    case OwnerChange => (Ended(b), Optional(Taken(b.buffer)))
    case Bracketed => (Ended(b).(bracketedPasteSeen := true), Optional(Taken(b.buffer)))
  }

  function Run(b: Burst, es: seq<Event>): (Burst, seq<Out>)
    decreases |es|
  {
    if es == [] then (b, [])
    else
      var (b1, out) := Step(b, es[0]);
      var (b2, rest) := Run(b1, es[1..]);
      (b2, out + rest)
  }

  /** How an event was judged, read off the transducer's answer. */
  datatype Verdict = Took(c: char) | LetThrough(key: Key) | BurstEnded | NoChange

  function Judge(b: Burst, e: Event): Verdict {
    match e
    case KeyPress(key, bufferedAfter, at) =>
      var action := Observed(b, key, bufferedAfter, at).1;
      if action.Pass? || action.FlushThenPass? || PasteChar(key) == None then LetThrough(key)
      else Took(PasteChar(key).value)
    case IdleCheck(now) => if b.Idle(now) then BurstEnded else NoChange
    case OwnerChange => BurstEnded
    case Bracketed => BurstEnded
  }

  function Verdicts(b: Burst, es: seq<Event>): seq<Verdict>
    decreases |es|
  {
    if es == [] then []
    else [Judge(b, es[0])] + Verdicts(Step(b, es[0]).0, es[1..])
  }

  /**
    The stream the user meant, with no buffering in it: every key let through stands where
    it was typed, every key taken contributes its character, CR and CRLF become one LF.
   */
  function Intended(vs: seq<Verdict>, afterCr: bool): seq<Out> {
    if vs == [] then []
    else match vs[0]
      case Took(c) => Texts(Normalized(c, afterCr)) + Intended(vs[1..], c == '\r')
      case LetThrough(key) => [Passed(key)] + Intended(vs[1..], false)
      case BurstEnded => Intended(vs[1..], false)
      case NoChange => Intended(vs[1..], afterCr)
  }

  lemma TextsConcat(a: string, b: string)
    ensures Texts(a + b) == Texts(a) + Texts(b)
  {
  }

  lemma StepConserves(b: Burst, e: Event, rest: seq<Verdict>)
    ensures var (next, out) := Step(b, e);
            Texts(b.buffer) + Intended([Judge(b, e)] + rest, b.pendingCr)
            == out + Texts(next.buffer) + Intended(rest, next.pendingCr)
  {
    var vs := [Judge(b, e)] + rest;
    assert vs[1..] == rest;
    if e.KeyPress? && vs[0].Took? {
      TextsConcat(b.buffer, Normalized(vs[0].c, b.pendingCr));
    }
  }

  lemma Regroup<T>(out: seq<T>, rest: seq<T>, tail: seq<T>, whole: seq<T>)
    requires rest + tail == whole
    ensures (out + rest) + tail == out + whole
  {
  }

  /**
    Conservation: for every interleaving of keys, idle checks, owner changes and bracketed
    pastes, the delivered stream followed by the staged text is the text staged before
    followed by exactly the intended stream. Nothing is lost, repeated or reordered.
   */
  lemma {:induction false} Conservation(b: Burst, es: seq<Event>)
    ensures var (last, out) := Run(b, es);
            out + Texts(last.buffer) == Texts(b.buffer) + Intended(Verdicts(b, es), b.pendingCr)
    decreases |es|
  {
    if es == [] {
      assert Texts(b.buffer) + [] == Texts(b.buffer);
    } else {
      var (b1, out) := Step(b, es[0]);
      var (last, rest) := Run(b1, es[1..]);
      var vs := Verdicts(b1, es[1..]);
      Conservation(b1, es[1..]);
      StepConserves(b, es[0], vs);
      var whole := Texts(b1.buffer) + Intended(vs, b1.pendingCr);
      Regroup(out, rest, Texts(last.buffer), whole);
      Regroup(out, Texts(b1.buffer), Intended(vs, b1.pendingCr), whole);
    }
  }

  // ---------------------------------------------------------------- invariant

  /** Staged text, a confirmation and a pending CR live only inside a window. */
  predicate Inv(b: Burst) {
    && (b.activeUntil == None ==> b.buffer == "" && !b.multilineConfirmed && !b.pendingCr)
    && (b.bracketedPasteSeen ==> b.activeUntil == None)
  }

  lemma {:induction false} RunKeepsInv(b: Burst, es: seq<Event>)
    requires Inv(b)
    ensures Inv(Run(b, es).0)
    ensures b.bracketedPasteSeen ==> Run(b, es).0 == b
    decreases |es|
  {
    if es != [] {
      RunKeepsInv(Step(b, es[0]).0, es[1..]);
    }
  }

  /** Whatever is staged is delivered whole by the first idle check past the window. */
  lemma {:induction false} StagedTextIsDelivered(es: seq<Event>, now: nat)
    requires forall e | e in es && e.KeyPress? :: e.at + PASTE_BURST_WINDOW < now
    ensures var b := Run(FRESH, es).0;
            var (after, out) := Step(b, IdleCheck(now));
            out == Texts(b.buffer) && after.buffer == "" && after.activeUntil == None
  {
    RunKeepsInv(FRESH, es);
    WindowBound(FRESH, es, now);
  }

  lemma {:induction false} WindowBound(b: Burst, es: seq<Event>, now: nat)
    requires forall e | e in es && e.KeyPress? :: e.at + PASTE_BURST_WINDOW < now
    requires b.activeUntil.Some? ==> b.activeUntil.value < now
    ensures var last := Run(b, es).0; last.activeUntil.Some? ==> last.activeUntil.value < now
    decreases |es|
  {
    if es != [] {
      assert es[0] in es;
      WindowBound(Step(b, es[0]).0, es[1..], now);
    }
  }

  /** After a bracketed paste nothing is ever staged again and every key passes, unchanged. */
  lemma {:induction false} BracketedRetiresTheHeuristic(b: Burst, es: seq<Event>)
    requires Inv(b) && b.bracketedPasteSeen
    ensures Run(b, es) == (b, KeysOf(es))
  {
    if es != [] {
      BracketedRetiresTheHeuristic(b, es[1..]);
    }
  }

  function KeysOf(es: seq<Event>): seq<Out> {
    if es == [] then []
    else (if es[0].KeyPress? then [Passed(es[0].key)] else []) + KeysOf(es[1..])
  }

  /** Typing: keys with nothing queued behind any of them all pass, unchanged and at once. */
  lemma {:induction false} TypingIsNeverAPaste(es: seq<Event>)
    requires forall e | e in es :: e.KeyPress? && !e.bufferedAfter
    ensures Run(FRESH, es) == (FRESH, KeysOf(es))
  {
    if es != [] {
      assert es[0] in es;
      assert Step(FRESH, es[0]) == (FRESH, [Passed(es[0].key)]);
      TypingIsNeverAPaste(es[1..]);
    }
  }

  // ---------------------------------------------------------------- classification

  /** One key as it was read, whether more was queued behind it, and when. */
  datatype Stroke = Stroke(key: Key, bufferedAfter: bool, at: nat) {
    /** A character or Enter, with no modifier but Shift. */
    predicate IsText() {
      key.modifiers <= {Shift} && (key.code.Char? || key.code.Enter?)
    }

    /** What such a key types; a line feed for Enter. */
    function c(): char {
      if key.code.Char? then key.code.c else '\n'
    }
  }

  predicate AllText(ks: seq<Stroke>) {
    forall k :: k in ks ==> k.IsText()
  }

  function Press(k: Stroke): Event {
    KeyPress(k.key, k.bufferedAfter, k.at)
  }

  lemma TextKeysType(k: Stroke)
    ensures PasteChar(k.key) == if k.IsText() then Some(k.c()) else None
  {
  }

  /** Any other key, by its code or by a modifier, passes behind what was staged and ends the burst. */
  lemma CommandKeysPass(b: Burst, k: Stroke)
    requires !k.IsText()
    ensures var (next, out) := Step(b, Press(k));
            && out == Texts(b.buffer) + [Passed(k.key)]
            && next.buffer == "" && next.activeUntil == None && !next.multilineConfirmed && !next.pendingCr
            && next.bracketedPasteSeen == b.bracketedPasteSeen
  {
    TextKeysType(k);
  }

  function Presses(ks: seq<Stroke>): seq<Event> {
    seq(|ks|, i requires 0 <= i < |ks| => Press(ks[i]))
  }

  /** Stroke `i` arrived inside the window of the stroke before it. */
  predicate InWindow(ks: seq<Stroke>, i: nat)
    requires i < |ks|
  {
    i > 0 && ks[i].at <= ks[i - 1].at + PASTE_BURST_WINDOW
  }

  /** A line break came before stroke `i`, with no pause since. */
  ghost predicate ConfirmedBefore(ks: seq<Stroke>, i: nat)
    requires i < |ks|
  {
    exists j :: 0 <= j < i && IsNewline(ks[j].c()) && forall m :: j < m <= i ==> InWindow(ks, m)
  }

  /** Text is staged before stroke `i`: the last stroke had input behind it, and was more than the LF of an
      already delivered CR. */
  predicate StagedBefore(ks: seq<Stroke>, i: nat)
    requires i <= |ks|
  {
    && i > 0
    && ks[i - 1].bufferedAfter
    && !(i > 1 && ks[i - 1].c() == '\n' && ks[i - 2].c() == '\r' && !ks[i - 2].bufferedAfter)
  }

  /** Stroke `i` reads as paste content, judged from the strokes alone. */
  ghost predicate Content(ks: seq<Stroke>, i: nat)
    requires i < |ks|
  {
    if !IsNewline(ks[i].c()) then ks[i].bufferedAfter || InWindow(ks, i)
    else if ConfirmedBefore(ks, i) then ks[i].bufferedAfter || StagedBefore(ks, i)
    else ks[i].bufferedAfter && (StagedBefore(ks, i) || InWindow(ks, i))
  }

  ghost predicate PasteShaped(ks: seq<Stroke>) {
    forall i :: 0 <= i < |ks| ==> Content(ks, i)
  }

  predicate NoneLetThrough(vs: seq<Verdict>) {
    forall v | v in vs :: !v.LetThrough?
  }

  /** The state after every stroke of `ks` was taken, as far as the strokes determine it. */
  ghost predicate AfterTaking(b: Burst, ks: seq<Stroke>) {
    if ks == [] then b == FRESH
    else
      var n := |ks|;
      && !b.bracketedPasteSeen
      && b.activeUntil == Some(ks[n - 1].at + PASTE_BURST_WINDOW)
      && b.pendingCr == (ks[n - 1].c() == '\r')
      && b.HasPending() == StagedBefore(ks, n)
      && (b.multilineConfirmed <==>
            exists j :: 0 <= j < n && IsNewline(ks[j].c()) && forall m :: j < m < n ==> InWindow(ks, m))
  }

  lemma TakeOne(b: Burst, ks: seq<Stroke>, k: Stroke)
    requires AfterTaking(b, ks) && k.IsText()
    ensures Absorbs(b, k.c(), k.bufferedAfter, k.at) <==> Content(ks + [k], |ks|)
    ensures Absorbs(b, k.c(), k.bufferedAfter, k.at) ==> AfterTaking(Step(b, Press(k)).0, ks + [k])
  {
    var all := ks + [k];
    var n := |ks|;
    TextKeysType(k);
    if ks != [] {
      assert InWindow(all, n) <==> b.Live(k.at);
      ConfirmedExtends(ks, k, b);
      assert StagedBefore(all, n) == StagedBefore(ks, n);
    }
    if Absorbs(b, k.c(), k.bufferedAfter, k.at) {
      var next := Step(b, Press(k)).0;
      assert next.HasPending() == StagedBefore(all, n + 1);
      if IsNewline(k.c()) {
        assert IsNewline(all[n].c());
      } else {
        ConfirmedThrough(all, n);
      }
    }
  }

  /** A stroke that is no line break leaves the last break before it where it is. */
  lemma ConfirmedThrough(ks: seq<Stroke>, n: nat)
    requires |ks| == n + 1 && !IsNewline(ks[n].c())
    ensures ConfirmedBefore(ks, n) <==>
              exists j :: 0 <= j < n + 1 && IsNewline(ks[j].c()) && forall m :: j < m < n + 1 ==> InWindow(ks, m)
  {
    if j :| 0 <= j < n && IsNewline(ks[j].c()) && forall m :: j < m <= n ==> InWindow(ks, m) {
      assert forall m :: j < m < n + 1 ==> InWindow(ks, m);
    }
    if j :| 0 <= j < n + 1 && IsNewline(ks[j].c()) && forall m :: j < m < n + 1 ==> InWindow(ks, m) {
      assert j < n && forall m :: j < m <= n ==> InWindow(ks, m);
    }
  }

  lemma ConfirmedExtends(ks: seq<Stroke>, k: Stroke, b: Burst)
    requires ks != [] && AfterTaking(b, ks)
    ensures ConfirmedBefore(ks + [k], |ks|) <==> b.multilineConfirmed && InWindow(ks + [k], |ks|)
  {
    var all := ks + [k];
    var n := |ks|;
    assert forall m :: 0 <= m < n ==> InWindow(all, m) == InWindow(ks, m);
    if b.multilineConfirmed && InWindow(all, n) {
      var j :| 0 <= j < n && IsNewline(ks[j].c()) && forall m :: j < m < n ==> InWindow(ks, m);
      assert IsNewline(all[j].c()) && forall m :: j < m <= n ==> InWindow(all, m);
    }
    if ConfirmedBefore(all, n) {
      var j :| 0 <= j < n && IsNewline(all[j].c()) && forall m :: j < m <= n ==> InWindow(all, m);
      assert IsNewline(ks[j].c()) && forall m :: j < m < n ==> InWindow(ks, m);
    }
  }

  lemma {:induction false} RunSnoc(b: Burst, es: seq<Event>, e: Event)
    ensures Run(b, es + [e]).0 == Step(Run(b, es).0, e).0
    ensures Run(b, es + [e]).1 == Run(b, es).1 + Step(Run(b, es).0, e).1
    decreases |es|
  {
    var last := Step(Run(b, es).0, e);
    if es == [] {
      assert Run(last.0, [e][1..]) == (last.0, []);
      assert last.1 + [] == [] + last.1;
    } else {
      var (b1, out) := Step(b, es[0]);
      assert (es + [e])[1..] == es[1..] + [e];
      RunSnoc(b1, es[1..], e);
      Regroup(out, Run(b1, es[1..]).1, last.1, Run(b1, es[1..] + [e]).1);
    }
  }

  lemma {:induction false} VerdictsSnoc(b: Burst, es: seq<Event>, e: Event)
    ensures Verdicts(b, es + [e]) == Verdicts(b, es) + [Judge(Run(b, es).0, e)]
    decreases |es|
  {
    if es == [] {
      assert [e][1..] == [];
    } else {
      assert (es + [e])[1..] == es[1..] + [e];
      VerdictsSnoc(Step(b, es[0]).0, es[1..], e);
    }
  }

  predicate IsPassed(o: Out) {
    o.Passed?
  }

  /** A key is let through exactly when it comes out. */
  lemma {:induction false} LetThroughComesOut(b: Burst, ks: seq<Stroke>)
    ensures NoneLetThrough(Verdicts(b, Presses(ks))) <==> forall o :: o in Run(b, Presses(ks)).1 ==> !IsPassed(o)
    decreases |ks|
  {
    if ks != [] {
      var es := Presses(ks);
      var (b1, out) := Step(b, es[0]);
      var vs, rest := Verdicts(b1, es[1..]), Run(b1, es[1..]).1;
      assert es[1..] == Presses(ks[1..]);
      LetThroughComesOut(b1, ks[1..]);
      StepPasses(b, ks[0]);
      assert Verdicts(b, es) == [Judge(b, es[0])] + vs && Run(b, es).1 == out + rest;
      assert forall v :: v in Verdicts(b, es) <==> v == Judge(b, es[0]) || v in vs;
      assert forall o :: o in out + rest <==> o in out || o in rest;
    }
  }

  lemma StepPasses(b: Burst, k: Stroke)
    ensures Judge(b, Press(k)).LetThrough? <==> exists o :: o in Step(b, Press(k)).1 && IsPassed(o)
  {
    var out := Step(b, Press(k)).1;
    if Judge(b, Press(k)).LetThrough? {
      assert out[|out| - 1] in out && IsPassed(out[|out| - 1]);
    }
  }

  /**
    Classification, both ways: from a fresh burst a run of characters and Enters, shifted or
    not, passes no key if and only if every stroke reads as paste content, a condition on
    what is typed, queueing and gaps alone.
   */
  lemma {:induction false} TakenWholeIffPasteShaped(ks: seq<Stroke>)
    requires AllText(ks)
    ensures (forall o :: o in Run(FRESH, Presses(ks)).1 ==> !IsPassed(o)) <==> PasteShaped(ks)
  {
    TakenIffPasteShaped(ks);
    LetThroughComesOut(FRESH, ks);
  }

  lemma {:induction false} TakenIffPasteShaped(ks: seq<Stroke>)
    requires AllText(ks)
    ensures NoneLetThrough(Verdicts(FRESH, Presses(ks))) <==> PasteShaped(ks)
    ensures PasteShaped(ks) ==> AfterTaking(Run(FRESH, Presses(ks)).0, ks)
    decreases |ks|
  {
    if ks != [] {
      var n := |ks| - 1;
      var before, k := ks[..n], ks[n];
      assert ks == before + [k];
      assert k in ks && forall j :: j in before ==> j in ks;
      assert Presses(ks) == Presses(before) + [Press(k)];
      TakenIffPasteShaped(before);
      RunSnoc(FRESH, Presses(before), Press(k));
      VerdictsSnoc(FRESH, Presses(before), Press(k));
      ContentOfPrefix(ks, n);
      TextKeysType(k);
      var vs := Verdicts(FRESH, Presses(before));
      var v := Judge(Run(FRESH, Presses(before)).0, Press(k));
      assert v in vs + [v];
      assert forall u | u in vs :: u in vs + [v];
      if PasteShaped(before) {
        TakeOne(Run(FRESH, Presses(before)).0, before, k);
      }
    }
  }

  lemma ContentOfPrefix(ks: seq<Stroke>, n: nat)
    requires n < |ks|
    ensures forall i :: 0 <= i < n ==> (Content(ks, i) <==> Content(ks[..n], i))
  {
    forall i | 0 <= i < n
      ensures Content(ks, i) <==> Content(ks[..n], i)
    {
      assert forall m :: 0 <= m < n ==> InWindow(ks, m) == InWindow(ks[..n], m);
      if ConfirmedBefore(ks, i) {
        var j :| 0 <= j < i && IsNewline(ks[j].c()) && forall m :: j < m <= i ==> InWindow(ks, m);
        assert IsNewline(ks[..n][j].c()) && forall m :: j < m <= i ==> InWindow(ks[..n], m);
      }
      if ConfirmedBefore(ks[..n], i) {
        var j :| 0 <= j < i && IsNewline(ks[..n][j].c()) && forall m :: j < m <= i ==> InWindow(ks[..n], m);
        assert IsNewline(ks[j].c()) && forall m :: j < m <= i ==> InWindow(ks, m);
      }
    }
  }

  /** What the strokes type, character by character. */
  function Typed(ks: seq<Stroke>): string {
    if ks == [] then "" else [ks[0].c()] + Typed(ks[1..])
  }

  /** A text with each CRLF, and each CR on its own, written as one LF. */
  function Clean(t: string): string {
    if t == "" then ""
    else if |t| > 1 && t[0] == '\r' && t[1] == '\n' then ['\n'] + Clean(t[2..])
    else if t[0] == '\r' then ['\n'] + Clean(t[1..])
    else [t[0]] + Clean(t[1..])
  }

  /** The staged text, stroke by stroke, is the clean text. */
  lemma {:induction false} LinesAreClean(ks: seq<Stroke>, afterCr: bool)
    ensures Lines(ks, afterCr)
            == Clean(if afterCr && ks != [] && ks[0].c() == '\n' then Typed(ks[1..]) else Typed(ks))
    decreases |ks|
  {
    if ks != [] {
      var c := ks[0].c();
      LinesAreClean(ks[1..], c == '\r');
      var t, rest := Typed(ks), Typed(ks[1..]);
      assert t == [c] + rest && t[1..] == rest;
      if c == '\r' && ks[1..] != [] && ks[1].c() == '\n' {
        assert rest == ['\n'] + Typed(ks[1..][1..]) && t[2..] == Typed(ks[1..][1..]);
      } else if c == '\r' && ks[1..] != [] {
        assert rest[0] == ks[1].c();
      }
    }
  }

  /** What the transducer stages of the strokes: each adds its character, as `Normalized` has it. */
  function Lines(ks: seq<Stroke>, afterCr: bool): string {
    if ks == [] then ""
    else Normalized(ks[0].c(), afterCr) + Lines(ks[1..], ks[0].c() == '\r')
  }

  lemma {:induction false} IntendedOfTaken(b: Burst, ks: seq<Stroke>, afterCr: bool)
    requires AllText(ks) && NoneLetThrough(Verdicts(b, Presses(ks)))
    ensures Intended(Verdicts(b, Presses(ks)), afterCr) == Texts(Lines(ks, afterCr))
    decreases |ks|
  {
    if ks != [] {
      var es := Presses(ks);
      var b1 := Step(b, es[0]).0;
      var vs := Verdicts(b1, es[1..]);
      assert es[1..] == Presses(ks[1..]);
      assert ks[0] in ks && forall k :: k in ks[1..] ==> k in ks;
      TextKeysType(ks[0]);
      assert Verdicts(b, es) == [Judge(b, es[0])] + vs;
      assert Judge(b, es[0]) in Verdicts(b, es);
      assert forall v | v in vs :: v in Verdicts(b, es);
      IntendedOfTaken(b1, ks[1..], ks[0].c() == '\r');
      TextsConcat(Normalized(ks[0].c(), afterCr), Lines(ks[1..], ks[0].c() == '\r'));
    }
  }

  /**
    A paste that reaches the terminal in chunks: every stroke but the last of a chunk has
    input behind it, the first chunk has at least two strokes and does not start with a line
    break, no chunk ends in one, and no gap is longer than the window.
   */
  predicate ChunkedPaste(ks: seq<Stroke>) {
    && ks != [] && AllText(ks)
    && ks[0].bufferedAfter && !IsNewline(ks[0].c())
    && !ks[|ks| - 1].bufferedAfter
    && (forall i :: 0 <= i < |ks| && !ks[i].bufferedAfter ==> !IsNewline(ks[i].c()))
    && (forall i :: 0 < i < |ks| ==> InWindow(ks, i))
  }

  /** Such a paste passes no key, and comes out as its text with clean line ends, all of it. */
  lemma ChunkedPasteIsOneText(ks: seq<Stroke>)
    requires ChunkedPaste(ks)
    ensures Run(FRESH, Presses(ks)).1 == Texts(Clean(Typed(ks)))
    ensures Run(FRESH, Presses(ks)).0.buffer == ""
  {
    assert forall i :: 0 <= i < |ks| ==> Content(ks, i);
    LinesAreClean(ks, false);
    TakenIffPasteShaped(ks);
    Conservation(FRESH, Presses(ks));
    IntendedOfTaken(FRESH, ks, false);
    var (last, out) := Run(FRESH, Presses(ks));
    assert !last.HasPending();
    assert Texts("") == [];
    assert Run(FRESH, Presses(ks)).1 == out + Texts(last.buffer);
  }

  /**
    A submit is never swallowed: after a paste was delivered, an Enter with no input behind
    it passes, however soon it follows, and ends the burst.
   */
  lemma SubmitAfterPastePasses(ks: seq<Stroke>, at: nat)
    requires ChunkedPaste(ks)
    ensures var enter := Key(Enter, {});
            Run(FRESH, Presses(ks) + [KeyPress(enter, false, at)])
            == (FRESH, Texts(Clean(Typed(ks))) + [Passed(enter)])
  {
    var e := KeyPress(Key(Enter, {}), false, at);
    var b := Run(FRESH, Presses(ks)).0;
    ChunkedPasteIsOneText(ks);
    RunKeepsInv(FRESH, Presses(ks));
    TakenIffPasteShaped(ks);
    RunSnoc(FRESH, Presses(ks), e);
    assert Step(b, e) == (FRESH, [Passed(e.key)]);
  }

  /** Inside its window nothing happens to a burst that no key reaches. */
  lemma NothingIsFlushedWithinTheWindow(b: Burst, now: nat)
    requires b.activeUntil == None || now <= b.activeUntil.value
    ensures Step(b, IdleCheck(now)) == (b, [])
  {
  }

  /** An owner change and a bracketed paste hand over everything staged at once. */
  lemma EndingsHandOver(b: Burst, e: Event)
    requires e.OwnerChange? || e.Bracketed?
    ensures var (next, out) := Step(b, e);
            out == Texts(b.buffer) && next == Burst("", None, false, false, b.bracketedPasteSeen || e.Bracketed?)
  {
  }

  /** Text stays staged only while input is queued: a key with none behind it leaves nothing back. */
  lemma {:induction false} QueueDrainedMeansDelivered(b: Burst, key: Key, at: nat)
    ensures Step(b, KeyPress(key, false, at)).0.buffer == ""
    ensures var out := Step(b, KeyPress(key, false, at)).1; Texts(b.buffer) <= out
  {
    var ch := PasteChar(key);
    if ch.Some? {
      TextsConcat(b.buffer, Normalized(ch.value, b.pendingCr));
    }
  }
}
