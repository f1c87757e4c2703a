/**
  The closed placeholder vocabulary of an agent's prompt. Rendering, listing and validating
  each scan the text with a loop of their own; all three are shown to see one segmentation,
  which is the only canonical reading of the text.
 */
module Template {
  import opened Options

  const VOCABULARY: seq<string> := ["agent_name", "workspace", "tools"]

  /** What each key is replaced by. */
  datatype Bindings = Bindings(values: map<string, string>) {
    /** Bind one known key; any other key is ignored. */
    function With(key: string, value: string): (b: Bindings)
      ensures Closed() ==> b.Closed()
      ensures forall other :: other != key || other !in VOCABULARY ==> b.Get(other) == Get(other)
      ensures key in VOCABULARY ==> b.Get(key) == Some(value)
    {
      if key in VOCABULARY then Bindings(values[key := value]) else this
    }

    function Get(key: string): Option<string> {
      if key in values then Some(values[key]) else None
    }

    predicate Closed() {
      forall key :: key in values ==> key in VOCABULARY
    }
  }

  datatype Checked = Valid | UnknownPlaceholder(key: string)

  // ------------------------------------------------------------ text

  predicate IsPair(s: string, i: nat, brace: char) {
    i + 1 < |s| && s[i] == brace && s[i + 1] == brace
  }

  /** Where the first two adjacent `brace` characters start. */
  function Find(s: string, brace: char): (at: Option<nat>)
    ensures at.Some? ==> IsPair(s, at.value, brace)
  {
    if |s| < 2 then None
    else if IsPair(s, 0, brace) then Some(0)
    else
      var rest := Find(s[1..], brace);
      if rest == None then None else Some(rest.value + 1)
  }

  /** A text taken apart at the first two adjacent `brace` characters. */
  datatype Parts = Whole | Parts(before: string, after: string)

  function Part(s: string, brace: char): (p: Parts)
    ensures p.Parts? ==> |p.after| < |s|
  {
    var at := Find(s, brace);
    if at == None then Whole else Parts(s[..at.value], s[at.value + 2..])
  }

  /** Unicode white space. */
  predicate IsWhiteSpace(c: char) {
    var n := c as int;
    || 0x9 <= n <= 0xD || n == 0x20 || n == 0x85 || n == 0xA0 || n == 0x1680
    || 0x2000 <= n <= 0x200A || n == 0x2028 || n == 0x2029 || n == 0x202F || n == 0x205F || n == 0x3000
  }

  function TrimStart(s: string): string {
    if s != "" && IsWhiteSpace(s[0]) then TrimStart(s[1..]) else s
  }

  function TrimEnd(s: string): string {
    if s != "" && IsWhiteSpace(s[|s| - 1]) then TrimEnd(s[..|s| - 1]) else s
  }

  /** The text without leading and trailing white space. */
  function Trim(s: string): string {
    TrimEnd(TrimStart(s))
  }

  // ------------------------------------------------------------ segmentation

  /** Text up to a placeholder, that placeholder's raw key, and so on; then the text after the last. */
  datatype Segments = Last(text: string) | Hole(before: string, raw: string, rest: Segments)

  function Segment(text: string): Segments
    decreases |text|
  {
    match Part(text, '{')
    case Whole => Last(text)
    case Parts(before, after) =>
      match Part(after, '}')
      case Whole => Last(text)
      case Parts(raw, rest) => Hole(before, raw, Segment(rest))
  }

  function Unparse(s: Segments): string {
    match s
    case Last(text) => text
    case Hole(before, raw, rest) => before + "{{" + raw + "}}" + Unparse(rest)
  }

  function Filled(b: Bindings, raw: string): string {
    var value := b.Get(Trim(raw));
    if value == None then "" else value.value
  }

  function Substituted(s: Segments, b: Bindings): string {
    match s
    case Last(text) => text
    case Hole(before, raw, rest) => before + Filled(b, raw) + Substituted(rest, b)
  }

  function Keys(s: Segments): seq<string> {
    match s
    case Last(_) => []
    case Hole(_, raw, rest) => [Trim(raw)] + Keys(rest)
  }

  // ------------------------------------------------------------ the program's scans

  lemma Append<T>(out: seq<T>, a: seq<T>, b: seq<T>, tail: seq<T>)
    ensures out + (a + b + tail) == out + a + b + tail
  {
  }

  lemma Rejoin<T>(out: seq<T>, s: seq<T>, at: nat)
    requires at <= |s|
    ensures out + s[..at] + s[at..] == out + s
  {
  }

  /** Substitute known placeholders: one pass over the text, values are never scanned again. */
  method Render(text: string, bindings: Bindings) returns (out: string)
    ensures out == Substituted(Segment(text), bindings)
  {
    out := "";
    var rest := text;
    while true
      invariant out + Substituted(Segment(rest), bindings) == Substituted(Segment(text), bindings)
      decreases |rest|
    {
      var start := Find(rest, '{');
      if start == None {
        break;
      }
      ghost var written, whole := out, rest;
      out := out + rest[..start.value];
      var after := rest[start.value + 2..];
      var end := Find(after, '}');
      if end == None {
        Rejoin(written, rest, start.value);
        out := out + rest[start.value..];
        return;
      }
      var raw := after[..end.value];
      var value := bindings.Get(Trim(raw));
      out := out + (if value == None then "" else value.value);
      rest := after[end.value + 2..];
      assert Part(whole, '{') == Parts(whole[..start.value], after) && Part(after, '}') == Parts(raw, rest);
      Append(written, whole[..start.value], Filled(bindings, raw), Substituted(Segment(rest), bindings));
    }
    out := out + rest;
  }

  lemma NextKeys(rest: string, start: nat, end: nat)
    requires Find(rest, '{') == Some(start) && Find(rest[start + 2..], '}') == Some(end)
    ensures var after := rest[start + 2..];
            Keys(Segment(rest)) == [Trim(after[..end])] + Keys(Segment(after[end + 2..]))
  {
    var after := rest[start + 2..];
    assert Part(rest, '{') == Parts(rest[..start], after) && Part(after, '}') == Parts(after[..end], after[end + 2..]);
  }

  lemma NextKey(found: seq<string>, key: string, rest: seq<string>)
    ensures found + ([key] + rest) == found + [key] + rest
  {
  }

  /** Every placeholder key, in order of appearance. */
  method Placeholders(text: string) returns (keys: seq<string>)
    ensures keys == Keys(Segment(text))
  {
    keys := [];
    var rest := text;
    while true
      invariant keys + Keys(Segment(rest)) == Keys(Segment(text))
      decreases |rest|
    {
      var start := Find(rest, '{');
      if start == None {
        NoMoreKeys(rest);
        break;
      }
      var after := rest[start.value + 2..];
      var end := Find(after, '}');
      if end == None {
        assert Part(rest, '{') == Parts(rest[..start.value], after);
        NoMoreKeys(rest);
        break;
      }
      var key := Trim(after[..end.value]);
      NextKeys(rest, start.value, end.value);
      NextKey(keys, key, Keys(Segment(after[end.value + 2..])));
      keys := keys + [key];
      rest := after[end.value + 2..];
    }
  }

  lemma NoMoreKeys(rest: string)
    requires Inert(rest)
    ensures Keys(Segment(rest)) == []
  {
    assert Segment(rest) == Last(rest);
  }

  /** Succeeds exactly when every placeholder is known, and otherwise names the first that is not. */
  method Validate(text: string) returns (checked: Checked)
    ensures checked.Valid? <==> forall key :: key in Keys(Segment(text)) ==> Known(key)
    ensures checked.UnknownPlaceholder? ==> FirstUnknown(Keys(Segment(text)), checked.key)
  {
    var keys := Placeholders(text);
    checked := CheckKeys(keys);
  }

  method CheckKeys(keys: seq<string>) returns (checked: Checked)
    ensures checked.Valid? <==> forall key :: key in keys ==> Known(key)
    ensures checked.UnknownPlaceholder? ==> FirstUnknown(keys, checked.key)
  {
    for i := 0 to |keys|
      invariant forall j :: 0 <= j < i ==> Known(keys[j])
    {
      var key := keys[i];
      if !Known(key) {
        assert key in keys;
        return UnknownPlaceholder(key);
      }
    }
    return Valid;
  }

  predicate Known(key: string) {
    key in VOCABULARY
  }

  /** `key` stands among `keys`, unknown, and everything before it is known. */
  predicate FirstUnknown(keys: seq<string>, key: string) {
    exists i :: 0 <= i < |keys| && keys[i] == key && !Known(key) && forall j :: 0 <= j < i ==> Known(keys[j])
  }

  // ------------------------------------------------------------ what the segmentation is

  /** Braces close a string off: put before a pair, they start no pair of their own. */
  predicate EndsAt(s: string, brace: char) {
    Find(s + [brace, brace], brace) == Some(|s|)
  }

  predicate Inert(text: string) {
    match Part(text, '{')
    case Whole => true
    case Parts(_, after) => Part(after, '}').Whole?
  }

  /** Each placeholder is the first that could be read where it stands, and no complete one is left over. */
  predicate Canonical(s: Segments) {
    match s
    case Last(text) => Inert(text)
    case Hole(before, raw, rest) => EndsAt(before, '{') && EndsAt(raw, '}') && Canonical(rest)
  }

  /** A first pair does not depend on what follows it. */
  lemma {:induction false} FindIsLocal(s: string, tail: string, brace: char)
    requires EndsAt(s, brace)
    ensures Find(s + [brace, brace] + tail, brace) == Some(|s|)
  {
    var short, long := s + [brace, brace], s + [brace, brace] + tail;
    assert IsPair(long, 0, brace) == IsPair(short, 0, brace);
    if s != "" {
      assert short[1..] == s[1..] + [brace, brace];
      assert long[1..] == s[1..] + [brace, brace] + tail;
      FindIsLocal(s[1..], tail, brace);
    }
  }

  /** Putting a text together at a pair and taking it apart again. */
  lemma PartOf(before: string, after: string, brace: char)
    requires EndsAt(before, brace)
    ensures Part(before + [brace, brace] + after, brace) == Parts(before, after)
  {
    FindIsLocal(before, after, brace);
    var s := before + [brace, brace] + after;
    assert s[..|before|] == before && s[|before| + 2..] == after;
  }

  lemma {:induction false} PrefixEnds(s: string, at: nat, brace: char)
    requires Find(s, brace) == Some(at)
    ensures EndsAt(s[..at], brace)
  {
    var short := s[..at] + [brace, brace];
    if at > 0 {
      assert short[1..] == s[1..][..at - 1] + [brace, brace];
      PrefixEnds(s[1..], at - 1, brace);
      assert !IsPair(short, 0, brace);
    }
  }

  /** Taking a text apart at its first pair and putting it together again. */
  lemma PartsRejoin(s: string, brace: char)
    requires Part(s, brace).Parts?
    ensures var p := Part(s, brace);
            EndsAt(p.before, brace) && s == p.before + [brace, brace] + p.after
  {
    var at := Find(s, brace).value;
    PrefixEnds(s, at, brace);
    assert s[at..at + 2] == [brace, brace];
    assert s == s[..at] + s[at..at + 2] + s[at + 2..];
  }

  lemma Bracketing(before: string, raw: string, rest: string)
    ensures before + "{{" + raw + "}}" + rest == before + ['{', '{'] + (raw + ['}', '}'] + rest)
  {
    assert "{{" == ['{', '{'] && "}}" == ['}', '}'];
  }

  /** The segmentation of a text is canonical, and unparses to the text. */
  lemma {:induction false} SegmentIsFaithful(text: string)
    ensures Unparse(Segment(text)) == text
    ensures Canonical(Segment(text))
    decreases |text|
  {
    match Part(text, '{')
    case Whole =>
    case Parts(before, after) =>
      PartsRejoin(text, '{');
      match Part(after, '}')
      case Whole =>
      case Parts(raw, rest) =>
        PartsRejoin(after, '}');
        SegmentIsFaithful(rest);
        Bracketing(before, raw, rest);
  }

  lemma SegmentOfHole(before: string, raw: string, rest: string)
    requires EndsAt(before, '{') && EndsAt(raw, '}')
    ensures Segment(before + "{{" + raw + "}}" + rest) == Hole(before, raw, Segment(rest))
  {
    Bracketing(before, raw, rest);
    PartOf(before, raw + ['}', '}'] + rest, '{');
    PartOf(raw, rest, '}');
  }

  /** It is the only canonical reading: segmenting what a canonical reading unparses to gives it back. */
  lemma {:induction false} CanonicalIsUnique(s: Segments)
    requires Canonical(s)
    ensures Segment(Unparse(s)) == s
  {
    match s
    case Last(_) =>
    case Hole(before, raw, rest) =>
      CanonicalIsUnique(rest);
      SegmentOfHole(before, raw, Unparse(rest));
  }

  // ------------------------------------------------------------ rendering again

  predicate BraceFree(b: Bindings) {
    forall key :: key in b.values ==> '{' !in b.values[key]
  }

  /** No pair of braces in `s`, and none begun at its end. */
  predicate Closed(s: string) {
    Find(s, '{') == None && (s == "" || s[|s| - 1] != '{')
  }

  lemma {:induction false} EndsClosed(s: string)
    requires EndsAt(s, '{')
    ensures Closed(s)
  {
    var t := s + ['{', '{'];
    if s != "" {
      assert t[1..] == s[1..] + ['{', '{'];
      assert !IsPair(t, 0, '{');
      EndsClosed(s[1..]);
    }
  }

  lemma {:induction false} BraceFreeIsClosed(s: string)
    requires '{' !in s
    ensures Closed(s)
  {
    if s != "" {
      assert forall c :: c in s[1..] ==> c in s;
      BraceFreeIsClosed(s[1..]);
    }
  }

  /** Closed text in front moves the first pair, and adds none. */
  lemma {:induction false} PairsAfterPrefix(s: string, rest: string)
    requires Closed(s)
    ensures var at := Find(rest, '{');
            Find(s + rest, '{') == if at == None then None else Some(|s| + at.value)
  {
    if s == "" {
      assert s + rest == rest;
    } else {
      assert (s + rest)[1..] == s[1..] + rest;
      PairsAfterPrefix(s[1..], rest);
      assert !IsPair(s + rest, 0, '{');
    }
  }

  /** The text after the last placeholder. */
  function LastOf(s: Segments): string {
    match s
    case Last(text) => text
    case Hole(_, _, rest) => LastOf(rest)
  }

  /** The placeholders of `s`, then `tail` in place of the text after the last. */
  function Graft(s: Segments, tail: Segments): Segments {
    match s
    case Last(_) => tail
    case Hole(before, raw, rest) => Hole(before, raw, Graft(rest, tail))
  }

  /** Everything rendered before the text after the last placeholder. */
  function HolesOf(s: Segments, b: Bindings): string {
    match s
    case Last(_) => ""
    case Hole(before, raw, rest) => before + Filled(b, raw) + HolesOf(rest, b)
  }

  lemma Associative<T>(a: seq<T>, b: seq<T>, c: seq<T>)
    ensures a + (b + c) == a + b + c
  {
  }

  lemma {:induction false} GraftRenders(s: Segments, tail: Segments, b: Bindings)
    ensures Substituted(Graft(s, tail), b) == HolesOf(s, b) + Substituted(tail, b)
  {
    match s
    case Last(_) =>
    case Hole(before, raw, rest) =>
      GraftRenders(rest, tail, b);
      Associative(before + Filled(b, raw), HolesOf(rest, b), Substituted(tail, b));
  }

  lemma {:induction false} HolesAndLast(s: Segments, b: Bindings)
    ensures Substituted(s, b) == HolesOf(s, b) + LastOf(s)
  {
    match s
    case Last(_) =>
    case Hole(before, raw, rest) =>
      HolesAndLast(rest, b);
      Associative(before + Filled(b, raw), HolesOf(rest, b), LastOf(rest));
  }

  /** Text put after a reading leaves its placeholders alone, and is read together with its last text. */
  lemma {:induction false} SegmentOfMore(s: Segments, more: string)
    requires Canonical(s)
    ensures Segment(Unparse(s) + more) == Graft(s, Segment(LastOf(s) + more))
  {
    match s
    case Last(_) =>
    case Hole(before, raw, rest) =>
      SegmentOfMore(rest, more);
      SegmentOfHole(before, raw, Unparse(rest) + more);
      Associative(before + "{{" + raw + "}}", Unparse(rest), more);
  }

  /** A reading with text put in front of its first. */
  function Prefixed(s: string, segments: Segments): Segments {
    match segments
    case Last(text) => Last(s + text)
    case Hole(before, raw, rest) => Hole(s + before, raw, rest)
  }

  lemma ClosedPrefixParts(s: string, more: string)
    requires Closed(s)
    ensures Part(s + more, '{') == match Part(more, '{')
                                   case Whole => Whole
                                   case Parts(before, after) => Parts(s + before, after)
  {
    PairsAfterPrefix(s, more);
    var at := Find(more, '{');
    if at.Some? {
      assert (s + more)[..|s| + at.value] == s + more[..at.value];
      assert (s + more)[|s| + at.value + 2..] == more[at.value + 2..];
    }
  }

  /** Closed text in front only lengthens the first text of a reading. */
  lemma SegmentOfClosedPrefix(s: string, more: string)
    requires Closed(s)
    ensures Segment(s + more) == Prefixed(s, Segment(more))
  {
    ClosedPrefixParts(s, more);
  }

  /** Closed text in front is rendered as it stands. */
  lemma ClosedPrefixRenders(s: string, more: string, b: Bindings)
    requires Closed(s)
    ensures Rendered(s + more, b) == s + Rendered(more, b)
  {
    SegmentOfClosedPrefix(s, more);
    PrefixedRenders(s, Segment(more), b);
  }

  lemma PrefixedRenders(s: string, segments: Segments, b: Bindings)
    ensures Substituted(Prefixed(s, segments), b) == s + Substituted(segments, b)
  {
    match segments
    case Last(_) =>
    case Hole(before, raw, rest) =>
      Associative(s, before, Filled(b, raw));
      Associative(s, before + Filled(b, raw), Substituted(rest, b));
  }

  /** A text whose last part is closed is rendered on its own, whatever follows it. */
  lemma RendersApart(v: string, more: string, b: Bindings)
    requires Closed(LastOf(Segment(v)))
    ensures Rendered(v + more, b) == Rendered(v, b) + Rendered(more, b)
  {
    var s := Segment(v);
    var last := LastOf(s);
    RenderedMore(v, more, b);
    ClosedPrefixRenders(last, more, b);
    HolesAndLast(s, b);
    Associative(HolesOf(s, b), last, Rendered(more, b));
  }

  /** What follows a text is rendered with its last part. */
  lemma RenderedMore(v: string, more: string, b: Bindings)
    ensures Rendered(v + more, b) == HolesOf(Segment(v), b) + Rendered(LastOf(Segment(v)) + more, b)
  {
    var s := Segment(v);
    SegmentIsFaithful(v);
    SegmentOfMore(s, more);
    GraftRenders(s, Segment(LastOf(s) + more), b);
  }

  function Rendered(text: string, b: Bindings): string {
    Substituted(Segment(text), b)
  }

  /** Rendering the value changes nothing, and no placeholder can begin at its end. */
  predicate SettledValue(v: string, b: Bindings) {
    Rendered(v, b) == v && Closed(LastOf(Segment(v)))
  }

  predicate Settled(b: Bindings) {
    forall key :: key in b.values ==> SettledValue(b.values[key], b)
  }

  ghost predicate Stable(b: Bindings) {
    forall text :: Rendered(Rendered(text, b), b) == Rendered(text, b)
  }

  lemma InertRenders(text: string, b: Bindings)
    requires Inert(text)
    ensures Rendered(text, b) == text
  {
    assert Segment(text) == Last(text);
  }

  lemma {:induction false} RenderedTwice(s: Segments, b: Bindings)
    requires Canonical(s) && Settled(b)
    ensures Rendered(Substituted(s, b), b) == Substituted(s, b)
  {
    match s
    case Last(text) => InertRenders(text, b);
    case Hole(before, raw, rest) =>
      RenderedTwice(rest, b);
      EndsClosed(before);
      var value, tail := Filled(b, raw), Substituted(rest, b);
      assert Closed("") && Rendered("", b) == "";
      assert SettledValue(value, b);
      RendersApart(value, tail, b);
      ClosedPrefixRenders(before, value + tail, b);
      assert before + (value + tail) == before + value + tail;
  }

  lemma HoleRenders(before: string, raw: string, more: string, b: Bindings)
    ensures Substituted(Hole(before, raw, Last(more)), b) == before + Filled(b, raw) + more
  {
  }

  /** A placeholder in front renders to its value. */
  lemma OneHoleThen(key: string, more: string, b: Bindings)
    requires '}' !in key && Trim(key) == key && Inert(more)
    ensures Rendered("{{" + key + "}}" + more, b) == (if key in b.values then b.values[key] else "") + more
  {
    NoPair(key, '}');
    NoPair("", '{');
    SegmentOfHole("", key, more);
    assert "" + "{{" + key + "}}" + more == "{{" + key + "}}" + more;
    assert Segment(more) == Last(more);
    HoleRenders("", key, more, b);
    assert "" + Filled(b, key) == Filled(b, key);
  }

  /** No vocabulary key ends in `x`: a placeholder that does stands for nothing. */
  lemma NothingEndsInX(s: string, b: Bindings)
    requires b.Closed()
    ensures Filled(b, s + "x") == ""
  {
    var raw := s + "x";
    TrimKeepsTheEnd(s, 'x');
    var key := Trim(raw);
    assert key[|key| - 1] == 'x';
    assert VOCABULARY[0][9] == 'e' && VOCABULARY[1][8] == 'e' && VOCABULARY[2][4] == 's';
    assert key !in VOCABULARY;
  }

  lemma {:induction false} TrimKeepsTheEnd(s: string, c: char)
    requires !IsWhiteSpace(c)
    ensures var t := Trim(s + [c]); t != "" && t[|t| - 1] == c
    ensures var t := TrimStart(s + [c]); t != "" && t[|t| - 1] == c
  {
    var text := s + [c];
    if s != "" && IsWhiteSpace(s[0]) {
      assert text[1..] == s[1..] + [c];
      TrimKeepsTheEnd(s[1..], c);
    }
  }

  /** A placeholder whose key ends in `x` renders to nothing. */
  lemma Swallowed(before: string, raw: string, b: Bindings)
    requires b.Closed() && EndsAt(before, '{') && EndsAt(raw + "x", '}')
    ensures Rendered(before + "{{" + (raw + "x") + "}}" + "", b) == before
  {
    SegmentOfHole(before, raw + "x", "");
    NothingEndsInX(raw, b);
    EmptyIsLast();
    HoleRenders(before, raw + "x", "", b);
  }

  lemma OpenPairText(l: string, before: string, after: string)
    requires l == before + ['{', '{'] + after
    ensures before + "{{" + (after + "x") + "}}" + "" == l + "x}}"
  {
    Bracketing(before, after + "x", "");
    assert ['}', '}'] + "" == "}}";
    assert (after + "x") + "}}" == after + "x}}";
  }

  /** A last text that leaves a pair open swallows what follows up to the next closing pair. */
  lemma OpenPairSwallows(l: string, b: Bindings)
    requires b.Closed() && Inert(l) && Find(l, '{').Some?
    ensures |Rendered(l + "x}}", b)| < |l|
  {
    PartsRejoin(l, '{');
    var p := Part(l, '{');
    NoPairAfter(p.after, '}');
    OpenPairText(l, p.before, p.after);
    Swallowed(p.before, p.after, b);
  }

  lemma EmptyIsLast()
    ensures Segment("") == Last("")
  {
  }

  /** Text without a pair, and an `x`, close each other off. */
  lemma {:induction false} NoPairAfter(s: string, brace: char)
    requires Find(s, brace) == None && brace != 'x'
    ensures EndsAt(s + "x", brace)
  {
    var t := s + "x" + [brace, brace];
    if s == "" {
      assert t == ['x', brace, brace] && t[1..] == [brace, brace];
      assert !IsPair(t, 0, brace) && Find(t[1..], brace) == Some(0);
    } else {
      assert t[1..] == s[1..] + "x" + [brace, brace];
      NoPairAfter(s[1..], brace);
      assert !IsPair(t, 0, brace);
    }
  }

  lemma OpenBraceText(front: string)
    ensures front + "{{" + ("" + "x") + "}}" + "" == front + ['{'] + "{x}}"
  {
    assert "{{" == ['{'] + "{" && "{x}}" == "{" + "x" + "}}" && "" + "x" == "x";
  }

  /** A last text that ends in one brace makes a pair with one that follows. */
  lemma OpenBracePairs(l: string, b: Bindings)
    requires b.Closed() && Find(l, '{') == None && l != "" && l[|l| - 1] == '{'
    ensures |Rendered(l + "{x}}", b)| < |l|
  {
    var front := l[..|l| - 1];
    assert l == front + ['{'];
    EndsBeforeBrace(front);
    NoPair("" + "x", '}');
    OpenBraceText(front);
    Swallowed(front, "", b);
  }

  lemma {:induction false} EndsBeforeBrace(front: string)
    requires Find(front + ['{'], '{') == None
    ensures EndsAt(front, '{')
  {
    var l, t := front + ['{'], front + ['{', '{'];
    if front != "" {
      assert l[1..] == front[1..] + ['{'] && t[1..] == front[1..] + ['{', '{'];
      assert !IsPair(l, 0, '{') && !IsPair(t, 0, '{');
      EndsBeforeBrace(front[1..]);
    }
  }

  /** The vocabulary's keys are their own trimmed text. */
  lemma VocabularyIsPlain(key: string)
    requires key in VOCABULARY
    ensures '}' !in key && Trim(key) == key
  {
    assert VOCABULARY == ["agent_name", "workspace", "tools"];
    assert key != "" && !IsWhiteSpace(key[0]) && !IsWhiteSpace(key[|key| - 1]);
  }

  /** What is put after a value to show what it leaves open. */
  function Probe(v: string, b: Bindings): string {
    if Rendered(v, b) != v then "" else if Find(LastOf(Segment(v)), '{').Some? then "x}}" else "{x}}"
  }

  lemma ProbeIsInert(v: string, b: Bindings)
    ensures Inert(Probe(v, b))
  {
    NoBraces("x}}");
    assert "{x}}"[1..] == "x}}" && "{x}}"[1] == 'x';
    assert Find("", '{') == None && Find("{x}}", '{') == None;
  }

  lemma ProbeShows(v: string, b: Bindings)
    requires b.Closed() && !SettledValue(v, b)
    ensures Rendered(v + Probe(v, b), b) != v + Probe(v, b)
  {
    var s := Segment(v);
    var last := LastOf(s);
    SegmentIsFaithful(v);
    CanonicalLast(s);
    if Rendered(v, b) != v {
      assert v + "" == v;
    } else {
      RenderedMore(v, Probe(v, b), b);
      HolesAndLast(s, b);
      if Find(last, '{').Some? {
        OpenPairSwallows(last, b);
      } else {
        OpenBracePairs(last, b);
      }
    }
  }

  /** What a value leaves open shows in some text. */
  lemma UnsettledShows(key: string, b: Bindings) returns (text: string)
    requires b.Closed() && key in b.values && !SettledValue(b.values[key], b)
    ensures Rendered(Rendered(text, b), b) != Rendered(text, b)
  {
    var v := b.values[key];
    VocabularyIsPlain(key);
    ProbeIsInert(v, b);
    text := "{{" + key + "}}" + Probe(v, b);
    OneHoleThen(key, Probe(v, b), b);
    ProbeShows(v, b);
  }

  lemma NoBraces(s: string)
    requires '{' !in s
    ensures Find(s, '{') == None
  {
    BraceFreeIsClosed(s);
  }

  lemma {:induction false} CanonicalLast(s: Segments)
    requires Canonical(s)
    ensures Inert(LastOf(s))
  {
    match s
    case Last(_) =>
    case Hole(_, _, rest) => CanonicalLast(rest);
  }

  /**
    Every text renders to one that rendering leaves alone if and only if every bound value
    does, and ends where no placeholder can begin: no pair open, no brace last.
   */
  lemma RenderingIsStableIff(b: Bindings)
    requires b.Closed()
    ensures Stable(b) <==> Settled(b)
  {
    if Settled(b) {
      forall text
        ensures Rendered(Rendered(text, b), b) == Rendered(text, b)
      {
        SegmentIsFaithful(text);
        RenderedTwice(Segment(text), b);
      }
    } else {
      var key :| key in b.values && !SettledValue(b.values[key], b);
      var text := UnsettledShows(key, b);
      assert !Stable(b);
    }
  }

  /** Values without an opening brace are settled. */
  lemma RenderingIsIdempotent(text: string, b: Bindings)
    requires BraceFree(b)
    ensures Rendered(Rendered(text, b), b) == Rendered(text, b)
  {
    forall key | key in b.values
      ensures SettledValue(b.values[key], b)
    {
      var v := b.values[key];
      BraceFreeIsClosed(v);
      assert Segment(v) == Last(v);
    }
    SegmentIsFaithful(text);
    RenderedTwice(Segment(text), b);
  }

  predicate PlainKey(key: string) {
    key != "" && '}' !in key && !IsWhiteSpace(key[0]) && !IsWhiteSpace(key[|key| - 1])
  }

  /** A value that spells an unbound placeholder is rendered away the second time. */
  lemma BracesInAValueAreNotStable(key: string, inner: string, b: Bindings)
    requires PlainKey(key) && PlainKey(inner)
    requires b.Get(key) == Some("{{" + inner + "}}") && b.Get(inner) == None
    ensures Rendered("{{" + key + "}}", b) == "{{" + inner + "}}"
    ensures Rendered("{{" + inner + "}}", b) == ""
  {
    assert Inert("");
    OneHoleThen(key, "", b);
    OneHoleThen(inner, "", b);
    assert "{{" + key + "}}" + "" == "{{" + key + "}}" && "{{" + inner + "}}" + "" == "{{" + inner + "}}";
  }

  /** Such keys and bindings exist: `tools` bound to a spelled-out `workspace`. */
  lemma ToolsCanSpellWorkspace()
    ensures var b := Bindings(map[]).With("tools", "{{workspace}}");
            && PlainKey("tools") && PlainKey("workspace")
            && b.Get("tools") == Some("{{" + "workspace" + "}}") && b.Get("workspace") == None
  {
    assert VOCABULARY[2] == "tools";
    assert |"tools"| != |"workspace"|;
    assert "{{" + "workspace" + "}}" == "{{workspace}}";
  }

  lemma {:induction false} NoPair(s: string, brace: char)
    requires brace !in s
    ensures EndsAt(s, brace)
  {
    var t := s + [brace, brace];
    if s != "" {
      assert t[1..] == s[1..] + [brace, brace];
      assert forall c :: c in s[1..] ==> c in s;
      NoPair(s[1..], brace);
    }
  }

  // ------------------------------------------------------------ trimming

  predicate AllWhite(s: string) {
    forall i :: 0 <= i < |s| ==> IsWhiteSpace(s[i])
  }

  predicate Trimmed(t: string) {
    t == "" || (!IsWhiteSpace(t[0]) && !IsWhiteSpace(t[|t| - 1]))
  }

  lemma {:induction false} TrimStartSkips(lead: string, s: string)
    requires AllWhite(lead)
    ensures TrimStart(lead + s) == TrimStart(s)
  {
    if lead == "" {
      assert lead + s == s;
    } else {
      assert (lead + s)[1..] == lead[1..] + s;
      TrimStartSkips(lead[1..], s);
    }
  }

  lemma {:induction false} TrimEndSkips(s: string, trail: string)
    requires AllWhite(trail)
    ensures TrimEnd(s + trail) == TrimEnd(s)
  {
    if trail == "" {
      assert s + trail == s;
    } else {
      var n := |trail| - 1;
      assert (s + trail)[..|s + trail| - 1] == s + trail[..n];
      TrimEndSkips(s, trail[..n]);
    }
  }

  /** Trimming takes off exactly the white space around a text: what is left is all that stood between. */
  lemma TrimTakesTheMiddle(lead: string, middle: string, trail: string)
    requires AllWhite(lead) && AllWhite(trail) && Trimmed(middle)
    ensures Trim(lead + middle + trail) == middle
  {
    assert lead + middle + trail == lead + (middle + trail);
    TrimStartSkips(lead, middle + trail);
    if middle == "" {
      assert middle + trail == trail + "";
      TrimStartSkips(trail, "");
    } else {
      TrimEndSkips(middle, trail);
    }
  }

  lemma {:induction false} TrimStartSplits(s: string) returns (lead: string)
    ensures AllWhite(lead) && s == lead + TrimStart(s)
    ensures TrimStart(s) == "" || !IsWhiteSpace(TrimStart(s)[0])
  {
    lead := "";
    if s != "" && IsWhiteSpace(s[0]) {
      var rest := TrimStartSplits(s[1..]);
      lead := [s[0]] + rest;
    }
  }

  lemma {:induction false} TrimEndSplits(s: string) returns (trail: string)
    ensures AllWhite(trail) && s == TrimEnd(s) + trail
    ensures TrimEnd(s) == "" || !IsWhiteSpace(TrimEnd(s)[|TrimEnd(s)| - 1])
  {
    trail := "";
    if s != "" && IsWhiteSpace(s[|s| - 1]) {
      var rest := TrimEndSplits(s[..|s| - 1]);
      trail := rest + [s[|s| - 1]];
    }
  }

  /** Every text has such a middle. */
  lemma EveryTextHasAMiddle(s: string) returns (lead: string, trail: string)
    ensures AllWhite(lead) && AllWhite(trail) && Trimmed(Trim(s))
    ensures s == lead + Trim(s) + trail
  {
    lead := TrimStartSplits(s);
    trail := TrimEndSplits(TrimStart(s));
  }
}
