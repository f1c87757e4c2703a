/**
  Which of several definitions of a name an agent set answers with, and what becomes of the
  rest: the losers are shadowed, and files that do not parse are listed apart.
 */
module Agents {
  import opened Options

  datatype Scope = ProjectLocalPilot | ProjectAgents | GlobalLocalPilot | GlobalAgents

  function Precedence(scope: Scope): nat {
    match scope
    case ProjectLocalPilot => 3
    case ProjectAgents => 2
    case GlobalLocalPilot => 1
    case GlobalAgents => 0
  }

  datatype Definition = Definition(name: string, description: string, prompt: string)

  /** A parsed definition, the scope it was found in and, as `path`, its file's name there. */
  datatype Agent = Agent(definition: Definition, scope: Scope, path: string)

  datatype LoadError = LoadError(path: string, reason: string)

  datatype Parsed = Good(definition: Definition) | Broken(reason: string)

  datatype File = File(path: string, parsed: Parsed)

  /** A scope's directory: absent, or its definition files in the order the file system lists them. */
  datatype Root = Root(scope: Scope, listing: Option<seq<File>>)

  // ------------------------------------------------------------ insertion

  datatype Resolution = Resolution(effective: map<string, Agent>, shadowed: seq<Agent>)

  function Inserted(r: Resolution, candidate: Agent): Resolution {
    var name := candidate.definition.name;
    if name !in r.effective then r.(effective := r.effective[name := candidate])
    else if Precedence(r.effective[name].scope) >= Precedence(candidate.scope) then
      r.(shadowed := r.shadowed + [candidate])
    else
      Resolution(r.effective[name := candidate], r.shadowed + [r.effective[name]])
  }

  function InsertAll(r: Resolution, xs: seq<Agent>): Resolution {
    if xs == [] then r else Inserted(InsertAll(r, xs[..|xs| - 1]), xs[|xs| - 1])
  }

  const EMPTY: Resolution := Resolution(map[], [])

  function Resolved(xs: seq<Agent>): Resolution {
    InsertAll(EMPTY, xs)
  }

  // ------------------------------------------------------------ paths

  predicate PathLess(a: string, b: string) {
    b != "" && (a == "" || a[0] < b[0] || (a[0] == b[0] && PathLess(a[1..], b[1..])))
  }

  lemma {:induction false} PathOrder(a: string, b: string, c: string)
    ensures !(PathLess(a, b) && PathLess(b, a))
    ensures a == b || PathLess(a, b) || PathLess(b, a)
    ensures PathLess(a, b) && PathLess(b, c) ==> PathLess(a, c)
  {
    if a != "" && b != "" {
      PathOrder(a[1..], b[1..], if c == "" then "" else c[1..]);
      assert a == [a[0]] + a[1..] && b == [b[0]] + b[1..];
    }
  }

  function InsertFile(f: File, fs: seq<File>): seq<File> {
    if fs == [] || !PathLess(fs[0].path, f.path) then [f] + fs
    else [fs[0]] + InsertFile(f, fs[1..])
  }

  function SortFiles(fs: seq<File>): seq<File> {
    if fs == [] then [] else InsertFile(fs[0], SortFiles(fs[1..]))
  }

  // ------------------------------------------------------------ resolution

  function Candidate(file: File, scope: Scope): seq<Agent> {
    if file.parsed.Good? then [Agent(file.parsed.definition, scope, file.path)] else []
  }

  function Candidates(fs: seq<File>, scope: Scope): seq<Agent> {
    if fs == [] then [] else Candidate(fs[0], scope) + Candidates(fs[1..], scope)
  }

  function Failure(file: File): seq<LoadError> {
    if file.parsed.Broken? then [LoadError(file.path, file.parsed.reason)] else []
  }

  function FailuresIn(fs: seq<File>): seq<LoadError> {
    if fs == [] then [] else Failure(fs[0]) + FailuresIn(fs[1..])
  }

  function Listed(root: Root): seq<File> {
    if root.listing == None then [] else root.listing.value
  }

  /** Every loadable definition in the order `resolve` inserts it. */
  function Discovered(roots: seq<Root>): seq<Agent> {
    if roots == [] then []
    else Candidates(SortFiles(Listed(roots[0])), roots[0].scope) + Discovered(roots[1..])
  }

  function Failures(roots: seq<Root>): seq<LoadError> {
    if roots == [] then [] else FailuresIn(SortFiles(Listed(roots[0]))) + Failures(roots[1..])
  }

  class AgentSet {
    var effective: map<string, Agent>
    var shadowed: seq<Agent>
    var errors: seq<LoadError>

    function State(): Resolution
      reads this
    {
      Resolution(effective, shadowed)
    }

    constructor ()
      ensures State() == EMPTY && errors == []
    {
      effective, shadowed, errors := map[], [], [];
    }

    method Insert(candidate: Agent)
      modifies this`effective, this`shadowed
      ensures State() == Inserted(old(State()), candidate)
    {
      var name := candidate.definition.name;
      if name in effective {
        var existing := effective[name];
        if Precedence(existing.scope) >= Precedence(candidate.scope) {
          shadowed := shadowed + [candidate];
        } else {
          effective := effective[name := candidate];
          shadowed := shadowed + [existing];
        }
      } else {
        effective := effective[name := candidate];
      }
    }

    /** Load one directory's sorted files: good ones are inserted, broken ones recorded. */
    method Load(paths: seq<File>, scope: Scope)
      modifies this
      ensures State() == InsertAll(old(State()), Candidates(paths, scope))
      ensures errors == old(errors) + FailuresIn(paths)
    {
      ghost var before := State();
      for i := 0 to |paths|
        invariant State() == InsertAll(before, Candidates(paths[..i], scope))
        invariant errors == old(errors) + FailuresIn(paths[..i])
      {
        LoadNext(before, paths, i, scope);
        var file := paths[i];
        match file.parsed {
          case Good(definition) => Insert(Agent(definition, scope, file.path));
          case Broken(reason) => errors := errors + [LoadError(file.path, reason)];
        }
      }
      assert paths[..|paths|] == paths;
    }

    /** All roots in turn, starting empty: the spec is the insertion of `Discovered(roots)`; a root with no listing adds nothing. */
    method Resolve(roots: seq<Root>)
      requires State() == EMPTY && errors == []
      modifies this
      ensures State() == Resolved(Discovered(roots))
      ensures errors == Failures(roots)
    {
      for i := 0 to |roots|
        invariant State() == Resolved(Discovered(roots[..i]))
        invariant errors == Failures(roots[..i])
      {
        ResolveNext(roots, i);
        var root := roots[i];
        if root.listing.Some? {
          var paths := SortFiles(root.listing.value);
          Load(paths, root.scope);
        }
      }
      assert roots[..|roots|] == roots;
    }
  }

  lemma Associative<T>(a: seq<T>, b: seq<T>, c: seq<T>)
    ensures a + (b + c) == a + b + c
  {
  }

  lemma {:induction false} CandidatesConcat(a: seq<File>, b: seq<File>, scope: Scope)
    ensures Candidates(a + b, scope) == Candidates(a, scope) + Candidates(b, scope)
  {
    if a == [] {
      assert a + b == b;
    } else {
      assert (a + b)[1..] == a[1..] + b;
      CandidatesConcat(a[1..], b, scope);
      Associative(Candidate(a[0], scope), Candidates(a[1..], scope), Candidates(b, scope));
    }
  }

  lemma {:induction false} FailuresConcat(a: seq<File>, b: seq<File>)
    ensures FailuresIn(a + b) == FailuresIn(a) + FailuresIn(b)
  {
    if a == [] {
      assert a + b == b;
    } else {
      assert (a + b)[1..] == a[1..] + b;
      FailuresConcat(a[1..], b);
      Associative(Failure(a[0]), FailuresIn(a[1..]), FailuresIn(b));
    }
  }

  lemma {:induction false} DiscoveredConcat(a: seq<Root>, b: seq<Root>)
    ensures Discovered(a + b) == Discovered(a) + Discovered(b)
    ensures Failures(a + b) == Failures(a) + Failures(b)
  {
    if a == [] {
      assert a + b == b;
    } else {
      assert (a + b)[1..] == a[1..] + b;
      DiscoveredConcat(a[1..], b);
      var files := SortFiles(Listed(a[0]));
      Associative(Candidates(files, a[0].scope), Discovered(a[1..]), Discovered(b));
      Associative(FailuresIn(files), Failures(a[1..]), Failures(b));
    }
  }

  lemma {:induction false} InsertAllConcat(r: Resolution, a: seq<Agent>, b: seq<Agent>)
    ensures InsertAll(r, a + b) == InsertAll(InsertAll(r, a), b)
    decreases |b|
  {
    if b == [] {
      assert a + b == a;
    } else {
      var n := |b| - 1;
      assert (a + b)[..|a + b| - 1] == a + b[..n];
      InsertAllConcat(r, a, b[..n]);
    }
  }

  lemma ResolveNext(roots: seq<Root>, i: nat)
    requires i < |roots|
    ensures var files, scope := SortFiles(Listed(roots[i])), roots[i].scope;
            && Resolved(Discovered(roots[..i + 1])) == InsertAll(Resolved(Discovered(roots[..i])), Candidates(files, scope))
            && Failures(roots[..i + 1]) == Failures(roots[..i]) + FailuresIn(files)
            && (roots[i].listing == None ==> Candidates(files, scope) == [] && FailuresIn(files) == [])
  {
    var root := roots[i];
    assert roots[..i + 1] == roots[..i] + [root];
    DiscoveredConcat(roots[..i], [root]);
    assert Discovered([root]) == Candidates(SortFiles(Listed(root)), root.scope);
    assert Failures([root]) == FailuresIn(SortFiles(Listed(root)));
    InsertAllConcat(EMPTY, Discovered(roots[..i]), Discovered([root]));
  }

  lemma LoadNext(r: Resolution, paths: seq<File>, i: nat, scope: Scope)
    requires i < |paths|
    ensures var file, before := paths[i], InsertAll(r, Candidates(paths[..i], scope));
            && InsertAll(r, Candidates(paths[..i + 1], scope))
               == (if file.parsed.Good? then Inserted(before, Agent(file.parsed.definition, scope, file.path)) else before)
            && FailuresIn(paths[..i + 1])
               == FailuresIn(paths[..i]) + if file.parsed.Broken? then [LoadError(file.path, file.parsed.reason)] else []
  {
    assert paths[..i + 1] == paths[..i] + [paths[i]];
    LoadOne(r, paths[..i], paths[i], scope);
  }

  lemma LoadOne(r: Resolution, loaded: seq<File>, file: File, scope: Scope)
    ensures InsertAll(r, Candidates(loaded + [file], scope))
            == var before := InsertAll(r, Candidates(loaded, scope));
               if file.parsed.Good? then Inserted(before, Agent(file.parsed.definition, scope, file.path)) else before
    ensures FailuresIn(loaded + [file])
            == FailuresIn(loaded)
               + if file.parsed.Broken? then [LoadError(file.path, file.parsed.reason)] else []
  {
    CandidatesConcat(loaded, [file], scope);
    FailuresConcat(loaded, [file]);
    assert FailuresIn([file]) == Failure(file);
    assert Candidates([file], scope) == Candidate(file, scope);
    var xs := Candidates(loaded, scope);
    if file.parsed.Good? {
      assert (xs + Candidate(file, scope))[..|xs|] == xs;
    } else {
      assert xs + Candidate(file, scope) == xs;
    }
  }

  // ------------------------------------------------------------ what resolution means

  /** `xs[i]` is the earliest definition of its name among those of the highest precedence. */
  predicate Wins(xs: seq<Agent>, i: nat)
    requires i < |xs|
  {
    && (forall j :: 0 <= j < |xs| && xs[j].definition.name == xs[i].definition.name ==>
          Precedence(xs[j].scope) <= Precedence(xs[i].scope))
    && (forall j :: 0 <= j < i && xs[j].definition.name == xs[i].definition.name ==>
          Precedence(xs[j].scope) < Precedence(xs[i].scope))
  }

  predicate Names(xs: seq<Agent>, name: string) {
    exists i :: 0 <= i < |xs| && xs[i].definition.name == name
  }

  /** What a map of effective agents should hold for `name`. */
  predicate EffectiveFor(xs: seq<Agent>, m: map<string, Agent>, name: string) {
    && (name in m <==> Names(xs, name))
    && (name in m ==> exists i :: 0 <= i < |xs| && xs[i] == m[name] && xs[i].definition.name == name && Wins(xs, i))
  }

  lemma EffectiveSnoc(ys: seq<Agent>, r: Resolution, x: Agent, name: string)
    requires EffectiveFor(ys, r.effective, name)
    ensures EffectiveFor(ys + [x], Inserted(r, x).effective, name)
  {
    var xs, n := ys + [x], |ys|;
    var before, after := r.effective, Inserted(r, x).effective;
    assert xs[n] == x && forall j :: 0 <= j < n ==> xs[j] == ys[j];
    if Names(ys, name) {
      var i :| 0 <= i < |ys| && ys[i] == before[name] && ys[i].definition.name == name && Wins(ys, i);
      assert xs[i].definition.name == name;
      if after[name] == before[name] {
        assert Wins(xs, i);
      } else {
        assert xs[n] == after[name] && Wins(xs, n);
      }
    } else if x.definition.name == name {
      assert xs[n] == after[name] && Wins(xs, n);
    }
  }

  /** After any insertions a name is bound to the winner among its definitions: first by precedence, then by position. */
  lemma {:induction false} EffectiveIsTheEarliestOfHighestPrecedence(xs: seq<Agent>, name: string)
    ensures name in Resolved(xs).effective <==> Names(xs, name)
    ensures name in Resolved(xs).effective ==>
              exists i :: 0 <= i < |xs| && xs[i] == Resolved(xs).effective[name]
                          && xs[i].definition.name == name && Wins(xs, i)
    decreases |xs|
  {
    if xs != [] {
      var n := |xs| - 1;
      EffectiveIsTheEarliestOfHighestPrecedence(xs[..n], name);
      assert xs == xs[..n] + [xs[n]];
      EffectiveSnoc(xs[..n], Resolved(xs[..n]), xs[n], name);
    }
  }

  function Image(m: map<string, Agent>): set<Agent> {
    set name | name in m :: m[name]
  }

  predicate KeyedByName(m: map<string, Agent>) {
    forall name :: name in m ==> m[name].definition.name == name
  }

  lemma ImageUpdate(m: map<string, Agent>, x: Agent)
    requires KeyedByName(m)
    ensures var name := x.definition.name;
            && Image(m[name := x]) == (if name in m then Image(m) - {m[name]} else Image(m)) + {x}
            && x !in (if name in m then Image(m) - {m[name]} else Image(m))
            && (name in m ==> m[name] in Image(m))
  {
    var name := x.definition.name;
    var after := m[name := x];
    var kept := if name in m then Image(m) - {m[name]} else Image(m);
    forall y
      ensures y in Image(after) <==> y in kept + {x}
    {
      if y in kept {
        assert y.definition.name in m && m[y.definition.name] == y;
        assert after[y.definition.name] == y;
      }
      if y in Image(after) && y != x {
        assert y.definition.name in m && m[y.definition.name] == y;
      }
      assert after[name] == x;
    }
  }

  lemma InsertedLosesNothing(r: Resolution, x: Agent)
    requires KeyedByName(r.effective)
    ensures var after := Inserted(r, x);
            && KeyedByName(after.effective)
            && multiset(Image(after.effective)) + multiset(after.shadowed)
               == multiset(Image(r.effective)) + multiset(r.shadowed) + multiset{x}
  {
    ImageUpdate(r.effective, x);
    if x.definition.name in r.effective {
      var displaced := r.effective[x.definition.name];
      var kept := Image(r.effective) - {displaced};
      assert Image(r.effective) == kept + {displaced};
      assert multiset(kept + {displaced}) == multiset(kept) + multiset{displaced};
      assert multiset(kept + {x}) == multiset(kept) + multiset{x};
    } else {
      assert multiset(Image(r.effective) + {x}) == multiset(Image(r.effective)) + multiset{x};
    }
  }

  /** Nothing is lost: effective and shadowed definitions are together exactly those inserted. */
  lemma {:induction false} NothingIsLost(xs: seq<Agent>)
    ensures var r := Resolved(xs);
            && KeyedByName(r.effective)
            && multiset(Image(r.effective)) + multiset(r.shadowed) == multiset(xs)
    decreases |xs|
  {
    if xs != [] {
      var n := |xs| - 1;
      NothingIsLost(xs[..n]);
      assert xs == xs[..n] + [xs[n]];
      InsertedLosesNothing(Resolved(xs[..n]), xs[n]);
    }
  }

  // ------------------------------------------------------------ independence of order

  /** A name's highest precedence is held by one definition only. */
  ghost predicate UniqueTop(xs: seq<Agent>, name: string) {
    forall i, j :: 0 <= i < |xs| && 0 <= j < |xs| && Tops(xs, i, name) && Tops(xs, j, name) ==> xs[i] == xs[j]
  }

  predicate Tops(xs: seq<Agent>, i: nat, name: string)
    requires i < |xs|
  {
    && xs[i].definition.name == name
    && forall j :: 0 <= j < |xs| && xs[j].definition.name == name ==>
         Precedence(xs[j].scope) <= Precedence(xs[i].scope)
  }

  predicate SameEffective(xs: seq<Agent>, ys: seq<Agent>, name: string) {
    var a, b := Resolved(xs).effective, Resolved(ys).effective;
    (name in a <==> name in b) && (name in a ==> a[name] == b[name])
  }

  lemma Members(xs: seq<Agent>, ys: seq<Agent>)
    requires multiset(xs) == multiset(ys)
    ensures forall x :: x in xs <==> x in ys
  {
    assert forall x :: x in xs <==> x in multiset(xs);
    assert forall x :: x in ys <==> x in multiset(ys);
  }

  lemma TopOfPermutation(xs: seq<Agent>, ys: seq<Agent>, name: string)
    requires multiset(xs) == multiset(ys) && UniqueTop(xs, name)
    ensures SameEffective(xs, ys, name)
  {
    Members(xs, ys);
    EffectiveIsTheEarliestOfHighestPrecedence(xs, name);
    EffectiveIsTheEarliestOfHighestPrecedence(ys, name);
    if Names(xs, name) {
      var k :| 0 <= k < |xs| && xs[k].definition.name == name;
      assert xs[k] in ys;
    }
    if Names(ys, name) {
      var j :| 0 <= j < |ys| && ys[j] == Resolved(ys).effective[name] && ys[j].definition.name == name && Wins(ys, j);
      assert ys[j] in xs;
      var m :| 0 <= m < |xs| && xs[m] == ys[j];
      assert Tops(xs, m, name) by {
        forall k | 0 <= k < |xs| && xs[k].definition.name == name
          ensures Precedence(xs[k].scope) <= Precedence(xs[m].scope)
        {
          assert xs[k] in ys;
        }
      }
      var i :| 0 <= i < |xs| && xs[i] == Resolved(xs).effective[name] && xs[i].definition.name == name && Wins(xs, i);
      assert Tops(xs, i, name);
    }
  }

  /** Insertion order matters for a name exactly when its highest precedence is tied. */
  lemma OrderMattersOnlyForTies(xs: seq<Agent>, name: string)
    ensures (forall ys :: multiset(ys) == multiset(xs) ==> SameEffective(xs, ys, name)) <==> UniqueTop(xs, name)
  {
    if UniqueTop(xs, name) {
      forall ys: seq<Agent> | multiset(ys) == multiset(xs)
        ensures SameEffective(xs, ys, name)
      {
        TopOfPermutation(xs, ys, name);
      }
    } else {
      var i, j :| 0 <= i < |xs| && 0 <= j < |xs| && Tops(xs, i, name) && Tops(xs, j, name) && xs[i] != xs[j];
      var a := ToFront(xs, i, name);
      var b := ToFront(xs, j, name);
      assert !(SameEffective(xs, a, name) && SameEffective(xs, b, name));
    }
  }

  /** Moving a definition of highest precedence to the front makes it the effective one. */
  lemma ToFront(xs: seq<Agent>, i: nat, name: string) returns (ys: seq<Agent>)
    requires i < |xs| && Tops(xs, i, name)
    ensures multiset(ys) == multiset(xs)
    ensures name in Resolved(ys).effective && Resolved(ys).effective[name] == xs[i]
  {
    ys := [xs[i]] + (xs[..i] + xs[i + 1..]);
    assert xs == xs[..i] + [xs[i]] + xs[i + 1..];
    Members(xs, ys);
    EffectiveIsTheEarliestOfHighestPrecedence(ys, name);
    assert ys[0].definition.name == name;
    assert Names(ys, name);
    var k :| 0 <= k < |ys| && ys[k] == Resolved(ys).effective[name] && ys[k].definition.name == name && Wins(ys, k);
    assert ys[k] in xs;
  }

  // ------------------------------------------------------------ independence of roots

  /** Every loadable definition in the order the roots and the file system list them. */
  function Raw(roots: seq<Root>): seq<Agent> {
    if roots == [] then [] else Candidates(Listed(roots[0]), roots[0].scope) + Raw(roots[1..])
  }

  /** Each scope at most once, and no two files of a directory with the same name. */
  predicate ProperRoots(roots: seq<Root>) {
    && (forall i, j :: 0 <= i < j < |roots| ==> roots[i].scope != roots[j].scope)
    && (forall i :: 0 <= i < |roots| ==> DistinctPaths(Listed(roots[i])))
  }

  predicate DistinctPaths(fs: seq<File>) {
    forall i, j :: 0 <= i < j < |fs| ==> fs[i].path != fs[j].path
  }

  predicate SortedPaths(fs: seq<File>) {
    forall i, j :: 0 <= i < j < |fs| ==> PathLess(fs[i].path, fs[j].path)
  }

  /** Definitions of one scope stand in path order. */
  predicate SortedWithinScopes(xs: seq<Agent>) {
    forall i, j :: 0 <= i < j < |xs| && xs[i].scope == xs[j].scope ==> PathLess(xs[i].path, xs[j].path)
  }

  lemma {:induction false} InsertFileKeeps(f: File, fs: seq<File>)
    ensures multiset(InsertFile(f, fs)) == multiset(fs) + multiset{f}
    ensures forall g :: g in InsertFile(f, fs) ==> g == f || g in fs
  {
    if fs != [] && PathLess(fs[0].path, f.path) {
      InsertFileKeeps(f, fs[1..]);
      assert fs == [fs[0]] + fs[1..];
    }
  }

  lemma {:induction false} InsertFileSorts(f: File, fs: seq<File>)
    requires SortedPaths(fs) && forall i :: 0 <= i < |fs| ==> fs[i].path != f.path
    ensures SortedPaths(InsertFile(f, fs))
  {
    if fs == [] {
    } else if !PathLess(fs[0].path, f.path) {
      PathOrder(fs[0].path, f.path, "");
      forall j | 0 < j < |fs|
        ensures PathLess(f.path, fs[j].path)
      {
        PathOrder(f.path, fs[0].path, fs[j].path);
      }
    } else {
      InsertFileSorts(f, fs[1..]);
      InsertFileKeeps(f, fs[1..]);
      var rest := InsertFile(f, fs[1..]);
      forall j | 0 <= j < |rest|
        ensures PathLess(fs[0].path, rest[j].path)
      {
        assert rest[j] in rest;
      }
    }
  }

  lemma {:induction false} SortFilesSorts(fs: seq<File>)
    requires DistinctPaths(fs)
    ensures SortedPaths(SortFiles(fs)) && multiset(SortFiles(fs)) == multiset(fs)
  {
    if fs != [] {
      SortFilesSorts(fs[1..]);
      assert fs == [fs[0]] + fs[1..];
      var rest := SortFiles(fs[1..]);
      forall i | 0 <= i < |rest|
        ensures rest[i].path != fs[0].path
      {
        assert rest[i] in multiset(fs[1..]);
      }
      InsertFileSorts(fs[0], rest);
      InsertFileKeeps(fs[0], rest);
    }
  }

  lemma {:induction false} CandidatesOfSorted(fs: seq<File>, scope: Scope)
    ensures forall x :: x in Candidates(fs, scope) ==> x.scope == scope
    ensures forall x :: x in Candidates(fs, scope) ==> exists i :: 0 <= i < |fs| && fs[i].path == x.path
    ensures SortedPaths(fs) ==> SortedWithinScopes(Candidates(fs, scope))
  {
    if fs != [] {
      CandidatesOfSorted(fs[1..], scope);
      var rest := Candidates(fs[1..], scope);
      forall x | x in rest
        ensures exists i :: 0 < i < |fs| && fs[i].path == x.path
      {
        var i :| 0 <= i < |fs[1..]| && fs[1..][i].path == x.path;
        assert fs[i + 1].path == x.path;
      }
      assert forall j :: 0 <= j < |rest| ==> rest[j] in rest;
    }
  }

  lemma RemoveFirst<T>(a: seq<T>, b: seq<T>) returns (front: seq<T>, back: seq<T>)
    requires a != [] && multiset(a) == multiset(b)
    ensures b == front + [a[0]] + back
    ensures multiset(a[1..]) == multiset(front + back)
  {
    assert a[0] in multiset(b);
    var k :| 0 <= k < |b| && b[k] == a[0];
    front, back := b[..k], b[k + 1..];
    assert a == [a[0]] + a[1..];
    assert b == front + [a[0]] + back;
    assert multiset(front + back) == multiset(b) - multiset{a[0]};
    assert multiset(a[1..]) == multiset(a) - multiset{a[0]};
  }

  lemma CandidatesAround(front: seq<File>, file: File, back: seq<File>, scope: Scope)
    ensures multiset(Candidates(front + [file] + back, scope))
            == multiset(Candidates([file], scope)) + multiset(Candidates(front + back, scope))
  {
    CandidatesConcat(front, back, scope);
    CandidatesConcat(front + [file], back, scope);
    CandidatesConcat(front, [file], scope);
  }

  lemma {:induction false} CandidatesMultiset(a: seq<File>, b: seq<File>, scope: Scope)
    requires multiset(a) == multiset(b)
    ensures multiset(Candidates(a, scope)) == multiset(Candidates(b, scope))
    decreases |a|
  {
    if a == [] {
      assert |multiset(b)| == 0;
    } else {
      var front, back := RemoveFirst(a, b);
      CandidatesMultiset(a[1..], front + back, scope);
      CandidatesAround(front, a[0], back, scope);
      CandidatesAround([], a[0], a[1..], scope);
      assert a == [] + [a[0]] + a[1..] && [] + a[1..] == a[1..];
    }
  }

  lemma SortedConcat(xs: seq<Agent>, ys: seq<Agent>, scope: Scope)
    requires SortedWithinScopes(xs) && SortedWithinScopes(ys)
    requires (forall x :: x in xs ==> x.scope == scope) && (forall y :: y in ys ==> y.scope != scope)
    ensures SortedWithinScopes(xs + ys)
  {
    assert forall i :: 0 <= i < |xs| ==> xs[i] in xs;
    assert forall i :: 0 <= i < |ys| ==> ys[i] in ys;
  }

  lemma {:induction false} DiscoveredIsSortedRaw(roots: seq<Root>)
    requires ProperRoots(roots)
    ensures SortedWithinScopes(Discovered(roots))
    ensures multiset(Discovered(roots)) == multiset(Raw(roots))
    ensures forall x :: x in Discovered(roots) ==> exists i :: 0 <= i < |roots| && roots[i].scope == x.scope
  {
    if roots != [] {
      var files := Listed(roots[0]);
      var scope := roots[0].scope;
      SortFilesSorts(files);
      CandidatesOfSorted(SortFiles(files), scope);
      CandidatesMultiset(SortFiles(files), files, scope);
      DiscoveredIsSortedRaw(roots[1..]);
      var first, rest := Candidates(SortFiles(files), scope), Discovered(roots[1..]);
      forall x | x in rest
        ensures exists i :: 0 < i < |roots| && roots[i].scope == x.scope
      {
        var i :| 0 <= i < |roots[1..]| && roots[1..][i].scope == x.scope;
        assert roots[i + 1].scope == x.scope;
      }
      SortedConcat(first, rest, scope);
    }
  }

  lemma PrecedenceIsInjective(a: Scope, b: Scope)
    requires Precedence(a) == Precedence(b)
    ensures a == b
  {
  }

  lemma SortedDetermineEffective(xs: seq<Agent>, ys: seq<Agent>, name: string)
    requires multiset(xs) == multiset(ys) && SortedWithinScopes(xs) && SortedWithinScopes(ys)
    ensures SameEffective(xs, ys, name)
  {
    Members(xs, ys);
    EffectiveIsTheEarliestOfHighestPrecedence(xs, name);
    EffectiveIsTheEarliestOfHighestPrecedence(ys, name);
    if Names(xs, name) {
      var k :| 0 <= k < |xs| && xs[k].definition.name == name;
      assert xs[k] in ys;
    }
    if Names(ys, name) {
      var j :| 0 <= j < |ys| && ys[j] == Resolved(ys).effective[name] && ys[j].definition.name == name && Wins(ys, j);
      assert ys[j] in xs;
      var i :| 0 <= i < |xs| && xs[i] == Resolved(xs).effective[name] && xs[i].definition.name == name && Wins(xs, i);
      WinnersAgree(xs, i, ys, j);
    }
  }

  lemma WinnersAgree(xs: seq<Agent>, i: nat, ys: seq<Agent>, j: nat)
    requires i < |xs| && j < |ys| && xs[i].definition.name == ys[j].definition.name
    requires Wins(xs, i) && Wins(ys, j)
    requires SortedWithinScopes(xs) && SortedWithinScopes(ys) && forall x :: x in xs <==> x in ys
    ensures xs[i] == ys[j]
  {
    assert xs[i] in ys && ys[j] in xs;
    var i' :| 0 <= i' < |ys| && ys[i'] == xs[i];
    var j' :| 0 <= j' < |xs| && xs[j'] == ys[j];
    PrecedenceIsInjective(xs[i].scope, ys[j].scope);
    PathOrder(xs[i].path, ys[j].path, "");
    assert i <= j' && j <= i';
  }

  /**
    The scope alone decides: whatever order proper roots and their files come in, the same agents are effective and
    the same definitions are shadowed.
   */
  lemma {:induction false} OrderOfRootsDoesNotMatter(roots: seq<Root>, others: seq<Root>)
    requires ProperRoots(roots) && ProperRoots(others) && multiset(Raw(roots)) == multiset(Raw(others))
    ensures Resolved(Discovered(roots)).effective == Resolved(Discovered(others)).effective
    ensures multiset(Resolved(Discovered(roots)).shadowed) == multiset(Resolved(Discovered(others)).shadowed)
  {
    DiscoveredIsSortedRaw(roots);
    DiscoveredIsSortedRaw(others);
    SortedDetermineAll(Discovered(roots), Discovered(others));
  }

  lemma SortedDetermineAll(xs: seq<Agent>, ys: seq<Agent>)
    requires multiset(xs) == multiset(ys) && SortedWithinScopes(xs) && SortedWithinScopes(ys)
    ensures Resolved(xs).effective == Resolved(ys).effective
    ensures multiset(Resolved(xs).shadowed) == multiset(Resolved(ys).shadowed)
  {
    forall name
      ensures SameEffective(xs, ys, name)
    {
      SortedDetermineEffective(xs, ys, name);
    }
    var a, b := Resolved(xs), Resolved(ys);
    assert forall name :: name in a.effective ==> SameEffective(xs, ys, name);
    assert forall name :: name in b.effective ==> SameEffective(xs, ys, name);
    assert a.effective == b.effective;
    ShadowedIsTheRest(xs);
    ShadowedIsTheRest(ys);
  }

  lemma ShadowedIsTheRest(xs: seq<Agent>)
    ensures multiset(Resolved(xs).shadowed) == multiset(xs) - multiset(Image(Resolved(xs).effective))
  {
    NothingIsLost(xs);
  }

  // ------------------------------------------------------------ scopes and files, one by one

  predicate DefinedIn(xs: seq<Agent>, name: string, scope: Scope) {
    exists i :: 0 <= i < |xs| && xs[i].definition.name == name && xs[i].scope == scope
  }

  /** A project's definition comes before a global one, and within each this program's own directory before the shared one. */
  lemma ProjectScopesComeFirst(xs: seq<Agent>, name: string)
    requires name in Resolved(xs).effective
    ensures var scope := Resolved(xs).effective[name].scope;
            var mine, shared := DefinedIn(xs, name, ProjectLocalPilot), DefinedIn(xs, name, ProjectAgents);
            && (scope == ProjectLocalPilot <==> mine)
            && (scope == ProjectAgents <==> !mine && shared)
            && (scope == GlobalLocalPilot <==> !mine && !shared && DefinedIn(xs, name, GlobalLocalPilot))
            && (scope == GlobalAgents <==> !mine && !shared && !DefinedIn(xs, name, GlobalLocalPilot))
  {
    EffectiveIsTheEarliestOfHighestPrecedence(xs, name);
  }

  lemma {:induction false} SortFilesKeeps(fs: seq<File>)
    ensures multiset(SortFiles(fs)) == multiset(fs)
  {
    if fs != [] {
      SortFilesKeeps(fs[1..]);
      InsertFileKeeps(fs[0], SortFiles(fs[1..]));
      assert fs == [fs[0]] + fs[1..];
    }
  }

  /** Each file is loaded or recorded as broken, as it parsed: never both, and none is passed over. */
  lemma {:induction false} EachFileLoadsOrFails(fs: seq<File>, scope: Scope, x: Agent, e: LoadError)
    ensures |Candidates(fs, scope)| + |FailuresIn(fs)| == |fs|
    ensures x in Candidates(fs, scope) <==> x.scope == scope && File(x.path, Good(x.definition)) in fs
    ensures e in FailuresIn(fs) <==> File(e.path, Broken(e.reason)) in fs
  {
    if fs != [] {
      EachFileLoadsOrFails(fs[1..], scope, x, e);
      assert fs == [fs[0]] + fs[1..];
    }
  }

  predicate Lists(roots: seq<Root>, scope: Scope, file: File) {
    exists i :: 0 <= i < |roots| && roots[i].scope == scope && file in Listed(roots[i])
  }

  lemma ListsFirst(roots: seq<Root>, scope: Scope, file: File)
    requires roots != []
    ensures Lists(roots, scope, file) <==>
              (roots[0].scope == scope && file in Listed(roots[0])) || Lists(roots[1..], scope, file)
  {
    if Lists(roots[1..], scope, file) {
      var i :| 0 <= i < |roots[1..]| && roots[1..][i].scope == scope && file in Listed(roots[1..][i]);
      assert roots[i + 1].scope == scope && file in Listed(roots[i + 1]);
    }
    if Lists(roots, scope, file) {
      var i :| 0 <= i < |roots| && roots[i].scope == scope && file in Listed(roots[i]);
      if i > 0 {
        assert roots[1..][i - 1] == roots[i];
      }
    }
  }

  /** What resolution loads is exactly what the directories list, each under its own scope. */
  lemma {:induction false} DiscoveredIsWhatIsListed(roots: seq<Root>, x: Agent)
    ensures x in Discovered(roots) <==> Lists(roots, x.scope, File(x.path, Good(x.definition)))
  {
    if roots != [] {
      var files, error := Listed(roots[0]), LoadError("", "");
      ListsFirst(roots, x.scope, File(x.path, Good(x.definition)));
      SortFilesKeeps(files);
      EachFileLoadsOrFails(SortFiles(files), roots[0].scope, x, error);
      DiscoveredIsWhatIsListed(roots[1..], x);
      var file := File(x.path, Good(x.definition));
      assert file in SortFiles(files) <==> file in multiset(SortFiles(files));
    }
  }

  /** And what it records as broken is exactly what they list and does not parse. */
  lemma {:induction false} FailuresAreTheBrokenFiles(roots: seq<Root>, e: LoadError)
    ensures e in Failures(roots) <==> exists scope :: Lists(roots, scope, File(e.path, Broken(e.reason)))
  {
    if roots != [] {
      var files, file, x := Listed(roots[0]), File(e.path, Broken(e.reason)), Agent(Definition("", "", ""), roots[0].scope, "");
      forall scope
        ensures Lists(roots, scope, file) <==> (roots[0].scope == scope && file in files) || Lists(roots[1..], scope, file)
      {
        ListsFirst(roots, scope, file);
      }
      SortFilesKeeps(files);
      EachFileLoadsOrFails(SortFiles(files), roots[0].scope, x, e);
      FailuresAreTheBrokenFiles(roots[1..], e);
      assert file in SortFiles(files) <==> file in multiset(SortFiles(files));
      if file in files {
        assert Lists(roots, roots[0].scope, file);
      }
    }
  }
}
