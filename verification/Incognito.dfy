/**
  Two snapshots of a directory tree, and the report of their difference. A snapshot lists
  files, except below a directory called `.git`, where it counts them.

  A tree is read as it stands at one moment.
 */
module Incognito {

  type Path = seq<string>

  /** What an entry is: the walk tells files, directories and links apart, and follows no link. */
  datatype Node = File | Directory(listing: Listing) | Unreadable | Symlink | Other

  /** A directory's entries, in whatever order the system returns them. */
  datatype Listing = End | Entry(name: string, node: Node, rest: Listing)

  const GIT: string := ".git"

  // ------------------------------------------------------------ what is there

  function FilesOf(node: Node, at: Path): set<Path> {
    match node
    case File => {at}
    case Directory(listing) => Files(listing, at)
    case _ => {}
  }

  /** Every regular file that can be reached without following links. */
  function Files(listing: Listing, at: Path): set<Path> {
    match listing
    case End => {}
    case Entry(name, node, rest) => FilesOf(node, at + [name]) + Files(rest, at)
  }

  /** No directory holds two entries of one name. */
  predicate Proper(listing: Listing) {
    match listing
    case End => true
    case Entry(name, node, rest) =>
      (node.Directory? ==> Proper(node.listing)) && name !in Names(rest) && Proper(rest)
  }

  function Names(listing: Listing): set<string> {
    match listing
    case End => {}
    case Entry(name, _, rest) => {name} + Names(rest)
  }

  /** Whether a directory on the way from depth `depth` to the file is called `.git`. */
  predicate UnderGit(p: Path, depth: nat) {
    exists k :: depth <= k < |p| - 1 && p[k] == GIT
  }

  // ------------------------------------------------------------ the walk

  function Count(listing: Listing): nat {
    match listing
    case End => 0
    case Entry(_, node, rest) => CountOf(node) + Count(rest)
  }

  function CountOf(node: Node): nat {
    match node
    case File => 1
    case Directory(listing) => Count(listing)
    case _ => 0
  }

  datatype Snapshot = Snapshot(files: set<Path>, gitFiles: nat)

  /** One entry's step of the walk. */
  function EntryWalked(s: Snapshot, name: string, node: Node, at: Path): Snapshot
    decreases node
  {
    match node
    case File => s.(files := s.files + {at + [name]})
    case Directory(below) =>
      if name == GIT then s.(gitFiles := s.gitFiles + Count(below)) else Walked(s, below, at + [name])
    case _ => s
  }

  function Walked(s: Snapshot, listing: Listing, at: Path): Snapshot
    decreases listing
  {
    match listing
    case End => s
    case Entry(name, node, rest) => Walked(EntryWalked(s, name, node, at), rest, at)
  }

  function Taken(root: Listing): Snapshot {
    Walked(Snapshot({}, 0), root, [])
  }

  method CountFiles(listing: Listing) returns (count: nat)
    ensures count == Count(listing)
    decreases listing
  {
    count := 0;
    var left := listing;
    while left.Entry?
      invariant count + Count(left) == Count(listing)
      invariant left == listing || left < listing
      decreases left
    {
      match left.node {
        case Directory(below) =>
          var inside := CountFiles(below);
          count := count + inside;
        case File => count := count + 1;
        case _ =>
      }
      left := left.rest;
    }
  }

  class WorkspaceSnapshot {
    var files: set<Path>
    var gitFiles: nat

    function State(): Snapshot
      reads this
    {
      Snapshot(files, gitFiles)
    }

    /** The snapshot of a whole tree, from nothing. */
    constructor Take(root: Listing)
      ensures State() == Taken(root)
    {
      files, gitFiles := {}, 0;
      new;
      Walk(root, []);
    }

    method Walk(listing: Listing, at: Path)
      modifies this
      ensures State() == Walked(old(State()), listing, at)
      decreases listing
    {
      var left := listing;
      while left.Entry?
        invariant Walked(State(), left, at) == Walked(old(State()), listing, at)
        invariant left == listing || left < listing
        decreases left
      {
        match left.node {
          case File => files := files + {at + [left.name]};
          case Directory(below) =>
            if left.name == GIT {
              var inside := CountFiles(below);
              gitFiles := gitFiles + inside;
            } else {
              Walk(below, at + [left.name]);
            }
          case _ =>
        }
        left := left.rest;
      }
    }
  }

  // ------------------------------------------------------------ each file once

  /** A listing's files stand below it, each under one of its names. */
  lemma {:induction false} FilesStandBelow(listing: Listing, at: Path, p: Path)
    requires p in Files(listing, at)
    ensures |p| > |at| && p[..|at|] == at && p[|at|] in Names(listing)
    decreases listing
  {
    var Entry(name, node, rest) := listing;
    if p in FilesOf(node, at + [name]) {
      FileStandsAt(node, at + [name], p);
      assert (at + [name])[..|at|] == at;
    } else {
      FilesStandBelow(rest, at, p);
    }
  }

  lemma {:induction false} FileStandsAt(node: Node, at: Path, p: Path)
    requires p in FilesOf(node, at)
    ensures |p| >= |at| && p[..|at|] == at
    decreases node
  {
    if node.Directory? {
      FilesStandBelow(node.listing, at, p);
    }
  }

  lemma FilesOfEntry(name: string, node: Node, at: Path, p: Path)
    requires p in FilesOf(node, at + [name])
    ensures |p| > |at| && p[|at|] == name
  {
    FileStandsAt(node, at + [name], p);
    assert p[..|at| + 1][|at|] == name;
  }

  /** Entries of different names share no file. */
  lemma EntriesAreApart(name: string, node: Node, rest: Listing, at: Path)
    requires name !in Names(rest)
    ensures FilesOf(node, at + [name]) !! Files(rest, at)
  {
    forall p | p in FilesOf(node, at + [name])
      ensures p !in Files(rest, at)
    {
      FilesOfEntry(name, node, at, p);
      if p in Files(rest, at) {
        FilesStandBelow(rest, at, p);
      }
    }
  }

  /** Counting counts each file once. */
  lemma {:induction false} CountIsExact(listing: Listing, at: Path)
    requires Proper(listing)
    ensures Count(listing) == |Files(listing, at)|
    decreases listing
  {
    if listing.Entry? {
      var Entry(name, node, rest) := listing;
      CountIsExact(rest, at);
      EntriesAreApart(name, node, rest, at);
      if node.Directory? {
        CountIsExact(node.listing, at + [name]);
      }
    }
  }

  /** The files of `listing` that stand below a `.git` directory of it. */
  function GitFiles(listing: Listing, at: Path): set<Path> {
    set p | p in Files(listing, at) && UnderGit(p, |at|)
  }

  function PlainFiles(listing: Listing, at: Path): set<Path> {
    Files(listing, at) - GitFiles(listing, at)
  }

  /** An entry's own share of the files below `.git`. */
  function GitShare(name: string, node: Node, at: Path): set<Path> {
    match node
    case Directory(below) => if name == GIT then Files(below, at + [name]) else GitFiles(below, at + [name])
    case _ => {}
  }

  lemma UnderGitFromEntry(name: string, below: Listing, at: Path, p: Path)
    requires p in Files(below, at + [name])
    ensures UnderGit(p, |at|) <==> name == GIT || UnderGit(p, |at| + 1)
  {
    FilesStandBelow(below, at + [name], p);
    assert p[|at|] == (at + [name])[|at|];
    if name == GIT {
      assert |at| <= |at| < |p| - 1 && p[|at|] == GIT;
    }
    if UnderGit(p, |at|) && name != GIT {
      var k :| |at| <= k < |p| - 1 && p[k] == GIT;
      assert k != |at|;
    }
  }

  lemma GitShareIsExact(name: string, node: Node, rest: Listing, at: Path)
    requires name !in Names(rest)
    ensures GitFiles(Entry(name, node, rest), at) == GitShare(name, node, at) + GitFiles(rest, at)
    ensures GitShare(name, node, at) !! GitFiles(rest, at)
  {
    EntriesAreApart(name, node, rest, at);
    forall p
      ensures p in GitFiles(Entry(name, node, rest), at) <==> p in GitShare(name, node, at) + GitFiles(rest, at)
    {
      if p in FilesOf(node, at + [name]) && node.Directory? {
        UnderGitFromEntry(name, node.listing, at, p);
      }
    }
  }

  lemma SharesAddUp(name: string, node: Node, rest: Listing, at: Path)
    requires name !in Names(rest)
    ensures var listing, share := Entry(name, node, rest), GitShare(name, node, at);
            && PlainFiles(listing, at) == (FilesOf(node, at + [name]) - share) + PlainFiles(rest, at)
            && |GitFiles(listing, at)| == |share| + |GitFiles(rest, at)|
  {
    GitShareIsExact(name, node, rest, at);
    EntriesAreApart(name, node, rest, at);
    var share, here := GitShare(name, node, at), FilesOf(node, at + [name]);
    assert share <= here by {
      if node.Directory? && name != GIT {
        assert GitFiles(node.listing, at + [name]) <= Files(node.listing, at + [name]);
      }
    }
    assert GitFiles(rest, at) <= Files(rest, at);
  }

  /** A walk adds each file below it once: to the list, or to the count if a `.git` directory holds it. */
  lemma {:induction false} WalkIsExact(s: Snapshot, listing: Listing, at: Path)
    requires Proper(listing)
    ensures Walked(s, listing, at)
            == Snapshot(s.files + PlainFiles(listing, at), s.gitFiles + |GitFiles(listing, at)|)
    decreases listing
  {
    if listing.End? {
      assert GitFiles(listing, at) == {} && s.files + PlainFiles(listing, at) == s.files;
    } else {
      var Entry(name, node, rest) := listing;
      var share, here := GitShare(name, node, at), FilesOf(node, at + [name]);
      EntryIsExact(s, name, node, at);
      WalkIsExact(EntryWalked(s, name, node, at), rest, at);
      SharesAddUp(name, node, rest, at);
      assert s.files + (here - share) + PlainFiles(rest, at) == s.files + ((here - share) + PlainFiles(rest, at));
    }
  }

  lemma {:induction false} EntryIsExact(s: Snapshot, name: string, node: Node, at: Path)
    requires node.Directory? ==> Proper(node.listing)
    ensures var share := GitShare(name, node, at);
            EntryWalked(s, name, node, at)
            == Snapshot(s.files + (FilesOf(node, at + [name]) - share), s.gitFiles + |share|)
    decreases node
  {
    match node
    case File =>
    case Directory(below) =>
      if name == GIT {
        CountIsExact(below, at + [name]);
        assert s.files + {} == s.files;
      } else {
        WalkIsExact(s, below, at + [name]);
      }
    case _ => assert s.files + {} == s.files;
  }

  lemma TakenIsExact(root: Listing)
    requires Proper(root)
    ensures Taken(root) == Snapshot(PlainFiles(root, []), |GitFiles(root, [])|)
  {
    WalkIsExact(Snapshot({}, 0), root, []);
    assert {} + PlainFiles(root, []) == PlainFiles(root, []);
  }

  /** Each regular file of the workspace is listed once or counted once, by where it stands. */
  lemma EveryFileOnce(root: Listing)
    requires Proper(root)
    ensures var s := Taken(root);
            && (forall p :: p in s.files <==> p in Files(root, []) && !UnderGit(p, 0))
            && s.gitFiles == |GitFiles(root, [])|
            && |s.files| + s.gitFiles == |Files(root, [])|
  {
    TakenIsExact(root);
    assert Files(root, []) == PlainFiles(root, []) + GitFiles(root, []);
  }

  // ------------------------------------------------------------ the report

  datatype Report = Report(created: set<Path>, gitNew: nat, outside: seq<string>, commands: seq<string>) {
    predicate IsQuiet() {
      created == {} && gitNew == 0 && outside == [] && commands == []
    }
  }

  function Assemble(before: Snapshot, after: Snapshot, outside: seq<string>, commands: seq<string>): Report {
    Report(after.files - before.files,
           if after.gitFiles < before.gitFiles then 0 else after.gitFiles - before.gitFiles,
           outside, commands)
  }

  lemma Difference<T>(a: set<T>, b: set<T>)
    ensures |a - b| + |a * b| == |a|
  {
    assert (a - b) + (a * b) == a;
  }

  lemma NetGrowth<T>(a: set<T>, b: set<T>)
    ensures |a| - |b| == |a - b| - |b - a|
  {
    Difference(a, b);
    Difference(b, a);
    assert a * b == b * a;
  }

  /** The report lists exactly the created files outside `.git`, and below it the net growth. */
  lemma {:induction false} ReportIsExact(before: Listing, after: Listing, outside: seq<string>, commands: seq<string>)
    requires Proper(before) && Proper(after)
    ensures var r := Assemble(Taken(before), Taken(after), outside, commands);
            var appeared, gone := GitFiles(after, []) - GitFiles(before, []), GitFiles(before, []) - GitFiles(after, []);
            && r.outside == outside && r.commands == commands
            && r.created == PlainFiles(after, []) - PlainFiles(before, [])
            && r.gitNew == if |appeared| < |gone| then 0 else |appeared| - |gone|
  {
    TakenIsExact(before);
    TakenIsExact(after);
    NetGrowth(GitFiles(after, []), GitFiles(before, []));
  }

  /**
    "No files were created" is told exactly when nothing was touched outside, no command was run,
    and nothing appeared but files below `.git` no more than vanished there.
   */
  lemma QuietIsExact(before: Listing, after: Listing, outside: seq<string>, commands: seq<string>)
    requires Proper(before) && Proper(after)
    ensures var appeared, gone := GitFiles(after, []) - GitFiles(before, []), GitFiles(before, []) - GitFiles(after, []);
            Assemble(Taken(before), Taken(after), outside, commands).IsQuiet() <==>
              outside == [] && commands == [] && PlainFiles(after, []) <= PlainFiles(before, []) && |appeared| <= |gone|
  {
    ReportIsExact(before, after, outside, commands);
  }

  /** So a file created below `.git` goes untold when another vanished there. */
  lemma QuietCanHideACreatedFile()
    ensures var before := Entry(GIT, Directory(Entry("a", File, End)), End);
            var after := Entry(GIT, Directory(Entry("b", File, End)), End);
            && Proper(before) && Proper(after)
            && Assemble(Taken(before), Taken(after), [], []).IsQuiet()
            && [GIT, "b"] in Files(after, []) && [GIT, "b"] !in Files(before, [])
  {
    var before := Entry(GIT, Directory(Entry("a", File, End)), End);
    var after := Entry(GIT, Directory(Entry("b", File, End)), End);
    assert Files(Entry("a", File, End), [] + [GIT]) == {[] + [GIT] + ["a"]};
    assert Files(Entry("b", File, End), [] + [GIT]) == {[] + [GIT] + ["b"]};
    assert "a"[0] != "b"[0];
    assert [] + [GIT] + ["a"] == [GIT, "a"] && [] + [GIT] + ["b"] == [GIT, "b"];
    assert [GIT, "a"][1] != [GIT, "b"][1];
  }
}
