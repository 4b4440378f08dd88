/**
 * The scout's bounded breadth-first walk over a directory tree, and the two
 * tools that collect results on it.
 */
module Walk {
  import opened Common

  /** A finite tree. A directory that cannot be listed has `listable` false. */
  datatype Node =
    | File(name: string, path: string)
    | Dir(name: string, path: string, listable: bool, children: seq<Node>)
    | OtherEntry(name: string, path: string)

  const SKIP_DIRECTORIES := {"node_modules", ".git", "dist", "build", ".next", ".turbo", ".checkpoints", ".elided"}

  predicate IsSubDir(n: Node) { n.Dir? && n.name !in SKIP_DIRECTORIES }

  function Entries(d: Node): seq<Node> { if d.Dir? && d.listable then d.children else [] }

  function FilesIn(entries: seq<Node>): seq<string> {
    if entries == [] then [] else (if entries[0].File? then [entries[0].path] else []) + FilesIn(entries[1..])
  }

  function SubDirsIn(entries: seq<Node>): seq<Node> {
    if entries == [] then [] else (if IsSubDir(entries[0]) then [entries[0]] else []) + SubDirsIn(entries[1..])
  }

  function Size(n: Node): (r: nat)
    ensures r >= 1
  {
    if n.Dir? then 1 + SizeOfAll(n.children) else 1
  }

  function SizeOfAll(ns: seq<Node>): nat {
    if ns == [] then 0 else Size(ns[0]) + SizeOfAll(ns[1..])
  }

  lemma EntriesAreSmaller(n: Node)
    ensures SizeOfAll(Entries(n)) < Size(n)
  {
  }

  lemma {:induction false} SizeAppend(a: seq<Node>, b: seq<Node>)
    ensures SizeOfAll(a + b) == SizeOfAll(a) + SizeOfAll(b)
  {
    if a == [] {
      assert a + b == b;
    } else {
      assert (a + b)[1..] == a[1..] + b;
      SizeAppend(a[1..], b);
    }
  }

  lemma {:induction false} SubDirsAreSmaller(entries: seq<Node>)
    ensures SizeOfAll(SubDirsIn(entries)) <= SizeOfAll(entries)
  {
    if entries != [] {
      SubDirsAreSmaller(entries[1..]);
      var rest := SubDirsIn(entries[1..]);
      SizeAppend([entries[0]], rest);
      assert [entries[0]][1..] == [] && [] + rest == rest;
    }
  }

  lemma QueueShrinks(queue: seq<Node>)
    requires queue != []
    ensures SizeOfAll(queue[1..] + SubDirsIn(Entries(queue[0]))) < SizeOfAll(queue)
  {
    SizeAppend(queue[1..], SubDirsIn(Entries(queue[0])));
    SubDirsAreSmaller(Entries(queue[0]));
  }

  /** The files under a queue of directories, in the order in which draining the queue meets them. */
  function Drain(queue: seq<Node>): seq<string>
    decreases SizeOfAll(queue)
  {
    if queue == [] then []
    else
      QueueShrinks(queue);
      FilesIn(Entries(queue[0])) + Drain(queue[1..] + SubDirsIn(Entries(queue[0])))
  }

  // ----- The order is breadth first -----

  function LevelFiles(level: seq<Node>): seq<string> {
    if level == [] then [] else FilesIn(Entries(level[0])) + LevelFiles(level[1..])
  }

  function NextLevel(level: seq<Node>): seq<Node> {
    if level == [] then [] else SubDirsIn(Entries(level[0])) + NextLevel(level[1..])
  }

  lemma {:induction false} NextLevelShrinks(level: seq<Node>)
    ensures SizeOfAll(NextLevel(level)) <= SizeOfAll(level)
    ensures level != [] ==> SizeOfAll(NextLevel(level)) < SizeOfAll(level)
  {
    if level != [] {
      NextLevelShrinks(level[1..]);
      SubDirsAreSmaller(Entries(level[0]));
      SizeAppend(SubDirsIn(Entries(level[0])), NextLevel(level[1..]));
    }
  }

  /** Level by level: all files of the directories of one depth, then those one deeper. */
  function BreadthFirst(level: seq<Node>): seq<string>
    decreases SizeOfAll(level)
  {
    if level == [] then []
    else
      NextLevelShrinks(level);
      LevelFiles(level) + BreadthFirst(NextLevel(level))
  }

  lemma DrainAt(queue: seq<Node>, dir: Node, next: seq<Node>)
    requires queue != [] && queue[0] == dir && queue[1..] + SubDirsIn(Entries(dir)) == next
    ensures Drain(queue) == FilesIn(Entries(dir)) + Drain(next)
  {
  }

  lemma QueueStep(level: seq<Node>, behind: seq<Node>, subs: seq<Node>)
    requires level != []
    ensures (level + behind)[0] == level[0] && (level + behind)[1..] + subs == level[1..] + (behind + subs)
  {
  }

  lemma DrainStep(level: seq<Node>, behind: seq<Node>)
    requires level != []
    ensures Drain(level + behind)
         == FilesIn(Entries(level[0])) + Drain(level[1..] + (behind + SubDirsIn(Entries(level[0]))))
  {
    QueueStep(level, behind, SubDirsIn(Entries(level[0])));
    DrainAt(level + behind, level[0], level[1..] + (behind + SubDirsIn(Entries(level[0]))));
  }

  lemma Regroup3(a: seq<Node>, b: seq<Node>, c: seq<Node>)
    ensures a + b + c == a + (b + c)
  {
  }

  /** Draining a whole level first, with the next one behind it in the queue. */
  lemma {:induction false} DrainLevel(level: seq<Node>, behind: seq<Node>)
    ensures Drain(level + behind) == LevelFiles(level) + Drain(behind + NextLevel(level))
    decreases |level|
  {
    if level == [] {
      assert level + behind == behind && behind + NextLevel(level) == behind;
    } else {
      var subs := SubDirsIn(Entries(level[0]));
      DrainStep(level, behind);
      DrainLevel(level[1..], behind + subs);
      Regroup3(behind, subs, NextLevel(level[1..]));
      Regroup(FilesIn(Entries(level[0])), LevelFiles(level[1..]), Drain(behind + NextLevel(level)));
    }
  }

  lemma Regroup(a: seq<string>, b: seq<string>, c: seq<string>)
    ensures a + (b + c) == (a + b) + c
  {
  }

  lemma {:induction false} DrainIsBreadthFirst(level: seq<Node>)
    ensures Drain(level) == BreadthFirst(level)
    decreases SizeOfAll(level)
  {
    if level != [] {
      DrainLevel(level, []);
      assert level + [] == level && [] + NextLevel(level) == NextLevel(level);
      NextLevelShrinks(level);
      DrainIsBreadthFirst(NextLevel(level));
    }
  }

  // ----- It meets what a recursive listing meets -----

  /** The recursive listing: every file below, entry by entry, directories in place. */
  function Listing(entries: seq<Node>): seq<string>
    decreases SizeOfAll(entries)
  {
    if entries == [] then []
    else
      var first := entries[0];
      EntriesAreSmaller(first);
      (if first.File? then [first.path] else if IsSubDir(first) then Listing(Entries(first)) else []) + Listing(entries[1..])
  }

  function ListingOfAll(dirs: seq<Node>): seq<string> {
    if dirs == [] then [] else Listing(Entries(dirs[0])) + ListingOfAll(dirs[1..])
  }

  lemma {:induction false} ListingOfAllAppend(a: seq<Node>, b: seq<Node>)
    ensures ListingOfAll(a + b) == ListingOfAll(a) + ListingOfAll(b)
  {
    if a == [] {
      assert a + b == b;
    } else {
      assert (a + b)[1..] == a[1..] + b;
      ListingOfAllAppend(a[1..], b);
      Regroup(Listing(Entries(a[0])), ListingOfAll(a[1..]), ListingOfAll(b));
    }
  }

  /** One directory: its own files and everything below its subdirectories. */
  lemma {:induction false} ListingByParts(entries: seq<Node>)
    ensures multiset(Listing(entries)) == multiset(FilesIn(entries)) + multiset(ListingOfAll(SubDirsIn(entries)))
  {
    if entries != [] {
      ListingByParts(entries[1..]);
      var first, subs := entries[0], SubDirsIn(entries[1..]);
      if IsSubDir(first) {
        assert SubDirsIn(entries) == [first] + subs && ([first] + subs)[1..] == subs;
        assert ListingOfAll(SubDirsIn(entries)) == Listing(Entries(first)) + ListingOfAll(subs);
        assert FilesIn(entries) == FilesIn(entries[1..]);
      } else {
        assert SubDirsIn(entries) == subs;
      }
    }
  }

  /** Every file of the recursive listing is met, and as often as it is listed. */
  lemma {:induction false} DrainMeetsListing(queue: seq<Node>)
    ensures multiset(Drain(queue)) == multiset(ListingOfAll(queue))
    decreases SizeOfAll(queue)
  {
    if queue != [] {
      var subs := SubDirsIn(Entries(queue[0]));
      QueueShrinks(queue);
      DrainMeetsListing(queue[1..] + subs);
      ListingOfAllAppend(queue[1..], subs);
      ListingByParts(Entries(queue[0]));
    }
  }

  // ----- The visitor of both tools -----

  function Hits<H>(lines: seq<Option<H>>): seq<H> {
    if lines == [] then [] else (if lines[0].Some? then [lines[0].value] else []) + Hits(lines[1..])
  }

  function AllHits<H>(look: string -> seq<Option<H>>, files: seq<string>): seq<H> {
    if files == [] then [] else AllHits(look, files[..|files| - 1]) + Hits(look(files[|files| - 1]))
  }

  function Take<T>(n: nat, s: seq<T>): seq<T> { if n <= |s| then s[..n] else s }

  /** With `count` results so far, the cap is reached before everything in this file has been looked at. */
  ghost predicate FullBefore<H>(n: nat, count: nat, lines: seq<Option<H>>) {
    count >= n || exists i :: 0 <= i < |lines| && count + |Hits(lines[..i])| >= n
  }

  ghost predicate FullAt<H>(n: nat, look: string -> seq<Option<H>>, files: seq<string>, k: int) {
    0 <= k < |files| && FullBefore(n, |AllHits(look, files[..k])|, look(files[k]))
  }

  /** The cap is reached before everything in these files has been looked at. */
  ghost predicate Overflows<H>(n: nat, look: string -> seq<Option<H>>, files: seq<string>) {
    exists k :: FullAt(n, look, files, k)
  }

  /**
   * `searchFiles` looks at the lines of a file, `findFiles` at its name: either
   * way a file yields a list of things to test, `None` for one that fails.
   */
  class Visitor<H> {
    const maxResults: nat
    const look: string -> seq<Option<H>>
    var results: seq<H>
    var truncated: bool
    ghost var seen: seq<string>

    constructor (maxResults: nat, look: string -> seq<Option<H>>)
      ensures this.maxResults == maxResults && this.look == look
      ensures results == [] && !truncated && seen == []
    {
      this.maxResults, this.look := maxResults, look;
      results, truncated, seen := [], false, [];
    }

    /** What the visitor has collected so far. */
    ghost predicate Valid()
      reads this
    {
      && results == Take(maxResults, AllHits(look, seen))
      && (!truncated ==> results == AllHits(look, seen))
      && (truncated ==> |results| == maxResults)
      && (truncated <==> Overflows(maxResults, look, seen))
    }

    /** The loop over the lines of one file. */
    method AddHits(lines: seq<Option<H>>)
      requires !truncated && |results| <= maxResults
      modifies this`results, this`truncated
      ensures results == Take(maxResults, old(results) + Hits(lines))
      ensures !truncated ==> results == old(results) + Hits(lines)
      ensures truncated ==> |results| == maxResults
      ensures truncated <==> exists i :: 0 <= i < |lines| && |old(results)| + |Hits(lines[..i])| >= maxResults
    {
      ghost var all := results;
      for i := 0 to |lines|
        invariant results == all + Hits(lines[..i]) && |results| <= maxResults && !truncated
        invariant forall j :: 0 <= j < i ==> |all| + |Hits(lines[..j])| < maxResults
      {
        if |results| >= maxResults {
          truncated := true;
          FullHere(maxResults, all, lines, i);
          return;
        }
        HitsNext(lines, i);
        if lines[i].Some? {
          results := results + [lines[i].value];
        }
      }
      assert lines[..|lines|] == lines;
    }

    method Visit(file: string) returns (go: bool)
      requires Valid()
      modifies this
      ensures Valid() && seen == old(seen) + [file]
      ensures go == (|old(results)| < maxResults)
      ensures !go ==> truncated
    {
      ghost var before := seen;
      seen := seen + [file];
      assert seen[..|seen| - 1] == before;
      var lines := look(file);
      ghost var all := AllHits(look, before);
      assert AllHits(look, seen) == all + Hits(lines);
      OverflowsNext(maxResults, look, before, file);
      if |results| >= maxResults {
        truncated := true;
        TakeMore(maxResults, all, Hits(lines));
        return false;
      }
      AddHits(lines);
      go := true;
    }
  }

  /** The cap is reached with lines left: what is there already is all that will be. */
  lemma FullHere<H>(n: nat, all: seq<H>, lines: seq<Option<H>>, i: nat)
    requires i < |lines| && |all + Hits(lines[..i])| == n
    ensures Take(n, all + Hits(lines)) == all + Hits(lines[..i])
  {
    HitsSplit(lines, i);
    Regrouped(all, Hits(lines[..i]), Hits(lines[i..]));
    TakeMore(n, all + Hits(lines[..i]), Hits(lines[i..]));
  }

  lemma OverflowsNext<H>(n: nat, look: string -> seq<Option<H>>, files: seq<string>, file: string)
    ensures Overflows(n, look, files + [file]) <==> Overflows(n, look, files) || FullBefore(n, |AllHits(look, files)|, look(file))
  {
    var all := files + [file];
    assert all[..|files|] == files;
    if k :| FullAt(n, look, all, k) {
      assert k < |files| ==> all[..k] == files[..k] && FullAt(n, look, files, k);
    }
    if k :| FullAt(n, look, files, k) {
      assert all[..k] == files[..k] && FullAt(n, look, all, k);
    }
    assert FullBefore(n, |AllHits(look, files)|, look(file)) ==> FullAt(n, look, all, |files|);
  }

  lemma OverflowsLonger<H>(n: nat, look: string -> seq<Option<H>>, a: seq<string>, b: seq<string>)
    requires a <= b && Overflows(n, look, a)
    ensures Overflows(n, look, b)
  {
    var k :| FullAt(n, look, a, k);
    assert b[..k] == a[..k] && FullAt(n, look, b, k);
  }

  lemma TakeMore<T>(n: nat, a: seq<T>, b: seq<T>)
    ensures |Take(n, a)| >= n ==> Take(n, a + b) == Take(n, a)
  {
  }

  lemma Regrouped<T>(a: seq<T>, b: seq<T>, c: seq<T>)
    ensures a + (b + c) == (a + b) + c
  {
  }

  lemma HitsNext<H>(lines: seq<Option<H>>, i: nat)
    requires i < |lines|
    ensures Hits(lines[..i + 1]) == Hits(lines[..i]) + if lines[i].Some? then [lines[i].value] else []
  {
    assert lines[..i + 1] == lines[..i] + [lines[i]];
    HitsAppend(lines[..i], [lines[i]]);
  }

  lemma {:induction false} HitsAppend<H>(a: seq<Option<H>>, b: seq<Option<H>>)
    ensures Hits(a + b) == Hits(a) + Hits(b)
  {
    if a == [] {
      assert a + b == b;
    } else {
      assert (a + b)[1..] == a[1..] + b;
      HitsAppend(a[1..], b);
      var x := if a[0].Some? then [a[0].value] else [];
      assert x + (Hits(a[1..]) + Hits(b)) == x + Hits(a[1..]) + Hits(b);
    }
  }

  lemma HitsSplit<H>(lines: seq<Option<H>>, i: nat)
    requires i <= |lines|
    ensures Hits(lines) == Hits(lines[..i]) + Hits(lines[i..])
  {
    HitsAppend(lines[..i], lines[i..]);
    assert lines == lines[..i] + lines[i..];
  }

  /** Hits of more files only come after the hits of the first ones. */
  lemma {:induction false} AllHitsPrefix<H>(look: string -> seq<Option<H>>, a: seq<string>, b: seq<string>)
    requires a <= b
    ensures AllHits(look, a) <= AllHits(look, b)
    decreases |b|
  {
    if |a| < |b| {
      AllHitsPrefix(look, a, b[..|b| - 1]);
    } else {
      assert a == b;
    }
  }

  // ----- The walk -----

  lemma EntryNext(entries: seq<Node>, i: nat)
    requires i < |entries|
    ensures SubDirsIn(entries[i..]) == if IsSubDir(entries[i]) then [entries[i]] + SubDirsIn(entries[i + 1..]) else SubDirsIn(entries[i + 1..])
    ensures FilesIn(entries[i..]) == if entries[i].File? then [entries[i].path] + FilesIn(entries[i + 1..]) else FilesIn(entries[i + 1..])
  {
    assert entries[i..][1..] == entries[i + 1..];
  }

  /** The inner loop, over the entries of one directory. */
  method VisitEntries<H>(entries: seq<Node>, rest: seq<Node>, maxFiles: nat, visitedBefore: nat, visitor: Visitor<H>)
    returns (queue: seq<Node>, visited: nat, stop: bool)
    requires visitor.Valid() && visitedBefore == |visitor.seen| <= maxFiles
    modifies visitor
    ensures visitor.Valid() && |visitor.seen| <= maxFiles
    ensures visitor.seen <= old(visitor.seen) + FilesIn(entries)
    ensures !stop ==> queue == rest + SubDirsIn(entries) && visitor.seen == old(visitor.seen) + FilesIn(entries) && visited == |visitor.seen|
    ensures stop ==> visitor.truncated || |visitor.seen| == maxFiles
  {
    queue, visited := rest, visitedBefore;
    for i := 0 to |entries|
      invariant visitor.Valid() && visited == |visitor.seen| <= maxFiles
      invariant queue + SubDirsIn(entries[i..]) == rest + SubDirsIn(entries)
      invariant visitor.seen + FilesIn(entries[i..]) == old(visitor.seen) + FilesIn(entries)
    {
      var entry := entries[i];
      EntryNext(entries, i);
      Regrouped(queue, [entry], SubDirsIn(entries[i + 1..]));
      Regrouped(visitor.seen, [entry.path], FilesIn(entries[i + 1..]));
      if entry.Dir? {
        if entry.name !in SKIP_DIRECTORIES {
          queue := queue + [entry];
        }
        continue;
      }
      if !entry.File? { continue; }
      visited := visited + 1;
      if visited > maxFiles { return queue, visited, true; }
      var go := visitor.Visit(entry.path);
      if !go { return queue, visited, true; }
    }
    stop := false;
  }

  lemma DrainHead(queue: seq<Node>, seen: seq<string>)
    requires queue != []
    ensures var files := FilesIn(Entries(queue[0]));
            seen + Drain(queue) == seen + files + Drain(queue[1..] + SubDirsIn(Entries(queue[0])))
  {
    var next := queue[1..] + SubDirsIn(Entries(queue[0]));
    DrainAt(queue, queue[0], next);
    Regrouped(seen, FilesIn(Entries(queue[0])), Drain(next));
  }

  lemma PrefixKept(p: seq<string>, a: seq<string>, b: seq<string>)
    requires p <= a
    ensures p <= a + b
  {
  }

  /** A prefix no longer than the budget is a prefix of what the budget allows. */
  lemma PrefixTake(seen: seq<string>, all: seq<string>, n: nat)
    requires seen <= all && |seen| <= n
    ensures seen <= Take(n, all)
    ensures seen == all || |seen| == n ==> seen == Take(n, all)
  {
    assert seen == all[..|seen|];
  }

  /**
   * The files visited are a prefix of the drained queue, at most `maxFiles` of
   * them, and all of those unless the visitor had its fill.
   */
  method WalkTree<H>(root: Node, maxFiles: nat, visitor: Visitor<H>)
    requires visitor.Valid() && visitor.seen == []
    modifies visitor
    ensures visitor.Valid()
    ensures visitor.seen <= Take(maxFiles, Drain([root]))
    ensures visitor.truncated || visitor.seen == Take(maxFiles, Drain([root]))
  {
    ghost var all := Drain([root]);
    var queue := [root];
    var visited := 0;
    var stop := false;
    while queue != [] && !stop
      invariant visitor.Valid() && |visitor.seen| <= maxFiles && visitor.seen <= all
      invariant !stop ==> visitor.seen + Drain(queue) == all && visited == |visitor.seen|
      invariant stop ==> visitor.truncated || |visitor.seen| == maxFiles
      decreases if stop then 0 else 1 + SizeOfAll(queue)
    {
      QueueShrinks(queue);
      DrainHead(queue, visitor.seen);
      ghost var next := Drain(queue[1..] + SubDirsIn(Entries(queue[0])));
      ghost var reached := visitor.seen + FilesIn(Entries(queue[0]));
      queue, visited, stop := VisitEntries(Entries(queue[0]), queue[1..], maxFiles, visited, visitor);
      PrefixKept(visitor.seen, reached, next);
    }
    PrefixTake(visitor.seen, all, maxFiles);
  }

  /** What the visitor holds at the end, in terms of the files it was to see. */
  lemma Collected<H>(visitor: Visitor<H>, files: seq<string>)
    requires visitor.Valid() && visitor.seen <= files && (visitor.truncated || visitor.seen == files)
    ensures visitor.results == Take(visitor.maxResults, AllHits(visitor.look, files))
    ensures !visitor.truncated ==> visitor.results == AllHits(visitor.look, files)
    ensures visitor.truncated <==> Overflows(visitor.maxResults, visitor.look, files)
  {
    AllHitsPrefix(visitor.look, visitor.seen, files);
    if visitor.truncated {
      OverflowsLonger(visitor.maxResults, visitor.look, visitor.seen, files);
    }
  }

  /**
   * Both tools: the results are the first `maxResults` hits in the first
   * `maxFiles` files in breadth-first order, and `truncated` tells exactly whether
   * the cap was reached before everything in those files had been looked at.
   */
  method Collect<H>(root: Node, maxFiles: nat, maxResults: nat, look: string -> seq<Option<H>>)
    returns (results: seq<H>, truncated: bool)
    ensures results == Take(maxResults, AllHits(look, Take(maxFiles, BreadthFirst([root]))))
    ensures |results| <= maxResults
    ensures !truncated ==> results == AllHits(look, Take(maxFiles, BreadthFirst([root])))
    ensures truncated <==> Overflows(maxResults, look, Take(maxFiles, BreadthFirst([root])))
  {
    var visitor := new Visitor(maxResults, look);
    WalkTree(root, maxFiles, visitor);
    DrainIsBreadthFirst([root]);
    Collected(visitor, Take(maxFiles, Drain([root])));
    results, truncated := visitor.results, visitor.truncated;
  }

  /** A walk that was neither stopped nor over budget has seen each file of the recursive listing exactly once. */
  lemma CompleteWalk(root: Node, maxFiles: nat)
    requires |BreadthFirst([root])| <= maxFiles
    ensures multiset(Take(maxFiles, BreadthFirst([root]))) == multiset(Listing(Entries(root)))
  {
    DrainIsBreadthFirst([root]);
    DrainMeetsListing([root]);
    ListingOfOne(root);
    PrefixTake(BreadthFirst([root]), BreadthFirst([root]), maxFiles);
  }

  lemma ListingOfOne(root: Node)
    ensures ListingOfAll([root]) == Listing(Entries(root))
  {
    assert [root][1..] == [];
    assert Listing(Entries(root)) + [] == Listing(Entries(root));
  }

  // ----- What can be met -----

  /** The file `path` is this entry, or lies below it through directories that can be listed and are not left out by name. */
  ghost predicate Reaches(entry: Node, path: string) {
    match entry
    case File(_, filePath) => filePath == path
    case OtherEntry(_, _) => false
    case Dir(name, _, listable, children) =>
      && name != "node_modules" && name != ".git" && name != "dist" && name != "build"
      && name != ".next" && name != ".turbo" && name != ".checkpoints" && name != ".elided"
      && listable && exists i :: 0 <= i < |children| && Reaches(children[i], path)
  }

  ghost predicate AnyReaches(entries: seq<Node>, path: string) {
    exists i :: 0 <= i < |entries| && Reaches(entries[i], path)
  }

  lemma AnyReachesNext(entries: seq<Node>, path: string)
    requires entries != []
    ensures AnyReaches(entries, path) <==> Reaches(entries[0], path) || AnyReaches(entries[1..], path)
  {
    if i :| 0 <= i < |entries| && Reaches(entries[i], path) {
      assert i > 0 ==> entries[1..][i - 1] == entries[i];
    }
    if i :| 0 <= i < |entries[1..]| && Reaches(entries[1..][i], path) {
      assert entries[i + 1] == entries[1..][i];
    }
  }

  lemma {:induction false} ListedIffReached(entries: seq<Node>, path: string)
    ensures path in Listing(entries) <==> AnyReaches(entries, path)
    decreases SizeOfAll(entries)
  {
    if entries != [] {
      var first := entries[0];
      EntriesAreSmaller(first);
      AnyReachesNext(entries, path);
      ListedIffReached(entries[1..], path);
      if IsSubDir(first) {
        ListedIffReached(Entries(first), path);
        assert Reaches(first, path) <==> first.listable && AnyReaches(first.children, path);
      }
    }
  }

  /** The walk can meet exactly the files that the root reaches; the root itself is listed whatever its name. */
  lemma MetIffReached(root: Node, path: string)
    ensures path in BreadthFirst([root]) <==> root.Dir? && root.listable && AnyReaches(root.children, path)
  {
    DrainIsBreadthFirst([root]);
    DrainMeetsListing([root]);
    ListingOfOne(root);
    assert path in Drain([root]) <==> path in multiset(Drain([root]));
    assert path in Listing(Entries(root)) <==> path in multiset(Listing(Entries(root)));
    ListedIffReached(Entries(root), path);
  }

  // ----- What is found -----

  lemma {:induction false} HitsAre<H>(lines: seq<Option<H>>, h: H)
    ensures h in Hits(lines) <==> Some(h) in lines
  {
    if lines != [] {
      HitsAre(lines[1..], h);
      assert lines == [lines[0]] + lines[1..];
    }
  }

  /** Files are collected one after the other, and a single file gives its hits. */
  lemma {:induction false} FilesOneByOne<H>(look: string -> seq<Option<H>>, a: seq<string>, b: seq<string>)
    ensures AllHits(look, a + b) == AllHits(look, a) + AllHits(look, b)
    ensures |a| == 1 ==> AllHits(look, a) == Hits(look(a[0]))
    decreases |b|
  {
    if b == [] {
      assert a + b == a;
    } else {
      var n := |b| - 1;
      assert (a + b)[..|a + b| - 1] == a + b[..n];
      FilesOneByOne(look, a, b[..n]);
      Regrouped(AllHits(look, a), AllHits(look, b[..n]), Hits(look(b[n])));
    }
    if |a| == 1 {
      assert a[..0] == [];
    }
  }

  /** A hit is collected exactly when some line of some file is one; files and lines keep their order. */
  lemma {:induction false} EveryHitIsFound<H>(look: string -> seq<Option<H>>, files: seq<string>, h: H)
    ensures h in AllHits(look, files) <==> exists k :: 0 <= k < |files| && Some(h) in look(files[k])
    decreases |files|
  {
    if files != [] {
      var n := |files| - 1;
      EveryHitIsFound(look, files[..n], h);
      HitsAre(look(files[n]), h);
      assert files == files[..n] + [files[n]];
    }
  }
}
