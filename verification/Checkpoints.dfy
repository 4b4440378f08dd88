/**
 * Per-file snapshots and undo. The workspace is a map from path to contents;
 * every overwrite first copies the file into a directory of its own.
 */
module Checkpoints {
  import opened Common
  import opened Edits
  import opened Text
  import opened Split
  import Paths

  const CHECKPOINT_DIR := "/.checkpoints"
  const CHECKPOINT_PREFIX := "/.checkpoints/"

  // ----- Naming -----

  function EscapeUnderscores(s: string): string {
    if s == "" then "" else (if s[0] == '_' then "_-" else [s[0]]) + EscapeUnderscores(s[1..])
  }

  function EscapeSlashes(s: string): string {
    if s == "" then "" else (if s[0] == '/' then "__" else [s[0]]) + EscapeSlashes(s[1..])
  }

  function EncodePath(path: string): string {
    var name := EscapeSlashes(EscapeUnderscores(StripSlashes(path)));
    if name == "" then "root" else name
  }

  /** Reads an encoded name back. */
  function DecodeName(name: string): string {
    if |name| >= 2 && name[0] == '_' then [if name[1] == '_' then '/' else '_'] + DecodeName(name[2..])
    else if name == "" then ""
    else [name[0]] + DecodeName(name[1..])
  }

  /** What the encoding keeps of a path. */
  function PathKey(path: string): string {
    if StripSlashes(path) == "" then "root" else StripSlashes(path)
  }

  lemma {:induction false} EscapeStep(s: string)
    requires s != ""
    ensures EscapeSlashes(EscapeUnderscores(s))
         == (if s[0] == '_' then "_-" else if s[0] == '/' then "__" else [s[0]]) + EscapeSlashes(EscapeUnderscores(s[1..]))
  {
    var rest := EscapeUnderscores(s[1..]);
    if s[0] == '_' {
      assert ("_-" + rest)[1..] == ['-'] + rest;
      assert (['-'] + rest)[1..] == rest;
    } else {
      assert ([s[0]] + rest)[1..] == rest;
    }
  }

  lemma {:induction false} DecodeInverts(s: string)
    ensures DecodeName(EscapeSlashes(EscapeUnderscores(s))) == s
    ensures '/' !in EscapeSlashes(EscapeUnderscores(s))
  {
    if s != "" {
      EscapeStep(s);
      DecodeInverts(s[1..]);
      var rest := EscapeSlashes(EscapeUnderscores(s[1..]));
      var name := EscapeSlashes(EscapeUnderscores(s));
      if s[0] == '_' || s[0] == '/' {
        assert name[2..] == rest;
      } else {
        assert name[1..] == rest;
      }
    }
  }

  lemma EncodeOfKey(path: string)
    ensures EncodePath(path) == EscapeSlashes(EscapeUnderscores(PathKey(path)))
    ensures '/' !in EncodePath(path)
  {
    DecodeInverts(StripSlashes(path));
    if StripSlashes(path) == "" {
      EscapeStep("root"); EscapeStep("oot"); EscapeStep("ot"); EscapeStep("t");
      assert "root"[1..] == "oot" && "oot"[1..] == "ot" && "ot"[1..] == "t" && "t"[1..] == "";
    }
  }

  /**
   * Two paths share a checkpoint directory only when they differ in leading
   * slashes, or when one is all slashes and the other is the name `root`.
   */
  lemma SameDirectoryIff(p: string, q: string)
    ensures EncodePath(p) == EncodePath(q) <==> PathKey(p) == PathKey(q)
  {
    EncodeOfKey(p);
    EncodeOfKey(q);
    DecodeInverts(PathKey(p));
    DecodeInverts(PathKey(q));
  }

  /** The checkpoint directory of a file, with its final slash. */
  function CheckpointDirOf(path: string): string { CHECKPOINT_PREFIX + (EncodePath(path) + "/") }

  function BackupName(takenAt: nat): string { Decimal(takenAt) + ".bak" }

  function CheckpointPathFor(path: string, takenAt: nat): string {
    CheckpointDirOf(path) + BackupName(takenAt)
  }

  function DigitsOf(name: string): (r: string)
    ensures forall c :: c in r ==> IsDigit(c)
  {
    if name == "" then "" else (if IsDigit(name[0]) then [name[0]] else "") + DigitsOf(name[1..])
  }

  /** The time that the listing reads off a file name. */
  function TimeOfName(name: string): nat { DecimalValue(DigitsOf(name)) }

  lemma {:induction false} DigitsOfNumeral(s: string, tail: string)
    requires forall c :: c in s ==> IsDigit(c)
    ensures DigitsOf(s + tail) == s + DigitsOf(tail)
  {
    if s == "" {
      assert s + tail == tail;
    } else {
      assert s[0] in s && (s + tail)[1..] == s[1..] + tail;
      DigitsOfNumeral(s[1..], tail);
    }
  }

  lemma NoDigitsInSuffix()
    ensures DigitsOf(".bak") == ""
  {
    assert !IsDigit(".bak"[0]) && ".bak"[1..] == "bak";
    assert !IsDigit("bak"[0]) && "bak"[1..] == "ak";
    assert !IsDigit("ak"[0]) && "ak"[1..] == "k" && !IsDigit("k"[0]) && "k"[1..] == "";
  }

  lemma DigitsOfBackupName(t: nat)
    ensures DigitsOf(BackupName(t)) == Decimal(t)
  {
    DigitsOfNumeral(Decimal(t), ".bak");
    NoDigitsInSuffix();
  }

  lemma TimeOfCheckpointName(t: nat)
    ensures TimeOfName(BackupName(t)) == t
    ensures '/' !in BackupName(t)
  {
    DigitsOfBackupName(t);
    DecimalRoundTrip(t);
    assert '/' !in Decimal(t) && '/' !in ".bak";
  }

  // ----- The workspace -----

  type Files = map<string, string>

  /**
   * A path of the user's own in normal form: a slash before every segment, no
   * segment empty or a dot segment, and not the checkpoint directory or below it.
   */
  predicate IsFilePath(path: string) {
    && |path| > 1 && path[0] == '/' && Paths.AreSegments(Pieces(path[1..], Paths.SEP))
    && path != CHECKPOINT_DIR && !StartsWith(path, CHECKPOINT_PREFIX)
  }

  /** Such a path is exactly what normalising leaves as it is, the root and the checkpoints apart. */
  lemma FilePathIsNormal(path: string)
    requires |path| > 1 && path[0] == '/' && path != CHECKPOINT_DIR && !StartsWith(path, CHECKPOINT_PREFIX)
    ensures IsFilePath(path) <==> Paths.Normalise(path) == path
  {
    Paths.NormalIffSegments(path);
  }

  /** The files listed in the checkpoint directory of `path`. */
  predicate IsCheckpointFile(files: Files, path: string, p: string) {
    var dir := CheckpointDirOf(path);
    p in files && StartsWith(p, dir) && |p| > |dir| && '/' !in p[|dir|..]
  }

  function CheckpointFiles(files: Files, path: string): (r: set<string>)
    ensures forall p :: p in r <==> IsCheckpointFile(files, path, p)
  {
    set p | p in files.Keys && IsCheckpointFile(files, path, p)
  }

  function TimeOf(path: string, p: string): nat
    requires |p| >= |CheckpointDirOf(path)|
  {
    TimeOfName(p[|CheckpointDirOf(path)|..])
  }

  function Snapped(files: Files, path: string, now: nat): Files {
    if path in files then files[CheckpointPathFor(path, now) := files[path]] else files
  }

  /** The checkpoint an undo uses: the one asked for, or one with the latest time. */
  ghost predicate IsTarget(files: Files, path: string, chosen: Option<string>, p: string) {
    && IsCheckpointFile(files, path, p)
    && if chosen.Some? && chosen.value != "" then p == chosen.value
       else forall q :: IsCheckpointFile(files, path, q) ==> TimeOf(path, q) <= TimeOf(path, p)
  }

  function Undone(files: Files, path: string, p: string, now: nat): Files
    requires p in files
  {
    var snapped := Snapped(files, path, now);
    snapped[path := snapped[p]]
  }

  datatype Checkpoint = Checkpoint(originalPath: string, checkpointPath: string, takenAt: nat)

  class Workspace {
    var files: Files

    constructor (files: Files)
      ensures this.files == files
    {
      this.files := files;
    }

    method Snapshot(path: string, now: nat) returns (r: Option<Checkpoint>)
      modifies this
      ensures files == Snapped(old(files), path, now)
      ensures r == if path in old(files) then Some(Checkpoint(path, CheckpointPathFor(path, now), now)) else None
    {
      if path !in files { return None; }
      var target := CheckpointPathFor(path, now);
      files := files[target := files[path]];
      r := Some(Checkpoint(path, target, now));
    }

    /** Every checkpoint of `path`, latest first. */
    method ListCheckpoints(path: string) returns (list: seq<Checkpoint>)
      ensures forall c :: c in list ==>
        c.originalPath == path && IsCheckpointFile(files, path, c.checkpointPath) && c.takenAt == TimeOf(path, c.checkpointPath)
      ensures forall p :: IsCheckpointFile(files, path, p) ==> Checkpoint(path, p, TimeOf(path, p)) in list
      ensures forall i, j :: 0 <= i < j < |list| ==> list[i].takenAt >= list[j].takenAt
      ensures EachOnce(list)
    {
      list := [];
      var all := CheckpointFiles(files, path);
      var rest := all;
      while rest != {}
        invariant rest <= all == CheckpointFiles(files, path)
        invariant Lists(files, path, list, all - rest)
        invariant LatestFirst(list) && EachOnce(list)
        decreases rest
      {
        var p :| p in rest;
        ListOneMore(files, path, list, all - rest, p);
        assert all - (rest - {p}) == all - rest + {p};
        rest := rest - {p};
        list := InsertByTime(list, Checkpoint(path, p, TimeOf(path, p)));
      }
      assert all - rest == all;
    }

    method Restore(path: string, chosen: Option<string>, now: nat) returns (r: Option<string>)
      modifies this
      ensures r.Some? ==> IsTarget(old(files), path, chosen, r.value) && files == Undone(old(files), path, r.value, now)
      ensures r.None? ==> files == old(files) && forall p :: !IsTarget(old(files), path, chosen, p)
    {
      var available := ListCheckpoints(path);
      var target: Option<string> := None;
      if chosen.Some? && chosen.value != "" {
        if exists c :: c in available && c.checkpointPath == chosen.value {
          target := chosen;
        }
      } else if available != [] {
        target := Some(available[0].checkpointPath);
        assert available[0] in available;
      }
      if target.None? { return None; }
      var taken := Snapshot(path, now);
      files := files[path := files[target.value]];
      r := target;
    }

    /** The `writeFile` tool; `approved` is the user's answer when there is something to overwrite. */
    method WriteFile(path: string, contents: string, approved: bool, now: nat) returns (ok: bool)
      modifies this
      ensures ok == (path in old(files) ==> approved)
      ensures files == if ok then Snapped(old(files), path, now)[path := contents] else old(files)
    {
      if path in files {
        if !approved { return false; }
        var taken := Snapshot(path, now);
      }
      files := files[path := contents];
      ok := true;
    }

    /** The `editFile` tool. */
    method EditFile(path: string, oldString: string, newString: string, replaceAll: bool, now: nat) returns (ok: bool)
      modifies this
      ensures ok == (path in old(files) && EditText(old(files)[path], oldString, newString, replaceAll).Ok?)
      ensures files == if ok then Snapped(old(files), path, now)[path := EditText(old(files)[path], oldString, newString, replaceAll).value.0]
                       else old(files)
    {
      if path !in files || oldString == newString { return false; }
      var before := files[path];
      var occurrences := CountOccurrences(before, oldString);
      if occurrences == 0 { return false; }
      if occurrences > 1 && !replaceAll { return false; }
      var taken := Snapshot(path, now);
      var after := if replaceAll then ReplaceAll(before, oldString, newString) else ReplaceFirst(before, oldString, newString);
      files := files[path := after];
      ok := true;
    }
  }

  predicate LatestFirst(list: seq<Checkpoint>) {
    forall i, j :: 0 <= i < j < |list| ==> list[i].takenAt >= list[j].takenAt
  }

  /** No checkpoint is listed twice. */
  predicate EachOnce(list: seq<Checkpoint>) {
    forall i, j :: 0 <= i < j < |list| ==> list[i].checkpointPath != list[j].checkpointPath
  }

  function Entry(path: string, p: string): Checkpoint
    requires |p| >= |CheckpointDirOf(path)|
  {
    Checkpoint(path, p, TimeOf(path, p))
  }

  /** The list holds the entries of exactly these checkpoint files. */
  ghost predicate Lists(files: Files, path: string, list: seq<Checkpoint>, of: set<string>) {
    && (forall p :: p in of ==> IsCheckpointFile(files, path, p) && Entry(path, p) in list)
    && (forall c :: c in list ==> c.checkpointPath in of && c == Entry(path, c.checkpointPath))
  }

  function InsertByTime(list: seq<Checkpoint>, c: Checkpoint): seq<Checkpoint> {
    if list == [] || c.takenAt >= list[0].takenAt then [c] + list
    else [list[0]] + InsertByTime(list[1..], c)
  }

  lemma {:induction false} InsertHolds(list: seq<Checkpoint>, c: Checkpoint, x: Checkpoint)
    ensures x in InsertByTime(list, c) <==> x == c || x in list
  {
    if list != [] && c.takenAt < list[0].takenAt {
      InsertHolds(list[1..], c, x);
      assert x in list <==> x == list[0] || x in list[1..];
    }
  }

  lemma {:induction false} InsertKeepsOrder(list: seq<Checkpoint>, c: Checkpoint)
    requires LatestFirst(list)
    ensures LatestFirst(InsertByTime(list, c))
  {
    if list != [] && c.takenAt < list[0].takenAt {
      var rest := InsertByTime(list[1..], c);
      InsertKeepsOrder(list[1..], c);
      forall j | 0 <= j < |rest| ensures rest[j].takenAt <= list[0].takenAt {
        InsertHolds(list[1..], c, rest[j]);
      }
    }
  }

  lemma {:induction false} InsertKeepsEachOnce(list: seq<Checkpoint>, c: Checkpoint)
    requires EachOnce(list) && forall x :: x in list ==> x.checkpointPath != c.checkpointPath
    ensures EachOnce(InsertByTime(list, c))
  {
    if list != [] && c.takenAt < list[0].takenAt {
      var rest := InsertByTime(list[1..], c);
      InsertKeepsEachOnce(list[1..], c);
      forall j | 0 <= j < |rest| ensures rest[j].checkpointPath != list[0].checkpointPath {
        InsertHolds(list[1..], c, rest[j]);
      }
    }
  }

  lemma ListOneMore(files: Files, path: string, list: seq<Checkpoint>, of: set<string>, p: string)
    requires Lists(files, path, list, of) && LatestFirst(list) && EachOnce(list)
    requires IsCheckpointFile(files, path, p) && p !in of
    ensures var more := InsertByTime(list, Entry(path, p));
            Lists(files, path, more, of + {p}) && LatestFirst(more) && EachOnce(more)
  {
    var more := InsertByTime(list, Entry(path, p));
    forall x ensures x in more <==> x == Entry(path, p) || x in list {
      InsertHolds(list, Entry(path, p), x);
    }
    InsertKeepsOrder(list, Entry(path, p));
    InsertKeepsEachOnce(list, Entry(path, p));
  }

  // ----- Runs -----

  datatype Op =
    | Write(path: string, contents: string, approved: bool)
    | Edit(path: string, oldString: string, newString: string, replaceAll: bool)
    | Undo(path: string, chosen: Option<string>)

  /** One tool call at time `now`. */
  ghost predicate Step(files: Files, op: Op, now: nat, files': Files) {
    match op
    case Write(path, contents, approved) =>
      files' == if path in files && !approved then files else Snapped(files, path, now)[path := contents]
    case Edit(path, oldString, newString, replaceAll) =>
      if path in files && EditText(files[path], oldString, newString, replaceAll).Ok?
      then files' == Snapped(files, path, now)[path := EditText(files[path], oldString, newString, replaceAll).value.0]
      else files' == files
    case Undo(path, chosen) =>
      || (exists p :: IsTarget(files, path, chosen, p) && files' == Undone(files, path, p, now))
      || (files' == files && forall p :: !IsTarget(files, path, chosen, p))
  }

  /** All snapshots were taken before `now`. */
  ghost predicate TakenBefore(files: Files, now: nat) {
    forall path, p :: IsCheckpointFile(files, path, p) ==> TimeOf(path, p) < now
  }

  /** Step `i` of a run. */
  ghost predicate RunStep(states: seq<Files>, ops: seq<Op>, times: seq<nat>, i: nat) {
    && i < |ops| && i < |times| && i + 1 < |states|
    && IsFilePath(ops[i].path) && Step(states[i], ops[i], times[i], states[i + 1])
  }

  ghost predicate IsRun(states: seq<Files>, ops: seq<Op>, times: seq<nat>) {
    && |states| == |ops| + 1 == |times| + 1
    && (forall i :: 0 <= i < |ops| ==> RunStep(states, ops, times, i))
    && (forall i, j :: 0 <= i < j < |times| ==> times[i] < times[j])
    && (times != [] ==> TakenBefore(states[0], times[0]))
  }

  /** `contents` is what `path` holds, or is in one of its own checkpoints. */
  ghost predicate Kept(files: Files, path: string, contents: string) {
    || (path in files && files[path] == contents)
    || exists t :: CheckpointPathFor(path, t) in files && files[CheckpointPathFor(path, t)] == contents
  }

  lemma {:induction false} BeforeSlash(a: string, x: string)
    requires '/' !in a
    ensures Common.Before(a + "/" + x, '/') == a
  {
    if a != "" {
      assert a[0] in a && (a + "/" + x)[1..] == a[1..] + "/" + x;
      BeforeSlash(a[1..], x);
    }
  }

  lemma TimeOfCheckpoint(path: string, t: nat)
    ensures CheckpointPathFor(path, t)[|CheckpointDirOf(path)|..] == BackupName(t)
    ensures TimeOf(path, CheckpointPathFor(path, t)) == t
  {
    TimeOfCheckpointName(t);
  }

  /** A checkpoint is listed for its own file, with its own time. */
  lemma CheckpointPathIsListed(path: string, t: nat, files: Files)
    requires CheckpointPathFor(path, t) in files
    ensures IsCheckpointFile(files, path, CheckpointPathFor(path, t)) && TimeOf(path, CheckpointPathFor(path, t)) == t
  {
    TimeOfCheckpoint(path, t);
  }

  /** It is listed for no file with another directory. */
  lemma ListedForOneDirectory(path: string, t: nat, files: Files, g: string)
    requires IsCheckpointFile(files, g, CheckpointPathFor(path, t))
    ensures EncodePath(g) == EncodePath(path)
  {
    var p := CheckpointPathFor(path, t);
    DirectoryName(g, p);
    DirectoryName(path, p);
  }

  /** The directory of a path under a checkpoint directory can be read off the path. */
  lemma DirectoryName(g: string, p: string)
    requires StartsWith(p, CheckpointDirOf(g))
    ensures Common.Before(p[|CHECKPOINT_PREFIX|..], '/') == EncodePath(g)
  {
    var rest := p[|CheckpointDirOf(g)|..];
    EncodeOfKey(g);
    assert p[|CHECKPOINT_PREFIX|..] == EncodePath(g) + "/" + rest;
    BeforeSlash(EncodePath(g), rest);
  }

  /** A file is never taken for a checkpoint. */
  lemma FileIsNoCheckpoint(files: Files, path: string, g: string)
    requires IsFilePath(path)
    ensures !IsCheckpointFile(files, g, path)
    ensures forall t :: path != CheckpointPathFor(g, t)
  {
    var start := CHECKPOINT_PREFIX;
    assert start <= CheckpointDirOf(g);
    forall t ensures path != CheckpointPathFor(g, t) {
      assert start <= CheckpointPathFor(g, t);
    }
  }

  lemma SnapshotNameIsFresh(files: Files, path: string, now: nat)
    requires TakenBefore(files, now)
    ensures CheckpointPathFor(path, now) !in files
  {
    TimeOfCheckpoint(path, now);
    assert CheckpointPathFor(path, now) in files ==> IsCheckpointFile(files, path, CheckpointPathFor(path, now));
  }

  /** Every call either changes nothing or snapshots its file and then writes it. */
  lemma StepShape(files: Files, op: Op, now: nat, files': Files) returns (changed: bool, contents: string)
    requires Step(files, op, now, files')
    ensures files' == if changed then Snapped(files, op.path, now)[op.path := contents] else files
  {
    changed, contents := files' != files, "";
    if changed {
      match op
      case Write(_, c, _) => contents := c;
      case Edit(path, o, n, all) => contents := EditText(files[path], o, n, all).value.0;
      case Undo(path, chosen) =>
        var p :| IsTarget(files, path, chosen, p) && files' == Undone(files, path, p, now);
        contents := Snapped(files, path, now)[p];
    }
  }

  lemma StepPreserves(files: Files, op: Op, now: nat, files': Files, path: string, contents: string)
    requires TakenBefore(files, now) && IsFilePath(op.path) && IsFilePath(path) && Step(files, op, now, files')
    requires Kept(files, path, contents)
    ensures Kept(files', path, contents)
  {
    var changed, c := StepShape(files, op, now, files');
    if changed {
      SnapshotNameIsFresh(files, op.path, now);
      FileIsNoCheckpoint(files, op.path, path);
      FileIsNoCheckpoint(files, path, op.path);
      if path in files && files[path] == contents {
        if path == op.path {
          FileIsNoCheckpoint(files, path, path);
          assert files'[CheckpointPathFor(path, now)] == contents;
        }
      } else {
        var t :| CheckpointPathFor(path, t) in files && files[CheckpointPathFor(path, t)] == contents;
        assert files'[CheckpointPathFor(path, t)] == contents;
      }
    }
  }

  lemma StepTakesBefore(files: Files, op: Op, now: nat, files': Files, later: nat)
    requires TakenBefore(files, now) && IsFilePath(op.path) && Step(files, op, now, files') && now < later
    ensures TakenBefore(files', later)
  {
    var changed, c := StepShape(files, op, now, files');
    forall path, p | IsCheckpointFile(files', path, p) ensures TimeOf(path, p) < later {
      FileIsNoCheckpoint(files', op.path, path);
      if p in files {
        assert IsCheckpointFile(files, path, p);
      } else {
        assert p == CheckpointPathFor(op.path, now);
        ListedForOneDirectory(op.path, now, files', path);
        CheckpointPathIsListed(op.path, now, files');
        assert CheckpointDirOf(path) == CheckpointDirOf(op.path);
      }
    }
  }

  lemma {:induction false} RunTakesBefore(states: seq<Files>, ops: seq<Op>, times: seq<nat>, i: nat)
    requires IsRun(states, ops, times) && i < |times|
    ensures TakenBefore(states[i], times[i])
  {
    if i > 0 {
      RunTakesBefore(states, ops, times, i - 1);
      assert RunStep(states, ops, times, i - 1);
      StepTakesBefore(states[i - 1], ops[i - 1], times[i - 1], states[i], times[i]);
    }
  }

  lemma KeptByStep(states: seq<Files>, ops: seq<Op>, times: seq<nat>, i: nat, path: string, contents: string)
    requires IsRun(states, ops, times) && i < |ops| && IsFilePath(path) && Kept(states[i], path, contents)
    ensures Kept(states[i + 1], path, contents)
  {
    RunTakesBefore(states, ops, times, i);
    assert RunStep(states, ops, times, i);
    StepPreserves(states[i], ops[i], times[i], states[i + 1], path, contents);
  }

  lemma {:induction false} RunKeeps(states: seq<Files>, ops: seq<Op>, times: seq<nat>, i: nat, j: nat, path: string, contents: string)
    requires IsRun(states, ops, times) && i <= j <= |ops| && IsFilePath(path)
    requires Kept(states[i], path, contents)
    ensures Kept(states[j], path, contents)
    decreases j - i
  {
    if i < j {
      RunKeeps(states, ops, times, i, j - 1, path, contents);
      KeptByStep(states, ops, times, j - 1, path, contents);
    }
  }

  /**
   * Whatever a file held at some point of a run is, at every later point, still
   * its contents or in one of its own checkpoints.
   */
  lemma NothingIsLost(states: seq<Files>, ops: seq<Op>, times: seq<nat>, i: nat, j: nat, path: string)
    requires IsRun(states, ops, times) && i <= j <= |ops| && IsFilePath(path)
    requires path in states[i]
    ensures Kept(states[j], path, states[i][path])
  {
    RunKeeps(states, ops, times, i, j, path, states[i][path]);
  }

  /** Right after a snapshot of a file, undoing restores that snapshot. */
  lemma UndoOfLatest(files: Files, path: string, t0: nat, written: string, t1: nat, p: string)
    requires IsFilePath(path) && path in files && TakenBefore(files, t0) && t0 < t1
    requires IsTarget(Snapped(files, path, t0)[path := written], path, None, p)
    ensures p == CheckpointPathFor(path, t0)
    ensures Undone(Snapped(files, path, t0)[path := written], path, p, t1)[path] == files[path]
  {
    var after := Snapped(files, path, t0)[path := written];
    var latest := CheckpointPathFor(path, t0);
    CheckpointPathIsListed(path, t0, after);
    FileIsNoCheckpoint(after, path, path);
    forall q | IsCheckpointFile(after, path, q) && q != latest ensures TimeOf(path, q) < t0 {
      assert IsCheckpointFile(files, path, q);
    }
    TimeOfCheckpoint(path, t1);
  }

  /** An overwriting write or edit, undone, gives the original. */
  lemma EditThenUndo(files: Files, op: Op, t0: nat, files1: Files, t1: nat, files2: Files)
    requires !op.Undo? && IsFilePath(op.path) && op.path in files && TakenBefore(files, t0) && t0 < t1
    requires Step(files, op, t0, files1) && files1 != files
    requires Step(files1, Undo(op.path, None), t1, files2)
    ensures files2[op.path] == files[op.path]
  {
    var changed, written := StepShape(files, op, t0, files1);
    TargetExists(files, op.path, t0, written);
    var p :| IsTarget(files1, op.path, None, p) && files2 == Undone(files1, op.path, p, t1);
    UndoOfLatest(files, op.path, t0, written, t1, p);
  }

  lemma TargetExists(files: Files, path: string, t0: nat, written: string)
    requires IsFilePath(path) && path in files && TakenBefore(files, t0)
    ensures IsTarget(Snapped(files, path, t0)[path := written], path, None, CheckpointPathFor(path, t0))
  {
    var after := Snapped(files, path, t0)[path := written];
    CheckpointPathIsListed(path, t0, after);
    FileIsNoCheckpoint(after, path, path);
    forall q | IsCheckpointFile(after, path, q) ensures TimeOf(path, q) <= t0 {
      if q != CheckpointPathFor(path, t0) {
        assert IsCheckpointFile(files, path, q);
      }
    }
  }

  /** Undo is its own undo: when it finds a checkpoint, so that it changes something, a second one gives back the contents before. */
  lemma UndoTwice(files: Files, path: string, chosen: Option<string>, t0: nat, files1: Files, t1: nat, files2: Files)
    requires IsFilePath(path) && path in files && TakenBefore(files, t0) && t0 < t1
    requires Step(files, Undo(path, chosen), t0, files1) && files1 != files
    requires Step(files1, Undo(path, None), t1, files2)
    ensures files2[path] == files[path]
  {
    var p :| IsTarget(files, path, chosen, p) && files1 == Undone(files, path, p, t0);
    var written := Snapped(files, path, t0)[p];
    TargetExists(files, path, t0, written);
    var q :| IsTarget(files1, path, None, q) && files2 == Undone(files1, path, q, t1);
    UndoOfLatest(files, path, t0, written, t1, q);
  }

  /** Some checkpoint of the file other than the one of time `now` has these contents. */
  ghost predicate KeptElsewhere(files: Files, path: string, now: nat, contents: string) {
    exists t :: t != now && CheckpointPathFor(path, t) in files && files[CheckpointPathFor(path, t)] == contents
  }

  /**
   * Overwriting an existing file loses none of its kept contents exactly when the
   * name of the snapshot is free, or what it held is the file's contents, or the
   * new ones, or is in another checkpoint of the file.
   */
  lemma OverwriteLosesNothingIff(files: Files, path: string, now: nat, written: string)
    requires IsFilePath(path) && path in files
    ensures var name := CheckpointPathFor(path, now);
            var after := Snapped(files, path, now)[path := written];
            (forall x :: Kept(files, path, x) ==> Kept(after, path, x))
            <==> name !in files || files[name] == files[path] || files[name] == written || KeptElsewhere(files, path, now, files[name])
  {
    var name := CheckpointPathFor(path, now);
    FileIsNoCheckpoint(files, path, path);
    if name in files {
      assert Kept(files, path, files[name]);
      OverwrittenNameIff(files, path, now, written);
    }
    forall x | Kept(files, path, x) && (name !in files || x != files[name])
      ensures Kept(Snapped(files, path, now)[path := written], path, x)
    {
      OtherContentsStay(files, path, now, written, x);
    }
  }

  lemma OtherContentsStay(files: Files, path: string, now: nat, written: string, x: string)
    requires IsFilePath(path) && path in files && Kept(files, path, x)
    requires CheckpointPathFor(path, now) in files ==> x != files[CheckpointPathFor(path, now)]
    ensures Kept(Snapped(files, path, now)[path := written], path, x)
  {
    var after := Snapped(files, path, now)[path := written];
    FileIsNoCheckpoint(files, path, path);
    if files[path] == x {
      assert after[CheckpointPathFor(path, now)] == x;
    } else {
      var t :| CheckpointPathFor(path, t) in files && files[CheckpointPathFor(path, t)] == x;
      assert after[CheckpointPathFor(path, t)] == x;
    }
  }

  lemma OverwrittenNameIff(files: Files, path: string, now: nat, written: string)
    requires IsFilePath(path) && path in files && CheckpointPathFor(path, now) in files
    ensures var x := files[CheckpointPathFor(path, now)];
            Kept(Snapped(files, path, now)[path := written], path, x)
            <==> x == files[path] || x == written || KeptElsewhere(files, path, now, x)
  {
    var name := CheckpointPathFor(path, now);
    var x := files[name];
    var after := Snapped(files, path, now)[path := written];
    FileIsNoCheckpoint(files, path, path);
    if x == files[path] {
      assert after[name] == x;
    }
    if KeptElsewhere(files, path, now, x) {
      var t :| t != now && CheckpointPathFor(path, t) in files && files[CheckpointPathFor(path, t)] == x;
      DifferentTimes(path, t, now);
      assert after[CheckpointPathFor(path, t)] == x;
    }
    if Kept(after, path, x) && x != written {
      var t :| CheckpointPathFor(path, t) in after && after[CheckpointPathFor(path, t)] == x;
      DifferentTimes(path, t, now);
      if t != now {
        assert KeptElsewhere(files, path, now, x);
      }
    }
  }

  lemma DifferentTimes(path: string, t: nat, u: nat)
    ensures CheckpointPathFor(path, t) == CheckpointPathFor(path, u) <==> t == u
  {
    TimeOfCheckpoint(path, t);
    TimeOfCheckpoint(path, u);
  }

  lemma NameIsFilePath()
    ensures IsFilePath("/a")
  {
    assert "/a"[1..] == "a";
    forall i ensures !OccursAt("a", Paths.SEP, i) {
      assert "a"[0..1] == "a";
    }
    assert Pieces("a", Paths.SEP) == ["a"];
  }

  /**
   * Outside normal form a checkpoint has other names, one for every segment to
   * step into and out of; no guarantee here covers a write to such a name.
   */
  lemma CheckpointHasAlias(path: string, t: nat, segment: string)
    requires Paths.IsSegment(segment)
    ensures var below := CheckpointPathFor(path, t)[1..];
            var alias := "/" + (segment + "/" + (".." + "/" + below));
            && Paths.Normalise(alias) == Paths.Normalise(CheckpointPathFor(path, t))
            && !IsFilePath(alias)
  {
    var below := CheckpointPathFor(path, t)[1..];
    var alias := "/" + (segment + "/" + (".." + "/" + below));
    assert CheckpointPathFor(path, t) == "/" + below;
    Paths.DotDotIsAlias(segment, below);
    assert alias[1..] == segment + "/" + (".." + "/" + below);
    Paths.FirstPiece(segment, ".." + "/" + below);
    Paths.FirstPiece("..", below);
    assert ".." in Pieces(alias[1..], Paths.SEP) && !Paths.IsSegment("..");
  }

  /** The clock must move: two overwrites in one millisecond leave no trace of the first contents. */
  lemma SameMillisecondLoses(now: nat) returns (states: seq<Files>)
    ensures |states| == 3 && TakenBefore(states[0], now)
    ensures Step(states[0], Write("/a", "2", true), now, states[1])
    ensures Step(states[1], Write("/a", "3", true), now, states[2])
    ensures "/a" in states[0] && !Kept(states[2], "/a", states[0]["/a"])
  {
    var a: Files := map["/a" := "1"];
    NameIsFilePath();
    forall path, p ensures !IsCheckpointFile(a, path, p) {
      FileIsNoCheckpoint(a, "/a", path);
    }
    var b := Snapped(a, "/a", now)["/a" := "2"];
    var c := Snapped(b, "/a", now)["/a" := "3"];
    FileIsNoCheckpoint(a, "/a", "/a");
    states := [a, b, c];
    assert c.Keys == {"/a", CheckpointPathFor("/a", now)};
  }

  // ----- What a call does, and to what -----

  /** A call writes its own file and the snapshot of it, and nothing else. */
  lemma StepTouchesItsFile(files: Files, op: Op, now: nat, files': Files, q: string)
    requires Step(files, op, now, files') && q != op.path && q != CheckpointPathFor(op.path, now)
    ensures q in files' <==> q in files
    ensures q in files ==> files'[q] == files[q]
  {
    var changed, contents := StepShape(files, op, now, files');
  }

  /** A write that nobody refuses takes effect; a refused one changes nothing. */
  lemma WriteTakesEffect(files: Files, path: string, contents: string, approved: bool, now: nat, files': Files)
    requires Step(files, Write(path, contents, approved), now, files')
    ensures approved || path !in files ==> path in files' && files'[path] == contents
    ensures !approved && path in files ==> files' == files
  {
  }

  /** What was overwritten is in the checkpoint of that moment. */
  lemma OverwrittenIsSnapped(files: Files, op: Op, now: nat, files': Files)
    requires Step(files, op, now, files') && files' != files && IsFilePath(op.path) && op.path in files
    ensures var name := CheckpointPathFor(op.path, now); name in files' && files'[name] == files[op.path]
  {
    var changed, contents := StepShape(files, op, now, files');
    FileIsNoCheckpoint(files, op.path, op.path);
  }

  predicate SameThere(files: Files, files': Files, p: string) { p in files && p in files' && files'[p] == files[p] }

  lemma StepKeepsCheckpoint(files: Files, op: Op, now: nat, files': Files, path: string, t: nat)
    requires TakenBefore(files, now) && IsFilePath(op.path) && Step(files, op, now, files')
    requires CheckpointPathFor(path, t) in files
    ensures SameThere(files, files', CheckpointPathFor(path, t))
  {
    SnapshotNameIsFresh(files, op.path, now);
    FileIsNoCheckpoint(files, op.path, path);
    StepTouchesItsFile(files, op, now, files', CheckpointPathFor(path, t));
  }

  lemma StepInRun(states: seq<Files>, ops: seq<Op>, times: seq<nat>, i: nat)
    requires IsRun(states, ops, times) && i < |ops|
    ensures TakenBefore(states[i], times[i]) && IsFilePath(ops[i].path) && Step(states[i], ops[i], times[i], states[i + 1])
  {
    RunTakesBefore(states, ops, times, i);
    assert RunStep(states, ops, times, i);
  }

  /** Once taken, a checkpoint is never written again. */
  lemma {:induction false} CheckpointStays(
      states: seq<Files>, ops: seq<Op>, times: seq<nat>, i: nat, j: nat, path: string, t: nat)
    requires IsRun(states, ops, times) && i <= j <= |ops| && CheckpointPathFor(path, t) in states[i]
    ensures SameThere(states[i], states[j], CheckpointPathFor(path, t))
    decreases j - i
  {
    if i < j {
      CheckpointStays(states, ops, times, i, j - 1, path, t);
      StepInRun(states, ops, times, j - 1);
      StepKeepsCheckpoint(states[j - 1], ops[j - 1], times[j - 1], states[j], path, t);
    }
  }

  /** An undo that names a checkpoint of the file gives back just that one. */
  lemma UndoOfChosen(files: Files, path: string, chosen: string, now: nat, files': Files)
    requires chosen != "" && IsFilePath(path) && TakenBefore(files, now)
    requires Step(files, Undo(path, Some(chosen)), now, files')
    ensures IsCheckpointFile(files, path, chosen) ==> path in files' && files'[path] == files[chosen]
    ensures !IsCheckpointFile(files, path, chosen) ==> files' == files
  {
    SnapshotNameIsFresh(files, path, now);
    if IsCheckpointFile(files, path, chosen) {
      assert IsTarget(files, path, Some(chosen), chosen);
    }
  }

  /** One that names none gives back a latest checkpoint, if the file has any. */
  lemma UndoOfNone(files: Files, path: string, now: nat, files': Files)
    requires IsFilePath(path) && TakenBefore(files, now)
    requires Step(files, Undo(path, None), now, files') && files' != files
    ensures exists p :: && IsCheckpointFile(files, path, p) && path in files' && files'[path] == files[p]
                        && forall q :: IsCheckpointFile(files, path, q) ==> TimeOf(path, q) <= TimeOf(path, p)
  {
    SnapshotNameIsFresh(files, path, now);
    var p :| IsTarget(files, path, None, p) && files' == Undone(files, path, p, now);
    assert IsCheckpointFile(files, path, p) && files'[path] == files[p];
  }

  /** Every version of a file comes back, at any later time, by the name of the checkpoint taken when it was overwritten. */
  lemma EveryVersionComesBack(states: seq<Files>, ops: seq<Op>, times: seq<nat>, i: nat, j: nat, path: string)
    requires IsRun(states, ops, times) && i < j < |ops| && ops[i].path == path && path in states[i] && states[i + 1] != states[i]
    requires ops[j] == Undo(path, Some(CheckpointPathFor(path, times[i])))
    ensures path in states[j + 1] && states[j + 1][path] == states[i][path]
  {
    assert RunStep(states, ops, times, i) && RunStep(states, ops, times, j);
    OverwrittenIsSnapped(states[i], ops[i], times[i], states[i + 1]);
    CheckpointStays(states, ops, times, i + 1, j, path, times[i]);
    CheckpointPathIsListed(path, times[i], states[j]);
    RunTakesBefore(states, ops, times, j);
    UndoOfChosen(states[j], path, CheckpointPathFor(path, times[i]), times[j], states[j + 1]);
  }

  /** The checkpoints of a file are the files right below its directory, under any name. */
  lemma ListedIffRightBelow(files: Files, path: string, name: string)
    ensures IsCheckpointFile(files, path, CheckpointDirOf(path) + name)
       <==> CheckpointDirOf(path) + name in files && name != "" && '/' !in name
    ensures forall p :: IsCheckpointFile(files, path, p) ==> "/.checkpoints/" <= p
  {
    assert "/.checkpoints/" <= CheckpointDirOf(path);
    assert (CheckpointDirOf(path) + name)[|CheckpointDirOf(path)|..] == name;
  }
}
