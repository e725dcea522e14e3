/** No update is lost: the numbering and compare-and-swap laws of file revisions. */
module FileLaws {
  import opened Wrappers
  import opened FileRevisions

  /** A writer's transaction, as one step. */
  datatype Step =
    | Patch(files: seq<PatchFile>)
    | Edit(path: Path, content: string, expectedVersion: nat)

  function Apply(rows: seq<Revision>, step: Step): seq<Revision> {
    match step
    case Patch(files) => ApplyPatch(rows, files).0
    case Edit(path, content, expected) => Put(rows, path, content, expected).0
  }

  function Run(rows: seq<Revision>, steps: seq<Step>): seq<Revision> {
    if steps == [] then rows else Apply(Run(rows, steps[..|steps| - 1]), steps[|steps| - 1])
  }

  /** The rows of one path, in the order they were written. */
  function RowsOf(rows: seq<Revision>, path: Path): seq<Revision> {
    if rows == [] then []
    else RowsOf(rows[..|rows| - 1], path) + if rows[|rows| - 1].path == path then [rows[|rows| - 1]] else []
  }

  /** Every path is numbered exactly 1, 2, …, n in writing order. */
  ghost predicate WellNumbered(rows: seq<Revision>) {
    forall path :: Numbered(RowsOf(rows, path))
  }

  predicate Numbered(own: seq<Revision>) {
    forall i :: 0 <= i < |own| ==> own[i].version == i + 1
  }

  lemma RowsOfSnoc(rows: seq<Revision>, row: Revision, path: Path)
    ensures RowsOf(rows + [row], path) == RowsOf(rows, path) + if row.path == path then [row] else []
  {
  }

  lemma {:induction false} RowsOfConcat(a: seq<Revision>, b: seq<Revision>, path: Path)
    ensures RowsOf(a + b, path) == RowsOf(a, path) + RowsOf(b, path)
  {
    if b == [] {
      assert a + b == a;
    } else {
      var n := |b| - 1;
      assert a + b == (a + b[..n]) + [b[n]];
      RowsOfSnoc(a + b[..n], b[n], path);
      RowsOfConcat(a, b[..n], path);
    }
  }

  /** The stored version of a path is the number of its rows. */
  lemma {:induction false} ActualIsCount(rows: seq<Revision>, path: Path)
    requires Numbered(RowsOf(rows, path))
    ensures ActualVersion(rows, path) == |RowsOf(rows, path)|
    ensures Latest(rows, path) ==
      if RowsOf(rows, path) == [] then None else Some(RowsOf(rows, path)[|RowsOf(rows, path)| - 1])
  {
    if rows != [] {
      var init, own := rows[..|rows| - 1], RowsOf(rows, path);
      var initial := RowsOf(init, path);
      assert Numbered(initial) by {
        assert forall i :: 0 <= i < |initial| ==> initial[i] == own[i];
      }
      ActualIsCount(init, path);
      if rows[|rows| - 1].path == path {
        assert own[|initial|] == rows[|rows| - 1];
      }
    }
  }

  lemma AppendNumbered(rows: seq<Revision>, row: Revision)
    requires WellNumbered(rows) && row.version == ActualVersion(rows, row.path) + 1
    ensures WellNumbered(rows + [row])
  {
    forall path
      ensures Numbered(RowsOf(rows + [row], path))
    {
      RowsOfSnoc(rows, row, path);
      ActualIsCount(rows, path);
    }
  }

  /** A free (path, version) slot right after the planned version is the next slot. */
  lemma FreeSlotIsNext(rows: seq<Revision>, path: Path, v: nat)
    requires WellNumbered(rows) && v <= ActualVersion(rows, path) && !Exists(rows, path, v + 1)
    ensures v == ActualVersion(rows, path)
  {
    var own := RowsOf(rows, path);
    ActualIsCount(rows, path);
    if v < |own| {
      OwnRowStored(rows, path, v);
    }
  }

  lemma {:induction false} OwnRowStored(rows: seq<Revision>, path: Path, i: nat)
    requires i < |RowsOf(rows, path)|
    ensures exists j :: 0 <= j < |rows| && rows[j] == RowsOf(rows, path)[i] && rows[j].path == path
  {
    var n := |rows| - 1;
    var initial := RowsOf(rows[..n], path);
    if i < |initial| {
      OwnRowStored(rows[..n], path, i);
      var j :| 0 <= j < n && rows[..n][j] == initial[i] && rows[..n][j].path == path;
      assert rows[j] == initial[i];
    } else {
      assert rows[n] == RowsOf(rows, path)[i];
    }
  }

  /** A write declared at `version`: the next row of its path. */
  predicate IsWriteOf(row: Revision, file: PatchFile) {
    row == WriteOf(file)
  }

  lemma {:induction false} WriteAllNumbered(rows: seq<Revision>, plans: seq<FilePlan>)
    requires WellNumbered(rows)
    requires forall i :: 0 <= i < |plans| ==> plans[i].actualVersion <= ActualVersion(rows, plans[i].path)
    requires WriteAll(rows, plans).Some?
    ensures WellNumbered(WriteAll(rows, plans).value)
    ensures rows <= WriteAll(rows, plans).value
    decreases |plans|
  {
    if plans != [] {
      var plan := plans[0];
      if plan.shouldWrite {
        var row := Revision(plan.path, plan.actualVersion + 1, plan.content);
        FreeSlotIsNext(rows, plan.path, plan.actualVersion);
        AppendNumbered(rows, row);
        forall i | 1 <= i < |plans|
          ensures plans[i].actualVersion <= ActualVersion(rows + [row], plans[i].path)
        {
          LatestGrows(rows, row, plans[i].path);
        }
        WriteAllNumbered(rows + [row], plans[1..]);
      } else {
        WriteAllNumbered(rows, plans[1..]);
      }
    }
  }

  lemma LatestGrows(rows: seq<Revision>, row: Revision, path: Path)
    ensures ActualVersion(rows, path) <= ActualVersion(rows + [row], path)
  {
  }

  lemma StepKeepsNumbering(rows: seq<Revision>, step: Step)
    requires WellNumbered(rows)
    ensures WellNumbered(Apply(rows, step))
    ensures rows <= Apply(rows, step)
  {
    match step
    case Patch(files) =>
      if ApplyPatch(rows, files).1.Written? {
        WriteAllNumbered(rows, Plans(rows, files));
      }
    case Edit(path, content, expected) =>
      if Put(rows, path, content, expected).1.Saved? {
        AppendNumbered(rows, Put(rows, path, content, expected).1.file);
      }
  }

  /** Over every history of patches and edits the versions of each path are exactly 1..n. */
  lemma {:induction false} VersionsAreConsecutive(steps: seq<Step>)
    ensures WellNumbered(Run([], steps))
  {
    if steps == [] {
      forall path
        ensures Numbered(RowsOf([], path))
      {
      }
    } else {
      VersionsAreConsecutive(steps[..|steps| - 1]);
      StepKeepsNumbering(Run([], steps[..|steps| - 1]), steps[|steps| - 1]);
    }
  }

  // ---- A patch is all or nothing, and every writer gets what it declared ----

  /** The rows a patch means to add: one for each file whose content differs from the stored one. */
  function Changed(rows: seq<Revision>, files: seq<PatchFile>): seq<Revision> {
    if files == [] then []
    else
      (if PlanOf(rows, files[0]).shouldWrite
       then [WriteOf(files[0])] else [])
      + Changed(rows, files[1..])
  }

  function WriteOf(file: PatchFile): Revision {
    Revision(file.path, file.expectedVersion + 1, file.content)
  }

  lemma {:induction false} WriteAllAppends(rows: seq<Revision>, now: seq<Revision>, files: seq<PatchFile>)
    requires forall i :: 0 <= i < |files| ==> ActualVersion(rows, files[i].path) == files[i].expectedVersion
    requires WriteAll(now, Plans(rows, files)).Some?
    ensures WriteAll(now, Plans(rows, files)).value == now + Changed(rows, files)
    decreases |files|
  {
    if files != [] {
      var plan, rest := PlanOf(rows, files[0]), files[1..];
      assert Plans(rows, files)[0] == plan && Plans(rows, files)[1..] == Plans(rows, rest);
      if plan.shouldWrite {
        assert plan.actualVersion == files[0].expectedVersion;
        WriteAllAppends(rows, now + [WriteOf(files[0])], rest);
        assert (now + [WriteOf(files[0])]) + Changed(rows, rest) == now + ([WriteOf(files[0])] + Changed(rows, rest));
      } else {
        WriteAllAppends(rows, now, rest);
        assert [] + Changed(rows, rest) == Changed(rows, rest);
      }
    } else {
      assert Plans(rows, files) == [];
    }
  }

  predicate DistinctPaths(files: seq<PatchFile>) {
    forall i, j :: 0 <= i < j < |files| ==> files[i].path != files[j].path
  }

  lemma {:induction false} DistinctPathsNeverCollide(rows: seq<Revision>, now: seq<Revision>, files: seq<PatchFile>)
    requires DistinctPaths(files)
    requires forall i :: 0 <= i < |files| ==> ActualVersion(now, files[i].path) == ActualVersion(rows, files[i].path)
    ensures WriteAll(now, Plans(rows, files)).Some?
    decreases |files|
  {
    var plans := Plans(rows, files);
    if files != [] {
      assert plans[1..] == Plans(rows, files[1..]);
      if plans[0].shouldWrite {
        var row := Revision(plans[0].path, plans[0].actualVersion + 1, plans[0].content);
        assert !Exists(now, plans[0].path, plans[0].actualVersion + 1);
        forall i | 1 <= i < |files|
          ensures ActualVersion(now + [row], files[i].path) == ActualVersion(now, files[i].path)
        {
          assert (now + [row])[..|now|] == now;
        }
        DistinctPathsNeverCollide(rows, now + [row], files[1..]);
      } else {
        DistinctPathsNeverCollide(rows, now, files[1..]);
      }
    }
  }

  /**
   * A patch of distinct paths commits exactly when every declared version is the stored one;
   * it then adds all of its changed files, and otherwise it adds nothing.
   */
  lemma PatchIsAtomic(rows: seq<Revision>, files: seq<PatchFile>)
    requires DistinctPaths(files)
    ensures ApplyPatch(rows, files).1.Written? <==>
      forall i :: 0 <= i < |files| ==> ActualVersion(rows, files[i].path) == files[i].expectedVersion
    ensures ApplyPatch(rows, files).0 ==
      if ApplyPatch(rows, files).1.Written? then rows + Changed(rows, files) else rows
  {
    if FirstConflict(rows, files) == |files| {
      DistinctPathsNeverCollide(rows, rows, files);
      WriteAllAppends(rows, rows, files);
    }
  }

  lemma {:induction false} ChangedDeclared(rows: seq<Revision>, files: seq<PatchFile>, i: nat)
    requires i < |Changed(rows, files)|
    ensures exists j :: 0 <= j < |files| && IsWriteOf(Changed(rows, files)[i], files[j])
  {
    var mine := if PlanOf(rows, files[0]).shouldWrite then 1 else 0;
    if i < mine {
      assert IsWriteOf(Changed(rows, files)[i], files[0]);
    } else {
      ChangedDeclared(rows, files[1..], i - mine);
      var j :| 0 <= j < |files[1..]| && IsWriteOf(Changed(rows, files[1..])[i - mine], files[1..][j]);
      assert IsWriteOf(Changed(rows, files)[i], files[j + 1]);
    }
  }

  /** Revision v + 1 is written only by a writer that declared v, whoever the writer is. */
  lemma WritersDeclaredPredecessor(rows: seq<Revision>, step: Step, i: nat)
    requires |rows| <= i < |Apply(rows, step)|
    ensures var row := Apply(rows, step)[i];
      match step
      case Patch(files) => exists j :: 0 <= j < |files| && IsWriteOf(row, files[j])
      case Edit(path, content, expected) => IsWriteOf(row, PatchFile(path, content, expected))
  {
    match step
    case Patch(files) =>
      WriteAllAppends(rows, rows, files);
      assert Apply(rows, step)[i] == Changed(rows, files)[i - |rows|];
      ChangedDeclared(rows, files, i - |rows|);
    case Edit(path, content, expected) =>
  }

  function PathsOf(rows: seq<Revision>): seq<Path> {
    seq(|rows|, i requires 0 <= i < |rows| => rows[i].path)
  }

  lemma {:induction false} WriteAllLists(rows: seq<Revision>, plans: seq<FilePlan>)
    requires WriteAll(rows, plans).Some?
    ensures var after := WriteAll(rows, plans).value;
      rows <= after && WrittenPaths(plans) == PathsOf(after[|rows|..])
    decreases |plans|
  {
    if plans != [] {
      var plan := plans[0];
      if plan.shouldWrite {
        var row := Revision(plan.path, plan.actualVersion + 1, plan.content);
        WriteAllLists(rows + [row], plans[1..]);
        var after := WriteAll(rows, plans).value;
        assert after[|rows|..] == [row] + after[|rows| + 1..];
        assert PathsOf([row] + after[|rows| + 1..]) == [plan.path] + PathsOf(after[|rows| + 1..]);
      } else {
        WriteAllLists(rows, plans[1..]);
      }
    }
  }

  lemma LatestOfNewRow(rows: seq<Revision>, row: Revision, path: Path)
    requires ActualVersion(rows, row.path) <= row.version
    ensures Latest(rows + [row], path) == if row.path == path then Some(row) else Latest(rows, path)
  {
    assert (rows + [row])[..|rows|] == rows;
  }

  /** The revision of a path that a patch adds, if it adds one. */
  function NewRow(rows: seq<Revision>, files: seq<PatchFile>, path: Path): Option<Revision> {
    if files == [] then None
    else if files[0].path == path && PlanOf(rows, files[0]).shouldWrite then Some(WriteOf(files[0]))
    else NewRow(rows, files[1..], path)
  }

  lemma {:induction false} NotInPatch(rows: seq<Revision>, files: seq<PatchFile>, path: Path)
    requires forall i :: 0 <= i < |files| ==> files[i].path != path
    ensures NewRow(rows, files, path) == None
  {
    if files != [] {
      NotInPatch(rows, files[1..], path);
    }
  }

  /** `now` holds the rows of `rows` and nothing yet of these files, which declare what is stored. */
  predicate StillToWrite(rows: seq<Revision>, now: seq<Revision>, files: seq<PatchFile>) {
    forall i :: 0 <= i < |files| ==>
      && files[i].expectedVersion == ActualVersion(rows, files[i].path)
      && Latest(now, files[i].path) == Latest(rows, files[i].path)
  }

  function WrittenFirst(rows: seq<Revision>, now: seq<Revision>, files: seq<PatchFile>): seq<Revision>
    requires files != []
  {
    if PlanOf(rows, files[0]).shouldWrite then now + [WriteOf(files[0])] else now
  }

  lemma FirstWritten(rows: seq<Revision>, now: seq<Revision>, files: seq<PatchFile>, path: Path)
    requires files != [] && StillToWrite(rows, now, files)
    ensures Latest(WrittenFirst(rows, now, files), path)
      == if PlanOf(rows, files[0]).shouldWrite && files[0].path == path then Some(WriteOf(files[0])) else Latest(now, path)
  {
    LatestOfNewRow(now, WriteOf(files[0]), path);
  }

  lemma RestStillToWrite(rows: seq<Revision>, now: seq<Revision>, files: seq<PatchFile>)
    requires files != [] && DistinctPaths(files) && StillToWrite(rows, now, files)
    ensures DistinctPaths(files[1..]) && StillToWrite(rows, WrittenFirst(rows, now, files), files[1..])
    ensures forall i :: 0 <= i < |files[1..]| ==> files[1..][i].path != files[0].path
  {
    var rest := files[1..];
    forall i | 0 <= i < |rest|
      ensures rest[i].expectedVersion == ActualVersion(rows, rest[i].path) && rest[i].path != files[0].path
      ensures Latest(WrittenFirst(rows, now, files), rest[i].path) == Latest(rows, rest[i].path)
    {
      assert rest[i] == files[i + 1];
      FirstWritten(rows, now, files, rest[i].path);
    }
  }

  lemma ChangedInTurn(rows: seq<Revision>, now: seq<Revision>, files: seq<PatchFile>)
    requires files != []
    ensures now + Changed(rows, files) == WrittenFirst(rows, now, files) + Changed(rows, files[1..])
  {
  }

  lemma {:induction false} LatestAfter(rows: seq<Revision>, now: seq<Revision>, files: seq<PatchFile>, path: Path)
    requires DistinctPaths(files) && StillToWrite(rows, now, files)
    ensures Latest(now + Changed(rows, files), path)
      == if NewRow(rows, files, path).Some? then NewRow(rows, files, path) else Latest(now, path)
    decreases |files|
  {
    if files == [] {
      assert now + [] == now;
    } else {
      FirstWritten(rows, now, files, path);
      RestStillToWrite(rows, now, files);
      LatestAfter(rows, WrittenFirst(rows, now, files), files[1..], path);
      ChangedInTurn(rows, now, files);
      if files[0].path == path {
        NotInPatch(rows, files[1..], path);
      }
    }
  }

  lemma {:induction false} NewRowOf(rows: seq<Revision>, files: seq<PatchFile>, i: nat)
    requires DistinctPaths(files) && i < |files|
    ensures NewRow(rows, files, files[i].path)
      == if PlanOf(rows, files[i]).shouldWrite then Some(WriteOf(files[i])) else None
    decreases i
  {
    if i > 0 {
      assert DistinctPaths(files[1..]);
      NewRowOf(rows, files[1..], i - 1);
    } else {
      assert forall j :: 0 <= j < |files[1..]| ==> files[1..][j] == files[j + 1];
      NotInPatch(rows, files[1..], files[0].path);
    }
  }

  /**
   * A committed patch reads back: each of its files has the content it gave, one version up if that
   * differs from what was stored and at the same version if it does not; every other file is as it was.
   */
  lemma PatchIsReadBack(rows: seq<Revision>, files: seq<PatchFile>, path: Path)
    requires DistinctPaths(files) && ApplyPatch(rows, files).1.Written?
    ensures var before, after := Latest(rows, path), Latest(ApplyPatch(rows, files).0, path);
      && (forall i :: 0 <= i < |files| && files[i].path == path ==>
            && after.Some? && after.value.content == files[i].content
            && after.value.version == files[i].expectedVersion
                 + if before.Some? && before.value.content == files[i].content then 0 else 1)
      && ((forall i :: 0 <= i < |files| ==> files[i].path != path) ==> after == before)
  {
    PatchIsAtomic(rows, files);
    LatestAfter(rows, rows, files, path);
    if forall i :: 0 <= i < |files| ==> files[i].path != path {
      NotInPatch(rows, files, path);
    }
    forall i | 0 <= i < |files| && files[i].path == path
      ensures NewRow(rows, files, path) == if PlanOf(rows, files[i]).shouldWrite then Some(WriteOf(files[i])) else None
    {
      NewRowOf(rows, files, i);
    }
  }

  /** A committed patch lists exactly the paths of the rows it added, in order. */
  lemma PatchListsWhatItWrote(rows: seq<Revision>, files: seq<PatchFile>)
    requires ApplyPatch(rows, files).1.Written?
    ensures rows <= ApplyPatch(rows, files).0
    ensures ApplyPatch(rows, files).1.paths == PathsOf(ApplyPatch(rows, files).0[|rows|..])
  {
    WriteAllLists(rows, Plans(rows, files));
  }

  /** A user's edit is saved exactly when it declares the stored version, 0 for a new file; a conflict names that version. */
  lemma EditIsSavedExactly(rows: seq<Revision>, path: Path, content: string, expected: nat)
    requires WellNumbered(rows)
    ensures var own := RowsOf(rows, path);
      var (after, r) := Put(rows, path, content, expected);
      if expected == |own| then
        && r == Saved(Revision(path, |own| + 1, content)) && after == rows + [Revision(path, |own| + 1, content)]
      else r == VersionConflict(if own == [] then None else Some(|own|)) && after == rows
  {
    ActualIsCount(rows, path);
  }

  // ---- Snapshots ----

  /** The files given to the model: for every path the latest stored version, once. */
  ghost predicate IsSnapshot(seen: seq<SeenFile>, rows: seq<Revision>) {
    && (forall i :: 0 <= i < |seen| ==> seen[i].version == ActualVersion(rows, seen[i].path))
    && (forall i :: 0 <= i < |rows| ==> SeenFile(rows[i].path, ActualVersion(rows, rows[i].path)) in seen)
  }

  lemma SnapshotVersions(seen: seq<SeenFile>, rows: seq<Revision>, path: Path)
    requires IsSnapshot(seen, rows) && WellNumbered(rows)
    ensures Observed(seen, path) == ActualVersion(rows, path)
  {
  }

  lemma {:induction false} HistoryGrows(rows: seq<Revision>, steps: seq<Step>)
    requires WellNumbered(rows)
    ensures WellNumbered(Run(rows, steps)) && rows <= Run(rows, steps)
  {
    if steps != [] {
      HistoryGrows(rows, steps[..|steps| - 1]);
      StepKeepsNumbering(Run(rows, steps[..|steps| - 1]), steps[|steps| - 1]);
    }
  }

  /** As rows are only added, an unchanged version number means an unchanged file. */
  lemma SameVersionSameRows(rows: seq<Revision>, later: seq<Revision>, path: Path)
    requires WellNumbered(rows) && WellNumbered(later) && rows <= later
    ensures ActualVersion(later, path) == ActualVersion(rows, path) <==> RowsOf(later, path) == RowsOf(rows, path)
  {
    ActualIsCount(rows, path);
    ActualIsCount(later, path);
    assert later == rows + later[|rows|..];
    RowsOfConcat(rows, later[|rows|..], path);
  }

  /**
   * The agent's patch, aligned to the snapshot it was shown, commits exactly when no touched
   * path got a new revision in between; so what it replaces is what the model saw.
   */
  lemma AgentPatchSeesNoStaleFile(rows: seq<Revision>, steps: seq<Step>, seen: seq<SeenFile>, files: seq<PatchFile>)
    requires WellNumbered(rows) && IsSnapshot(seen, rows) && DistinctPaths(files)
    ensures var later := Run(rows, steps);
      ApplyPatch(later, Aligned(seen, files)).1.Written? <==>
        forall i :: 0 <= i < |files| ==> RowsOf(later, files[i].path) == RowsOf(rows, files[i].path)
  {
    var later := Run(rows, steps);
    HistoryGrows(rows, steps);
    var aligned := Aligned(seen, files);
    assert DistinctPaths(aligned);
    PatchIsAtomic(later, aligned);
    forall i | 0 <= i < |files|
      ensures aligned[i].path == files[i].path
      ensures ActualVersion(later, aligned[i].path) == aligned[i].expectedVersion
        <==> RowsOf(later, files[i].path) == RowsOf(rows, files[i].path)
    {
      SnapshotVersions(seen, rows, files[i].path);
      SameVersionSameRows(rows, later, files[i].path);
    }
  }
}
