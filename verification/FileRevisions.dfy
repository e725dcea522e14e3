/** Revisions of one project's files, written by agent patches and by users. */
module FileRevisions {
  import opened Wrappers

  type Path = string

  /** One stored row; rows are only ever added. */
  datatype Revision = Revision(path: Path, version: nat, content: string)

  /** A file of a patch, with the version its writer declares to have seen (0: none). */
  datatype PatchFile = PatchFile(path: Path, content: string, expectedVersion: nat)

  datatype PatchResult =
    | Written(paths: seq<Path>)
    | Conflict(path: Path, expected: nat, actual: nat)
    | UniqueViolation

  datatype PutResult = Saved(file: Revision) | VersionConflict(actual: Option<nat>)

  // ---- Reading ----

  /** The row with the highest version, as `findFirst … orderBy version desc` finds it. */
  function Latest(rows: seq<Revision>, path: Path): (r: Option<Revision>)
    ensures r.Some? ==> r.value in rows && r.value.path == path
    ensures r.None? <==> forall i :: 0 <= i < |rows| ==> rows[i].path != path
    ensures forall i :: 0 <= i < |rows| && rows[i].path == path ==> rows[i].version <= r.value.version
  {
    if rows == [] then None
    else
      var row, rest := rows[|rows| - 1], Latest(rows[..|rows| - 1], path);
      if row.path == path && (rest.None? || rest.value.version <= row.version) then Some(row) else rest
  }

  function ActualVersion(rows: seq<Revision>, path: Path): nat {
    var latest := Latest(rows, path);
    if latest.Some? then latest.value.version else 0
  }

  // ---- Agent patches ----

  datatype FilePlan = FilePlan(path: Path, content: string, actualVersion: nat, shouldWrite: bool)

  function PlanOf(rows: seq<Revision>, file: PatchFile): FilePlan {
    var latest := Latest(rows, file.path);
    FilePlan(file.path, file.content, ActualVersion(rows, file.path),
             latest.None? || latest.value.content != file.content)
  }

  /** Index of the first file whose declared version is not the stored one. */
  function FirstConflict(rows: seq<Revision>, files: seq<PatchFile>): (i: nat)
    ensures i <= |files|
    ensures forall j :: 0 <= j < i ==> ActualVersion(rows, files[j].path) == files[j].expectedVersion
    ensures i < |files| ==> ActualVersion(rows, files[i].path) != files[i].expectedVersion
  {
    if files == [] || ActualVersion(rows, files[0].path) != files[0].expectedVersion then 0
    else 1 + FirstConflict(rows, files[1..])
  }

  function Plans(rows: seq<Revision>, files: seq<PatchFile>): (r: seq<FilePlan>)
    ensures |r| == |files| && forall i :: 0 <= i < |files| ==> r[i] == PlanOf(rows, files[i])
  {
    seq(|files|, i requires 0 <= i < |files| => PlanOf(rows, files[i]))
  }

  predicate Exists(rows: seq<Revision>, path: Path, version: nat) {
    exists i :: 0 <= i < |rows| && rows[i].path == path && rows[i].version == version
  }

  /** The write loop; nothing is committed once the (path, version) constraint fails. */
  function WriteAll(rows: seq<Revision>, plans: seq<FilePlan>): Option<seq<Revision>>
    decreases |plans|
  {
    if plans == [] then Some(rows)
    else
      var plan := plans[0];
      if !plan.shouldWrite then WriteAll(rows, plans[1..])
      else if Exists(rows, plan.path, plan.actualVersion + 1) then None
      else WriteAll(rows + [Revision(plan.path, plan.actualVersion + 1, plan.content)], plans[1..])
  }

  function WrittenPaths(plans: seq<FilePlan>): seq<Path> {
    if plans == [] then []
    else (if plans[0].shouldWrite then [plans[0].path] else []) + WrittenPaths(plans[1..])
  }

  lemma Reassociate(a: seq<Path>, x: Path, b: seq<Path>)
    ensures (a + [x]) + b == a + ([x] + b)
  {
  }

  function ApplyPatch(rows: seq<Revision>, files: seq<PatchFile>): (seq<Revision>, PatchResult) {
    var i := FirstConflict(rows, files);
    if i < |files| then
      (rows, Conflict(files[i].path, files[i].expectedVersion, ActualVersion(rows, files[i].path)))
    else
      match WriteAll(rows, Plans(rows, files))
      case None => (rows, UniqueViolation)
      case Some(after) => (after, Written(WrittenPaths(Plans(rows, files))))
  }

  // ---- User edits ----

  function Put(rows: seq<Revision>, path: Path, content: string, expectedVersion: nat): (seq<Revision>, PutResult) {
    var latest := Latest(rows, path);
    var actual := if latest.Some? then Some(latest.value.version) else None;
    var matches := if expectedVersion == 0 then latest.None? else actual == Some(expectedVersion);
    if !matches then (rows, VersionConflict(actual))
    else
      var file := Revision(path, (if actual.Some? then actual.value else 0) + 1, content);
      (rows + [file], Saved(file))
  }

  /** The `project_files` table of one project. */
  class ProjectFiles {
    var rows: seq<Revision>

    constructor ()
      ensures rows == []
    {
      rows := [];
    }

    /** Check every file before anything is written. */
    method PlanFiles(files: seq<PatchFile>) returns (r: Result<seq<FilePlan>, PatchResult>)
      ensures var i := FirstConflict(rows, files);
        r == if i < |files|
             then Err(Conflict(files[i].path, files[i].expectedVersion, ActualVersion(rows, files[i].path)))
             else Ok(Plans(rows, files))
    {
      var filePlans: seq<FilePlan> := [];
      for i := 0 to |files|
        invariant |filePlans| == i
        invariant forall j :: 0 <= j < i ==> filePlans[j] == PlanOf(rows, files[j])
        invariant FirstConflict(rows, files) == i + FirstConflict(rows, files[i..])
      {
        var file := files[i];
        var latest := Latest(rows, file.path);
        var actualVersion := if latest.Some? then latest.value.version else 0;
        assert files[i..][1..] == files[i + 1..];
        if actualVersion != file.expectedVersion {
          return Err(Conflict(file.path, file.expectedVersion, actualVersion));
        }
        filePlans := filePlans + [FilePlan(file.path, file.content, actualVersion,
                                           latest.None? || latest.value.content != file.content)];
      }
      assert filePlans == Plans(rows, files);
      r := Ok(filePlans);
    }

    /** The file part of `completeTask` and `applyGeneratedFiles`: check every file, then write. */
    method ApplyGeneratedFiles(files: seq<PatchFile>) returns (r: PatchResult)
      modifies this
      ensures (rows, r) == ApplyPatch(old(rows), files)
    {
      var planned := PlanFiles(files);
      if planned.Err? {
        return planned.error;
      }
      var filePlans, before := planned.value, rows;
      var writtenPaths: seq<Path> := [];
      assert filePlans[0..] == filePlans;
      for i := 0 to |filePlans|
        invariant WriteAll(rows, filePlans[i..]) == WriteAll(before, filePlans)
        invariant writtenPaths + WrittenPaths(filePlans[i..]) == WrittenPaths(filePlans)
      {
        var plan := filePlans[i];
        assert filePlans[i..][1..] == filePlans[i + 1..];
        if !plan.shouldWrite {
          continue;
        }
        if Exists(rows, plan.path, plan.actualVersion + 1) {
          rows := before;  // the transaction is rolled back
          return UniqueViolation;
        }
        rows := rows + [Revision(plan.path, plan.actualVersion + 1, plan.content)];
        Reassociate(writtenPaths, plan.path, WrittenPaths(filePlans[i + 1..]));
        writtenPaths := writtenPaths + [plan.path];
      }
      assert filePlans[|filePlans|..] == [];
      assert WriteAll(before, filePlans) == Some(rows);
      assert WrittenPaths(filePlans) == writtenPaths;
      r := Written(writtenPaths);
    }

    method PutProjectFile(path: Path, content: string, expectedVersion: nat) returns (r: PutResult)
      modifies this
      ensures (rows, r) == Put(old(rows), path, content, expectedVersion)
    {
      var latest := Latest(rows, path);
      var actualVersion := if latest.Some? then Some(latest.value.version) else None;
      var expectedMatches := if expectedVersion == 0 then latest.None? else actualVersion == Some(expectedVersion);
      if !expectedMatches {
        return VersionConflict(actualVersion);
      }
      var file := Revision(path, (if actualVersion.Some? then actualVersion.value else 0) + 1, content);
      rows := rows + [file];
      r := Saved(file);
    }
  }

  // ---- The snapshot versions an agent patch carries ----

  /** A file as the model was shown it. */
  datatype SeenFile = SeenFile(path: Path, version: nat)

  function Raised(known: nat, file: SeenFile, path: Path): nat {
    if file.path == path && known < file.version then file.version else known
  }

  /** The highest version of a path in the snapshot, 0 when it is not there. */
  function Observed(seen: seq<SeenFile>, path: Path): (v: nat)
    ensures forall i :: 0 <= i < |seen| && seen[i].path == path ==> seen[i].version <= v
    ensures v > 0 ==> SeenFile(path, v) in seen
  {
    if seen == [] then 0
    else Raised(Observed(seen[..|seen| - 1], path), seen[|seen| - 1], path)
  }

  function Aligned(seen: seq<SeenFile>, files: seq<PatchFile>): (r: seq<PatchFile>)
    ensures |r| == |files|
    ensures forall i :: 0 <= i < |files| ==>
      r[i] == PatchFile(files[i].path, files[i].content, Observed(seen, files[i].path))
  {
    seq(|files|, i requires 0 <= i < |files| =>
      PatchFile(files[i].path, files[i].content, Observed(seen, files[i].path)))
  }

  /** `alignExpectedVersions`: the declared versions come from the snapshot, never from the model. */
  method AlignExpectedVersions(currentFiles: seq<SeenFile>, files: seq<PatchFile>) returns (r: seq<PatchFile>)
    ensures r == Aligned(currentFiles, files)
  {
    var observed: map<Path, nat> := map[];
    for i := 0 to |currentFiles|
      invariant forall path :: Known(observed, path) == Observed(currentFiles[..i], path)
    {
      var file := currentFiles[i];
      var known := Known(observed, file.path);
      ObservedStep(currentFiles, i);
      ghost var was := observed;
      observed := observed[file.path := if known < file.version then file.version else known];
      forall path
        ensures Known(observed, path) == Observed(currentFiles[..i + 1], path)
      {
        assert Known(was, path) == Observed(currentFiles[..i], path);
      }
    }
    assert currentFiles[..|currentFiles|] == currentFiles;
    r := seq(|files|, i requires 0 <= i < |files| =>
      PatchFile(files[i].path, files[i].content, Known(observed, files[i].path)));
  }

  function Known(observed: map<Path, nat>, path: Path): nat {
    if path in observed then observed[path] else 0
  }

  lemma ObservedStep(seen: seq<SeenFile>, i: nat)
    requires i < |seen|
    ensures forall path :: Observed(seen[..i + 1], path) == Raised(Observed(seen[..i], path), seen[i], path)
  {
  }
}
