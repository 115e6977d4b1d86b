/**
 Applying a whole patch to a workspace (src/gca/tools/patch.py, lines 243-287): plan every file against the disk,
 then write.
 */
module PatchFiles {
  import opened Wrappers
  import opened Text
  import opened PatchParse
  import opened PatchApply

  type Files = map<string, string>

  /** The check of the new content of a file, `validate_python_source`. */
  type Check = (string, string) -> bool

  datatype PatchError =
    | Unreadable(why: ParseError)
    | NoPath
    | MissingFile(path: string)
    | AlreadyThere(path: string)
    | NoContext(path: string)
    | Rejected(path: string)
    | WriteFailed(path: string)

  datatype Change = Write(path: string, content: string) | Delete(path: string)

  datatype Note = Deleted(path: string) | Updated(path: string) | Created(path: string)

  // ---------------------------------------------------------------- planning

  function PlanEdit(files: Files, path: string, original: string, hunks: seq<Hunk>, accepts: Check)
      : Result<Change, PatchError> {
    var content := AppliedText(original, hunks);
    if content.None? then Failure(NoContext(path))
    else if !accepts(path, content.value) then Failure(Rejected(path))
    else Success(Write(path, content.value))
  }

  /** What one file patch does to the disk it is planned against. */
  function PlanOne(files: Files, patch: FilePatch, accepts: Check): Result<Change, PatchError> {
    if patch.IsDeletion() then
      if patch.oldPath.None? then Failure(NoPath)
      else if patch.oldPath.value !in files then Failure(MissingFile(patch.oldPath.value))
      else Success(Delete(patch.oldPath.value))
    else
      var path := patch.newPath.value;
      if patch.IsCreation() then
        if path in files then Failure(AlreadyThere(path)) else PlanEdit(files, path, "", patch.hunks, accepts)
      else if path !in files then Failure(MissingFile(path))
      else PlanEdit(files, path, files[path], patch.hunks, accepts)
  }

  function Planned(files: Files, patches: seq<FilePatch>, accepts: Check): Result<seq<Change>, PatchError> {
    if patches == [] then Success([])
    else
      var first := PlanOne(files, patches[0], accepts);
      if first.Failure? then Failure(first.error)
      else
        var rest := Planned(files, patches[1..], accepts);
        Continued([first.value], rest)
  }

  // ---------------------------------------------------------------- writing

  function After(files: Files, change: Change): Files {
    match change
    case Write(path, content) => files[path := content]
    case Delete(path) => files - {path}
  }

  function NoteOf(files: Files, change: Change): Note {
    match change
    case Write(path, _) => if path in files then Updated(path) else Created(path)
    case Delete(path) => Deleted(path)
  }

  /** The disk and the summary after the writes; deleting a file that is gone stops them half-way. */
  function Executed(files: Files, plan: seq<Change>): (Files, Result<seq<Note>, PatchError>)
    decreases |plan|
  {
    if plan == [] then (files, Success([]))
    else if plan[0].Delete? && plan[0].path !in files then (files, Failure(WriteFailed(plan[0].path)))
    else
      var (after, notes) := Executed(After(files, plan[0]), plan[1..]);
      (after, Continued([NoteOf(files, plan[0])], notes))
  }

  function Patched(files: Files, patches: seq<FilePatch>, accepts: Check): (Files, Result<seq<Note>, PatchError>) {
    var plan := Planned(files, patches, accepts);
    if plan.Failure? then (files, Failure(plan.error)) else Executed(files, plan.value)
  }

  function Outcome(files: Files, diff: string, accepts: Check): (Files, Result<seq<Note>, PatchError>) {
    var patches := Parse(diff);
    if patches.Failure? then (files, Failure(Unreadable(patches.error))) else Patched(files, patches.value, accepts)
  }

  /** A sequence with more to come, unless what comes failed. */
  function Continued<T, E>(done: seq<T>, rest: Result<seq<T>, E>): Result<seq<T>, E> {
    if rest.Failure? then rest else Success(done + rest.value)
  }

  lemma ContinuedMore<T, E>(done: seq<T>, x: T, rest: Result<seq<T>, E>)
    ensures Continued(done, Continued([x], rest)) == Continued(done + [x], rest)
    ensures Continued([], rest) == rest && Continued(done, Success([])) == Result<seq<T>, E>.Success(done)
  {
    if rest.Success? {
      assert done + ([x] + rest.value) == done + [x] + rest.value;
      assert [] + rest.value == rest.value;
    }
    assert done + [] == done;
  }

  lemma FailureStays<T, E>(done: seq<T>, rest: Result<seq<T>, E>)
    requires rest.Failure?
    ensures Continued(done, rest) == rest
  {
  }

  class Workspace {
    var files: Files

    constructor (files: Files)
      ensures this.files == files
    {
      this.files := files;
    }

    method ApplyPatch(diff: string, accepts: Check) returns (summary: Result<seq<Note>, PatchError>)
      modifies this
      ensures (files, summary) == Outcome(old(files), diff, accepts)
    {
      hide Parse, AppliedText, Continued;
      var patches := ParseUnifiedDiff(diff);
      if patches.Failure? {
        return Failure(Unreadable(patches.error));
      }
      var planned: seq<Change> := [];
      ContinuedMore(planned, Delete(""), Planned(files, patches.value, accepts));
      for i := 0 to |patches.value|
        invariant files == old(files)
        invariant Planned(files, patches.value, accepts) ==
                  Continued(planned, Planned(files, patches.value[i..], accepts))
      {
        var patch := patches.value[i];
        assert patches.value[i..][1..] == patches.value[i + 1..];
        var change := Plan(patch, accepts);
        if change.Failure? {
          assert Continued(planned, Planned(files, patches.value[i..], accepts)) == Failure(change.error) by {
            FailureStays(planned, Result<seq<Change>, PatchError>.Failure(change.error));
          }
          return Failure(change.error);
        }
        ContinuedMore(planned, change.value, Planned(files, patches.value[i + 1..], accepts));
        planned := planned + [change.value];
      }
      ContinuedMore(planned, Delete(""), Result<seq<Change>, PatchError>.Success([]));
      summary := WriteAll(planned);
    }

    method Plan(patch: FilePatch, accepts: Check) returns (change: Result<Change, PatchError>)
      ensures change == PlanOne(files, patch, accepts)
      ensures change.Success? ==>
                && Target(patch) == Some(change.value.path)
                && (change.value.Delete? <==> patch.IsDeletion())
                && (change.value.path in files <==> !patch.IsCreation() || patch.IsDeletion())
                && (change.value.Write? ==>
                      accepts(change.value.path, change.value.content) &&
                      Some(change.value.content) ==
                      AppliedText(if patch.IsCreation() then "" else files[change.value.path], patch.hunks))
      ensures Target(patch).None? <==> change == Failure(NoPath)
      ensures Target(patch).Some? && change.Failure? ==>
                var path, creates := Target(patch).value, patch.IsCreation() && !patch.IsDeletion();
                || (change.error == AlreadyThere(path) && creates && path in files)
                || (change.error == MissingFile(path) && !creates && path !in files)
                || (change.error == NoContext(path) && !patch.IsDeletion() && (creates <==> path !in files) &&
                    AppliedText(if creates then "" else files[path], patch.hunks).None?)
                || (change.error == Rejected(path) && !patch.IsDeletion() && (creates <==> path !in files) &&
                    var content := AppliedText(if creates then "" else files[path], patch.hunks);
                    content.Some? && !accepts(path, content.value))
    {
      if patch.IsDeletion() {
        if patch.oldPath.None? {
          return Failure(NoPath);
        }
        if patch.oldPath.value !in files {
          return Failure(MissingFile(patch.oldPath.value));
        }
        return Success(Delete(patch.oldPath.value));
      }
      var path := patch.newPath.value;
      var original := "";
      if patch.IsCreation() {
        if path in files {
          return Failure(AlreadyThere(path));
        }
      } else {
        if path !in files {
          return Failure(MissingFile(path));
        }
        original := files[path];
      }
      var content := ApplyHunks(original, patch.hunks);
      if content.None? {
        return Failure(NoContext(path));
      }
      if !accepts(path, content.value) {
        return Failure(Rejected(path));
      }
      return Success(Write(path, content.value));
    }

    method WriteAll(planned: seq<Change>) returns (summary: Result<seq<Note>, PatchError>)
      modifies this
      ensures (files, summary) == Executed(old(files), planned)
    {
      hide Continued;
      var notes: seq<Note> := [];
      ContinuedMore(notes, Deleted(""), Executed(files, planned).1);
      for i := 0 to |planned|
        invariant Executed(old(files), planned).0 == Executed(files, planned[i..]).0
        invariant Executed(old(files), planned).1 == Continued(notes, Executed(files, planned[i..]).1)
      {
        assert planned[i..][1..] == planned[i + 1..];
        ContinuedMore(notes, NoteOf(files, planned[i]), Executed(After(files, planned[i]), planned[i + 1..]).1);
        match planned[i] {
          case Delete(path) =>
            if path !in files {
              FailureStays(notes, Result<seq<Note>, PatchError>.Failure(WriteFailed(path)));
              return Failure(WriteFailed(path));
            }
            files := files - {path};
            notes := notes + [Deleted(path)];
          case Write(path, content) =>
            notes := notes + [if path in files then Updated(path) else Created(path)];
            files := files[path := content];
        }
      }
      ContinuedMore(notes, Deleted(""), Result<seq<Note>, PatchError>.Success([]));
      return Success(notes);
    }
  }

  // ---------------------------------------------------------------- what the summary says

  lemma ExecutedStep(files: Files, plan: seq<Change>)
    requires plan != [] && Executed(files, plan).1.Success?
    ensures plan[0].Delete? ==> plan[0].path in files
    ensures var (after, notes) := Executed(After(files, plan[0]), plan[1..]);
            notes.Success? && Executed(files, plan) == (after, Success([NoteOf(files, plan[0])] + notes.value))
  {
  }

  /** The plan up to some change, from the disk after the first one. */
  lemma ExecutedFront(files: Files, plan: seq<Change>, i: nat)
    requires 0 < i <= |plan| && Executed(files, plan).1.Success?
    ensures Executed(files, plan[..i]).0 == Executed(After(files, plan[0]), plan[1..][..i - 1]).0
  {
    ExecutedStep(files, plan);
    assert plan[..i][0] == plan[0] && plan[..i][1..] == plan[1..][..i - 1];
  }

  /** The summary of a patch has one note for each change, and tells new files from old ones. */
  lemma {:induction false} SummaryTells(files: Files, plan: seq<Change>, i: nat)
    requires Executed(files, plan).1.Success? && i < |plan|
    ensures var notes, before := Executed(files, plan).1.value, Executed(files, plan[..i]).0;
            && |notes| == |plan|
            && notes[i] == match plan[i]
                           case Delete(path) => Deleted(path)
                           case Write(path, _) => if path in before then Updated(path) else Created(path)
    decreases |plan|
  {
    hide Executed, After;
    ExecutedStep(files, plan);
    if i > 0 {
      ExecutedFront(files, plan, i);
      SummaryTells(After(files, plan[0]), plan[1..], i - 1);
    } else {
      NothingExecuted(files, plan);
      if |plan| > 1 {
        SummaryTells(After(files, plan[0]), plan[1..], 0);
      }
    }
  }

  lemma NothingExecuted(files: Files, plan: seq<Change>)
    ensures plan[..0] == [] && Executed(files, plan[..0]) == (files, Success([]))
    ensures plan == [] ==> Executed(files, plan) == (files, Success([]))
    ensures |plan| == 1 ==> forall disk :: Executed(disk, plan[1..]) == (disk, Success([]))
  {
  }

  // ---------------------------------------------------------------- when the writes fail

  predicate Untouched(plan: seq<Change>, path: string, i: nat, j: nat) {
    forall k | i <= k < j && k < |plan| :: plan[k].path != path
  }

  /** Change `j` deletes what change `i` deleted, with nothing written there in between. */
  predicate DeletesAgain(plan: seq<Change>, i: nat, j: nat) {
    i < j < |plan| && plan[i].Delete? && plan[j] == plan[i] && Untouched(plan, plan[j].path, i + 1, j)
  }

  /** Change `j` deletes a file that is gone by then. */
  ghost predicate Gone(files: Files, plan: seq<Change>, j: nat) {
    && j < |plan| && plan[j].Delete?
    && ((plan[j].path !in files && Untouched(plan, plan[j].path, 0, j)) || exists i: nat :: DeletesAgain(plan, i, j))
  }

  lemma GoneLater(files: Files, plan: seq<Change>, j: nat)
    requires 0 < j < |plan|
    ensures Gone(files, plan, j) <==> Gone(After(files, plan[0]), plan[1..], j - 1)
  {
    var rest, path := plan[1..], plan[j].path;
    assert rest[j - 1] == plan[j];
    assert forall k | 0 < k < |plan| :: plan[k] == rest[k - 1];
    assert Untouched(plan, path, 0, j) <==> plan[0].path != path && Untouched(rest, path, 0, j - 1);
    forall i: nat | 0 < i
      ensures DeletesAgain(plan, i, j) <==> DeletesAgain(rest, i - 1, j - 1)
    {
      if i < j {
        assert Untouched(plan, path, i + 1, j) <==> Untouched(rest, path, i, j - 1);
      }
    }
    assert DeletesAgain(plan, 0, j) <==> plan[0] == Delete(path) && plan[j].Delete? && Untouched(rest, path, 0, j - 1);
    if i: nat :| DeletesAgain(plan, i, j) {
      if i > 0 {
        assert DeletesAgain(rest, i - 1, j - 1);
      }
    }
    var before: nat := j - 1;
    if i: nat :| DeletesAgain(rest, i, before) {
      assert DeletesAgain(plan, i + 1, j);
    }
  }

  lemma {:induction false} WritesFail(files: Files, plan: seq<Change>)
    ensures Executed(files, plan).1.Failure? <==> exists j: nat :: Gone(files, plan, j)
    decreases |plan|
  {
    if plan != [] {
      var after, rest := After(files, plan[0]), plan[1..];
      assert Gone(files, plan, 0) <==> plan[0].Delete? && plan[0].path !in files;
      if !Gone(files, plan, 0) {
        WritesFail(after, rest);
        hide Gone, After;
        if j: nat :| Gone(files, plan, j) {
          assert 0 < j < |plan| by { GoneIndex(files, plan, j); }
          GoneLater(files, plan, j);
        }
        if j: nat :| Gone(after, rest, j) {
          assert j < |rest| by { GoneIndex(after, rest, j); }
          GoneLater(files, plan, j + 1);
        }
      }
    }
  }

  lemma GoneIndex(files: Files, plan: seq<Change>, j: nat)
    requires Gone(files, plan, j)
    ensures j < |plan|
  {
  }

  // ---------------------------------------------------------------- what a patch leaves behind

  function Lookup(files: Files, path: string): Option<string> {
    if path in files then Some(files[path]) else None
  }

  function Effect(change: Change): Option<string> {
    if change.Write? then Some(change.content) else None
  }

  /** The file a patch is about; `None` when both its paths are /dev/null. */
  function Target(patch: FilePatch): Option<string> {
    if patch.IsDeletion() then patch.oldPath else patch.newPath
  }

  predicate LastOn(plan: seq<Change>, i: nat) {
    i < |plan| && Untouched(plan, plan[i].path, i + 1, |plan|)
  }

  /** The last change of a path decides it, and no other path changes. */
  lemma {:induction false} LastChangeWins(files: Files, plan: seq<Change>)
    requires Executed(files, plan).1.Success?
    ensures var after := Executed(files, plan).0;
            && (forall path: string | Untouched(plan, path, 0, |plan|) :: Lookup(after, path) == Lookup(files, path))
            && (forall i: nat | LastOn(plan, i) :: Lookup(after, plan[i].path) == Effect(plan[i]))
    decreases |plan|
  {
    if plan != [] {
      var rest, middle := plan[1..], After(files, plan[0]);
      LastChangeWins(middle, rest);
      var after := Executed(files, plan).0;
      assert after == Executed(middle, rest).0;
      hide Executed;
      assert forall k | 0 < k < |plan| :: plan[k] == rest[k - 1];
      forall path: string | Untouched(plan, path, 0, |plan|)
        ensures Lookup(after, path) == Lookup(files, path)
      {
        assert plan[0].path != path && Untouched(rest, path, 0, |rest|);
      }
      forall i: nat | LastOn(plan, i)
        ensures Lookup(after, plan[i].path) == Effect(plan[i])
      {
        if i == 0 {
          assert Untouched(rest, plan[0].path, 0, |rest|);
        } else {
          assert LastOn(rest, i - 1);
        }
      }
    }
  }

  lemma OneTarget(files: Files, patch: FilePatch, accepts: Check)
    requires PlanOne(files, patch, accepts).Success?
    ensures var change := PlanOne(files, patch, accepts).value;
            && Target(patch) == Some(change.path)
            && (change.Delete? ==> change.path in files)
  {
    hide AppliedText;
  }

  /** Every file is planned against the disk as it was before the patch. */
  lemma {:induction false} PlannedEach(files: Files, patches: seq<FilePatch>, accepts: Check)
    ensures var plan := Planned(files, patches, accepts);
            && (plan.Success? <==> forall patch | patch in patches :: PlanOne(files, patch, accepts).Success?)
            && (plan.Success? ==>
                  && |plan.value| == |patches|
                  && forall i | 0 <= i < |patches| :: Success(plan.value[i]) == PlanOne(files, patches[i], accepts))
  {
    hide PlanOne;
    if patches != [] {
      PlannedEach(files, patches[1..], accepts);
      assert forall patch :: patch in patches <==> patch == patches[0] || patch in patches[1..];
    }
  }

  predicate Distinct(patches: seq<FilePatch>) {
    forall i, j | 0 <= i < j < |patches| :: Target(patches[i]) != Target(patches[j])
  }

  /** Two file patches delete the same file, and none between them is about it. */
  predicate DeletesTwice(patches: seq<FilePatch>, i: nat, j: nat) {
    && i < j < |patches| && patches[i].IsDeletion() && patches[j].IsDeletion()
    && Target(patches[i]) == Target(patches[j])
    && forall k | i < k < j :: Target(patches[k]) != Target(patches[i])
  }

  /** Every file patch can be planned, but one file is deleted twice. */
  ghost predicate HalfDone(files: Files, patches: seq<FilePatch>, accepts: Check) {
    && (forall patch | patch in patches :: PlanOne(files, patch, accepts).Success?)
    && exists i: nat, j: nat :: DeletesTwice(patches, i, j)
  }

  lemma PlanDeletesOnlyFiles(files: Files, patches: seq<FilePatch>, accepts: Check, j: nat)
    requires Planned(files, patches, accepts).Success? && j < |Planned(files, patches, accepts).value|
    ensures var change := Planned(files, patches, accepts).value[j];
            && j < |patches| && Target(patches[j]) == Some(change.path) && (change.Delete? ==> change.path in files)
            && (change.Delete? <==> patches[j].IsDeletion())
  {
    PlannedEach(files, patches, accepts);
    OneTarget(files, patches[j], accepts);
  }

  /** The plan deletes a file again exactly where the patch does. */
  lemma PlanDeletesTwice(files: Files, patches: seq<FilePatch>, accepts: Check, i: nat, j: nat)
    requires Planned(files, patches, accepts).Success?
    ensures DeletesAgain(Planned(files, patches, accepts).value, i, j) <==> DeletesTwice(patches, i, j)
  {
    PlannedEach(files, patches, accepts);
    var plan := Planned(files, patches, accepts).value;
    hide PlanOne, Planned, Target;
    forall k: nat | k < |patches|
      ensures Target(patches[k]) == Some(plan[k].path) && (plan[k].Delete? <==> patches[k].IsDeletion())
    {
      PlanDeletesOnlyFiles(files, patches, accepts, k);
    }
  }

  /** When the writes of deletions of present files stop, one of these files is gone from the disk they leave. */
  lemma {:induction false} StoppedShort(files: Files, plan: seq<Change>) returns (k: nat)
    requires Executed(files, plan).1.Failure?
    ensures k < |plan| && plan[k].Delete? && plan[k].path !in Executed(files, plan).0
    decreases |plan|
  {
    if plan[0].Delete? && plan[0].path !in files {
      k := 0;
    } else {
      k := StoppedShort(After(files, plan[0]), plan[1..]);
      k := k + 1;
    }
  }

  lemma HalfDoneIs(files: Files, patches: seq<FilePatch>, accepts: Check)
    requires Planned(files, patches, accepts).Success?
    ensures HalfDone(files, patches, accepts) <==> Executed(files, Planned(files, patches, accepts).value).1.Failure?
  {
    var plan := Planned(files, patches, accepts).value;
    PlannedEach(files, patches, accepts);
    WritesFail(files, plan);
    hide PlanOne, Planned, Executed, Untouched, DeletesTwice, DeletesAgain;
    if j: nat :| Gone(files, plan, j) {
      PlanDeletesOnlyFiles(files, patches, accepts, j);
      var i: nat :| DeletesAgain(plan, i, j);
      PlanDeletesTwice(files, patches, accepts, i, j);
    }
    if i: nat, j: nat :| DeletesTwice(patches, i, j) {
      PlanDeletesTwice(files, patches, accepts, i, j);
      AgainIsGone(files, plan, i, j);
    }
  }

  lemma AgainIsGone(files: Files, plan: seq<Change>, i: nat, j: nat)
    requires DeletesAgain(plan, i, j)
    ensures Gone(files, plan, j)
  {
  }

  /**
   A patch is atomic, that is, it succeeds or leaves the disk as it was, if and only if it is not the case that every
   file patch can be planned and one file is deleted twice.  It succeeds exactly when all can be planned otherwise.
   */
  lemma AllOrNothing(files: Files, patches: seq<FilePatch>, accepts: Check)
    ensures var (after, summary) := Patched(files, patches, accepts);
            && (summary.Success? || after == files <==> !HalfDone(files, patches, accepts))
            && (summary.Success? <==>
                  && (forall patch | patch in patches :: PlanOne(files, patch, accepts).Success?)
                  && !HalfDone(files, patches, accepts))
    ensures Distinct(patches) ==> !HalfDone(files, patches, accepts)
  {
    PlannedEach(files, patches, accepts);
    var plan := Planned(files, patches, accepts);
    if plan.Success? {
      HalfDoneIs(files, patches, accepts);
      hide PlanOne, Planned, HalfDone;
      if Executed(files, plan.value).1.Failure? {
        var k := StoppedShort(files, plan.value);
        PlanDeletesOnlyFiles(files, patches, accepts, k);
      }
    }
  }

  /** An input of the failing family: the second deletion of a file fails when the first is done already. */
  lemma DoubleDeletion(files: Files, path: string, accepts: Check)
    requires path in files
    ensures var twice := [FilePatch(Some(path), None, []), FilePatch(Some(path), None, [])];
            Patched(files, twice, accepts) == (files - {path}, Failure(WriteFailed(path)))
  {
    var patch := FilePatch(Some(path), None, []);
    assert [patch, patch][1..] == [patch] && [patch][1..] == [];
    var change := Delete(path);
    assert Planned(files, [], accepts) == Success([]);
    assert Planned(files, [patch], accepts) == Success([change] + []);
    assert Planned(files, [patch, patch], accepts) == Success([change] + ([change] + []));
    assert [change] + ([change] + []) == [change, change] && [change, change][1..] == [change];
    hide Planned, PlanOne;
    var gone := files - {path};
    assert Executed(gone, [change]) == (gone, Failure(WriteFailed(path)));
    assert Executed(files, [change, change]).0 == gone;
  }

  /** No later patch is about the same file. */
  predicate LastPatch(patches: seq<FilePatch>, i: nat) {
    i < |patches| && forall k | i < k < |patches| :: Target(patches[k]) != Target(patches[i])
  }

  /**
   What a successful patch leaves behind, also when it names a path twice: each named file is what the last patch
   about it makes of the original disk, and every other file is as before.
   */
  lemma LastPatchWins(files: Files, patches: seq<FilePatch>, accepts: Check)
    requires Patched(files, patches, accepts).1.Success?
    ensures var after := Patched(files, patches, accepts).0;
            && (forall path: string | (forall patch | patch in patches :: Target(patch) != Some(path)) ::
                  Lookup(after, path) == Lookup(files, path))
            && (forall i: nat | LastPatch(patches, i) ::
                  && PlanOne(files, patches[i], accepts).Success?
                  && var change := PlanOne(files, patches[i], accepts).value;
                     Target(patches[i]) == Some(change.path) && Lookup(after, change.path) == Effect(change))
  {
    PlannedEach(files, patches, accepts);
    var plan := Planned(files, patches, accepts).value;
    LastChangeWins(files, plan);
    var after := Patched(files, patches, accepts).0;
    hide PlanOne, Planned, Executed, Patched, Target, Lookup, Effect;
    forall path: string | forall patch | patch in patches :: Target(patch) != Some(path)
      ensures Lookup(after, path) == Lookup(files, path)
    {
      forall k | 0 <= k < |plan|
        ensures plan[k].path != path
      {
        PlanDeletesOnlyFiles(files, patches, accepts, k);
        assert patches[k] in patches;
      }
      assert Untouched(plan, path, 0, |plan|);
    }
    forall i: nat | LastPatch(patches, i)
      ensures && PlanOne(files, patches[i], accepts).Success?
              && var change := PlanOne(files, patches[i], accepts).value;
                 Target(patches[i]) == Some(change.path) && Lookup(after, change.path) == Effect(change)
    {
      assert patches[i] in patches;
      OneTarget(files, patches[i], accepts);
      forall k | i < k < |plan|
        ensures plan[k].path != plan[i].path
      {
        PlanDeletesOnlyFiles(files, patches, accepts, k);
      }
      assert LastOn(plan, i);
    }
  }

  // ---------------------------------------------------------------- one file at a time, in any order

  function OneByOne(files: Files, patches: seq<FilePatch>, accepts: Check): (Files, bool)
    decreases |patches|
  {
    if patches == [] then (files, true)
    else
      var (after, summary) := Patched(files, patches[..1], accepts);
      if summary.Failure? then (after, false) else OneByOne(after, patches[1..], accepts)
  }

  /** A plan depends on its own file only. */
  lemma PlanIsLocal(files: Files, other: Files, patch: FilePatch, accepts: Check)
    requires Target(patch).Some? ==> Lookup(files, Target(patch).value) == Lookup(other, Target(patch).value)
    ensures PlanOne(files, patch, accepts) == PlanOne(other, patch, accepts)
  {
    hide AppliedText;
  }

  lemma SameFiles(a: Files, b: Files)
    requires forall path: string :: Lookup(a, path) == Lookup(b, path)
    ensures a == b
  {
    assert forall path: string :: path in a <==> Lookup(a, path).Some?;
    assert forall path: string :: path in b <==> Lookup(b, path).Some?;
    assert forall path | path in a :: Lookup(a, path) == Some(a[path]) && Lookup(b, path) == Some(b[path]);
  }

  lemma {:induction false} PlansAgree(a: Files, b: Files, patches: seq<FilePatch>, accepts: Check)
    requires forall q | q in patches :: PlanOne(a, q, accepts) == PlanOne(b, q, accepts)
    ensures Planned(a, patches, accepts) == Planned(b, patches, accepts)
  {
    hide PlanOne;
    if patches != [] {
      assert patches[0] in patches;
      assert forall q | q in patches[1..] :: q in patches;
      PlansAgree(a, b, patches[1..], accepts);
    }
  }

  /** The writes of a batch are those of its first patch followed by those of the rest. */
  lemma FirstOfBatch(files: Files, patch: FilePatch, more: seq<FilePatch>, accepts: Check)
    requires PlanOne(files, patch, accepts).Success?
    requires var middle := After(files, PlanOne(files, patch, accepts).value);
             Planned(middle, more, accepts) == Planned(files, more, accepts)
    ensures var middle := After(files, PlanOne(files, patch, accepts).value);
            var (after, summary) := Patched(files, [patch] + more, accepts);
            var (rest, notes) := Patched(middle, more, accepts);
            (summary.Success? <==> notes.Success?) && (summary.Success? ==> after == rest)
  {
    OneTarget(files, patch, accepts);
    hide PlanOne, After;
    assert ([patch] + more)[1..] == more;
    var plan := Planned(files, more, accepts);
    if plan.Success? {
      var change := PlanOne(files, patch, accepts).value;
      assert ([change] + plan.value)[1..] == plan.value;
    }
  }

  lemma SinglePatch(files: Files, patch: FilePatch, accepts: Check)
    ensures var (after, summary) := Patched(files, [patch], accepts);
            && (summary.Success? <==> PlanOne(files, patch, accepts).Success?)
            && (summary.Success? ==> after == After(files, PlanOne(files, patch, accepts).value))
  {
    hide PlanOne;
    assert [patch] + [] == [patch];
    if PlanOne(files, patch, accepts).Success? {
      FirstOfBatch(files, patch, [], accepts);
    }
  }

  lemma OneStep(files: Files, patch: FilePatch, more: seq<FilePatch>, accepts: Check)
    requires Distinct([patch] + more) && PlanOne(files, patch, accepts).Success?
    ensures var middle := After(files, PlanOne(files, patch, accepts).value);
            && (forall q | q in more :: PlanOne(middle, q, accepts) == PlanOne(files, q, accepts))
            && (forall q | q in more :: Target(q) != Target(patch))
  {
    OneTarget(files, patch, accepts);
    var all := [patch] + more;
    var middle := After(files, PlanOne(files, patch, accepts).value);
    hide PlanOne;
    forall q | q in more
      ensures PlanOne(middle, q, accepts) == PlanOne(files, q, accepts) && Target(q) != Target(patch)
    {
      var k :| 0 <= k < |more| && more[k] == q;
      assert Target(all[0]) != Target(all[k + 1]);
      PlanIsLocal(files, middle, q, accepts);
    }
  }

  lemma NoPatches(files: Files, accepts: Check)
    ensures Patched(files, [], accepts) == (files, Success([])) && OneByOne(files, [], accepts) == (files, true)
  {
  }

  lemma OneByOneStep(files: Files, patch: FilePatch, more: seq<FilePatch>, accepts: Check)
    ensures PlanOne(files, patch, accepts).Success? ==>
              OneByOne(files, [patch] + more, accepts) ==
              OneByOne(After(files, PlanOne(files, patch, accepts).value), more, accepts)
    ensures PlanOne(files, patch, accepts).Failure? ==> !OneByOne(files, [patch] + more, accepts).1
  {
    SinglePatch(files, patch, accepts);
    hide PlanOne, After, Patched;
    var patches := [patch] + more;
    assert patches[..1] == [patch] && patches[1..] == more;
    if Patched(files, patches[..1], accepts).1.Failure? {
      assert OneByOne(files, patches, accepts) == (Patched(files, patches[..1], accepts).0, false);
    }
  }

  lemma PlanFails(files: Files, patch: FilePatch, more: seq<FilePatch>, accepts: Check)
    requires PlanOne(files, patch, accepts).Failure?
    ensures Patched(files, [patch] + more, accepts).1.Failure?
  {
    hide PlanOne;
  }

  lemma DistinctMore(patch: FilePatch, more: seq<FilePatch>)
    requires Distinct([patch] + more)
    ensures Distinct(more)
  {
    hide Target;
    assert forall i | 0 <= i < |more| :: more[i] == ([patch] + more)[i + 1];
  }

  lemma {:induction false} OneByOneIsBatch(files: Files, patches: seq<FilePatch>, accepts: Check)
    requires Distinct(patches)
    ensures var (after, summary) := Patched(files, patches, accepts);
            var (one, ok) := OneByOne(files, patches, accepts);
            (ok <==> summary.Success?) && (ok ==> one == after)
    decreases |patches|
  {
    hide *;
    if patches == [] {
      NoPatches(files, accepts);
    } else {
      var patch, more := patches[0], patches[1..];
      assert patches == [patch] + more;
      OneByOneStep(files, patch, more, accepts);
      if PlanOne(files, patch, accepts).Success? {
        var middle := After(files, PlanOne(files, patch, accepts).value);
        DistinctMore(patch, more);
        OneStep(files, patch, more, accepts);
        PlansAgree(middle, files, more, accepts);
        FirstOfBatch(files, patch, more, accepts);
        OneByOneIsBatch(middle, more, accepts);
      } else {
        PlanFails(files, patch, more, accepts);
      }
    }
  }

  lemma {:induction false} OnceEach(patches: seq<FilePatch>, patch: FilePatch)
    requires Distinct(patches)
    ensures multiset(patches)[patch] <= 1
  {
    if patches != [] {
      var more := patches[1..];
      assert patches == [patches[0]] + more;
      assert forall i | 0 <= i < |more| :: more[i] == patches[i + 1];
      OnceEach(more, patch);
      if patch == patches[0] {
        assert patch !in more;
      }
    }
  }

  lemma DistinctHowever(ps: seq<FilePatch>, qs: seq<FilePatch>)
    requires Distinct(ps) && multiset(ps) == multiset(qs)
    ensures Distinct(qs)
  {
    forall i, j | 0 <= i < j < |qs|
      ensures Target(qs[i]) != Target(qs[j])
    {
      OnceEach(ps, qs[i]);
      assert qs[i] in multiset(ps) && qs[j] in multiset(ps);
      if qs[i] == qs[j] {
        Twice(qs, i, j);
      }
    }
  }

  lemma Twice<T>(s: seq<T>, i: nat, j: nat)
    requires i < j < |s| && s[i] == s[j]
    ensures multiset(s)[s[i]] >= 2
  {
    var front, back := s[..j], s[j..];
    assert s == front + back && front[i] == s[i] && back[0] == s[i];
    assert s[i] in front && s[i] in back;
  }

  /** With distinct targets the order of the file patches makes no difference. */
  lemma OrderIsFree(files: Files, ps: seq<FilePatch>, qs: seq<FilePatch>, accepts: Check)
    requires Distinct(ps) && multiset(ps) == multiset(qs)
    ensures var (a, summary) := Patched(files, ps, accepts);
            var (b, notes) := Patched(files, qs, accepts);
            (summary.Success? <==> notes.Success?) && a == b
  {
    DistinctHowever(ps, qs);
    AllOrNothing(files, ps, accepts);
    AllOrNothing(files, qs, accepts);
    assert forall q :: q in ps <==> q in multiset(ps);
    assert forall q :: q in qs <==> q in multiset(qs);
    hide PlanOne, HalfDone, Patched;
    if Patched(files, ps, accepts).1.Success? {
      SameEffects(files, ps, qs, accepts);
    }
  }

  lemma SameEffects(files: Files, ps: seq<FilePatch>, qs: seq<FilePatch>, accepts: Check)
    requires Distinct(ps) && Distinct(qs) && forall q :: q in ps <==> q in qs
    requires Patched(files, ps, accepts).1.Success? && Patched(files, qs, accepts).1.Success?
    ensures Patched(files, ps, accepts).0 == Patched(files, qs, accepts).0
  {
    LastPatchWins(files, ps, accepts);
    LastPatchWins(files, qs, accepts);
    var a, b := Patched(files, ps, accepts).0, Patched(files, qs, accepts).0;
    hide PlanOne, Patched, Target, Lookup, Effect;
    forall path: string
      ensures Lookup(a, path) == Lookup(b, path)
    {
      if i: nat :| i < |ps| && Target(ps[i]) == Some(path) {
        assert LastPatch(ps, i);
        assert ps[i] in qs;
        var j: nat :| j < |qs| && qs[j] == ps[i];
        assert LastPatch(qs, j);
      } else {
        assert forall q | q in ps :: Target(q) != Some(path);
        assert forall q | q in qs :: Target(q) != Some(path);
      }
    }
    SameFiles(a, b);
  }

  /** With distinct targets a patch equals its file patches applied singly, in any order. */
  lemma AnyOrder(files: Files, ps: seq<FilePatch>, qs: seq<FilePatch>, accepts: Check)
    requires Distinct(ps) && multiset(ps) == multiset(qs)
    ensures var (after, summary) := Patched(files, ps, accepts);
            var (one, ok) := OneByOne(files, qs, accepts);
            (ok <==> summary.Success?) && (ok ==> one == after)
  {
    DistinctHowever(ps, qs);
    OrderIsFree(files, ps, qs, accepts);
    OneByOneIsBatch(files, qs, accepts);
  }

  /** A line of a file of whole lines is replaced. */
  lemma OneLineReplaced(lines: seq<string>, k: nat, line: string)
    requires 0 < k <= |lines| && line != "" && OneLine(line) && lines[|lines| - 1] != ""
    requires forall x | x in lines :: OneLine(x)
    ensures AppliedText(Terminated(lines), [Hunk(k, [lines[k - 1]], [line])]) == Some(Terminated(lines[k - 1 := line]))
  {
    var h, result := Hunk(k, [lines[k - 1]], [line]), lines[k - 1 := line];
    assert Fitting(lines, [h], 0);
    SequentialIsSimultaneous(lines, [h]);
    assert Spliced(lines, [h][1..], k) == lines[k..];
    assert Spliced(lines, [h], 0) == lines[..k - 1] + [line] + lines[k..] == result;
    hide Applied, Fitting, Spliced, OneLine;
    TextFollowsLines(lines, [h], result);
  }

  function EditOf(path: string, hunks: seq<Hunk>): FilePatch {
    FilePatch(Some(path), Some(path), hunks)
  }

  lemma EditPlan(files: Files, path: string, hunks: seq<Hunk>, content: string, accepts: Check)
    requires path in files && accepts(path, content)
    ensures PlanOne(files, EditOf(path, hunks), accepts) == Success(Write(path, content)) <==>
            AppliedText(files[path], hunks) == Some(content)
  {
    hide AppliedText;
  }

  /**
   Two patches of one file: both are planned on the original text, so the second overwrites the first.  This is
   what applying them singly gives exactly when the second makes the same text of the first one's result.
   */
  lemma SecondOverwrites(files: Files, path: string, first: seq<Hunk>, second: seq<Hunk>, a: string, b: string,
      accepts: Check)
    requires path in files && accepts(path, a) && accepts(path, b)
    requires AppliedText(files[path], first) == Some(a) && AppliedText(files[path], second) == Some(b)
    ensures var both := [EditOf(path, first), EditOf(path, second)];
            && Patched(files, both, accepts).0 == files[path := b]
            && Patched(files, both, accepts).1.Success?
            && (OneByOne(files, both, accepts) == (files[path := b], true) <==> AppliedText(a, second) == Some(b))
  {
    var p, q := EditOf(path, first), EditOf(path, second);
    var middle := files[path := a];
    EditPlan(files, path, first, a, accepts);
    EditPlan(files, path, second, b, accepts);
    EditPlan(middle, path, second, b, accepts);
    SinglePatch(files, p, accepts);
    SinglePatch(middle, q, accepts);
    hide AppliedText, Patched, EditOf;
    BatchOfTwo(files, p, q, accepts);
    SinglyTwo(files, p, q, accepts);
    hide PlanOne;
    assert files[path := a][path := b] == files[path := b];
    if PlanOne(middle, q, accepts).Success? {
      OneTarget(middle, q, accepts);
      Overwritten(files, path, a, b, PlanOne(middle, q, accepts).value);
    }
  }

  lemma Overwritten(files: Files, path: string, a: string, b: string, change: Change)
    ensures change.path == path ==>
      (After(files[path := a], change) == files[path := b] <==> change == Write(path, b))
  {
    if change.Write? && change.path == path {
      assert After(files[path := a], change)[path] == change.content;
    }
    assert path in files[path := b] && files[path := b][path] == b;
  }

  lemma BatchOfTwo(files: Files, p: FilePatch, q: FilePatch, accepts: Check)
    requires PlanOne(files, p, accepts).Success? && PlanOne(files, q, accepts).Success?
    requires PlanOne(files, q, accepts).value.Write?
    ensures var (after, summary) := Patched(files, [p, q], accepts);
            && summary.Success?
            && after == After(After(files, PlanOne(files, p, accepts).value), PlanOne(files, q, accepts).value)
  {
    OneTarget(files, p, accepts);
    hide PlanOne;
    var x, y := PlanOne(files, p, accepts).value, PlanOne(files, q, accepts).value;
    assert [p, q][1..] == [q] && [q][1..] == [];
    assert Planned(files, [q], accepts) == Success([y] + []);
    assert Planned(files, [p, q], accepts) == Success([x] + ([y] + []));
    assert [x] + ([y] + []) == [x, y] && [x, y][1..] == [y] && [y][1..] == [];
    hide Planned, After;
    var middle := After(files, x);
    assert Executed(After(middle, y), []) == (After(middle, y), Success([]));
    assert Executed(middle, [y]).0 == After(middle, y) && Executed(middle, [y]).1.Success?;
    assert Executed(files, [x, y]).0 == Executed(middle, [y]).0;
  }

  lemma SinglyTwo(files: Files, p: FilePatch, q: FilePatch, accepts: Check)
    requires PlanOne(files, p, accepts).Success?
    ensures var middle := After(files, PlanOne(files, p, accepts).value);
            OneByOne(files, [p, q], accepts) ==
            if PlanOne(middle, q, accepts).Success? then (After(middle, PlanOne(middle, q, accepts).value), true)
            else (Patched(middle, [q], accepts).0, false)
  {
    var middle := After(files, PlanOne(files, p, accepts).value);
    SinglePatch(files, p, accepts);
    SinglePatch(middle, q, accepts);
    hide PlanOne, Patched, After;
    assert [p, q][1..] == [q] && [p, q][..1] == [p] && [q][..1] == [q] && [q][1..] == [];
    assert forall x: Files :: OneByOne(x, [], accepts) == (x, true);
    assert PlanOne(middle, q, accepts).Success? ==>
      OneByOne(middle, [q], accepts) == (After(middle, PlanOne(middle, q, accepts).value), true);
  }

  lemma {:induction false} TerminatedTells(a: seq<string>, b: seq<string>)
    requires forall line | line in a + b :: OneLine(line)
    ensures Terminated(a) == Terminated(b) <==> a == b
  {
    assert (forall line | line in a :: line in a + b) && forall line | line in b :: line in a + b;
    SplitTerminated(a);
    SplitTerminated(b);
  }

  lemma OneLineMatches(lines: seq<string>, older: string, pos: nat)
    ensures Matches(lines, [older], pos) <==> pos < |lines| && lines[pos] == older
  {
    if pos < |lines| {
      assert lines[pos..pos + 1] == [lines[pos]];
    }
  }

  /** A hunk of one line replaces some line that equals its old one, the declared one if it does. */
  lemma OneLineApplied(lines: seq<string>, k: nat, older: string, y: string) returns (pos: nat)
    requires 0 < k <= |lines|
    ensures var result := Applied(lines, [Hunk(k, [older], [y])], 0);
            && (lines[k - 1] == older ==> result == Some(lines[k - 1 := y]))
            && (result.Some? ==> pos < |lines| && lines[pos] == older && result.value == lines[pos := y])
  {
    hide Applied, Located, Matches;
    var h := Hunk(k, [older], [y]);
    LocatedMeaning(lines, [older], k - 1);
    OneLineMatches(lines, older, k - 1);
    var place := Located(lines, [older], k - 1);
    if place.Some? {
      pos := place.value;
      OneLineMatches(lines, older, pos);
      AppliedStep(lines, [h], 0, pos);
      AppliedDone(Replaced(lines, pos, h), [h][1..], Growth(h));
      assert Replaced(lines, pos, h) == lines[pos := y];
    } else {
      pos := 0;
      AppliedStuck(lines, [h], 0);
    }
  }

  lemma ReplacedElsewhere(lines: seq<string>, i: nat, j: nat, pos: nat, x: string, y: string)
    requires i < |lines| && j < |lines| && pos < |lines| && lines[i := x][pos] == lines[j] && x != lines[i]
    ensures lines[i := x][pos := y] != lines[j := y]
  {
    var mine, meant := lines[i := x][pos := y], lines[j := y];
    assert mine[i] != meant[i] || mine[j] != meant[j] || mine[pos] != meant[pos];
  }

  /** Replacing line i first leaves the replacement of line j as it was meant exactly when line i stays the same. */
  lemma SecondAsMeant(lines: seq<string>, i: nat, j: nat, x: string, y: string)
    requires 0 < i <= |lines| && 0 < j <= |lines|
    ensures Applied(lines[i - 1 := x], [Hunk(j, [lines[j - 1]], [y])], 0) == Some(lines[j - 1 := y]) <==>
            x == lines[i - 1]
  {
    hide Applied;
    var pos := OneLineApplied(lines[i - 1 := x], j, lines[j - 1], y);
    if x == lines[i - 1] {
      assert lines[i - 1 := x] == lines;
    } else if Applied(lines[i - 1 := x], [Hunk(j, [lines[j - 1]], [y])], 0).Some? {
      ReplacedElsewhere(lines, i - 1, j - 1, pos, x, y);
    }
  }

  /** Lines that all come from a sound stock make a text that can be read back. */
  predicate Solid(lines: seq<string>) {
    forall line | line in lines :: line != "" && OneLine(line)
  }

  lemma SolidReplaced(lines: seq<string>, k: nat, line: string)
    requires Solid(lines) && k < |lines| && line != "" && OneLine(line)
    ensures Solid(lines[k := line])
  {
    hide OneLine;
  }

  lemma SolidTexts(lines: seq<string>, hunks: seq<Hunk>, result: seq<string>, meant: seq<string>)
    requires Solid(lines) && Solid(result) && Solid(meant) && Applied(lines, hunks, 0) == Some(result)
    ensures AppliedText(Terminated(lines), hunks) == Some(Terminated(meant)) <==> result == meant
  {
    assert forall line | line in lines + result :: OneLine(line);
    assert forall line | line in result + meant :: OneLine(line);
    assert result != [] ==> result[|result| - 1] in result;
    hide Applied, OneLine, Terminated, AppliedText;
    TextFollowsLines(lines, hunks, result);
    TerminatedTells(result, meant);
  }

  lemma SolidStuck(lines: seq<string>, hunks: seq<Hunk>)
    requires Solid(lines) && Applied(lines, hunks, 0) == None
    ensures AppliedText(Terminated(lines), hunks) == None
  {
    SplitTerminated(lines);
    hide Applied;
  }

  lemma SecondAsMeantText(lines: seq<string>, i: nat, j: nat, x: string, y: string)
    requires 0 < i <= |lines| && 0 < j <= |lines| && Solid(lines) && Solid([x, y])
    ensures AppliedText(Terminated(lines[i - 1 := x]), [Hunk(j, [lines[j - 1]], [y])]) ==
            Some(Terminated(lines[j - 1 := y]))
            <==> x == lines[i - 1]
  {
    assert [x, y][0] == x && [x, y][1] == y && x in [x, y] && y in [x, y];
    SolidReplaced(lines, i - 1, x);
    SolidReplaced(lines, j - 1, y);
    hide Applied, OneLine, AppliedText, Terminated, Solid;
    var middle, h := lines[i - 1 := x], Hunk(j, [lines[j - 1]], [y]);
    SecondAsMeant(lines, i, j, x, y);
    var pos := OneLineApplied(middle, j, lines[j - 1], y);
    var result := Applied(middle, [h], 0);
    if result.Some? {
      SolidReplaced(middle, pos, y);
      SolidTexts(middle, [h], result.value, lines[j - 1 := y]);
    } else {
      SolidStuck(middle, [h]);
    }
  }

  /**
   Of two patches that each replace one line of a file the first is lost.  So the batch is what applying them singly
   gives if and only if the first changes nothing: a condition on the patch and the file alone.
   */
  lemma FirstIsLost(files: Files, path: string, lines: seq<string>, i: nat, j: nat, x: string, y: string,
      accepts: Check)
    requires 0 < i <= |lines| && 0 < j <= |lines| && Solid(lines) && Solid([x, y])
    requires path in files && files[path] == Terminated(lines) && forall content :: accepts(path, content)
    ensures var both := [EditOf(path, [Hunk(i, [lines[i - 1]], [x])]), EditOf(path, [Hunk(j, [lines[j - 1]], [y])])];
            && Patched(files, both, accepts).0 == files[path := Terminated(lines[j - 1 := y])]
            && (OneByOne(files, both, accepts) == (Patched(files, both, accepts).0, true) <==> x == lines[i - 1])
  {
    assert x in [x, y] && y in [x, y] && lines[|lines| - 1] in lines;
    hide *;
    OneLineReplaced(lines, i, x);
    OneLineReplaced(lines, j, y);
    SecondAsMeantText(lines, i, j, x, y);
    SecondOverwrites(files, path, [Hunk(i, [lines[i - 1]], [x])], [Hunk(j, [lines[j - 1]], [y])],
                     Terminated(lines[i - 1 := x]), Terminated(lines[j - 1 := y]), accepts);
  }
}
