/**
 The way round from two versions of a tree of files, through a printed diff, to a patched workspace.
 */
module PatchDiff {
  import opened Wrappers
  import opened Text
  import opened PatchParse
  import opened PatchPrint
  import opened PatchRoundTrip
  import opened PatchApply
  import opened PatchFiles

  /** Lines both versions share, then the edit script of a hunk. */
  datatype Piece = Piece(gap: seq<string>, edits: seq<EditLine>)

  function OldFile(pieces: seq<Piece>, tail: seq<string>): seq<string> {
    if pieces == [] then tail else pieces[0].gap + OldSide(pieces[0].edits) + OldFile(pieces[1..], tail)
  }

  function NewFile(pieces: seq<Piece>, tail: seq<string>): seq<string> {
    if pieces == [] then tail else pieces[0].gap + NewSide(pieces[0].edits) + NewFile(pieces[1..], tail)
  }

  /** The first number of a range: POSIX names the line before an empty one. */
  function RangeStart(lines: seq<string>, before: nat): nat {
    if lines == [] then before else before + 1
  }

  /** The hunks of a diff, `oldAt` and `newAt` lines into the two versions. */
  function DiffHunks(pieces: seq<Piece>, oldAt: nat, newAt: nat): seq<EditHunk> {
    if pieces == [] then []
    else
      var p := pieces[0];
      var older, newer := OldSide(p.edits), NewSide(p.edits);
      [EditHunk(RangeStart(older, oldAt + |p.gap|), |older|, RangeStart(newer, newAt + |p.gap|), |newer|, p.edits)] +
      DiffHunks(pieces[1..], oldAt + |p.gap| + |older|, newAt + |p.gap| + |newer|)
  }

  /** Every hunk shows at least one line of the old version. */
  predicate Anchored(pieces: seq<Piece>) {
    forall p | p in pieces :: OldSide(p.edits) != []
  }

  // ---------------------------------------------------------------- one file

  lemma PieceFits(done: seq<string>, gap: seq<string>, older: seq<string>, rest: seq<string>)
    requires older != []
    ensures var lines := done + (gap + older + rest);
            Matches(lines, older, |done| + |gap|) && lines[|done|..|done| + |gap|] == gap
            && lines == done + gap + older + rest
  {
    var lines := done + (gap + older + rest);
    assert lines[|done| + |gap|..|done| + |gap| + |older|] == older;
  }

  lemma {:induction false} DiffFits(done: seq<string>, pieces: seq<Piece>, tail: seq<string>, newAt: nat)
    requires Anchored(pieces)
    ensures var lines := done + OldFile(pieces, tail);
            var hunks := HunksOf(DiffHunks(pieces, |done|, newAt));
            Fitting(lines, hunks, |done|) && Spliced(lines, hunks, |done|) == NewFile(pieces, tail)
    decreases |pieces|
  {
    hide *;
    var lines := done + OldFile(pieces, tail);
    if pieces == [] {
      NoPieces(tail, |done|, newAt);
      NoHunks(lines, |done|);
      assert lines[|done|..] == tail;
    } else {
      var p, more := pieces[0], pieces[1..];
      var older, newer := OldSide(p.edits), NewSide(p.edits);
      AnchoredStep(pieces);
      DiffStep(pieces, |done|, newAt, tail);
      PieceFits(done, p.gap, older, OldFile(more, tail));
      DiffFits(done + p.gap + older, more, tail, newAt + |p.gap| + |newer|);
      assert |done + p.gap + older| == |done| + |p.gap| + |older|;
      SplicedStep(lines, HunksOf(DiffHunks(pieces, |done|, newAt)), |done|);
    }
  }

  lemma AnchoredStep(pieces: seq<Piece>)
    requires Anchored(pieces) && pieces != []
    ensures OldSide(pieces[0].edits) != [] && Anchored(pieces[1..])
  {
    hide OldSide;
    assert pieces[0] in pieces;
  }

  lemma NoPieces(tail: seq<string>, oldAt: nat, newAt: nat)
    ensures HunksOf(DiffHunks([], oldAt, newAt)) == [] && OldFile([], tail) == tail && NewFile([], tail) == tail
  {
  }

  lemma DiffStep(pieces: seq<Piece>, oldAt: nat, newAt: nat, tail: seq<string>)
    requires pieces != [] && OldSide(pieces[0].edits) != []
    ensures var p, more := pieces[0], pieces[1..];
            var older, newer := OldSide(p.edits), NewSide(p.edits);
            var hunks := HunksOf(DiffHunks(pieces, oldAt, newAt));
            && hunks != [] && hunks[0] == Hunk(oldAt + |p.gap| + 1, older, newer)
            && hunks[1..] == HunksOf(DiffHunks(more, oldAt + |p.gap| + |older|, newAt + |p.gap| + |newer|))
            && OldFile(pieces, tail) == p.gap + older + OldFile(more, tail)
            && NewFile(pieces, tail) == p.gap + newer + NewFile(more, tail)
  {
    hide OldSide, NewSide;
  }

  /** Applying the hunks of a diff to the lines of the old version gives the new version. */
  lemma DiffApplies(pieces: seq<Piece>, tail: seq<string>)
    requires Anchored(pieces)
    ensures Applied(OldFile(pieces, tail), HunksOf(DiffHunks(pieces, 0, 0)), 0) == Some(NewFile(pieces, tail))
  {
    hide *;
    DiffFits([], pieces, tail, 0);
    assert [] + OldFile(pieces, tail) == OldFile(pieces, tail);
    SequentialIsSimultaneous(OldFile(pieces, tail), HunksOf(DiffHunks(pieces, 0, 0)));
  }

  // ---------------------------------------------------------------- a tree of files

  datatype FileDiff =
    | Edited(path: string, pieces: seq<Piece>, tail: seq<string>)
    | Added(path: string, lines: seq<string>)
    | Removed(path: string, lines: seq<string>)
  {
    function Older(): Option<seq<string>> {
      match this
      case Edited(_, pieces, tail) => Some(OldFile(pieces, tail))
      case Added(_, _) => None
      case Removed(_, lines) => Some(lines)
    }

    function Newer(): Option<seq<string>> {
      match this
      case Edited(_, pieces, tail) => Some(NewFile(pieces, tail))
      case Added(_, lines) => Some(lines)
      case Removed(_, _) => None
    }

    function Printed(): FileEdit {
      match this
      case Edited(path, pieces, _) => FileEdit(Some(path), Some(path), DiffHunks(pieces, 0, 0))
      case Added(path, lines) => FileEdit(None, Some(path),
          [EditHunk(0, 0, RangeStart(lines, 0), |lines|, Adds(lines))])
      case Removed(path, lines) => FileEdit(Some(path), None,
          [EditHunk(RangeStart(lines, 0), |lines|, 0, 0, Removes(lines))])
    }
  }

  function Adds(lines: seq<string>): seq<EditLine> {
    if lines == [] then [] else [Add(lines[0])] + Adds(lines[1..])
  }

  function Removes(lines: seq<string>): seq<EditLine> {
    if lines == [] then [] else [Remove(lines[0])] + Removes(lines[1..])
  }

  lemma {:induction false} AddsSides(lines: seq<string>)
    ensures OldSide(Adds(lines)) == [] && NewSide(Adds(lines)) == lines
  {
    if lines != [] {
      AddsSides(lines[1..]);
      assert Adds(lines)[1..] == Adds(lines[1..]);
    }
  }

  function Rendering(lines: Option<seq<string>>): Option<string> {
    if lines.None? then None else Some(Terminated(lines.value))
  }

  predicate WholeLines(lines: Option<seq<string>>) {
    lines.Some? ==>
      && (forall line | line in lines.value :: OneLine(line))
      && (lines.value != [] ==> lines.value[|lines.value| - 1] != "")
  }

  /** A diff of two files of whole lines, neither ending in an empty line. */
  predicate Sound(d: FileDiff) {
    WholeLines(d.Older()) && WholeLines(d.Newer()) && (d.Edited? ==> Anchored(d.pieces))
  }

  function PrintedAll(diffs: seq<FileDiff>): seq<FileEdit> {
    if diffs == [] then [] else [diffs[0].Printed()] + PrintedAll(diffs[1..])
  }

  lemma AddedApplies(lines: seq<string>)
    ensures Applied([], [Hunk(0, [], lines)], 0) == Some(lines)
  {
    InsertionPlace([], 0, lines);
    assert [] + lines + [] == lines;
  }

  /** The plan for one printed file turns its old version into its new one. */
  lemma PlanOfDiff(files: Files, d: FileDiff, accepts: Check)
    requires Sound(d) && Lookup(files, d.path) == Rendering(d.Older())
    requires d.Newer().Some? ==> accepts(d.path, Terminated(d.Newer().value))
    ensures var plan := PlanOne(files, PatchOf(d.Printed()), accepts);
            && Target(PatchOf(d.Printed())) == Some(d.path)
            && plan.Success? && plan.value.path == d.path && Effect(plan.value) == Rendering(d.Newer())
  {
    hide AppliedText, Applied, Fitting, Terminated, OldFile, NewFile, OneLine;
    match d
    case Edited(path, pieces, tail) =>
      var older, newer := OldFile(pieces, tail), NewFile(pieces, tail);
      assert forall line | line in older + newer :: OneLine(line);
      DiffApplies(pieces, tail);
      TextFollowsLines(older, HunksOf(DiffHunks(pieces, 0, 0)), newer);
    case Added(path, lines) =>
      AddsSides(lines);
      AddedApplies(lines);
      var h := EditHunk(0, 0, RangeStart(lines, 0), |lines|, Adds(lines));
      assert HunksOf([h]) == [Hunk(0, [], lines)] by { assert [h][1..] == []; }
      assert [] + lines == lines;
      TextFollowsLines([], HunksOf([h]), lines);
      assert Terminated([]) == "" by { EmptyText(); }
    case Removed(path, lines) =>
  }

  lemma EmptyText()
    ensures Terminated([]) == ""
  {
  }

  predicate DistinctPaths(diffs: seq<FileDiff>) {
    forall i, j | 0 <= i < j < |diffs| :: diffs[i].path != diffs[j].path
  }

  /** The workspace holds the old version of every file of the diff, and the new versions pass the check. */
  predicate Ready(files: Files, diffs: seq<FileDiff>, accepts: Check) {
    && DistinctPaths(diffs)
    && forall d | d in diffs ::
         && Sound(d) && Lookup(files, d.path) == Rendering(d.Older())
         && (d.Newer().Some? ==> accepts(d.path, Terminated(d.Newer().value)))
  }

  predicate Printable(diffs: seq<FileDiff>) {
    var edits := PrintedAll(diffs);
    AllFit(edits) && NoHiddenHeader(edits) && TightEnd(edits)
  }

  /** The workspace with the new version of every file of the diff. */
  ghost predicate Upgraded(files: Files, diffs: seq<FileDiff>, after: Files) {
    && (forall d | d in diffs :: Lookup(after, d.path) == Rendering(d.Newer()))
    && (forall path: string | (forall d | d in diffs :: d.path != path) :: Lookup(after, path) == Lookup(files, path))
  }

  lemma {:induction false} PatchesEach(diffs: seq<FileDiff>)
    ensures var patches := PatchesOf(PrintedAll(diffs));
            |patches| == |diffs| && forall i | 0 <= i < |diffs| :: patches[i] == PatchOf(diffs[i].Printed())
  {
    if diffs != [] {
      PatchesEach(diffs[1..]);
      assert PrintedAll(diffs)[1..] == PrintedAll(diffs[1..]);
    }
  }

  lemma PatchesUpgrade(files: Files, diffs: seq<FileDiff>, accepts: Check)
    requires Ready(files, diffs, accepts)
    ensures var (after, summary) := Patched(files, PatchesOf(PrintedAll(diffs)), accepts);
            summary.Success? && Upgraded(files, diffs, after)
  {
    var patches := PatchesOf(PrintedAll(diffs));
    PatchesEach(diffs);
    hide PatchesOf, PrintedAll, PatchOf, PlanOne, Sound, Rendering, Terminated, Lookup, Effect, Patched, Target;
    forall i | 0 <= i < |diffs|
      ensures Target(patches[i]) == Some(diffs[i].path) && PlanOne(files, patches[i], accepts).Success?
      ensures var change := PlanOne(files, patches[i], accepts).value;
              change.path == diffs[i].path && Effect(change) == Rendering(diffs[i].Newer())
    {
      assert diffs[i] in diffs;
      PlanOfDiff(files, diffs[i], accepts);
    }
    AllOrNothing(files, patches, accepts);
    LastPatchWins(files, patches, accepts);
    var after := Patched(files, patches, accepts).0;
    forall d | d in diffs
      ensures Lookup(after, d.path) == Rendering(d.Newer())
    {
      var i: nat :| i < |diffs| && diffs[i] == d;
      assert LastPatch(patches, i);
    }
    forall path: string | forall d | d in diffs :: d.path != path
      ensures Lookup(after, path) == Lookup(files, path)
    {
      forall patch | patch in patches
        ensures Target(patch) != Some(path)
      {
        var i: nat :| i < |patches| && patches[i] == patch;
        assert diffs[i] in diffs;
      }
    }
  }

  /** Applying the printed diff of two trees succeeds and turns the first into the second. */
  ghost predicate Upgrades(files: Files, diffs: seq<FileDiff>, accepts: Check) {
    var (after, summary) := Outcome(files, PrintText(PrintedAll(diffs)), accepts);
    summary.Success? && Upgraded(files, diffs, after)
  }

  /** Printing the diff of two trees and applying the text turns the old tree into the new one. */
  lemma DiffUpgrades(files: Files, diffs: seq<FileDiff>, accepts: Check)
    requires diffs != [] && Ready(files, diffs, accepts) && Printable(diffs)
    ensures Upgrades(files, diffs, accepts)
  {
    assert PrintedAll(diffs) != [];
    PatchesUpgrade(files, diffs, accepts);
    hide Ready, Upgraded, PrintText, Parse, PatchesOf, PrintedAll, Patched, NoHiddenHeader, TightEnd, AllFit;
    RoundTrip(PrintedAll(diffs));
  }

  // ---------------------------------------------------------------- and back

  function Flipped(edits: seq<EditLine>): seq<EditLine> {
    if edits == [] then []
    else
      var first := match edits[0]
        case Context(body) => Context(body)
        case Remove(body) => Add(body)
        case Add(body) => Remove(body);
      [first] + Flipped(edits[1..])
  }

  function FlippedPieces(pieces: seq<Piece>): seq<Piece> {
    if pieces == [] then [] else [Piece(pieces[0].gap, Flipped(pieces[0].edits))] + FlippedPieces(pieces[1..])
  }

  function Reverse(d: FileDiff): FileDiff {
    match d
    case Edited(path, pieces, tail) => Edited(path, FlippedPieces(pieces), tail)
    case Added(path, lines) => Removed(path, lines)
    case Removed(path, lines) => Added(path, lines)
  }

  function ReverseAll(diffs: seq<FileDiff>): seq<FileDiff> {
    if diffs == [] then [] else [Reverse(diffs[0])] + ReverseAll(diffs[1..])
  }

  lemma {:induction false} FlippedSides(edits: seq<EditLine>)
    ensures OldSide(Flipped(edits)) == NewSide(edits) && NewSide(Flipped(edits)) == OldSide(edits)
  {
    if edits != [] {
      FlippedSides(edits[1..]);
      assert Flipped(edits)[1..] == Flipped(edits[1..]);
    }
  }

  lemma {:induction false} FlippedFiles(pieces: seq<Piece>, tail: seq<string>)
    ensures OldFile(FlippedPieces(pieces), tail) == NewFile(pieces, tail)
    ensures NewFile(FlippedPieces(pieces), tail) == OldFile(pieces, tail)
  {
    if pieces != [] {
      FlippedSides(pieces[0].edits);
      FlippedFiles(pieces[1..], tail);
      hide OldSide, NewSide, Flipped;
      assert FlippedPieces(pieces)[1..] == FlippedPieces(pieces[1..]);
    }
  }

  lemma ReverseVersions(d: FileDiff)
    ensures Reverse(d).path == d.path && Reverse(d).Older() == d.Newer() && Reverse(d).Newer() == d.Older()
  {
    if d.Edited? {
      FlippedFiles(d.pieces, d.tail);
    }
  }

  lemma {:induction false} ReverseEach(diffs: seq<FileDiff>)
    ensures |ReverseAll(diffs)| == |diffs|
    ensures forall i | 0 <= i < |diffs| :: ReverseAll(diffs)[i] == Reverse(diffs[i])
  {
    if diffs != [] {
      ReverseEach(diffs[1..]);
    }
  }

  /** The workspace is ready for a diff and, once it is applied, for its reverse. */
  predicate ReadyBothWays(files: Files, diffs: seq<FileDiff>, accepts: Check) {
    && Ready(files, diffs, accepts) && Printable(diffs) && Printable(ReverseAll(diffs)) && OldFits(diffs, accepts)
  }

  predicate OldFits(diffs: seq<FileDiff>, accepts: Check) {
    forall d | d in diffs :: Sound(Reverse(d)) && (d.Older().Some? ==> accepts(d.path, Terminated(d.Older().value)))
  }

  lemma ReverseRow(diffs: seq<FileDiff>, i: nat)
    requires i < |diffs|
    ensures var d := diffs[i];
            && |ReverseAll(diffs)| == |diffs| && ReverseAll(diffs)[i] == Reverse(d) && d in diffs
              && Reverse(d) in ReverseAll(diffs)
            && Reverse(d).path == d.path && Reverse(d).Older() == d.Newer() && Reverse(d).Newer() == d.Older()
  {
    ReverseEach(diffs);
    ReverseVersions(diffs[i]);
  }

  lemma ReverseReady(files: Files, diffs: seq<FileDiff>, accepts: Check, there: Files)
    requires Ready(files, diffs, accepts) && OldFits(diffs, accepts) && Upgraded(files, diffs, there)
    ensures Ready(there, ReverseAll(diffs), accepts)
  {
    hide Sound, Rendering, Terminated, Lookup, Reverse, ReverseAll;
    var reverse := ReverseAll(diffs);
    forall i | 0 <= i < |diffs|
      ensures |reverse| == |diffs| && reverse[i].path == diffs[i].path && diffs[i] in diffs
              && reverse[i] == Reverse(diffs[i])
      ensures reverse[i].Older() == diffs[i].Newer() && reverse[i].Newer() == diffs[i].Older()
    {
      ReverseRow(diffs, i);
    }
    assert |reverse| == |diffs| by { ReverseEach(diffs); }
    assert forall d | d in reverse :: exists i :: 0 <= i < |diffs| && reverse[i] == d;
  }

  lemma RestoredFiles(files: Files, diffs: seq<FileDiff>, accepts: Check, there: Files, back: Files)
    requires Ready(files, diffs, accepts) && Upgraded(files, diffs, there) && Upgraded(there, ReverseAll(diffs), back)
    ensures back == files
  {
    hide Sound, Rendering, Terminated, Lookup, Reverse, ReverseAll;
    var reverse := ReverseAll(diffs);
    forall path: string
      ensures Lookup(back, path) == Lookup(files, path)
    {
      if i: nat :| i < |diffs| && diffs[i].path == path {
        ReverseRow(diffs, i);
      } else {
        forall d | d in reverse
          ensures d.path != path
        {
          ReverseEach(diffs);
          var i: nat :| i < |reverse| && reverse[i] == d;
          ReverseRow(diffs, i);
        }
        assert forall d | d in diffs :: d.path != path;
      }
    }
    SameFiles(back, files);
  }

  /** Applying the printed diff of two trees and then that of its reverse succeeds and restores the first. */
  ghost predicate GoesBack(files: Files, diffs: seq<FileDiff>, accepts: Check) {
    var there := Outcome(files, PrintText(PrintedAll(diffs)), accepts).0;
    var (back, summary) := Outcome(there, PrintText(PrintedAll(ReverseAll(diffs))), accepts);
    summary.Success? && back == files
  }

  /** Going to the new tree and back leaves the workspace as it was. */
  lemma ThereAndBack(files: Files, diffs: seq<FileDiff>, accepts: Check)
    requires diffs != [] && ReadyBothWays(files, diffs, accepts)
    ensures GoesBack(files, diffs, accepts)
  {
    hide Ready, Printable, OldFits, Outcome, PrintText, PrintedAll, Upgraded, Reverse;
    DiffUpgrades(files, diffs, accepts);
    var there := Outcome(files, PrintText(PrintedAll(diffs)), accepts).0;
    ReverseReady(files, diffs, accepts, there);
    assert ReverseAll(diffs) != [];
    hide ReverseAll;
    DiffUpgrades(there, ReverseAll(diffs), accepts);
    RestoredFiles(files, diffs, accepts, there, Outcome(there, PrintText(PrintedAll(ReverseAll(diffs))), accepts).0);
  }
}
