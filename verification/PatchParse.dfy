/**
 Reading unified diffs (src/gca/tools/patch.py, lines 46-195).

 The grammar is the unified format of the POSIX.1-2017 `diff` utility, section "Diff -u or -U Output
 Format".  The parser walks the lines with a hunk under construction; `ParseLines` says what any suffix of
 the walk yields.
 */
module PatchParse {
  import opened Wrappers
  import opened Text

  datatype Hunk = Hunk(oldStart: int, oldLines: seq<string>, newLines: seq<string>)

  datatype FilePatch = FilePatch(oldPath: Option<string>, newPath: Option<string>, hunks: seq<Hunk>) {
    predicate IsCreation() {
      oldPath.None?
    }

    predicate IsDeletion() {
      newPath.None?
    }
  }

  datatype ParseError = NoNewHeader | HunkBeforeHeader | BadHunkHeader | NoFileHeaders

  /** The path after a header mark; `None` is /dev/null. */
  function StripPrefix(path: string): Option<string> {
    var p := Strip(path);
    if p == "/dev/null" then None
    else if "a/" <= p || "b/" <= p then Some(p[2..])
    else Some(p)
  }

  /** The start line in the old file. */
  function ParseHunkHeader(header: string): Option<int>
    requires "@@" <= header
  {
    var segment := Before(Strip(Before(header[2..], "@@")), " ");
    ParseInt(Before(DropDashes(segment), ","))
  }

  // ---------------------------------------------------------------- model wrappers

  predicate IsPreamble(line: string) {
    "diff --git " <= line || "index " <= line || "new file mode " <= line || "deleted file mode " <= line
  }

  function WithoutPreamble(lines: seq<string>): seq<string> {
    if lines == [] then []
    else (if IsPreamble(lines[0]) then [] else [lines[0]]) + WithoutPreamble(lines[1..])
  }

  function Unfenced(text: string): string {
    if "```" <= text then
      var lines := SplitLines(text);
      var tail := if lines != [] && "```" <= lines[0] then lines[1..] else lines;
      Strip(Join(if tail != [] && Strip(tail[|tail| - 1]) == "```" then tail[..|tail| - 1] else tail))
    else text
  }

  function Normalized(diff: string): string {
    var kept := WithoutPreamble(SplitLines(Unfenced(Strip(UnixBreaks(diff)))));
    Strip(Join(kept)) + if kept != [] then "\n" else ""
  }

  method NormalizeDiffText(diff: string) returns (text: string)
    ensures text == Normalized(diff)
  {
    hide Strip, SplitLines, UnixBreaks, Join, WithoutPreamble;
    text := Strip(UnixBreaks(diff));
    if "```" <= text {
      var lines := SplitLines(text);
      if lines != [] && "```" <= lines[0] {
        lines := lines[1..];
      }
      if lines != [] && Strip(lines[|lines| - 1]) == "```" {
        lines := lines[..|lines| - 1];
      }
      text := Strip(Join(lines));
    }
    var kept := DropPreamble(SplitLines(text));
    text := Strip(Join(kept)) + if kept != [] then "\n" else "";
  }

  method DropPreamble(lines: seq<string>) returns (kept: seq<string>)
    ensures kept == WithoutPreamble(lines)
  {
    hide IsPreamble, WithoutPreamble;
    kept := [];
    assert lines[0..] == lines && [] + WithoutPreamble(lines) == WithoutPreamble(lines);
    for i := 0 to |lines|
      invariant kept + WithoutPreamble(lines[i..]) == WithoutPreamble(lines)
    {
      KeptStep(kept, lines, i);
      if !IsPreamble(lines[i]) {
        kept := kept + [lines[i]];
      }
    }
    NothingKept(kept, lines[|lines|..]);
  }

  lemma NothingKept(kept: seq<string>, lines: seq<string>)
    requires lines == []
    ensures kept + WithoutPreamble(lines) == kept
  {
  }

  lemma KeptStep(kept: seq<string>, lines: seq<string>, i: nat)
    requires i < |lines|
    ensures kept + WithoutPreamble(lines[i..]) ==
            (if IsPreamble(lines[i]) then kept else kept + [lines[i]]) + WithoutPreamble(lines[i + 1..])
  {
    hide *;
    PreambleStep(lines, i);
    Rejoin(kept, [lines[i]], WithoutPreamble(lines[i + 1..]));
  }

  lemma Rejoin<T>(a: seq<T>, b: seq<T>, c: seq<T>)
    ensures a + (b + c) == a + b + c && [] + c == c
  {
  }

  lemma PreambleStep(lines: seq<string>, i: nat)
    requires i < |lines|
    ensures WithoutPreamble(lines[i..]) ==
            (if IsPreamble(lines[i]) then [] else [lines[i]]) + WithoutPreamble(lines[i + 1..])
  {
    hide IsPreamble;
    assert lines[i..][1..] == lines[i + 1..];
  }

  // ---------------------------------------------------------------- the walk

  /** Where a walk stands: the files so far, the last of which is current, and the hunk being read. */
  datatype Walk = Walk(patches: seq<FilePatch>, inHunk: bool, oldStart: int, oldLines: seq<string>,
      newLines: seq<string>)

  const START := Walk([], false, 0, [], [])

  function WithHunk(patches: seq<FilePatch>, hunk: Hunk): (extended: seq<FilePatch>)
    requires patches != []
    ensures |extended| == |patches|
  {
    var current := patches[|patches| - 1];
    patches[|patches| - 1 := current.(hunks := current.hunks + [hunk])]
  }

  function Flushed(w: Walk): Walk {
    Walk(if w.inHunk && w.patches != [] then WithHunk(w.patches, Hunk(w.oldStart, w.oldLines, w.newLines))
      else w.patches,
         false, w.oldStart, [], [])
  }

  /** One line of a hunk body; `None` when the line ends the hunk. */
  function BodyLine(w: Walk, line: string): Option<Walk> {
    if "\\" <= line then Some(w)
    else if " " <= line then Some(w.(oldLines := w.oldLines + [line[1..]], newLines := w.newLines + [line[1..]]))
    else if "-" <= line then Some(w.(oldLines := w.oldLines + [line[1..]]))
    else if "+" <= line then Some(w.(newLines := w.newLines + [line[1..]]))
    else if line == "" then Some(w.(oldLines := w.oldLines + [""], newLines := w.newLines + [""]))
    else None
  }

  function ParseLines(lines: seq<string>, w: Walk): (result: Result<seq<FilePatch>, ParseError>)
    decreases |lines|, w.inHunk
  {
    if lines == [] then
      var end := Flushed(w);
      if end.patches == [] then Failure(NoFileHeaders) else Success(end.patches)
    else if "--- " <= lines[0] then
      if |lines| == 1 || !("+++ " <= lines[1]) then Failure(NoNewHeader)
      else
        var next := Flushed(w);
        var file := FilePatch(StripPrefix(lines[0][4..]), StripPrefix(lines[1][4..]), []);
        ParseLines(lines[2..], next.(patches := next.patches + [file]))
    else if "@@" <= lines[0] then
      var next := Flushed(w);
      if next.patches == [] then Failure(HunkBeforeHeader)
      else
        var start := ParseHunkHeader(lines[0]);
        if start.None? then Failure(BadHunkHeader)
        else ParseLines(lines[1..], Walk(next.patches, true, start.value, [], []))
    else if w.inHunk then
      var next := BodyLine(w, lines[0]);
      if next.Some? then ParseLines(lines[1..], next.value) else ParseLines(lines, Flushed(w))
    else ParseLines(lines[1..], w)
  }

  lemma FileHeaderStep(lines: seq<string>, w: Walk)
    requires lines != [] && "--- " <= lines[0]
    ensures ParseLines(lines, w) ==
            if |lines| > 1 && "+++ " <= lines[1] then
              ParseLines(lines[2..], Flushed(w).(patches := Flushed(w).patches +
                [FilePatch(StripPrefix(lines[0][4..]), StripPrefix(lines[1][4..]), [])]))
            else Failure(NoNewHeader)
  {
    hide StripPrefix, ParseHunkHeader, Flushed, BodyLine;
  }

  lemma HunkHeaderStep(lines: seq<string>, w: Walk, start: int)
    requires lines != [] && "@@" <= lines[0] && w.patches != [] && ParseHunkHeader(lines[0]) == Some(start)
    ensures ParseLines(lines, w) == ParseLines(lines[1..], Walk(Flushed(w).patches, true, start, [], []))
  {
    assert lines[0][..2] == "@@" && lines[0][0] == '@';
    hide StripPrefix, ParseHunkHeader, WithHunk, BodyLine;
    assert Flushed(w).patches != [];
  }

  lemma BodyLineStep(lines: seq<string>, w: Walk)
    requires lines != [] && w.inHunk && !("--- " <= lines[0]) && !("@@" <= lines[0])
    ensures BodyLine(w, lines[0]).Some? ==> ParseLines(lines, w) == ParseLines(lines[1..], BodyLine(w, lines[0]).value)
  {
    hide StripPrefix, ParseHunkHeader, Flushed, BodyLine;
  }

  function Parse(diff: string): Result<seq<FilePatch>, ParseError> {
    ParseLines(SplitLines(Normalized(diff)), START)
  }

  method ParseUnifiedDiff(diff: string) returns (result: Result<seq<FilePatch>, ParseError>)
    ensures result == Parse(diff)
  {
    var text := NormalizeDiffText(diff);
    var lines := SplitLines(text);
    hide Normalized, SplitLines, StripPrefix, ParseHunkHeader, WithHunk;
    var patches: seq<FilePatch> := [];
    var hunkOld: seq<string>, hunkNew: seq<string> := [], [];
    var hunkOldStart, inHunk := 0, false;
    var i := 0;
    while i < |lines|
      invariant 0 <= i <= |lines|
      invariant ParseLines(lines[i..], Walk(patches, inHunk, hunkOldStart, hunkOld, hunkNew)) == Parse(diff)
      decreases |lines| - i, inHunk
    {
      var line := lines[i];
      assert lines[i..][1..] == lines[i + 1..];
      if "--- " <= line {
        patches := FlushHunk(patches, inHunk, hunkOldStart, hunkOld, hunkNew);
        hunkOld, hunkNew, inHunk := [], [], false;
        var older := StripPrefix(line[4..]);
        if i + 1 >= |lines| || !("+++ " <= lines[i + 1]) {
          return Failure(NoNewHeader);
        }
        assert lines[i..][2..] == lines[i + 2..];
        var newer := StripPrefix(lines[i + 1][4..]);
        patches := patches + [FilePatch(older, newer, [])];
        i := i + 2;
      } else if "@@" <= line {
        patches := FlushHunk(patches, inHunk, hunkOldStart, hunkOld, hunkNew);
        if patches == [] {
          return Failure(HunkBeforeHeader);
        }
        var start := ParseHunkHeader(line);
        if start.None? {
          return Failure(BadHunkHeader);
        }
        hunkOldStart, hunkOld, hunkNew, inHunk := start.value, [], [], true;
        i := i + 1;
      } else if inHunk {
        if "\\" <= line {
          i := i + 1;
          continue;
        }
        if " " <= line {
          hunkOld, hunkNew := hunkOld + [line[1..]], hunkNew + [line[1..]];
        } else if "-" <= line {
          hunkOld := hunkOld + [line[1..]];
        } else if "+" <= line {
          hunkNew := hunkNew + [line[1..]];
        } else if line == "" {
          hunkOld, hunkNew := hunkOld + [""], hunkNew + [""];
        } else {
          patches := FlushHunk(patches, inHunk, hunkOldStart, hunkOld, hunkNew);
          hunkOld, hunkNew, inHunk := [], [], false;
          continue;
        }
        i := i + 1;
      } else {
        i := i + 1;
      }
    }
    patches := FlushHunk(patches, inHunk, hunkOldStart, hunkOld, hunkNew);
    if patches == [] {
      return Failure(NoFileHeaders);
    }
    return Success(patches);
  }

  /** Closes the hunk being read: the last file gains it, and with no open hunk or no file nothing changes. */
  method FlushHunk(patches: seq<FilePatch>, inHunk: bool, start: int, older: seq<string>, newer: seq<string>)
    returns (flushed: seq<FilePatch>)
    ensures flushed == Flushed(Walk(patches, inHunk, start, older, newer)).patches
    ensures !inHunk || patches == [] ==> flushed == patches
    ensures inHunk && patches != [] ==>
              var n := |patches| - 1;
              && |flushed| == n + 1 && flushed[..n] == patches[..n]
              && flushed[n].oldPath == patches[n].oldPath && flushed[n].newPath == patches[n].newPath
              && flushed[n].hunks == patches[n].hunks + [Hunk(start, older, newer)]
  {
    flushed := patches;
    if inHunk && patches != [] {
      flushed := WithHunk(patches, Hunk(start, older, newer));
    }
  }
}
