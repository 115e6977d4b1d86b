/**
 Writing unified diffs, and the proof that the parser of src/gca/tools/patch.py reads them back.

 A patch is printed from edit scripts in the unified format of the POSIX.1-2017 `diff` utility, section
 "Diff -u or -U Output Format", with the `a/` and `b/` prefixes of git.
 */
module PatchPrint {
  import opened Wrappers
  import opened Text
  import opened PatchParse

  datatype EditLine = Context(body: string) | Remove(body: string) | Add(body: string)

  /** The ranges are printed as given: the parser reads the old start and ignores the other three numbers. */
  datatype EditHunk = EditHunk(oldStart: nat, oldCount: nat, newStart: nat, newCount: nat, lines: seq<EditLine>)

  datatype FileEdit = FileEdit(oldPath: Option<string>, newPath: Option<string>, hunks: seq<EditHunk>)

  function OldSide(lines: seq<EditLine>): seq<string> {
    if lines == [] then []
    else (if lines[0].Add? then [] else [lines[0].body]) + OldSide(lines[1..])
  }

  function NewSide(lines: seq<EditLine>): seq<string> {
    if lines == [] then []
    else (if lines[0].Remove? then [] else [lines[0].body]) + NewSide(lines[1..])
  }

  /** What a hunk means to the patch engine. */
  function HunkOf(h: EditHunk): Hunk {
    Hunk(h.oldStart, OldSide(h.lines), NewSide(h.lines))
  }

  function HunksOf(hunks: seq<EditHunk>): seq<Hunk> {
    if hunks == [] then [] else [HunkOf(hunks[0])] + HunksOf(hunks[1..])
  }

  function PatchOf(f: FileEdit): FilePatch {
    FilePatch(f.oldPath, f.newPath, HunksOf(f.hunks))
  }

  function PatchesOf(files: seq<FileEdit>): seq<FilePatch> {
    if files == [] then [] else [PatchOf(files[0])] + PatchesOf(files[1..])
  }

  // ---------------------------------------------------------------- printing

  function PrintLine(line: EditLine): string {
    match line
    case Context(body) => " " + body
    case Remove(body) => "-" + body
    case Add(body) => "+" + body
  }

  function PrintBody(lines: seq<EditLine>): seq<string> {
    if lines == [] then [] else [PrintLine(lines[0])] + PrintBody(lines[1..])
  }

  function HunkHeader(h: EditHunk): string {
    "@@ -" + Decimal(h.oldStart) + "," + Decimal(h.oldCount) + " +" +
    Decimal(h.newStart) + "," + Decimal(h.newCount) + " @@"
  }

  function PrintHunk(h: EditHunk): seq<string> {
    [HunkHeader(h)] + PrintBody(h.lines)
  }

  function PrintHunks(hunks: seq<EditHunk>): seq<string> {
    if hunks == [] then [] else PrintHunk(hunks[0]) + PrintHunks(hunks[1..])
  }

  function PathMark(prefix: string, path: Option<string>): string {
    if path.None? then "/dev/null" else prefix + path.value
  }

  function PrintFile(f: FileEdit): seq<string> {
    ["--- " + PathMark("a/", f.oldPath), "+++ " + PathMark("b/", f.newPath)] + PrintHunks(f.hunks)
  }

  function PrintFiles(files: seq<FileEdit>): seq<string> {
    if files == [] then [] else PrintFile(files[0]) + PrintFiles(files[1..])
  }

  function PrintText(files: seq<FileEdit>): string {
    Terminated(PrintFiles(files))
  }

  // ---------------------------------------------------------------- what can be printed

  /** A path that survives trimming. */
  predicate PathFits(path: Option<string>) {
    path.Some? ==> OneLine(path.value) && (path.value != "" ==> !IsSpace(path.value[|path.value| - 1]))
  }

  predicate Fits(f: FileEdit) {
    && PathFits(f.oldPath) && PathFits(f.newPath)
    && forall h, line | h in f.hunks && line in h.lines :: OneLine(line.body)
  }

  predicate AllFit(files: seq<FileEdit>) {
    forall f | f in files :: Fits(f)
  }

  /** A removed line that the parser takes for the header of another file. */
  predicate LooksLikeHeader(line: EditLine) {
    line.Remove? && "-- " <= line.body
  }

  predicate Plain(hunks: seq<EditHunk>) {
    forall h, line | h in hunks && line in h.lines :: !LooksLikeHeader(line)
  }

  predicate NoHiddenHeader(files: seq<FileEdit>) {
    forall f | f in files :: Plain(f.hunks)
  }

  /** The last printed line does not end in white space. */
  predicate TightEnd(files: seq<FileEdit>) {
    var lines := PrintFiles(files);
    lines != [] && lines[|lines| - 1] != "" && !IsSpace(lines[|lines| - 1][|lines[|lines| - 1]| - 1])
  }

  // ---------------------------------------------------------------- headers read back

  lemma MarkIsTight(prefix: string, path: Option<string>)
    requires PathFits(path) && (prefix == "a/" || prefix == "b/")
    ensures Tight(PathMark(prefix, path))
  {
    hide OneLine;
    var mark := PathMark(prefix, path);
    if path.Some? && path.value != "" {
      assert mark[|mark| - 1] == path.value[|path.value| - 1];
      assert mark[0] == prefix[0];
    }
  }

  lemma NamedPath(p: string, name: string)
    requires Strip(p) == p && (p == "a/" + name || p == "b/" + name)
    ensures StripPrefix(p) == Some(name)
  {
    hide Strip;
    assert p[2..] == name;
    assert p[0] != "/dev/null"[0];
    assert p[..2] == "a/" || p[..2] == "b/";
  }

  lemma NullPath()
    ensures StripPrefix("/dev/null") == None
  {
    StripTight("/dev/null");
    hide Strip;
  }

  lemma NamedMark(prefix: string, path: Option<string>)
    requires PathFits(path) && (prefix == "a/" || prefix == "b/") && path.Some?
    ensures Strip(PathMark(prefix, path)) == PathMark(prefix, path)
    ensures PathMark(prefix, path) == "a/" + path.value || PathMark(prefix, path) == "b/" + path.value
  {
    MarkIsTight(prefix, path);
    StripTight(PathMark(prefix, path));
    hide Strip, Tight, PathFits;
  }

  lemma PathReadsBack(prefix: string, path: Option<string>)
    requires PathFits(path) && (prefix == "a/" || prefix == "b/")
    ensures StripPrefix(PathMark(prefix, path)) == path
  {
    if path.Some? {
      hide *;
      NamedMark(prefix, path);
      NamedPath(PathMark(prefix, path), path.value);
    } else {
      assert PathMark(prefix, path) == "/dev/null";
      hide *;
      NullPath();
    }
  }

  predicate Digits(s: string) {
    s != "" && forall c | c in s :: IsDigit(c)
  }

  /** One side of a hunk header: a mark, a start line and a count. */
  function Range(mark: string, start: string, count: string): string {
    mark + start + "," + count
  }

  lemma RangeChars(mark: string, a: string, b: string)
    requires Digits(a) && Digits(b) && mark in {"-", "+"}
    ensures var r := Range(mark, a, b);
            && r[0] == mark[0] && !IsSpace(r[0]) && !IsSpace(r[|r| - 1])
            && (forall c | c in r :: c != '@' && c != ' ')
  {
    var r := Range(mark, a, b);
    assert r[|r| - 1] == b[|b| - 1] && b[|b| - 1] in b;
    forall c | c in r
      ensures c != '@' && c != ' '
    {
      assert c in mark || c in a || c == ',' || c in b;
    }
  }

  lemma StripPadded(s: string)
    requires Tight(s)
    ensures Strip(" " + s + " ") == s
  {
    var padded := " " + s + " ";
    assert padded[1..] == s + " " && (s + " ")[0] == s[0];
    assert LStrip(s + " ") == s + " ";
    assert LStrip(padded) == s + " ";
    assert (s + " ")[..|s|] == s && (s + " ")[|s|] == ' ';
    assert RStrip(s) == s;
    assert RStrip(s + " ") == s;
  }

  lemma StartReads(a: string, b: string)
    requires Digits(a) && Digits(b)
    ensures Before(DropDashes(Range("-", a, b)), ",") == a
  {
    var r := Range("-", a, b);
    assert a[0] in a;
    assert r[1..] == a + "," + b && (a + "," + b)[0] == a[0];
    BeforeSep(a, ",", b);
  }

  lemma RangesRead(a: string, b: string, c: string, d: string)
    requires Digits(a) && Digits(b) && Digits(c) && Digits(d)
    ensures var header := "@@ " + Range("-", a, b) + " " + Range("+", c, d) + " @@";
            Before(Strip(Before(header[2..], "@@")), " ") == Range("-", a, b)
  {
    var x, y := Range("-", a, b), Range("+", c, d);
    RangeChars("-", a, b);
    RangeChars("+", c, d);
    hide Range, Digits, IsSpace;
    var ranges := x + " " + y;
    var header := "@@ " + x + " " + y + " @@";
    assert header[2..] == (" " + ranges + " ") + "@@" + "";
    BeforeSep(" " + ranges + " ", "@@", "");
    assert Tight(ranges) by {
      assert ranges[0] == x[0] && ranges[|ranges| - 1] == y[|y| - 1];
    }
    StripPadded(ranges);
    BeforeSep(x, " ", y);
  }

  lemma HeaderText(h: EditHunk)
    ensures HunkHeader(h) ==
            "@@ " + Range("-", Decimal(h.oldStart), Decimal(h.oldCount)) + " " +
            Range("+", Decimal(h.newStart), Decimal(h.newCount)) + " @@"
  {
    var a, b := Decimal(h.oldStart), Decimal(h.oldCount);
    var c, d := Decimal(h.newStart), Decimal(h.newCount);
    hide Decimal, OldSide, NewSide;
    calc {
      HunkHeader(h);
      "@@ -" + a + "," + b + " +" + c + "," + d + " @@";
      { assert "@@ -" == "@@ " + "-" && " +" == " " + "+"; }
      "@@ " + ("-" + a + "," + b) + " " + ("+" + c + "," + d) + " @@";
    }
  }

  lemma HeaderReadsBack(h: EditHunk)
    ensures "@@" <= HunkHeader(h) && ParseHunkHeader(HunkHeader(h)) == Some(h.oldStart)
  {
    var a, b := Decimal(h.oldStart), Decimal(h.oldCount);
    var c, d := Decimal(h.newStart), Decimal(h.newCount);
    ParseDecimal(h.oldStart);
    assert Digits(a) && Digits(b) && Digits(c) && Digits(d);
    HeaderText(h);
    RangesRead(a, b, c, d);
    StartReads(a, b);
    hide Decimal, OldSide, NewSide, Before, Strip, Range, DropDashes, ParseInt, HunkHeader;
    assert HunkHeader(h)[..2] == "@@";
  }

  // ---------------------------------------------------------------- bodies read back

  /** A printed body line looks like a file header exactly when it hides one. */
  lemma LineAsHeader(line: EditLine)
    ensures "--- " <= PrintLine(line) <==> LooksLikeHeader(line)
  {
    var text := PrintLine(line);
    assert text[1..] == line.body && "--- "[1..] == "-- ";
    match line
    case Remove(body) =>
      if "-- " <= body {
        assert text[..4] == "-" + body[..3];
      }
      if "--- " <= text {
        assert body[..3] == text[..4][1..];
      }
    case Context(_) => assert text[0] != '-';
    case Add(_) => assert text[0] != '-';
  }

  lemma LineIsNoHunk(line: EditLine)
    ensures !("@@" <= PrintLine(line))
  {
    assert PrintLine(line)[0] != '@';
  }

  /** A printed body line adds itself to the sides it belongs to. */
  lemma LineReadsBack(line: EditLine, w: Walk)
    ensures BodyLine(w, PrintLine(line)) ==
            Some(w.(oldLines := w.oldLines + OldSide([line]), newLines := w.newLines + NewSide([line])))
  {
    var text := PrintLine(line);
    assert text[1..] == line.body;
    SingleSides(line);
    hide OldSide, NewSide;
    assert w.oldLines + [] == w.oldLines && w.newLines + [] == w.newLines;
    match line
    case Context(_) => assert text[0] == ' ';
    case Remove(_) => assert text[0] == '-';
    case Add(_) => assert text[0] == '+';
  }

  lemma BodyStep(text: seq<string>, line: EditLine, w: Walk)
    requires text != [] && text[0] == PrintLine(line) && w.inHunk && !LooksLikeHeader(line)
    ensures ParseLines(text, w) == ParseLines(text[1..], AfterBody(w, [line]))
  {
    LineAsHeader(line);
    LineIsNoHunk(line);
    LineReadsBack(line, w);
    hide BodyLine, PrintLine, LooksLikeHeader, OldSide, NewSide;
  }

  /** The walk after a whole hunk. */
  function AfterBody(w: Walk, lines: seq<EditLine>): Walk {
    w.(oldLines := w.oldLines + OldSide(lines), newLines := w.newLines + NewSide(lines))
  }

  lemma AfterMore(w: Walk, lines: seq<EditLine>)
    requires lines != []
    ensures AfterBody(AfterBody(w, [lines[0]]), lines[1..]) == AfterBody(w, lines)
  {
    SidesSplit(lines);
    var line, more := [lines[0]], lines[1..];
    hide OldSide, NewSide;
    Glues(w.oldLines, OldSide(line), OldSide(more));
    Glues(w.newLines, NewSide(line), NewSide(more));
  }

  lemma {:induction false} BodyReadsBack(lines: seq<EditLine>, rest: seq<string>, w: Walk)
    requires w.inHunk && forall line | line in lines :: !LooksLikeHeader(line)
    ensures ParseLines(PrintBody(lines) + rest, w) == ParseLines(rest, AfterBody(w, lines))
  {
    hide ParseLines, PrintLine, LooksLikeHeader;
    if lines == [] {
      assert PrintBody(lines) + rest == rest;
      assert w.oldLines + [] == w.oldLines && w.newLines + [] == w.newLines;
    } else {
      var tail := PrintBody(lines[1..]) + rest;
      var text := PrintBody(lines) + rest;
      assert text[0] == PrintLine(lines[0]) && text[1..] == tail;
      BodyStep(text, lines[0], w);
      var w' := AfterBody(w, [lines[0]]);
      BodyReadsBack(lines[1..], rest, w');
      hide *;
      AfterMore(w, lines);
    }
  }

  lemma SidesSplit(lines: seq<EditLine>)
    requires lines != []
    ensures OldSide(lines) == OldSide([lines[0]]) + OldSide(lines[1..])
    ensures NewSide(lines) == NewSide([lines[0]]) + NewSide(lines[1..])
  {
    var older := if lines[0].Add? then [] else [lines[0].body];
    var newer := if lines[0].Remove? then [] else [lines[0].body];
    SingleSides(lines[0]);
    assert OldSide(lines) == older + OldSide(lines[1..]);
    assert NewSide(lines) == newer + NewSide(lines[1..]);
  }

  lemma SingleSides(line: EditLine)
    ensures OldSide([line]) == if line.Add? then [] else [line.body]
    ensures NewSide([line]) == if line.Remove? then [] else [line.body]
  {
    assert [line][1..] == [];
  }

  lemma Glues<T>(a: seq<T>, b: seq<T>, c: seq<T>)
    ensures a + b + c == a + (b + c)
  {
  }

  function WithHunks(patches: seq<FilePatch>, hunks: seq<Hunk>): seq<FilePatch>
    requires patches != []
  {
    var current := patches[|patches| - 1];
    patches[|patches| - 1 := current.(hunks := current.hunks + hunks)]
  }

  /** The walk after the header and the body of a hunk. */
  function AfterHunk(w: Walk, h: EditHunk): Walk {
    Walk(Flushed(w).patches, true, h.oldStart, OldSide(h.lines), NewSide(h.lines))
  }

  lemma HunkReadsBack(h: EditHunk, rest: seq<string>, w: Walk)
    requires w.patches != [] && forall line | line in h.lines :: !LooksLikeHeader(line)
    ensures ParseLines(PrintHunk(h) + rest, w) == ParseLines(rest, AfterHunk(w, h))
  {
    hide ParseLines, HunkHeader, LooksLikeHeader, ParseHunkHeader;
    var text := PrintHunk(h) + rest;
    assert text[0] == HunkHeader(h) && text[1..] == PrintBody(h.lines) + rest;
    HeaderReadsBack(h);
    HunkHeaderStep(text, w, h.oldStart);
    var w1 := Walk(Flushed(w).patches, true, h.oldStart, [], []);
    BodyReadsBack(h.lines, rest, w1);
    assert [] + OldSide(h.lines) == OldSide(h.lines) && [] + NewSide(h.lines) == NewSide(h.lines);
  }

  lemma FlushAdds(w: Walk, h: EditHunk, more: seq<Hunk>)
    requires w.patches != []
    ensures WithHunks(Flushed(AfterHunk(w, h)).patches, more) == WithHunks(Flushed(w).patches, [HunkOf(h)] + more)
  {
    var current := Flushed(w).patches[|w.patches| - 1];
    assert current.hunks + [HunkOf(h)] + more == current.hunks + ([HunkOf(h)] + more);
  }

  lemma {:induction false} HunksReadBack(hunks: seq<EditHunk>, rest: seq<string>, w: Walk) returns (w': Walk)
    requires w.patches != [] && Plain(hunks)
    ensures ParseLines(PrintHunks(hunks) + rest, w) == ParseLines(rest, w')
    ensures w'.patches != [] && Flushed(w').patches == WithHunks(Flushed(w).patches, HunksOf(hunks))
  {
    hide ParseLines, PrintHunk, LooksLikeHeader;
    if hunks == [] {
      assert PrintHunks(hunks) + rest == rest;
      var current := Flushed(w).patches[|w.patches| - 1];
      assert current.hunks + [] == current.hunks;
      w' := w;
    } else {
      var h, tail := hunks[0], PrintHunks(hunks[1..]) + rest;
      assert PrintHunks(hunks) + rest == PrintHunk(h) + tail;
      assert h in hunks && forall x | x in hunks[1..] :: x in hunks;
      HunkReadsBack(h, tail, w);
      FlushAdds(w, h, HunksOf(hunks[1..]));
      hide Flushed, WithHunks, HunkOf;
      w' := HunksReadBack(hunks[1..], rest, AfterHunk(w, h));
    }
  }

  lemma MarksReadBack(f: FileEdit)
    requires PathFits(f.oldPath) && PathFits(f.newPath)
    ensures var older, newer := "--- " + PathMark("a/", f.oldPath), "+++ " + PathMark("b/", f.newPath);
            && "--- " <= older && StripPrefix(older[4..]) == f.oldPath
            && "+++ " <= newer && StripPrefix(newer[4..]) == f.newPath
  {
    PathReadsBack("a/", f.oldPath);
    PathReadsBack("b/", f.newPath);
    hide PathMark, StripPrefix, PathFits;
    var a, b := PathMark("a/", f.oldPath), PathMark("b/", f.newPath);
    assert ("--- " + a)[4..] == a && ("+++ " + b)[4..] == b;
    assert ("--- " + a)[..4] == "--- " && ("+++ " + b)[..4] == "+++ ";
  }

  lemma FileReadsBack(f: FileEdit, rest: seq<string>, w: Walk) returns (w': Walk)
    requires Fits(f) && Plain(f.hunks)
    ensures ParseLines(PrintFile(f) + rest, w) == ParseLines(rest, w')
    ensures Flushed(w').patches == Flushed(w).patches + [PatchOf(f)]
  {
    hide ParseLines, PrintHunks, PathMark, StripPrefix;
    var text := PrintFile(f) + rest;
    assert text[2..] == PrintHunks(f.hunks) + rest;
    MarksReadBack(f);
    FileHeaderStep(text, w);
    var begun := Flushed(w).patches + [FilePatch(f.oldPath, f.newPath, [])];
    var w1 := Flushed(w).(patches := begun);
    w' := HunksReadBack(f.hunks, rest, w1);
    assert [] + HunksOf(f.hunks) == HunksOf(f.hunks);
    assert Flushed(w1).patches == begun;
  }

  lemma NothingLeft(w: Walk)
    requires Flushed(w).patches != []
    ensures ParseLines([], w) == Success(Flushed(w).patches)
  {
  }

  lemma {:induction false} FilesReadBack(files: seq<FileEdit>, w: Walk)
    requires files != [] || Flushed(w).patches != []
    requires AllFit(files) && NoHiddenHeader(files)
    ensures ParseLines(PrintFiles(files), w) == Success(Flushed(w).patches + PatchesOf(files))
  {
    hide ParseLines, PrintFile, Plain, Fits, PatchOf, Flushed;
    if files == [] {
      NothingLeft(w);
      assert Flushed(w).patches + [] == Flushed(w).patches;
    } else {
      var f := files[0];
      assert forall x | x in files[1..] :: x in files;
      var w' := FileReadsBack(f, PrintFiles(files[1..]), w);
      FilesReadBack(files[1..], w');
      Glues(Flushed(w).patches, [PatchOf(f)], PatchesOf(files[1..]));
    }
  }

  // ---------------------------------------------------------------- hidden headers show

  function HeaderCount(lines: seq<string>): nat {
    if lines == [] then 0 else (if "--- " <= lines[0] then 1 else 0) + HeaderCount(lines[1..])
  }

  /** Every `--- ` line opens a file, wherever it stands. */
  lemma {:induction false} FilesAreHeaders(lines: seq<string>, w: Walk)
    ensures ParseLines(lines, w).Success? ==> |ParseLines(lines, w).value| == |w.patches| + HeaderCount(lines)
    decreases |lines|, w.inHunk
  {
    hide StripPrefix, ParseHunkHeader;
    if lines == [] {
    } else if "--- " <= lines[0] {
      if |lines| > 1 && "+++ " <= lines[1] {
        var file := FilePatch(StripPrefix(lines[0][4..]), StripPrefix(lines[1][4..]), []);
        FilesAreHeaders(lines[2..], Flushed(w).(patches := Flushed(w).patches + [file]));
        assert lines[1..][1..] == lines[2..] && lines[1][0] == '+';
      }
    } else if "@@" <= lines[0] {
      var start := ParseHunkHeader(lines[0]);
      if start.Some? {
        FilesAreHeaders(lines[1..], Walk(Flushed(w).patches, true, start.value, [], []));
      }
    } else if w.inHunk {
      var next := BodyLine(w, lines[0]);
      if next.Some? {
        FilesAreHeaders(lines[1..], next.value);
      } else {
        FilesAreHeaders(lines, Flushed(w));
      }
    } else {
      FilesAreHeaders(lines[1..], w);
    }
  }

  lemma {:induction false} CountJoins(a: seq<string>, b: seq<string>)
    ensures HeaderCount(a + b) == HeaderCount(a) + HeaderCount(b)
  {
    if a == [] {
      assert a + b == b;
    } else {
      assert (a + b)[1..] == a[1..] + b;
      CountJoins(a[1..], b);
    }
  }

  lemma {:induction false} CountBody(lines: seq<EditLine>)
    ensures HeaderCount(PrintBody(lines)) > 0 <==> exists line | line in lines :: LooksLikeHeader(line)
  {
    if lines != [] {
      LineAsHeader(lines[0]);
      CountBody(lines[1..]);
      assert PrintBody(lines)[1..] == PrintBody(lines[1..]);
      assert forall line :: line in lines <==> line == lines[0] || line in lines[1..];
    }
  }

  lemma {:induction false} CountHunks(hunks: seq<EditHunk>)
    ensures HeaderCount(PrintHunks(hunks)) > 0 <==> !Plain(hunks)
  {
    if hunks != [] {
      var h := hunks[0];
      CountBody(h.lines);
      CountHunks(hunks[1..]);
      CountJoins(PrintHunk(h), PrintHunks(hunks[1..]));
      CountJoins([HunkHeader(h)], PrintBody(h.lines));
      assert HeaderCount([HunkHeader(h)]) == 0 by {
        assert HunkHeader(h)[0] == '@';
      }
      hide HunkHeader;
      assert forall x :: x in hunks <==> x == h || x in hunks[1..];
      if exists line | line in h.lines :: LooksLikeHeader(line) {
        var line :| line in h.lines && LooksLikeHeader(line);
        assert h in hunks && line in h.lines;
      }
    }
  }

  lemma {:induction false} CountFiles(files: seq<FileEdit>)
    ensures HeaderCount(PrintFiles(files)) >= |files|
    ensures HeaderCount(PrintFiles(files)) > |files| <==> !NoHiddenHeader(files)
  {
    if files != [] {
      var f := files[0];
      var marks := ["--- " + PathMark("a/", f.oldPath), "+++ " + PathMark("b/", f.newPath)];
      CountHunks(f.hunks);
      CountFiles(files[1..]);
      CountJoins(PrintFile(f), PrintFiles(files[1..]));
      CountJoins(marks, PrintHunks(f.hunks));
      assert HeaderCount(marks) == 1 by {
        assert marks[0][..4] == "--- " && marks[1][0] == '+' && marks[1..][0] == marks[1] && marks[1..][1..] == [];
      }
      hide PathMark;
      assert forall x :: x in files <==> x == f || x in files[1..];
    }
  }

  /** The parser does not report as many files as were printed. */
  predicate Miscounts(files: seq<FileEdit>) {
    var result := ParseLines(PrintFiles(files), START);
    result.Success? ==> |result.value| != |files|
  }

  /** With a hidden header the parser cannot report as many files as were printed. */
  lemma HiddenHeaderShows(files: seq<FileEdit>)
    requires !NoHiddenHeader(files)
    ensures Miscounts(files)
  {
    CountFiles(files);
    FilesAreHeaders(PrintFiles(files), START);
  }

  lemma {:induction false} PatchCount(files: seq<FileEdit>)
    ensures |PatchesOf(files)| == |files|
  {
    if files != [] {
      PatchCount(files[1..]);
    }
  }

  /** Line by line, the parser undoes the printer exactly when no removed line starts with `-- `. */
  lemma LinesRoundTrip(files: seq<FileEdit>)
    requires files != [] && AllFit(files)
    ensures ParseLines(PrintFiles(files), START) == Success(PatchesOf(files)) <==> NoHiddenHeader(files)
  {
    PatchCount(files);
    assert Flushed(START).patches == [];
    hide ParseLines, PrintFiles, Fits, PatchesOf, NoHiddenHeader, Flushed;
    if NoHiddenHeader(files) {
      FilesReadBack(files, START);
      assert [] + PatchesOf(files) == PatchesOf(files);
    } else {
      HiddenHeaderShows(files);
    }
  }
}
