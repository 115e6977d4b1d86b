/**
 Text level: what the trimming in `normalize_diff_text` (src/gca/tools/patch.py, lines 80-98) does to a printed
 diff, and when parsing the text gives back what was printed.
 */
module PatchRoundTrip {
  import opened Wrappers
  import opened Text
  import opened PatchParse
  import opened PatchPrint

  /** A line that trimming the end of a text leaves alone. */
  predicate TightTail(line: string) {
    line != "" && !IsSpace(line[|line| - 1])
  }

  // ---------------------------------------------------------------- trimming lines

  lemma {:induction false} RStripEnd(a: string, b: string)
    ensures RStrip(a + b) == if RStrip(b) == "" then RStrip(a) else a + RStrip(b)
  {
    if b == "" {
      assert a + b == a;
    } else {
      assert (a + b)[|a + b| - 1] == b[|b| - 1];
      hide IsSpace;
      if IsSpace(b[|b| - 1]) {
        assert (a + b)[..|a + b| - 1] == a + b[..|b| - 1];
        RStripEnd(a, b[..|b| - 1]);
      }
    }
  }

  lemma {:induction false} JoinMore(head: seq<string>, x: string)
    requires head != []
    ensures Join(head + [x]) == Join(head) + "\n" + x
  {
    assert (head + [x])[1..] == head[1..] + [x];
    if |head| > 1 {
      JoinMore(head[1..], x);
      assert head[0] + "\n" + (Join(head[1..]) + "\n" + x) == head[0] + "\n" + Join(head[1..]) + "\n" + x;
    }
  }

  /** What is left of a hunk body at the end of a text. */
  function TrimBody(lines: seq<EditLine>): (left: seq<EditLine>)
    ensures |left| <= |lines|
  {
    if lines == [] then []
    else
      var front, last := lines[..|lines| - 1], lines[|lines| - 1];
      var text := RStrip(PrintLine(last));
      if text == "" then TrimBody(front) else front + [last.(body := text[1..])]
  }

  lemma {:induction false} PrintBodyMore(lines: seq<EditLine>, last: EditLine)
    ensures PrintBody(lines + [last]) == PrintBody(lines) + [PrintLine(last)]
  {
    hide PrintLine;
    if lines == [] {
      assert lines + [last] == [last] && [last][1..] == [];
    } else {
      assert (lines + [last])[1..] == lines[1..] + [last];
      PrintBodyMore(lines[1..], last);
    }
  }

  lemma KeptMark(line: EditLine)
    requires RStrip(PrintLine(line)) != ""
    ensures var text := RStrip(PrintLine(line));
            PrintLine(line.(body := text[1..])) == text && text[1..] <= line.body
  {
    var text := RStrip(PrintLine(line));
    assert text == [text[0]] + text[1..];
    assert PrintLine(line)[1..] == line.body;
    assert PrintLine(line)[..|text|] == text;
    assert line.body[..|text| - 1] == text[1..];
  }

  lemma StripLast(head: seq<string>, x: string)
    requires head != []
    ensures RStrip(Join(head + [x])) == if RStrip(x) == "" then RStrip(Join(head)) else Join(head + [RStrip(x)])
  {
    JoinMore(head, x);
    JoinMore(head, RStrip(x));
    assert RStrip("\n") == "" by { assert RStrip("") == ""; }
    var joined := Join(head);
    hide RStrip, Join;
    RStripEnd(joined + "\n", x);
    RStripEnd(joined, "\n");
  }

  lemma TrimmedLast(head: seq<string>, lines: seq<EditLine>)
    requires head != [] && lines != []
    ensures var front, last := lines[..|lines| - 1], lines[|lines| - 1];
            var text := RStrip(PrintLine(last));
            RStrip(Join(head + PrintBody(lines))) ==
            if text == "" then RStrip(Join(head + PrintBody(front))) else Join(head + PrintBody(TrimBody(lines)))
    ensures RStrip(PrintLine(lines[|lines| - 1])) != "" ==>
            head + PrintBody(TrimBody(lines)) ==
            head + PrintBody(lines[..|lines| - 1]) + [RStrip(PrintLine(lines[|lines| - 1]))]
  {
    var front, last := lines[..|lines| - 1], lines[|lines| - 1];
    var text := RStrip(PrintLine(last));
    assert lines == front + [last];
    PrintBodyMore(front, last);
    if text != "" {
      KeptMark(last);
      PrintBodyMore(front, last.(body := text[1..]));
      assert TrimBody(lines) == front + [last.(body := text[1..])];
    }
    hide PrintLine, PrintBody, RStrip, Join, TrimBody;
    assert head + (PrintBody(front) + [PrintLine(last)]) == head + PrintBody(front) + [PrintLine(last)];
    assert head + (PrintBody(front) + [text]) == head + PrintBody(front) + [text];
    StripLast(head + PrintBody(front), PrintLine(last));
  }

  lemma NothingToTrim(head: seq<string>)
    requires head != [] && TightTail(head[|head| - 1])
    ensures RStrip(Join(head)) == Join(head) && head + PrintBody(TrimBody([])) == head && head + PrintBody([]) == head
  {
    JoinLast(head);
  }

  lemma TrimStep(lines: seq<EditLine>)
    requires lines != []
    ensures var text := RStrip(PrintLine(lines[|lines| - 1]));
            if text == "" then TrimBody(lines) == TrimBody(lines[..|lines| - 1]) else TightTail(text)
  {
    hide IsSpace;
  }

  lemma {:induction false} TrimmedBody(head: seq<string>, lines: seq<EditLine>)
    requires head != [] && TightTail(head[|head| - 1])
    ensures RStrip(Join(head + PrintBody(lines))) == Join(head + PrintBody(TrimBody(lines)))
    ensures var left := head + PrintBody(TrimBody(lines)); left != [] && TightTail(left[|left| - 1])
  {
    hide *;
    if lines == [] {
      NothingToTrim(head);
    } else {
      TrimStep(lines);
      TrimmedLast(head, lines);
      if RStrip(PrintLine(lines[|lines| - 1])) == "" {
        TrimmedBody(head, lines[..|lines| - 1]);
      }
    }
  }

  /** The number of lines and characters on both sides of a hunk. */
  function Size(lines: seq<string>): nat {
    if lines == [] then 0 else 1 + |lines[0]| + Size(lines[1..])
  }

  lemma {:induction false} SizeAdds(a: seq<string>, b: seq<string>)
    ensures Size(a + b) == Size(a) + Size(b)
  {
    if a == [] {
      assert a + b == b;
    } else {
      assert (a + b)[1..] == a[1..] + b;
      SizeAdds(a[1..], b);
    }
  }

  lemma {:induction false} SidesAdd(a: seq<EditLine>, b: seq<EditLine>)
    ensures OldSide(a + b) == OldSide(a) + OldSide(b) && NewSide(a + b) == NewSide(a) + NewSide(b)
  {
    if a == [] {
      assert a + b == b;
    } else {
      assert (a + b)[0] == a[0] && (a + b)[1..] == a[1..] + b;
      SidesAdd(a[1..], b);
      SidesSplit(a);
      SidesSplit(a + b);
      var first, more := [a[0]], a[1..];
      hide OldSide, NewSide;
      Glues(OldSide(first), OldSide(more), OldSide(b));
      Glues(NewSide(first), NewSide(more), NewSide(b));
    }
  }

  function Weight(lines: seq<EditLine>): nat {
    Size(OldSide(lines)) + Size(NewSide(lines))
  }

  lemma WeightAdds(a: seq<EditLine>, b: seq<EditLine>)
    ensures Weight(a + b) == Weight(a) + Weight(b)
  {
    SidesAdd(a, b);
    SizeAdds(OldSide(a), OldSide(b));
    SizeAdds(NewSide(a), NewSide(b));
  }

  lemma LineWeight(line: EditLine)
    ensures Weight([line]) == if line.Context? then 2 * (1 + |line.body|) else 1 + |line.body|
  {
    SingleSides(line);
    assert Size([line.body]) == 1 + |line.body| + Size([]);
  }

  lemma KeptWeight(line: EditLine)
    requires RStrip(PrintLine(line)) != ""
    ensures var kept := line.(body := RStrip(PrintLine(line))[1..]);
            && Weight([kept]) <= Weight([line])
            && (TightTail(PrintLine(line)) ==> kept == line)
            && (!TightTail(PrintLine(line)) ==> Weight([kept]) < Weight([line]))
  {
    var text := RStrip(PrintLine(line));
    KeptMark(line);
    LineWeight(line);
    LineWeight(line.(body := text[1..]));
    hide Weight;
    assert |PrintLine(line)| == 1 + |line.body| && PrintLine(line)[1..] == line.body;
    if |text| == |PrintLine(line)| {
      assert text == PrintLine(line);
    }
  }

  /** Trimming a body that ends in white space loses something of its sides. */
  lemma {:induction false} TrimLoses(lines: seq<EditLine>)
    requires lines != []
    ensures Weight(TrimBody(lines)) <= Weight(lines)
    ensures TightTail(PrintLine(lines[|lines| - 1])) ==> TrimBody(lines) == lines
    ensures !TightTail(PrintLine(lines[|lines| - 1])) ==> Weight(TrimBody(lines)) < Weight(lines)
  {
    var front, last := lines[..|lines| - 1], lines[|lines| - 1];
    var text := RStrip(PrintLine(last));
    assert lines == front + [last];
    WeightAdds(front, [last]);
    LineWeight(last);
    hide Weight, PrintLine, IsSpace;
    if text == "" {
      TrimStep(lines);
      hide TrimBody;
      if front != [] {
        TrimLoses(front);
      } else {
        assert TrimBody([]) == [];
      }
    } else {
      KeptWeight(last);
      WeightAdds(front, [last.(body := text[1..])]);
    }
  }

  // ---------------------------------------------------------------- the end of a printed diff

  /** The body of the last hunk of the last file, if there is one. */
  function TailOf(files: seq<FileEdit>): seq<EditLine>
    requires files != []
  {
    var hunks := files[|files| - 1].hunks;
    if hunks == [] then [] else hunks[|hunks| - 1].lines
  }

  function WithTail(files: seq<FileEdit>, lines: seq<EditLine>): seq<FileEdit>
    requires files != []
  {
    var n, f := |files| - 1, files[|files| - 1];
    var k := |f.hunks| - 1;
    if f.hunks == [] then files
    else files[..n] + [f.(hunks := f.hunks[..k] + [f.hunks[k].(lines := lines)])]
  }

  /** Every line of a diff but the body of its last hunk. */
  function HeadOf(files: seq<FileEdit>): seq<string>
    requires files != []
  {
    PrintFiles(WithTail(files, []))
  }

  lemma {:induction false} PrintFilesMore(files: seq<FileEdit>, f: FileEdit)
    ensures PrintFiles(files + [f]) == PrintFiles(files) + PrintFile(f)
  {
    hide PrintFile;
    if files == [] {
      assert files + [f] == [f] && [f][1..] == [];
    } else {
      assert (files + [f])[1..] == files[1..] + [f];
      PrintFilesMore(files[1..], f);
    }
  }

  lemma {:induction false} PrintHunksMore(hunks: seq<EditHunk>, h: EditHunk)
    ensures PrintHunks(hunks + [h]) == PrintHunks(hunks) + PrintHunk(h)
  {
    hide PrintHunk;
    if hunks == [] {
      assert hunks + [h] == [h] && [h][1..] == [];
    } else {
      assert (hunks + [h])[1..] == hunks[1..] + [h];
      PrintHunksMore(hunks[1..], h);
    }
  }

  lemma PrintLastHunk(f: FileEdit, hunks: seq<EditHunk>, h: EditHunk, lines: seq<EditLine>)
    ensures PrintFile(f.(hunks := hunks + [h.(lines := lines)])) ==
            PrintFile(f.(hunks := hunks)) + [HunkHeader(h)] + PrintBody(lines)
  {
    PrintHunksMore(hunks, h.(lines := lines));
    assert HunkHeader(h.(lines := lines)) == HunkHeader(h);
    hide HunkHeader, PrintBody, PathMark, PrintHunks;
  }

  lemma PrintTail(files: seq<FileEdit>, lines: seq<EditLine>)
    requires files != [] && files[|files| - 1].hunks != []
    ensures PrintFiles(WithTail(files, lines)) == HeadOf(files) + PrintBody(lines)
    ensures HeadOf(files) != [] && HeadOf(files)[|HeadOf(files)| - 1] ==
            HunkHeader(files[|files| - 1].hunks[|files[|files| - 1].hunks| - 1])
  {
    PrintWithTail(files, lines);
    PrintWithTail(files, []);
    assert PrintBody([]) == [];
    hide PrintFiles, PrintFile, PrintBody, HunkHeader, WithTail;
    var n, f := |files| - 1, files[|files| - 1];
    var k := |f.hunks| - 1;
    var front := PrintFiles(files[..n]) + PrintFile(f.(hunks := f.hunks[..k])) + [HunkHeader(f.hunks[k])];
    assert front + [] == front;
  }

  lemma PrintWithTail(files: seq<FileEdit>, lines: seq<EditLine>)
    requires files != [] && files[|files| - 1].hunks != []
    ensures var n, f := |files| - 1, files[|files| - 1];
            var k := |f.hunks| - 1;
            PrintFiles(WithTail(files, lines)) ==
            PrintFiles(files[..n]) + PrintFile(f.(hunks := f.hunks[..k])) + [HunkHeader(f.hunks[k])] + PrintBody(lines)
  {
    var n, f := |files| - 1, files[|files| - 1];
    var k := |f.hunks| - 1;
    PrintFilesMore(files[..n], f.(hunks := f.hunks[..k] + [f.hunks[k].(lines := lines)]));
    PrintLastHunk(f, f.hunks[..k], f.hunks[k], lines);
    hide PrintFiles, PrintFile, PrintBody, HunkHeader;
    var front := PrintFile(f.(hunks := f.hunks[..k]));
    Glues(PrintFiles(files[..n]), front, [HunkHeader(f.hunks[k])]);
    Glues(PrintFiles(files[..n]), front + [HunkHeader(f.hunks[k])], PrintBody(lines));
  }

  lemma SameTail(files: seq<FileEdit>)
    requires files != []
    ensures WithTail(files, TailOf(files)) == files
  {
    var n, f := |files| - 1, files[|files| - 1];
    assert files[..n] + [f] == files;
    if f.hunks != [] {
      var k := |f.hunks| - 1;
      assert f.hunks[..k] + [f.hunks[k]] == f.hunks;
    }
  }

  /** The edits that survive the trimming of the text. */
  function Trimmed(files: seq<FileEdit>): seq<FileEdit>
    requires files != []
  {
    WithTail(files, TrimBody(TailOf(files)))
  }

  lemma {:induction false} FinalPatch(files: seq<FileEdit>)
    requires files != []
    ensures |PatchesOf(files)| == |files| && PatchesOf(files)[|files| - 1] == PatchOf(files[|files| - 1])
  {
    if |files| > 1 {
      FinalPatch(files[1..]);
    }
  }

  lemma {:induction false} LastHunk(hunks: seq<EditHunk>)
    requires hunks != []
    ensures |HunksOf(hunks)| == |hunks| && HunksOf(hunks)[|hunks| - 1] == HunkOf(hunks[|hunks| - 1])
  {
    if |hunks| > 1 {
      LastHunk(hunks[1..]);
    }
  }

  /** The sides of the last hunk of the last file, as one sequence. */
  function LastSides(patches: seq<FilePatch>): nat {
    if patches == [] || patches[|patches| - 1].hunks == [] then 0
    else
      var hunks := patches[|patches| - 1].hunks;
      Size(hunks[|hunks| - 1].oldLines) + Size(hunks[|hunks| - 1].newLines)
  }

  lemma TailPatch(files: seq<FileEdit>, lines: seq<EditLine>)
    requires files != [] && files[|files| - 1].hunks != []
    ensures LastSides(PatchesOf(WithTail(files, lines))) == Weight(lines)
  {
    var left := WithTail(files, lines);
    FinalPatch(left);
    LastHunk(left[|left| - 1].hunks);
  }

  // ---------------------------------------------------------------- the characters of a printed diff

  /** What every printed line looks like to the clean-up that runs before parsing. */
  predicate Clean(line: string) {
    OneLine(line) && line != "" && line[0] in {'-', '+', '@', ' '}
  }

  predicate AllClean(lines: seq<string>) {
    forall line | line in lines :: Clean(line)
  }

  lemma CleanJoins(a: seq<string>, b: seq<string>)
    requires AllClean(a) && AllClean(b)
    ensures AllClean(a + b)
  {
  }

  lemma OneLineJoins(a: string, b: string)
    requires OneLine(a) && OneLine(b)
    ensures OneLine(a + b)
  {
    hide IsBreak;
  }

  lemma {:induction false} BodyClean(lines: seq<EditLine>)
    requires forall line | line in lines :: OneLine(line.body)
    ensures AllClean(PrintBody(lines))
  {
    if lines != [] {
      var mark := PrintLine(lines[0])[..1];
      assert PrintLine(lines[0]) == mark + lines[0].body;
      OneLineJoins(mark, lines[0].body);
      BodyClean(lines[1..]);
    }
  }

  lemma DigitsOneLine(s: string)
    requires forall c | c in s :: IsDigit(c)
    ensures OneLine(s)
  {
  }

  lemma HeaderClean(h: EditHunk)
    ensures Clean(HunkHeader(h)) && TightTail(HunkHeader(h))
  {
    var a, b, c, d := Decimal(h.oldStart), Decimal(h.oldCount), Decimal(h.newStart), Decimal(h.newCount);
    DigitsOneLine(a);
    DigitsOneLine(b);
    DigitsOneLine(c);
    DigitsOneLine(d);
    assert OneLine("@@ -") && OneLine(",") && OneLine(" +") && OneLine(" @@");
    assert TightTail(HunkHeader(h)) by {
      hide Decimal;
      assert HunkHeader(h)[|HunkHeader(h)| - 1] == '@';
    }
    hide Decimal, OneLine, TightTail;
    OneLineJoins("@@ -", a);
    OneLineJoins("@@ -" + a, ",");
    OneLineJoins("@@ -" + a + ",", b);
    OneLineJoins("@@ -" + a + "," + b, " +");
    OneLineJoins("@@ -" + a + "," + b + " +", c);
    OneLineJoins("@@ -" + a + "," + b + " +" + c, ",");
    OneLineJoins("@@ -" + a + "," + b + " +" + c + ",", d);
    OneLineJoins("@@ -" + a + "," + b + " +" + c + "," + d, " @@");
    assert HunkHeader(h)[0] == '@';
  }

  lemma {:induction false} HunksClean(hunks: seq<EditHunk>)
    requires forall h, line | h in hunks && line in h.lines :: OneLine(line.body)
    ensures AllClean(PrintHunks(hunks))
  {
    if hunks != [] {
      var h := hunks[0];
      assert h in hunks;
      BodyClean(h.lines);
      HeaderClean(h);
      hide OneLine, HunkHeader;
      assert forall x | x in hunks[1..] :: x in hunks;
      HunksClean(hunks[1..]);
      CleanJoins(PrintHunk(h), PrintHunks(hunks[1..]));
    }
  }

  lemma MarksClean(f: FileEdit)
    requires PathFits(f.oldPath) && PathFits(f.newPath)
    ensures var older, newer := "--- " + PathMark("a/", f.oldPath), "+++ " + PathMark("b/", f.newPath);
            Clean(older) && Clean(newer) && TightTail(newer)
  {
    MarkIsTight("b/", f.newPath);
    assert OneLine("a/") && OneLine("b/") && OneLine("/dev/null") && OneLine("--- ") && OneLine("+++ ");
    if f.oldPath.Some? {
      OneLineJoins("a/", f.oldPath.value);
    }
    if f.newPath.Some? {
      OneLineJoins("b/", f.newPath.value);
    }
    var a, b := PathMark("a/", f.oldPath), PathMark("b/", f.newPath);
    assert OneLine(a) && OneLine(b);
    hide OneLine, IsSpace, PathMark, PathFits;
    OneLineJoins("--- ", a);
    OneLineJoins("+++ ", b);
    assert ("+++ " + b)[|"+++ " + b| - 1] == b[|b| - 1];
    assert ("--- " + a)[0] == '-' && ("+++ " + b)[0] == '+';
  }

  lemma {:induction false} FilesClean(files: seq<FileEdit>)
    requires AllFit(files)
    ensures AllClean(PrintFiles(files))
    ensures files != [] ==> PrintFiles(files)[0][0] == '-'
  {
    if files != [] {
      var f := files[0];
      assert Fits(f);
      MarksClean(f);
      HunksClean(f.hunks);
      hide Clean, PathMark, PrintHunks, PathFits;
      var marks := ["--- " + PathMark("a/", f.oldPath), "+++ " + PathMark("b/", f.newPath)];
      CleanJoins(marks, PrintHunks(f.hunks));
      FilesClean(files[1..]);
      CleanJoins(PrintFile(f), PrintFiles(files[1..]));
    }
  }

  // ---------------------------------------------------------------- the round trip

  lemma {:induction false} NoPreamble(lines: seq<string>)
    requires AllClean(lines)
    ensures WithoutPreamble(lines) == lines
  {
    if lines != [] {
      assert Clean(lines[0]);
      assert AllClean(lines[1..]);
      NoPreamble(lines[1..]);
    }
  }

  lemma JoinedUnix(lines: seq<string>)
    requires AllClean(lines)
    ensures UnixBreaks(Join(lines) + "\n") == Join(lines) + "\n"
  {
    var text := Join(lines) + "\n";
    if '\r' in text {
      assert '\r' in Join(lines);
      JoinChars(lines, '\r');
    }
    NoReturns(text);
  }

  lemma StripFront(text: string)
    requires text != "" && text[0] == '-'
    ensures Strip(text) == RStrip(text)
  {
    assert !IsSpace('-');
    hide IsSpace, RStrip;
    assert LStrip(text) == text;
  }

  lemma {:induction false} JoinStarts(lines: seq<string>)
    requires lines != [] && lines[0] != ""
    ensures Join(lines) != "" && Join(lines)[0] == lines[0][0]
  {
  }

  predicate Diffs(lines: seq<string>) {
    lines != [] && AllClean(lines) && lines[0] != "" && lines[0][0] == '-'
  }

  /** Trimming a diff whose last line is tight changes nothing. */
  lemma NormalizedTight(lines: seq<string>)
    requires Diffs(lines) && TightTail(lines[|lines| - 1])
    ensures Strip(Join(WithoutPreamble(SplitLines(Unfenced(Join(lines)))))) == Join(lines)
    ensures WithoutPreamble(SplitLines(Unfenced(Join(lines)))) == lines
  {
    JoinStarts(lines);
    JoinEnds(lines);
    StripTight(Join(lines));
    assert Unfenced(Join(lines)) == Join(lines) by {
      hide SplitLines, Join, Strip;
    }
    SplitJoined(lines);
    NoPreamble(lines);
  }

  lemma StrippedText(raw: seq<string>)
    requires Diffs(raw)
    ensures Strip(UnixBreaks(Terminated(raw))) == RStrip(Join(raw))
  {
    JoinTerminated(raw);
    JoinedUnix(raw);
    JoinStarts(raw);
    var joined := Join(raw);
    assert RStrip("\n") == "" by { assert RStrip("") == ""; }
    hide Join, Strip, RStrip, UnixBreaks, Terminated;
    StripFront(joined + "\n");
    RStripEnd(joined, "\n");
  }

  lemma TextToLines(raw: seq<string>, lines: seq<string>)
    requires Diffs(raw) && Diffs(lines) && TightTail(lines[|lines| - 1])
    requires RStrip(Join(raw)) == Join(lines)
    ensures Parse(Terminated(raw)) == ParseLines(lines, START)
  {
    StrippedText(raw);
    NormalizedTight(lines);
    JoinTerminated(lines);
    SplitTerminated(lines);
    hide Diffs, TightTail, Join, Terminated, RStrip, Strip, UnixBreaks, Unfenced, SplitLines, WithoutPreamble,
      ParseLines;
  }

  lemma FilesDiff(files: seq<FileEdit>)
    requires files != [] && AllFit(files)
    ensures Diffs(PrintFiles(files))
  {
    FilesClean(files);
    hide PathMark, PrintHunks, Fits;
    assert PrintFiles(files)[0] in PrintFiles(files);
  }

  lemma TrimmedEnd(files: seq<FileEdit>)
    requires files != [] && AllFit(files)
    ensures var lines := PrintFiles(Trimmed(files));
            && lines != [] && TightTail(lines[|lines| - 1])
            && RStrip(Join(PrintFiles(files))) == Join(lines)
  {
    SameTail(files);
    var f := files[|files| - 1];
    var tail := TailOf(files);
    if f.hunks != [] {
      HeaderClean(f.hunks[|f.hunks| - 1]);
      hide PrintFiles, PrintBody, TrimBody, HunkHeader, RStrip, Join, TightTail, WithTail, HeadOf, Clean, Fits;
      PrintTail(files, tail);
      PrintTail(files, TrimBody(tail));
      TrimmedBody(HeadOf(files), tail);
    } else {
      FileEnds(files);
      hide PrintFiles, TightTail, RStrip, Join;
      NothingToTrim(PrintFiles(files));
    }
  }

  lemma FileEnds(files: seq<FileEdit>)
    requires files != [] && AllFit(files) && files[|files| - 1].hunks == []
    ensures var lines := PrintFiles(files); lines != [] && TightTail(lines[|lines| - 1])
  {
    var n, f := |files| - 1, files[|files| - 1];
    assert Fits(f);
    MarksClean(f);
    assert files == files[..n] + [f];
    PrintFilesMore(files[..n], f);
    hide PrintFiles, PathMark, TightTail, Fits;
  }

  lemma {:induction false} TrimBodyFits(lines: seq<EditLine>)
    requires forall line | line in lines :: OneLine(line.body)
    ensures forall line | line in TrimBody(lines) :: OneLine(line.body)
  {
    if lines != [] {
      var front, last := lines[..|lines| - 1], lines[|lines| - 1];
      var text := RStrip(PrintLine(last));
      if text == "" {
        TrimBodyFits(front);
      } else {
        KeptMark(last);
        hide PrintLine;
        assert OneLine(last.body);
        assert OneLine(text[1..]) by { assert forall c | c in text[1..] :: c in last.body; }
      }
    }
  }

  lemma TrimmedFits(files: seq<FileEdit>)
    requires files != [] && AllFit(files)
    ensures AllFit(Trimmed(files))
  {
    var f := files[|files| - 1];
    assert Fits(f);
    if f.hunks != [] {
      assert f.hunks[|f.hunks| - 1] in f.hunks;
      TrimBodyFits(TailOf(files));
      hide TrimBody, OneLine, PathFits;
      var f' := Trimmed(files)[|files| - 1];
      forall h, line | h in f'.hunks && line in h.lines
        ensures OneLine(line.body)
      {
        assert h in f.hunks || h == f'.hunks[|f.hunks| - 1];
      }
      assert Fits(f');
    }
  }

  /** Parsing a printed text yields what is left of the edits after trimming. */
  lemma ParsesTrimmed(files: seq<FileEdit>)
    requires files != [] && AllFit(files)
    ensures Parse(PrintText(files)) == ParseLines(PrintFiles(Trimmed(files)), START)
  {
    FilesDiff(files);
    TrimmedFits(files);
    FilesDiff(Trimmed(files));
    TrimmedEnd(files);
    hide Diffs, TightTail, Join, PrintFiles, Trimmed, RStrip, ParseLines, Parse;
    TextToLines(PrintFiles(files), PrintFiles(Trimmed(files)));
  }

  lemma {:induction false} PrintBodyLast(lines: seq<EditLine>)
    requires lines != []
    ensures |PrintBody(lines)| == |lines| && PrintBody(lines)[|lines| - 1] == PrintLine(lines[|lines| - 1])
  {
    if |lines| > 1 {
      PrintBodyLast(lines[1..]);
    }
  }

  /** The last line is tight unless it belongs to the last body, and then it is that body's last line. */
  lemma LastLine(files: seq<FileEdit>)
    requires files != [] && AllFit(files)
    ensures TailOf(files) == [] ==> TightEnd(files)
    ensures var tail := TailOf(files);
            tail != [] ==> (TightEnd(files) <==> TightTail(PrintLine(tail[|tail| - 1])))
  {
    var f, tail := files[|files| - 1], TailOf(files);
    if f.hunks == [] {
      FileEnds(files);
    } else {
      SameTail(files);
      PrintTail(files, tail);
      HeaderClean(f.hunks[|f.hunks| - 1]);
      hide PrintFiles, PrintLine, HunkHeader, Clean, WithTail, HeadOf, IsSpace;
      if tail == [] {
        assert PrintBody(tail) == [];
      } else {
        PrintBodyLast(tail);
      }
    }
  }

  /** Trimming keeps the meaning of a diff exactly when its last line is tight. */
  lemma TrimmedMeaning(files: seq<FileEdit>)
    requires files != [] && AllFit(files)
    ensures TightEnd(files) ==> Trimmed(files) == files
    ensures !TightEnd(files) ==> PatchesOf(Trimmed(files)) != PatchesOf(files)
  {
    var tail := TailOf(files);
    LastLine(files);
    SameTail(files);
    assert TrimBody([]) == [];
    if tail != [] {
      hide TightEnd, TightTail, WithTail, PrintLine, AllFit, Weight, TrimBody, LastSides, PatchesOf;
      TrimLoses(tail);
      TailPatch(files, tail);
      TailPatch(files, TrimBody(tail));
    }
  }

  /** Parsing the printed text gives back what was printed. */
  predicate ReadsBack(files: seq<FileEdit>) {
    Parse(PrintText(files)) == Success(PatchesOf(files))
  }

  /**
   The round trip: parsing a printed diff gives back the paths, the start lines and both sides of every hunk
   exactly when no removed line starts with `-- ` and the last line does not end in white space.
   */
  lemma RoundTrip(files: seq<FileEdit>)
    requires files != [] && AllFit(files)
    ensures ReadsBack(files) <==> NoHiddenHeader(files) && TightEnd(files)
  {
    ParsesTrimmed(files);
    TrimmedMeaning(files);
    var left := Trimmed(files);
    TrimmedFits(files);
    assert |left| == |files|;
    PatchCount(files);
    PatchCount(left);
    LinesRoundTrip(left);
    if !NoHiddenHeader(left) {
      HiddenHeaderShows(left);
    } else {
      FilesReadBack(left, START);
    }
  }

  /** The first family that is misread: a removed line that starts with `-- `, anywhere in a diff. */
  lemma DashesAreLost(files: seq<FileEdit>, f: FileEdit, h: EditHunk, line: EditLine)
    requires AllFit(files) && f in files && h in f.hunks && line in h.lines
    requires LooksLikeHeader(line)
    ensures !ReadsBack(files)
  {
    assert !Plain(f.hunks);
    hide ReadsBack, AllFit, TightEnd, Plain, LooksLikeHeader;
    RoundTrip(files);
  }

  /** The second: a diff whose last line is a blank line of context. */
  lemma BlankIsLost(files: seq<FileEdit>)
    requires files != [] && AllFit(files) && TailOf(files) != [] && TailOf(files)[|TailOf(files)| - 1] == Context("")
    ensures !ReadsBack(files)
  {
    LastLine(files);
    assert PrintLine(Context("")) == " " && IsSpace(' ');
    assert !TightTail(PrintLine(Context("")));
    hide ReadsBack, NoHiddenHeader, AllFit, TightEnd;
    RoundTrip(files);
  }
}
