/**
 What hunks add and remove, counted: wherever a hunk goes, it takes its old lines and leaves its new ones.  So when two
 patches of one file are planned on the same text, a first one that adds or removes a line is lost.
 */
module PatchBalance {
  import opened Wrappers
  import opened Text
  import opened PatchParse
  import opened PatchApply
  import opened PatchFiles

  /** The lines that hunks take out, context included. */
  ghost function OldBag(hunks: seq<Hunk>): multiset<string> {
    if hunks == [] then multiset{} else multiset(hunks[0].oldLines) + OldBag(hunks[1..])
  }

  /** The lines that hunks put in, context included. */
  ghost function NewBag(hunks: seq<Hunk>): multiset<string> {
    if hunks == [] then multiset{} else multiset(hunks[0].newLines) + NewBag(hunks[1..])
  }

  lemma ReplacedBalance(lines: seq<string>, pos: nat, h: Hunk)
    requires Matches(lines, h.oldLines, pos)
    ensures multiset(Replaced(lines, pos, h)) + multiset(h.oldLines) == multiset(lines) + multiset(h.newLines)
  {
    var front, back := lines[..pos], lines[pos + |h.oldLines|..];
    assert lines == front + h.oldLines + back;
    assert Replaced(lines, pos, h) == front + h.newLines + back;
    hide *;
  }

  /** The lines of a patched file are the old ones, less what the hunks take out and with what they put in. */
  lemma {:induction false} LinesBalance(lines: seq<string>, hunks: seq<Hunk>, offset: int)
    requires Applied(lines, hunks, offset).Some?
    ensures multiset(Applied(lines, hunks, offset).value) + OldBag(hunks) == multiset(lines) + NewBag(hunks)
    decreases |hunks|
  {
    hide Applied, Located, Matches, Replaced;
    if hunks == [] {
      AppliedDone(lines, hunks, offset);
    } else {
      var h := hunks[0];
      var place := Located(lines, h.oldLines, Guess(h, offset));
      if place.None? {
        AppliedStuck(lines, hunks, offset);
      } else {
        AppliedStep(lines, hunks, offset, place.value);
        ReplacedBalance(lines, place.value, h);
        LinesBalance(Replaced(lines, place.value, h), hunks[1..], offset + Growth(h));
        hide *;
        Summed(multiset(lines), multiset(Replaced(lines, place.value, h)),
          multiset(Applied(lines, hunks, offset).value), multiset(h.oldLines), multiset(h.newLines), OldBag(hunks[1..]),
          NewBag(hunks[1..]));
        BagStep(hunks);
      }
    }
  }

  lemma BagStep(hunks: seq<Hunk>)
    requires hunks != []
    ensures OldBag(hunks) == multiset(hunks[0].oldLines) + OldBag(hunks[1..])
    ensures NewBag(hunks) == multiset(hunks[0].newLines) + NewBag(hunks[1..])
  {
  }

  lemma Summed(a: multiset<string>, b: multiset<string>, c: multiset<string>, p: multiset<string>, q: multiset<string>,
      x: multiset<string>, y: multiset<string>)
    requires b + p == a + q && c + x == b + y
    ensures c + (p + x) == a + (q + y)
  {
    forall k
      ensures (c + (p + x))[k] == (a + (q + y))[k]
    {
      assert (b + p)[k] == (a + q)[k] && (c + x)[k] == (b + y)[k];
    }
  }

  /** As the reader of a diff makes them: no new line holds a line break. */
  ghost predicate LineHunks(hunks: seq<Hunk>) {
    forall h | h in hunks :: forall line | line in h.newLines :: OneLine(line)
  }

  ghost predicate Lines(lines: seq<string>) {
    forall line | line in lines :: OneLine(line)
  }

  lemma LinesReplaced(lines: seq<string>, pos: nat, h: Hunk)
    requires Matches(lines, h.oldLines, pos) && Lines(lines) && forall line | line in h.newLines :: OneLine(line)
    ensures Lines(Replaced(lines, pos, h))
  {
    hide OneLine;
  }

  lemma {:induction false} LinesApplied(lines: seq<string>, hunks: seq<Hunk>, offset: int)
    requires Applied(lines, hunks, offset).Some? && Lines(lines) && LineHunks(hunks)
    ensures Lines(Applied(lines, hunks, offset).value)
    decreases |hunks|
  {
    hide Applied, Located, Matches, Replaced, Lines, OneLine;
    if hunks == [] {
      AppliedDone(lines, hunks, offset);
    } else {
      var h := hunks[0];
      var place := Located(lines, h.oldLines, Guess(h, offset));
      if place.None? {
        AppliedStuck(lines, hunks, offset);
      } else {
        AppliedStep(lines, hunks, offset, place.value);
        LinesReplaced(lines, place.value, h);
        LinesApplied(Replaced(lines, place.value, h), hunks[1..], offset + Growth(h));
      }
    }
  }

  /** Written and read again, a file has its lines back, but for an empty one at its end. */
  lemma ReadsBack(lines: seq<string>, newline: bool)
    requires Lines(lines)
    ensures var read := SplitLines(Rendered(lines, newline));
            read == lines || (lines != [] && lines[|lines| - 1] == "" && read == lines[..|lines| - 1])
  {
    if lines == [] || lines[|lines| - 1] != "" {
      hide SplitLines, Rendered, OneLine;
      RenderedReadsBack(lines, newline);
    } else if |lines| == 1 {
      assert lines == [""] && lines[..0] == [];
    } else {
      var front := lines[..|lines| - 1];
      JoinLastEmpty(lines);
      SplitTerminated(front);
      NewlineEnds(front);
      hide SplitLines, OneLine, Terminated, Join;
    }
  }

  lemma SameButEmpty(lines: seq<string>, read: seq<string>, line: string)
    requires read == lines || (lines != [] && lines[|lines| - 1] == "" && read == lines[..|lines| - 1])
    requires line != ""
    ensures multiset(read)[line] == multiset(lines)[line]
  {
    if read != lines {
      assert lines == read + [""];
    }
  }

  /**
   Of every line but the empty one, a patched text has as many as the old text, less those that the hunks take out and
   with those they put in.
   */
  lemma TextBalance(text: string, hunks: seq<Hunk>, line: string)
    requires AppliedText(text, hunks).Some? && LineHunks(hunks) && line != ""
    ensures multiset(SplitLines(AppliedText(text, hunks).value))[line] + OldBag(hunks)[line] ==
            multiset(SplitLines(text))[line] + NewBag(hunks)[line]
  {
    hide SplitLines, Rendered, Applied, LineHunks, OneLine, OldBag, NewBag;
    var lines := SplitLines(text);
    var result := Applied(lines, hunks, 0).value;
    LinesBalance(lines, hunks, 0);
    LinesApplied(lines, hunks, 0);
    var newline := EndsWithNewline(text) || text == "";
    ReadsBack(result, newline);
    SameButEmpty(result, SplitLines(Rendered(result, newline)), line);
    Counted(multiset(result), OldBag(hunks), multiset(lines), NewBag(hunks), line);
  }

  lemma Counted(a: multiset<string>, b: multiset<string>, c: multiset<string>, d: multiset<string>, line: string)
    requires a + b == c + d
    ensures a[line] + b[line] == c[line] + d[line]
  {
    assert (a + b)[line] == (c + d)[line];
  }

  /**
   Any two patches of any file: the batch is what applying them singly gives only if the first takes out every line but
   the empty one as often as it puts it in.  A first patch that adds or removes any other line is lost.
   */
  lemma FirstIsLostUnlessBalanced(files: Files, path: string, first: seq<Hunk>, second: seq<Hunk>, a: string,
      b: string, accepts: Check)
    requires path in files && accepts(path, a) && accepts(path, b) && LineHunks(first) && LineHunks(second)
    requires AppliedText(files[path], first) == Some(a) && AppliedText(files[path], second) == Some(b)
    ensures var both := [EditOf(path, first), EditOf(path, second)];
            && Patched(files, both, accepts).0 == files[path := b] && Patched(files, both, accepts).1.Success?
            && (OneByOne(files, both, accepts) == (files[path := b], true) ==>
                  forall line | line != "" :: OldBag(first)[line] == NewBag(first)[line])
  {
    hide *;
    SecondOverwrites(files, path, first, second, a, b, accepts);
    if AppliedText(a, second) == Some(b) {
      forall line | line != ""
        ensures OldBag(first)[line] == NewBag(first)[line]
      {
        TextBalance(files[path], first, line);
        TextBalance(files[path], second, line);
        TextBalance(a, second, line);
      }
    }
  }
}
