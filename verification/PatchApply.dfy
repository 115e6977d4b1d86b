/**
 Applying hunks to the lines of a file (src/gca/tools/patch.py, lines 198-233): a windowed search for the old
 lines, and splicing with a running offset.
 */
module PatchApply {
  import opened Wrappers
  import opened Text
  import opened PatchParse

  const SEARCH_WINDOW := 200

  /** `needle` stands in `haystack` at `pos`. */
  predicate Matches(haystack: seq<string>, needle: seq<string>, pos: nat) {
    pos + |needle| <= |haystack| && haystack[pos..pos + |needle|] == needle
  }

  // ---------------------------------------------------------------- locating

  function FirstMatch(haystack: seq<string>, needle: seq<string>, lo: nat, hi: int): Option<nat>
    decreases hi - lo
  {
    if lo > hi then None
    else if Matches(haystack, needle, lo) then Some(lo)
    else FirstMatch(haystack, needle, lo + 1, hi)
  }

  predicate InWindow(haystack: seq<string>, needle: seq<string>, guess: nat, pos: int) {
    Max(0, guess - 200) <= pos <= Min(|haystack| - |needle|, guess + 200)
  }

  /** Where a hunk goes; `None` if its old lines are nowhere near. */
  function Located(haystack: seq<string>, needle: seq<string>, guess: nat): Option<nat> {
    if needle == [] then Some(Max(0, Min(guess, |haystack|)))
    else if Matches(haystack, needle, guess) then Some(guess)
    else FirstMatch(haystack, needle, Max(0, guess - SEARCH_WINDOW), Min(|haystack| - |needle|, guess + SEARCH_WINDOW))
  }

  lemma {:induction false} FirstMatchMeaning(haystack: seq<string>, needle: seq<string>, lo: nat, hi: int)
    ensures var found := FirstMatch(haystack, needle, lo, hi);
            && (found.Some? ==> lo <= found.value <= hi && Matches(haystack, needle, found.value))
            && forall pos :: lo <= pos <= hi && (found.None? || pos < found.value) ==> !Matches(haystack, needle, pos)
    decreases hi - lo
  {
    hide Matches;
    if lo <= hi && !Matches(haystack, needle, lo) {
      FirstMatchMeaning(haystack, needle, lo + 1, hi);
    }
  }

  /** `pos` is the guess if the lines stand there, or else their first place in the window. */
  ghost predicate BestPlace(haystack: seq<string>, needle: seq<string>, guess: nat, pos: nat) {
    && Matches(haystack, needle, pos)
    && (pos != guess ==>
          && !Matches(haystack, needle, guess)
          && InWindow(haystack, needle, guess, pos)
          && forall p: nat | InWindow(haystack, needle, guess, p) && p < pos :: !Matches(haystack, needle, p))
  }

  /** The search finds the best place, and fails only when the lines stand nowhere in the window. */
  lemma LocatedMeaning(haystack: seq<string>, needle: seq<string>, guess: nat)
    ensures needle == [] ==> Located(haystack, needle, guess) == Some(Min(guess, |haystack|))
    ensures var pos := Located(haystack, needle, guess);
            && (needle != [] && pos.Some? ==> BestPlace(haystack, needle, guess, pos.value))
            && (pos.Some? ==> Matches(haystack, needle, pos.value))
            && (pos.None? <==> needle != [] && !Matches(haystack, needle, guess)
                               && forall p: nat | InWindow(haystack, needle, guess, p) :: !Matches(haystack, needle, p))
  {
    var lo, hi := Max(0, guess - SEARCH_WINDOW), Min(|haystack| - |needle|, guess + SEARCH_WINDOW);
    FirstMatchMeaning(haystack, needle, lo, hi);
    assert needle == [] ==> Matches(haystack, needle, Max(0, Min(guess, |haystack|)));
    hide Matches, FirstMatch;
    assert forall p: nat :: InWindow(haystack, needle, guess, p) <==> lo <= p <= hi;
  }

  lemma FirstStep(haystack: seq<string>, needle: seq<string>, lo: nat, hi: int)
    requires lo <= hi <= |haystack| - |needle|
    ensures FirstMatch(haystack, needle, lo, hi) ==
            if haystack[lo..lo + |needle|] == needle then Some(lo) else FirstMatch(haystack, needle, lo + 1, hi)
  {
  }

  lemma LocatedBySearch(haystack: seq<string>, needle: seq<string>, guess: nat)
    requires needle != []
    ensures Located(haystack, needle, guess) ==
            if guess + |needle| <= |haystack| && haystack[guess..guess + |needle|] == needle then Some(guess)
            else FirstMatch(haystack, needle, Max(0, guess - SEARCH_WINDOW),
              Min(|haystack| - |needle|, guess + SEARCH_WINDOW))
  {
  }

  method Locate(haystack: seq<string>, needle: seq<string>, guess: nat) returns (found: Option<nat>)
    ensures found == Located(haystack, needle, guess)
  {
    if needle == [] {
      return Some(Max(0, Min(guess, |haystack|)));
    }
    LocatedBySearch(haystack, needle, guess);
    hide Located, FirstMatch, Matches;
    if guess + |needle| <= |haystack| && haystack[guess..guess + |needle|] == needle {
      return Some(guess);
    }
    var lo := Max(0, guess - SEARCH_WINDOW);
    var hi := Min(|haystack| - |needle|, guess + SEARCH_WINDOW);
    var offset := 0;
    while offset < hi - lo + 1
      invariant 0 <= offset
      invariant FirstMatch(haystack, needle, lo + offset, hi) == FirstMatch(haystack, needle, lo, hi)
    {
      var pos := lo + offset;
      FirstStep(haystack, needle, pos, hi);
      if haystack[pos..pos + |needle|] == needle {
        return Some(pos);
      }
      offset := offset + 1;
    }
    assert FirstMatch(haystack, needle, lo + offset, hi) == None by { FirstNone(haystack, needle, lo + offset, hi); }
    return None;
  }

  lemma FirstNone(haystack: seq<string>, needle: seq<string>, lo: nat, hi: int)
    requires lo > hi
    ensures FirstMatch(haystack, needle, lo, hi) == None
  {
  }

  // ---------------------------------------------------------------- one hunk after the other

  function Guess(h: Hunk, offset: int): nat {
    Max(0, h.oldStart - 1 + offset)
  }

  function Replaced(lines: seq<string>, pos: nat, h: Hunk): seq<string>
    requires Matches(lines, h.oldLines, pos)
  {
    lines[..pos] + h.newLines + lines[pos + |h.oldLines|..]
  }

  function Growth(h: Hunk): int {
    |h.newLines| - |h.oldLines|
  }

  function Applied(lines: seq<string>, hunks: seq<Hunk>, offset: int): Option<seq<string>>
    decreases |hunks|
  {
    if hunks == [] then Some(lines)
    else
      var h := hunks[0];
      var pos := Located(lines, h.oldLines, Guess(h, offset));
      LocatedMeaning(lines, h.oldLines, Guess(h, offset));
      if pos.None? then None else Applied(Replaced(lines, pos.value, h), hunks[1..], offset + Growth(h))
  }

  predicate EndsWithNewline(text: string) {
    text != "" && text[|text| - 1] == '\n'
  }

  function Rendered(lines: seq<string>, newline: bool): string {
    var text := Join(lines);
    if newline && text != "" && !EndsWithNewline(text) then text + "\n" else text
  }

  function AppliedText(original: string, hunks: seq<Hunk>): Option<string> {
    var lines := Applied(SplitLines(original), hunks, 0);
    if lines.None? then None else Some(Rendered(lines.value, EndsWithNewline(original) || original == ""))
  }

  lemma AppliedStep(lines: seq<string>, hunks: seq<Hunk>, offset: int, pos: nat)
    requires hunks != [] && Located(lines, hunks[0].oldLines, Guess(hunks[0], offset)) == Some(pos)
    ensures Matches(lines, hunks[0].oldLines, pos) && pos + |hunks[0].oldLines| <= |lines|
    ensures Applied(lines, hunks, offset) ==
            Applied(Replaced(lines, pos, hunks[0]), hunks[1..], offset + Growth(hunks[0]))
  {
    LocatedMeaning(lines, hunks[0].oldLines, Guess(hunks[0], offset));
    assert pos + |hunks[0].oldLines| <= |lines| by {
      assert Matches(lines, hunks[0].oldLines, pos);
    }
    hide Located, Matches, Replaced;
  }

  lemma AppliedStuck(lines: seq<string>, hunks: seq<Hunk>, offset: int)
    requires hunks != [] && Located(lines, hunks[0].oldLines, Guess(hunks[0], offset)) == None
    ensures Applied(lines, hunks, offset) == None
  {
    hide Located, Matches, Replaced;
  }

  lemma AppliedDone(lines: seq<string>, hunks: seq<Hunk>, offset: int)
    requires hunks == []
    ensures Applied(lines, hunks, offset) == Some(lines)
  {
  }

  method ApplyHunks(original: string, hunks: seq<Hunk>) returns (result: Option<string>)
    ensures result == AppliedText(original, hunks)
  {
    var hadTrailingNewline := EndsWithNewline(original) || original == "";
    var lines := SplitLines(original);
    hide SplitLines, Located, Join, Applied, Matches;
    var offset := 0;
    for i := 0 to |hunks|
      invariant Applied(lines, hunks[i..], offset) == Applied(SplitLines(original), hunks, 0)
    {
      var hunk := hunks[i];
      assert hunks[i..][1..] == hunks[i + 1..];
      var guess := Max(0, hunk.oldStart - 1 + offset);
      var pos := Locate(lines, hunk.oldLines, guess);
      if pos.None? {
        AppliedStuck(lines, hunks[i..], offset);
        return None;
      }
      AppliedStep(lines, hunks[i..], offset, pos.value);
      lines := lines[..pos.value] + hunk.newLines + lines[pos.value + |hunk.oldLines|..];
      offset := offset + |hunk.newLines| - |hunk.oldLines|;
    }
    AppliedDone(lines, hunks[|hunks|..], offset);
    var text := Join(lines);
    if hadTrailingNewline && text != "" && !EndsWithNewline(text) {
      text := text + "\n";
    }
    return Some(text);
  }

  // ---------------------------------------------------------------- all hunks at once

  /** The hunks stand at their declared starts in `lines`, in order and without overlap, from `from` on. */
  predicate Fitting(lines: seq<string>, hunks: seq<Hunk>, from: nat) {
    hunks == [] ||
    var h := hunks[0];
    && from <= h.oldStart - 1
    && Matches(lines, h.oldLines, h.oldStart - 1)
    && Fitting(lines, hunks[1..], h.oldStart - 1 + |h.oldLines|)
  }

  /** `lines[from..]` with every range replaced at once. */
  function Spliced(lines: seq<string>, hunks: seq<Hunk>, from: nat): seq<string>
    requires from <= |lines| && Fitting(lines, hunks, from)
    decreases |hunks|
  {
    if hunks == [] then lines[from..]
    else
      var h := hunks[0];
      lines[from..h.oldStart - 1] + h.newLines + Spliced(lines, hunks[1..], h.oldStart - 1 + |h.oldLines|)
  }

  lemma FirstHunk(lines: seq<string>, done: seq<string>, h: Hunk, from: nat)
    requires from <= h.oldStart - 1 && Matches(lines, h.oldLines, h.oldStart - 1)
    ensures var current := done + lines[from..];
            var pos: nat := h.oldStart - 1 + |done| - from;
            && Matches(current, h.oldLines, pos)
            && Located(current, h.oldLines, Guess(h, |done| - from)) == Some(pos)
            && Replaced(current, pos, h) ==
               done + lines[from..h.oldStart - 1] + h.newLines + lines[h.oldStart - 1 + |h.oldLines|..]
  {
    var current := done + lines[from..];
    var start: nat := h.oldStart - 1;
    var pos: nat := start + |done| - from;
    assert current[pos..pos + |h.oldLines|] == lines[start..start + |h.oldLines|];
    assert current[..pos] == done + lines[from..start];
    assert current[pos + |h.oldLines|..] == lines[start + |h.oldLines|..];
  }

  lemma FittingStep(lines: seq<string>, hunks: seq<Hunk>, from: nat)
    requires hunks != [] && Fitting(lines, hunks, from)
    ensures var h, next := hunks[0], hunks[0].oldStart - 1 + |hunks[0].oldLines|;
            && from <= h.oldStart - 1 && next <= |lines|
            && Matches(lines, h.oldLines, h.oldStart - 1)
            && Fitting(lines, hunks[1..], next)
            && Spliced(lines, hunks, from) == lines[from..h.oldStart - 1] + h.newLines +
              Spliced(lines, hunks[1..], next)
  {
    assert Matches(lines, hunks[0].oldLines, hunks[0].oldStart - 1);
  }

  lemma SequentialStep(lines: seq<string>, done: seq<string>, hunks: seq<Hunk>, from: nat)
    requires hunks != [] && from <= |lines| && Fitting(lines, hunks, from)
    ensures var next := hunks[0].oldStart - 1 + |hunks[0].oldLines|;
            && from <= hunks[0].oldStart - 1 && next <= |lines|
            && var done' := done + lines[from..hunks[0].oldStart - 1] + hunks[0].newLines;
               Applied(done + lines[from..], hunks, |done| - from) ==
               Applied(done' + lines[next..], hunks[1..], |done'| - next)
  {
    hide Located, Matches, Fitting, Replaced, Applied, Spliced, Guess;
    FittingStep(lines, hunks, from);
    FirstHunk(lines, done, hunks[0], from);
    AppliedStep(done + lines[from..], hunks, |done| - from, hunks[0].oldStart - 1 + |done| - from);
  }

  lemma Glued(a: seq<string>, b: seq<string>, c: seq<string>, d: seq<string>, e: seq<string>)
    requires e == b + c + d
    ensures a + b + c + d == a + e
  {
  }

  lemma NoHunks(lines: seq<string>, from: nat)
    requires from <= |lines|
    ensures Fitting(lines, [], from) && Spliced(lines, [], from) == lines[from..]
    ensures forall offset :: Applied(lines, [], offset) == Some(lines) && Inverted([], offset) == []
  {
  }

  lemma {:induction false} SequentialFrom(lines: seq<string>, done: seq<string>, hunks: seq<Hunk>, from: nat)
    requires from <= |lines| && Fitting(lines, hunks, from)
    ensures Applied(done + lines[from..], hunks, |done| - from) == Some(done + Spliced(lines, hunks, from))
    decreases |hunks|
  {
    hide *;
    if hunks == [] {
      NoHunks(lines, from);
      NoHunks(done + lines[from..], 0);
    } else {
      var h := hunks[0];
      var next := h.oldStart - 1 + |h.oldLines|;
      SequentialStep(lines, done, hunks, from);
      FittingStep(lines, hunks, from);
      var gap, rest := lines[from..h.oldStart - 1], Spliced(lines, hunks[1..], next);
      SequentialFrom(lines, done + gap + h.newLines, hunks[1..], next);
      Glued(done, gap, h.newLines, rest, Spliced(lines, hunks, from));
    }
  }

  /** Splicing hunk by hunk with a running offset replaces all ranges at once. */
  lemma SequentialIsSimultaneous(lines: seq<string>, hunks: seq<Hunk>)
    requires Fitting(lines, hunks, 0)
    ensures Applied(lines, hunks, 0) == Some(Spliced(lines, hunks, 0))
  {
    SequentialFrom(lines, [], hunks, 0);
    assert [] + lines[0..] == lines;
    assert [] + Spliced(lines, hunks, 0) == Spliced(lines, hunks, 0);
  }

  // ---------------------------------------------------------------- undoing

  /** The hunks with their sides swapped, each at its place in the new file. */
  function Inverted(hunks: seq<Hunk>, offset: int): seq<Hunk> {
    if hunks == [] then []
    else
      var h := hunks[0];
      [Hunk(h.oldStart + offset, h.newLines, h.oldLines)] + Inverted(hunks[1..], offset + Growth(h))
  }

  lemma InvertedStep(hunks: seq<Hunk>, offset: int)
    requires hunks != []
    ensures var h, back := hunks[0], Inverted(hunks, offset);
            && back != [] && back[0] == Hunk(h.oldStart + offset, h.newLines, h.oldLines)
            && back[1..] == Inverted(hunks[1..], offset + |h.newLines| - |h.oldLines|)
  {
  }

  lemma SplicedStep(lines: seq<string>, hunks: seq<Hunk>, from: nat)
    requires hunks != [] && from <= hunks[0].oldStart - 1 && Matches(lines, hunks[0].oldLines, hunks[0].oldStart - 1)
    requires Fitting(lines, hunks[1..], hunks[0].oldStart - 1 + |hunks[0].oldLines|)
    ensures from <= |lines| && Fitting(lines, hunks, from)
    ensures var h, next := hunks[0], hunks[0].oldStart - 1 + |hunks[0].oldLines|;
            next <= |lines| &&
            Spliced(lines, hunks, from) == lines[from..h.oldStart - 1] + h.newLines + Spliced(lines, hunks[1..], next)
  {
  }

  lemma {:induction false} InvertedFrom(lines: seq<string>, done: seq<string>, hunks: seq<Hunk>, from: nat)
    requires from <= |lines| && Fitting(lines, hunks, from)
    ensures var out, back := done + Spliced(lines, hunks, from), Inverted(hunks, |done| - from);
            Fitting(out, back, |done|) && Spliced(out, back, |done|) == lines[from..]
    decreases |hunks|
  {
    hide *;
    var out := done + Spliced(lines, hunks, from);
    if hunks == [] {
      NoHunks(lines, from);
      NoHunks(out, |done|);
      assert out[|done|..] == lines[from..];
    } else {
      var h := hunks[0];
      var next := h.oldStart - 1 + |h.oldLines|;
      FittingStep(lines, hunks, from);
      InvertedStep(hunks, |done| - from);
      var gap, rest := lines[from..h.oldStart - 1], Spliced(lines, hunks[1..], next);
      var done' := done + gap + h.newLines;
      InvertedFrom(lines, done', hunks[1..], next);
      Glued(done, gap, h.newLines, rest, Spliced(lines, hunks, from));
      InvertedFirst(lines, done, h, from, rest);
      assert |done'| == |done| + |gap| + |h.newLines| && |gap| == h.oldStart - 1 - from;
      assert |done'| - next == |done| - from + |h.newLines| - |h.oldLines|;
      SplicedStep(out, Inverted(hunks, |done| - from), |done|);
    }
  }

  lemma InvertedFirst(lines: seq<string>, done: seq<string>, h: Hunk, from: nat, rest: seq<string>)
    requires from <= h.oldStart - 1 && Matches(lines, h.oldLines, h.oldStart - 1)
    ensures var start, next := h.oldStart - 1, h.oldStart - 1 + |h.oldLines|;
            var out := done + lines[from..start] + h.newLines + rest;
            && Matches(out, h.newLines, start + |done| - from)
            && out[|done|..start + |done| - from] == lines[from..start]
            && lines[from..] == lines[from..start] + h.oldLines + lines[next..]
  {
    var start: nat, next: nat := h.oldStart - 1, h.oldStart - 1 + |h.oldLines|;
    var out := done + lines[from..start] + h.newLines + rest;
    var pos: nat := start + |done| - from;
    assert out[pos..pos + |h.newLines|] == h.newLines;
    assert lines[start..next] == h.oldLines;
  }

  /** Swapping the sides of every hunk, with shifted starts, restores the file. */
  lemma SwappedRestores(lines: seq<string>, hunks: seq<Hunk>)
    requires Fitting(lines, hunks, 0)
    ensures Applied(Spliced(lines, hunks, 0), Inverted(hunks, 0), 0) == Some(lines)
  {
    InvertedFrom(lines, [], hunks, 0);
    var out := Spliced(lines, hunks, 0);
    assert [] + out == out && lines[0..] == lines;
    SequentialIsSimultaneous(out, Inverted(hunks, 0));
  }

  // ---------------------------------------------------------------- hunks without old lines

  lemma {:induction false} Commutes(x: string, lines: seq<string>)
    ensures lines + [x] == [x] + lines <==> forall line | line in lines :: line == x
  {
    if lines != [] {
      var more := lines[1..];
      Commutes(x, more);
      assert (lines + [x])[0] == lines[0] && (lines + [x])[1..] == more + [x];
      assert ([x] + lines)[1..] == lines && lines == [lines[0]] + more;
      assert forall line | line in more :: line in lines;
      assert lines[0] in lines;
    }
  }

  lemma InsertedAt(lines: seq<string>, k: nat, added: seq<string>)
    requires k <= |lines|
    ensures var pos := Max(0, k - 1);
            Applied(lines, [Hunk(k, [], added)], 0) == Some(lines[..pos] + added + lines[pos..])
  {
    var h := Hunk(k, [], added);
    var pos: nat := Max(0, k - 1);
    AppliedStep(lines, [h], 0, pos);
    AppliedDone(Replaced(lines, pos, h), [h][1..], Growth(h));
  }

  lemma Moved(lines: seq<string>, k: nat, added: seq<string>)
    requires 0 < k <= |lines|
    ensures lines[..k - 1] + added + lines[k - 1..] == lines[..k] + added + lines[k..] <==>
            added + [lines[k - 1]] == [lines[k - 1]] + added
  {
    var front, x, back := lines[..k - 1], [lines[k - 1]], lines[k..];
    assert lines[k - 1..] == x + back && lines[..k] == front + x;
    Inner(front, added + x, x + added, back);
    assert front + added + (x + back) == front + (added + x) + back;
    assert front + x + added + back == front + (x + added) + back;
  }

  /**
   POSIX puts the lines of a `-k,0` hunk after line `k`.  The engine puts them before it, so the two agree
   exactly at the top of the file or when every inserted line equals line `k`.
   */
  lemma InsertionPlace(lines: seq<string>, k: nat, added: seq<string>)
    requires k <= |lines|
    ensures Applied(lines, [Hunk(k, [], added)], 0) == Some(lines[..k] + added + lines[k..]) <==>
            k == 0 || forall line | line in added :: line == lines[k - 1]
  {
    hide Applied, Max;
    InsertedAt(lines, k, added);
    if k > 0 {
      Moved(lines, k, added);
      Commutes(lines[k - 1], added);
      assert Max(0, k - 1) == k - 1 by { MaxIs(k); }
    } else {
      assert Max(0, k - 1) == 0 by { MaxIs(k); }
    }
  }

  lemma MaxIs(k: nat)
    ensures Max(0, k - 1) == if k == 0 then 0 else k - 1
  {
  }

  /** An input that shows it: a line to go after the only line of a file ends up before it. */
  lemma InsertedBefore(x: string, y: string)
    requires x != y
    ensures Applied([x], [Hunk(1, [], [y])], 0) == Some([y, x]) && [y, x] != [x] + [y]
  {
    InsertedAt([x], 1, [y]);
    assert Max(0, 1 - 1) == 0;
    assert [x][..0] + [y] + [x][0..] == [y, x];
    assert [y, x][0] != ([x] + [y])[0];
  }

  lemma Inner(front: seq<string>, a: seq<string>, b: seq<string>, back: seq<string>)
    requires |a| == |b|
    ensures front + a + back == front + b + back <==> a == b
  {
    assert (front + a + back)[|front|..][..|a|] == a;
    assert (front + b + back)[|front|..][..|a|] == b;
  }

  // ---------------------------------------------------------------- back to text

  lemma {:induction false} JoinLastEmpty(lines: seq<string>)
    requires |lines| > 1 && lines[|lines| - 1] == ""
    ensures Join(lines) == Terminated(lines[..|lines| - 1])
  {
    var front := lines[..|lines| - 1];
    if |lines| > 2 {
      JoinLastEmpty(lines[1..]);
      assert lines[1..][..|lines| - 2] == front[1..];
    } else {
      assert Join(lines) == lines[0] + "\n" + "";
      assert front[1..] == [];
    }
  }

  lemma JoinTail(lines: seq<string>)
    requires lines != [] && lines[|lines| - 1] != "" && OneLine(lines[|lines| - 1])
    ensures Join(lines) != "" && !EndsWithNewline(Join(lines))
  {
    JoinLast(lines);
    var last := lines[|lines| - 1];
    assert last[|last| - 1] in last;
  }

  /** Reading a rendered file gives its lines back exactly when the last line is not empty. */
  lemma RenderedReadsBack(lines: seq<string>, newline: bool)
    requires forall line | line in lines :: OneLine(line)
    ensures SplitLines(Rendered(lines, newline)) == lines <==> lines == [] || lines[|lines| - 1] != ""
    ensures lines != [] && lines[|lines| - 1] != "" ==>
              Rendered(lines, newline) == if newline then Terminated(lines) else Join(lines)
  {
    if lines == [] {
    } else if lines[|lines| - 1] != "" {
      JoinTail(lines);
      JoinTerminated(lines);
      SplitTerminated(lines);
      SplitJoined(lines);
    } else if |lines| == 1 {
      assert lines == [""];
    } else {
      JoinLastEmpty(lines);
      var front := lines[..|lines| - 1];
      SplitTerminated(front);
      NewlineEnds(front);
    }
  }

  lemma {:induction false} NewlineEnds(lines: seq<string>)
    requires lines != []
    ensures EndsWithNewline(Terminated(lines))
  {
    if |lines| > 1 {
      NewlineEnds(lines[1..]);
    }
  }

  /** A file of whole lines is patched line by line, exactly when the new file does not end in an empty line. */
  lemma TextFollowsLines(lines: seq<string>, hunks: seq<Hunk>, result: seq<string>)
    requires forall line | line in lines + result :: OneLine(line)
    requires Applied(lines, hunks, 0) == Some(result)
    ensures AppliedText(Terminated(lines), hunks) == Some(Terminated(result)) <==>
            result == [] || result[|result| - 1] != ""
  {
    assert forall line | line in lines :: line in lines + result;
    assert forall line | line in result :: line in lines + result;
    SplitTerminated(lines);
    SplitTerminated(result);
    if lines != [] {
      NewlineEnds(lines);
    }
    RenderedReadsBack(result, true);
  }

  /** A file that does not end in a line feed is patched line by line too, and does not gain one. */
  lemma UnfinishedStays(lines: seq<string>, hunks: seq<Hunk>, result: seq<string>)
    requires forall line | line in lines + result :: OneLine(line)
    requires lines != [] && lines[|lines| - 1] != "" && Applied(lines, hunks, 0) == Some(result)
    ensures AppliedText(Join(lines), hunks) == Some(Join(result))
    ensures result != [] && result[|result| - 1] != "" ==>
              !EndsWithNewline(Join(result)) && SplitLines(Join(result)) == result
  {
    assert forall line | line in lines :: line in lines + result;
    assert forall line | line in result :: line in lines + result;
    JoinTail(lines);
    SplitJoined(lines);
    if result != [] && result[|result| - 1] != "" {
      JoinTail(result);
      SplitJoined(result);
    }
    hide Applied, SplitLines, Join, OneLine;
  }

  /** An input that shows it: a file whose only line becomes empty is left without any line. */
  lemma EmptyLineIsLost(x: string)
    requires x != "" && OneLine(x)
    ensures Applied([x], [Hunk(1, [x], [""])], 0) == Some([""])
    ensures AppliedText(Terminated([x]), [Hunk(1, [x], [""])]) == Some("") && Terminated([""]) == "\n"
  {
    var h := Hunk(1, [x], [""]);
    assert Fitting([x], [h], 0);
    SequentialIsSimultaneous([x], [h]);
    assert Spliced([x], [h], 0) == [""] by {
      assert [h][1..] == [] && [x][1..] == [] && [x][0..0] == [];
      assert Spliced([x], [], 1) == [];
    }
    assert SplitLines(Terminated([x])) == [x] by { SplitTerminated([x]); }
    hide Applied, SplitLines;
    assert Rendered([""], true) == "";
    NewlineEnds([x]);
  }
}
