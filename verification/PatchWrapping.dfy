/**
 What surrounds a diff when a model writes it: a code fence, git's extended headers, breaks of two characters, white
 space at the end.  The first three vanish without a trace, and what the fourth costs is said exactly.
 */
module PatchWrapping {
  import opened Wrappers
  import opened Text
  import opened PatchParse
  import opened PatchPrint
  import opened PatchRoundTrip
  import opened PatchForms

  // ---------------------------------------------------------------- breaks

  /** Lines with a break after each, of two characters where `wide` says so. */
  function Broken(lines: seq<string>, wide: seq<bool>): string
    requires |wide| == |lines|
  {
    if lines == [] then "" else lines[0] + (if wide[0] then "\r\n" else "\n") + Broken(lines[1..], wide[1..])
  }

  ghost predicate OneLiners(lines: seq<string>) {
    forall line | line in lines :: OneLine(line)
  }

  lemma {:induction false} MendsAfter(u: string, w: string)
    requires '\r' !in u
    ensures UnixBreaks(u + w) == u + UnixBreaks(w)
  {
    if u == "" {
      assert u + w == w;
    } else {
      assert u[0] in u && forall c | c in u[1..] :: c in u;
      assert (u + w)[1..] == u[1..] + w && (u + w)[0] == u[0];
      MendsAfter(u[1..], w);
      assert [u[0]] + (u[1..] + UnixBreaks(w)) == u + UnixBreaks(w);
    }
  }

  lemma MendsBreak(w: string)
    ensures UnixBreaks("\r\n" + w) == "\n" + UnixBreaks(w)
  {
    assert ("\r\n" + w)[2..] == w;
  }

  lemma {:induction false} BreaksMend(lines: seq<string>, wide: seq<bool>)
    requires |wide| == |lines| && OneLiners(lines)
    ensures UnixBreaks(Broken(lines, wide)) == Terminated(lines)
  {
    if lines != [] {
      var line, rest := lines[0], Broken(lines[1..], wide[1..]);
      assert OneLine(line);
      assert '\r' !in line by { assert IsBreak('\r'); }
      BreaksMend(lines[1..], wide[1..]);
      hide UnixBreaks, OneLiners, OneLine;
      if wide[0] {
        assert Broken(lines, wide) == line + ("\r\n" + rest);
        MendsAfter(line, "\r\n" + rest);
        MendsBreak(rest);
      } else {
        assert Broken(lines, wide) == (line + "\n") + rest;
        MendsAfter(line + "\n", rest);
      }
      assert line + ("\n" + Terminated(lines[1..])) == Terminated(lines);
      assert line + "\n" + Terminated(lines[1..]) == Terminated(lines);
    }
  }

  // ---------------------------------------------------------------- white space at the end

  /** Without the blank lines at the end, and without white space behind the last line that is left. */
  function TrimLines(lines: seq<string>): (left: seq<string>)
    ensures |left| <= |lines|
  {
    if lines == [] then []
    else
      var n := |lines| - 1;
      var last := RStrip(lines[n]);
      if last == "" then TrimLines(lines[..n]) else lines[..n] + [last]
  }

  /** A line that no trimming of a text touches at its start, and no code fence. */
  predicate Starts(line: string) {
    line != "" && !IsSpace(line[0])
  }

  lemma StartKept(line: string)
    requires Starts(line)
    ensures Starts(RStrip(line)) && RStrip(line)[0] == line[0]
  {
    assert line == line[..1] + line[1..];
    RStripEnd(line[..1], line[1..]);
    hide IsSpace;
    assert RStrip(line[..1]) == line[..1];
  }

  lemma {:induction false} JoinTrims(lines: seq<string>)
    requires lines != [] && Starts(lines[0])
    ensures RStrip(Join(lines)) == Join(TrimLines(lines))
    ensures var left := TrimLines(lines);
            left != [] && Starts(left[0]) && left[0][0] == lines[0][0] && TightTail(left[|left| - 1])
  {
    var n := |lines| - 1;
    var front, last := lines[..n], lines[n];
    assert lines == front + [last];
    if front == [] {
      StartKept(last);
      TightEndOf(last);
      hide RStrip, IsSpace;
      assert lines == [last] && TrimLines(lines) == [RStrip(last)];
    } else {
      hide RStrip, IsSpace, Join;
      StripLast(front, last);
      if RStrip(last) == "" {
        JoinTrims(front);
      } else {
        TightEndOf(last);
      }
    }
  }

  lemma TightEndOf(line: string)
    ensures RStrip(line) != "" ==> TightTail(RStrip(line))
  {
    hide IsSpace;
  }

  lemma StripIsRStrip(text: string)
    requires Starts(text)
    ensures Strip(text) == RStrip(text)
  {
    hide IsSpace, RStrip;
    assert LStrip(text) == text;
  }

  lemma TextTrims(lines: seq<string>)
    requires lines != [] && Starts(lines[0])
    ensures Strip(Join(lines)) == Join(TrimLines(lines)) == Strip(Terminated(lines))
  {
    hide *;
    var joined := Join(lines);
    JoinTrims(lines);
    JoinTerminated(lines);
    JoinStartsWell(lines);
    StripIsRStrip(joined);
    StripIsRStrip(joined + "\n");
    RStripEnd(joined, "\n");
    NewlineGoes();
  }

  lemma JoinStartsWell(lines: seq<string>)
    requires lines != [] && Starts(lines[0])
    ensures Starts(Join(lines)) && Starts(Join(lines) + "\n")
  {
    JoinStarts(lines);
    hide Join, IsSpace;
  }

  lemma NewlineGoes()
    ensures RStrip("\n") == ""
  {
    assert RStrip("") == "";
  }

  lemma {:induction false} TrimOneLiners(lines: seq<string>)
    requires OneLiners(lines)
    ensures OneLiners(TrimLines(lines))
  {
    if lines != [] {
      var n := |lines| - 1;
      var last := lines[n];
      if RStrip(last) == "" {
        TrimOneLiners(lines[..n]);
      } else {
        assert OneLine(last);
        assert OneLine(RStrip(last)) by {
          assert RStrip(last) <= last;
          hide RStrip, IsBreak;
        }
      }
    }
  }

  // ---------------------------------------------------------------- git's headers

  /** `lines` are the lines of a diff with git's extended headers anywhere between them. */
  predicate Laced(lines: seq<string>, diff: seq<string>) {
    if lines == [] then diff == []
    else if GitLine(lines[0]) then TightTail(lines[0]) && Laced(lines[1..], diff)
    else diff != [] && lines[0] == diff[0] && Laced(lines[1..], diff[1..])
  }

  lemma {:induction false} LacedLeaves(lines: seq<string>, diff: seq<string>)
    requires Laced(lines, diff)
    ensures WithoutPreamble(lines) == diff
    ensures forall line | line in lines :: IsPreamble(line) ==> TightTail(line)
  {
    hide TightTail;
    if lines != [] {
      LacedLeaves(lines[1..], if GitLine(lines[0]) then diff else diff[1..]);
      assert GitLine(lines[0]) == IsPreamble(lines[0]);
      hide GitLine, IsPreamble;
      assert forall line | line in lines :: line == lines[0] || line in lines[1..];
    }
  }

  lemma {:induction false} WithoutMore(lines: seq<string>, last: string)
    ensures WithoutPreamble(lines + [last]) == WithoutPreamble(lines) + if IsPreamble(last) then [] else [last]
  {
    hide *;
    if lines == [] {
      WithoutStep([last]);
      assert lines + [last] == [last] && [last][1..] == [];
      NothingWithout();
    } else {
      assert (lines + [last])[1..] == lines[1..] + [last] && (lines + [last])[0] == lines[0];
      WithoutMore(lines[1..], last);
      WithoutStep(lines);
      WithoutStep(lines + [last]);
    }
  }

  lemma NothingWithout()
    ensures WithoutPreamble([]) == []
  {
  }

  lemma WithoutStep(lines: seq<string>)
    requires lines != []
    ensures WithoutPreamble(lines) == (if IsPreamble(lines[0]) then [] else [lines[0]]) + WithoutPreamble(lines[1..])
  {
    hide IsPreamble;
  }

  lemma TrimMore(lines: seq<string>, last: string)
    ensures TrimLines(lines + [last]) == if RStrip(last) == "" then TrimLines(lines) else lines + [RStrip(last)]
  {
    assert (lines + [last])[..|lines|] == lines;
    hide RStrip;
  }

  lemma PreambleTrimmed(line: string)
    requires IsPreamble(line) ==> TightTail(line)
    ensures RStrip(RStrip(line)) == RStrip(line)
    ensures IsPreamble(RStrip(line)) == IsPreamble(line) && (IsPreamble(line) ==> RStrip(line) != "")
  {
    assert RStrip(line) <= line;
    hide IsSpace;
  }

  /** It makes no difference whether the headers are dropped before the end is trimmed or after. */
  lemma {:induction false} TrimsEitherWay(lines: seq<string>)
    requires forall line | line in lines :: IsPreamble(line) ==> TightTail(line)
    ensures var kept := WithoutPreamble(TrimLines(lines));
            && TrimLines(kept) == TrimLines(WithoutPreamble(lines))
            && (kept != [] ==>
                  && WithoutPreamble(lines) != []
                  && (kept[0] == WithoutPreamble(lines)[0] || kept[0] == RStrip(WithoutPreamble(lines)[0])))
  {
    if lines != [] {
      hide RStrip, IsPreamble, TightTail, TrimLines, WithoutPreamble;
      var n := |lines| - 1;
      var front, last := lines[..n], lines[n];
      assert lines == front + [last];
      TrimsEitherWay(front);
      TrimMore(front, last);
      WithoutMore(front, last);
      PreambleTrimmed(last);
      if RStrip(last) != "" {
        WithoutMore(front, RStrip(last));
      }
      TrimMore(WithoutPreamble(front), last);
      TrimMore(WithoutPreamble(front), RStrip(last));
    }
  }

  // ---------------------------------------------------------------- the whole of it

  /** Lines within a code fence, whose first line may name a language, or without one. */
  function Fenced(lines: seq<string>, fence: Option<string>): seq<string> {
    if fence.Some? then ["```" + fence.value] + lines + ["```"] else lines
  }

  /** Lines that may follow a code fence or stand without one. */
  predicate Begins(lines: seq<string>) {
    lines != [] && Starts(lines[0]) && lines[0][0] != '`'
  }

  lemma OpenFence(lines: seq<string>)
    requires Begins(lines) && OneLiners(lines)
    ensures Unfenced(Join(TrimLines(lines))) == Join(TrimLines(lines))
  {
    JoinTrims(lines);
    JoinStarts(TrimLines(lines));
    hide SplitLines, Join, Strip, TrimLines, IsSpace;
  }

  lemma ClosedFence(lines: seq<string>, name: string)
    requires Begins(lines) && OneLiners(lines) && OneLine(name)
    ensures var all := Fenced(lines, Some(name));
            && all != [] && Starts(all[0]) && OneLiners(all)
            && TrimLines(all) == all && Unfenced(Join(all)) == Join(TrimLines(lines))
  {
    hide *;
    var all := Fenced(lines, Some(name));
    FenceLines(lines, name);
    FenceAlone();
    TrimMore(["```" + name] + lines, "```");
    SplitJoined(all);
    TextTrims(lines) by { BeginsStarts(lines); }
    JoinBegins(all, "```" + name);
    assert all[1..|all| - 1] == lines;
    FenceDropped(Join(all), all);
  }

  lemma BeginsStarts(lines: seq<string>)
    requires Begins(lines)
    ensures lines != [] && Starts(lines[0])
  {
  }

  lemma FenceAlone()
    ensures Strip("```") == "```" == RStrip("```") && RStrip("```") != ""
  {
    TickIsVisible();
    hide IsSpace, Strip, RStrip;
    WordIsTight("```");
    StripTight("```");
  }

  lemma TickIsVisible()
    ensures !IsSpace('`')
  {
  }

  lemma FenceLines(lines: seq<string>, name: string)
    requires OneLiners(lines) && OneLine(name)
    ensures var all := Fenced(lines, Some(name));
            && all == (["```" + name] + lines) + ["```"] && all != [] && Starts(all[0]) && OneLiners(all)
            && all[|all| - 1] != "" && all[0] == "```" + name && "```" <= all[0]
    ensures forall line | line in Fenced(lines, Some(name)) :: OneLine(line)
  {
    var first := "```" + name;
    OneLineJoins("```", name);
    assert first[..3] == "```" && !IsSpace('`') && first[0] == '`';
    hide OneLine, IsSpace;
    assert OneLine("```") by { OneLineFence(); }
  }

  lemma OneLineFence()
    ensures OneLine("```")
  {
  }

  lemma FenceDropped(text: string, all: seq<string>)
    requires "```" <= text && SplitLines(text) == all && |all| >= 2 && "```" <= all[0]
    requires Strip(all[|all| - 1]) == "```"
    ensures Unfenced(text) == Strip(Join(all[1..|all| - 1]))
  {
    hide Strip, Join, SplitLines;
    assert all[1..][..|all| - 2] == all[1..|all| - 1];
  }

  lemma JoinBegins(lines: seq<string>, first: string)
    requires lines != [] && lines[0] == first && "```" <= first
    ensures "```" <= Join(lines)
  {
    assert first[..3] == "```";
  }

  lemma FenceVanishes(lines: seq<string>, fence: Option<string>)
    requires Begins(lines) && OneLiners(lines) && (fence.Some? ==> OneLine(fence.value))
    ensures OneLiners(Fenced(lines, fence))
    ensures Unfenced(Strip(Terminated(Fenced(lines, fence)))) == Join(TrimLines(lines))
  {
    hide Strip, Terminated, Unfenced, Join, TrimLines, OneLine;
    if fence.Some? {
      ClosedFence(lines, fence.value);
    } else {
      OpenFence(lines);
    }
    hide Fenced;
    TextTrims(Fenced(lines, fence));
  }

  /** What the parser is left with, whatever surrounds the lines of a diff. */
  lemma WrappersVanish(lines: seq<string>, diff: seq<string>, fence: Option<string>, wide: seq<bool>)
    requires Begins(lines) && Begins(diff) && Laced(lines, diff) && OneLiners(lines)
    requires (fence.Some? ==> OneLine(fence.value)) && |wide| == |Fenced(lines, fence)|
    ensures Parse(Broken(Fenced(lines, fence), wide)) == ParseLines(TrimLines(diff), START)
  {
    hide *;
    var kept := WithoutPreamble(TrimLines(lines));
    FenceVanishes(lines, fence);
    BreaksMend(Fenced(lines, fence), wide);
    LinesBack(lines);
    LacedLeaves(lines, diff);
    TrimsEitherWay(lines);
    DiffOneLiners(lines, diff);
    Ending(kept, diff);
    NormalizedIs(Broken(Fenced(lines, fence), wide), kept);
    ParseIs(Broken(Fenced(lines, fence), wide));
  }

  lemma ParseIs(diff: string)
    ensures Parse(diff) == ParseLines(SplitLines(Normalized(diff)), START)
  {
  }

  lemma NormalizedIs(diff: string, kept: seq<string>)
    requires kept == WithoutPreamble(SplitLines(Unfenced(Strip(UnixBreaks(diff)))))
    ensures Normalized(diff) == Strip(Join(kept)) + if kept != [] then "\n" else ""
  {
    hide Strip, Join, Unfenced, UnixBreaks, SplitLines, WithoutPreamble;
  }

  lemma LinesBack(lines: seq<string>)
    requires Begins(lines) && OneLiners(lines)
    ensures SplitLines(Join(TrimLines(lines))) == TrimLines(lines)
  {
    JoinTrims(lines);
    TrimOneLiners(lines);
    hide Join, TrimLines, SplitLines, OneLine, IsSpace;
    SplitJoined(TrimLines(lines));
  }

  lemma {:induction false} DiffOneLiners(lines: seq<string>, diff: seq<string>)
    requires Laced(lines, diff) && OneLiners(lines)
    ensures OneLiners(diff)
  {
    hide GitLine, TightTail, OneLine;
    if lines != [] {
      DiffOneLiners(lines[1..], if GitLine(lines[0]) then diff else diff[1..]);
      if !GitLine(lines[0]) {
        assert diff == [diff[0]] + diff[1..];
      }
    }
  }

  lemma Ending(kept: seq<string>, diff: seq<string>)
    requires Begins(diff) && OneLiners(diff) && TrimLines(kept) == TrimLines(diff)
    requires kept != [] ==> kept[0] == diff[0] || kept[0] == RStrip(diff[0])
    ensures kept != [] && SplitLines(Strip(Join(kept)) + "\n") == TrimLines(diff)
  {
    JoinTrims(diff);
    TrimOneLiners(diff);
    StartKept(diff[0]);
    assert kept != [] by {
      assert TrimLines([]) == [];
    }
    hide Join, TrimLines, SplitLines, Strip, RStrip, IsSpace, OneLine, Terminated;
    TextTrims(kept);
    JoinTerminated(TrimLines(diff));
    SplitTerminated(TrimLines(diff));
  }
}
