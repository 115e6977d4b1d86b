/**
 The shapes of a diff that the printer never makes: blank context lines written as empty ones, remarks behind a
 backslash, headings and single numbers in hunk headers, paths with either prefix or none, prose between files, git's
 extended headers anywhere, a code fence around everything, and breaks of two characters.  All of them read the same.
 */
module PatchForms {
  import opened Wrappers
  import opened Text
  import opened PatchParse
  import opened PatchPrint
  import PatchRoundTrip

  /** A body line as printed, a blank line of context left empty, or a remark like the one on a missing newline. */
  datatype Item = Shown(line: EditLine) | Bare | Remark(text: string)

  /** `count` is left out for a single line; `tail` is the rest of the header, with any heading. */
  datatype HunkForm = HunkForm(start: nat, count: Option<nat>, tail: string, items: seq<Item>)

  datatype Mark = Mark(text: string, path: Option<string>)

  datatype FileForm = FileForm(prose: seq<string>, older: Mark, newer: Mark, hunks: seq<HunkForm>)

  // ---------------------------------------------------------------- what is written

  function ItemText(item: Item): string {
    match item
    case Shown(line) => PrintLine(line)
    case Bare => ""
    case Remark(text) => "\\" + text
  }

  function BodyText(items: seq<Item>): seq<string> {
    if items == [] then [] else [ItemText(items[0])] + BodyText(items[1..])
  }

  function FormHeader(h: HunkForm): string {
    "@@ -" + Decimal(h.start) + (if h.count.Some? then "," + Decimal(h.count.value) else "") + " " + h.tail
  }

  function HunkText(h: HunkForm): seq<string> {
    [FormHeader(h)] + BodyText(h.items)
  }

  function HunksText(hunks: seq<HunkForm>): seq<string> {
    if hunks == [] then [] else HunkText(hunks[0]) + HunksText(hunks[1..])
  }

  function FileText(f: FileForm): seq<string> {
    f.prose + ["--- " + f.older.text, "+++ " + f.newer.text] + HunksText(f.hunks)
  }

  function FormText(forms: seq<FileForm>): seq<string> {
    if forms == [] then [] else FileText(forms[0]) + FormText(forms[1..])
  }

  // ---------------------------------------------------------------- what is meant

  function ItemLines(item: Item): seq<EditLine> {
    match item
    case Shown(line) => [line]
    case Bare => [Context("")]
    case Remark(_) => []
  }

  function BodyLines(items: seq<Item>): seq<EditLine> {
    if items == [] then [] else ItemLines(items[0]) + BodyLines(items[1..])
  }

  function HunkMeant(h: HunkForm): Hunk {
    Hunk(h.start, OldSide(BodyLines(h.items)), NewSide(BodyLines(h.items)))
  }

  function HunksMeant(hunks: seq<HunkForm>): seq<Hunk> {
    if hunks == [] then [] else [HunkMeant(hunks[0])] + HunksMeant(hunks[1..])
  }

  function FileMeant(f: FileForm): FilePatch {
    FilePatch(f.older.path, f.newer.path, HunksMeant(f.hunks))
  }

  function Meant(forms: seq<FileForm>): seq<FilePatch> {
    if forms == [] then [] else [FileMeant(forms[0])] + Meant(forms[1..])
  }

  // ---------------------------------------------------------------- which forms

  /** A path with one of the two prefixes, or plain if it has none of its own. */
  predicate MarkFits(mark: Mark) {
    && Tight(mark.text) && OneLine(mark.text)
    && match mark.path
       case None => mark.text == "/dev/null"
       case Some(path) =>
         || mark.text == "a/" + path || mark.text == "b/" + path
         || (mark.text == path && path != "/dev/null" && !("a/" <= path) && !("b/" <= path))
  }

  /** A line outside hunks: it is like nothing else in a diff. */
  predicate IsProse(line: string) {
    && OneLine(line) && line != "" && line[0] !in {' ', '-', '+', '@', '\\', '`'} && !IsSpace(line[0])
    && !GitLine(line)
  }

  /** One of git's extended headers. */
  predicate GitLine(line: string) {
    "diff --git " <= line || "index " <= line || "new file mode " <= line || "deleted file mode " <= line
  }

  predicate ItemFits(item: Item) {
    match item
    case Shown(line) => OneLine(line.body)
    case Bare => true
    case Remark(text) => OneLine(text)
  }

  predicate HunkFits(h: HunkForm) {
    && OneLine(h.tail) && h.tail != "" && !IsSpace(h.tail[|h.tail| - 1])
    && forall item | item in h.items :: ItemFits(item)
  }

  predicate FileFits(f: FileForm) {
    && (forall line | line in f.prose :: IsProse(line)) && MarkFits(f.older) && MarkFits(f.newer)
    && forall h | h in f.hunks :: HunkFits(h)
  }

  predicate FormsFit(forms: seq<FileForm>) {
    forall f | f in forms :: FileFits(f)
  }

  predicate Hides(item: Item) {
    item.Shown? && LooksLikeHeader(item.line)
  }

  predicate Open(hunks: seq<HunkForm>) {
    forall h, item | h in hunks && item in h.items :: !Hides(item)
  }

  predicate AllOpen(forms: seq<FileForm>) {
    forall f | f in forms :: Open(f.hunks)
  }

  // ---------------------------------------------------------------- headers read

  lemma MarkReads(mark: Mark)
    requires MarkFits(mark)
    ensures StripPrefix(mark.text) == mark.path
  {
    hide *;
    MarkCases(mark);
    StripTight(mark.text);
    match mark.path
    case None => NoPath(mark.text);
    case Some(path) =>
      if mark.text == "a/" + path || mark.text == "b/" + path {
        NamedPath(mark.text, path);
      } else {
        PlainPath(path);
      }
  }

  lemma MarkCases(mark: Mark)
    requires MarkFits(mark)
    ensures Tight(mark.text) && OneLine(mark.text)
    ensures match mark.path
            case None => mark.text == "/dev/null"
            case Some(path) =>
              || mark.text == "a/" + path || mark.text == "b/" + path
              || (mark.text == path && path != "/dev/null" && !("a/" <= path) && !("b/" <= path))
  {
    hide Tight, OneLine;
  }

  lemma NoPath(p: string)
    requires p == "/dev/null"
    ensures StripPrefix(p) == None
  {
  }

  lemma PlainPath(p: string)
    ensures Strip(p) == p && p != "/dev/null" && !("a/" <= p) && !("b/" <= p) ==> StripPrefix(p) == Some(p)
  {
    hide Strip;
  }

  function Range(h: HunkForm): string {
    "-" + Decimal(h.start) + if h.count.Some? then "," + Decimal(h.count.value) else ""
  }

  lemma RangeChars(h: HunkForm)
    ensures var r := Range(h);
            r != "" && r[0] == '-' && (forall c | c in r :: c != '@' && c != ' ' && !IsSpace(c)) && Tight(r)
  {
    var a, b := Decimal(h.start), if h.count.Some? then "," + Decimal(h.count.value) else "";
    assert Range(h) == "-" + a + b;
    forall c | c in Range(h)
      ensures c != '@' && c != ' ' && !IsSpace(c)
    {
      assert c == '-' || c == ',' || IsDigit(c);
      if IsDigit(c) {
        DigitIsNotSpace(c);
      }
    }
    assert Range(h)[|Range(h)| - 1] in Range(h) && Range(h)[0] in Range(h);
    hide IsSpace;
  }

  /** The first word of a text that goes on after a blank, however it is trimmed. */
  lemma FirstWord(word: string, rest: string)
    requires word != "" && forall c | c in word :: c != ' ' && !IsSpace(c)
    ensures Before(Strip(" " + word + " " + rest), " ") == word
  {
    hide *;
    var tail := " " + rest;
    Unpadded(word, tail);
    PatchRoundTrip.RStripEnd(word, tail);
    WordIsTight(word);
    var t := RStrip(tail);
    assert word + tail == word + " " + rest && " " + (word + tail) == " " + word + " " + rest;
    if t == "" {
      WordAlone(word);
    } else {
      TailKept(rest);
      assert word + t == word + " " + t[1..];
      BeforeSep(word, " ", t[1..]);
    }
  }

  lemma Unpadded(word: string, tail: string)
    requires word != "" && !IsSpace(word[0])
    ensures Strip(" " + (word + tail)) == RStrip(word + tail)
  {
    var s := " " + (word + tail);
    assert s[1..] == word + tail && (word + tail)[0] == word[0] && IsSpace(s[0]);
    hide IsSpace, RStrip;
    assert LStrip(s[1..]) == s[1..];
  }

  lemma WordIsTight(word: string)
    requires word != "" && forall c | c in word :: !IsSpace(c)
    ensures RStrip(word) == word && !IsSpace(word[0])
  {
    assert word[0] in word && word[|word| - 1] in word;
    hide IsSpace;
  }

  lemma TailKept(rest: string)
    requires RStrip(" " + rest) != ""
    ensures var t := RStrip(" " + rest); t == " " + t[1..]
  {
    var t := RStrip(" " + rest);
    assert t <= " " + rest;
    hide RStrip;
    assert t[0] == (" " + rest)[0];
  }

  lemma {:induction false} WordAlone(word: string)
    requires forall c | c in word :: c != ' '
    ensures Before(word, " ") == word
  {
    if word != "" {
      assert word[0] in word && forall c | c in word[1..] :: c in word;
      WordAlone(word[1..]);
    }
  }

  lemma {:induction false} BeforeGoesOn(u: string, w: string)
    requires forall c | c in u :: c != '@'
    ensures Before(u + w, "@@") == u + Before(w, "@@")
  {
    if u == "" {
      assert u + w == w;
    } else {
      assert u[0] in u && forall c | c in u[1..] :: c in u;
      assert (u + w)[1..] == u[1..] + w && (u + w)[0] == u[0];
      BeforeGoesOn(u[1..], w);
      assert [u[0]] + (u[1..] + Before(w, "@@")) == u + Before(w, "@@");
    }
  }

  /** The start line is read from a header with or without a count, and whatever follows the first range. */
  lemma HeaderReads(h: HunkForm)
    ensures "@@" <= FormHeader(h) && ParseHunkHeader(FormHeader(h)) == Some(h.start)
  {
    hide *;
    var r := Range(h);
    RangeChars(h);
    HeaderPieces(h);
    BeforeGoesOn(" " + r + " ", h.tail);
    FirstWord(r, Before(h.tail, "@@"));
    assert " " + r + " " + Before(h.tail, "@@") == (" " + r + " ") + Before(h.tail, "@@");
    StartReads(h);
    HeaderParses(FormHeader(h));
  }

  lemma HeaderPieces(h: HunkForm)
    requires forall c | c in Range(h) :: c != '@'
    ensures FormHeader(h)[..2] == "@@" && "@@" <= FormHeader(h) && FormHeader(h)[2..] == (" " + Range(h) + " ") + h.tail
    ensures forall c | c in " " + Range(h) + " " :: c != '@'
  {
    HeaderIs(h);
    hide Range, FormHeader;
  }

  lemma HeaderParses(header: string)
    requires "@@" <= header
    ensures ParseHunkHeader(header) ==
            ParseInt(Before(DropDashes(Before(Strip(Before(header[2..], "@@")), " ")), ","))
  {
    hide Before, Strip, DropDashes, ParseInt;
  }

  lemma HeaderIs(h: HunkForm)
    ensures FormHeader(h) == "@@" + (" " + Range(h) + " ") + h.tail
  {
    var a, b := Decimal(h.start), if h.count.Some? then "," + Decimal(h.count.value) else "";
    hide Decimal;
    assert "@@ -" == "@@" + " " + "-";
    assert FormHeader(h) == "@@ -" + a + b + " " + h.tail;
    assert Range(h) == "-" + a + b;
  }

  lemma StartReads(h: HunkForm)
    ensures ParseInt(Before(DropDashes(Range(h)), ",")) == Some(h.start)
  {
    hide *;
    var a := Decimal(h.start);
    var b := if h.count.Some? then "," + Decimal(h.count.value) else "";
    RangeIs(h);
    DecimalChars(h.start);
    ParseDecimal(h.start);
    DashDropped(a, b);
    if h.count.Some? {
      BeforeSep(a, ",", Decimal(h.count.value));
      assert a + "," + Decimal(h.count.value) == a + b;
    } else {
      assert a + b == a;
      NumberAlone(a);
    }
  }

  lemma RangeIs(h: HunkForm)
    ensures Range(h) == "-" + (Decimal(h.start) + if h.count.Some? then "," + Decimal(h.count.value) else "")
  {
    hide Decimal;
  }

  lemma DecimalChars(n: nat)
    ensures Decimal(n) != "" && forall c | c in Decimal(n) :: c != ',' && c != '-'
  {
    assert forall c | c in Decimal(n) :: IsDigit(c);
  }

  lemma DashDropped(a: string, b: string)
    requires a != "" && forall c | c in a :: c != '-'
    ensures DropDashes("-" + (a + b)) == a + b
  {
    var s := "-" + (a + b);
    assert s[1..] == a + b && (a + b)[0] == a[0] && a[0] in a;
    assert DropDashes(s[1..]) == s[1..];
  }

  lemma {:induction false} NumberAlone(word: string)
    requires forall c | c in word :: c != ','
    ensures Before(word, ",") == word
  {
    if word != "" {
      assert word[0] in word && forall c | c in word[1..] :: c in word;
      NumberAlone(word[1..]);
    }
  }

  // ---------------------------------------------------------------- bodies read

  /** Every item adds its lines to the sides it belongs to; a remark adds none. */
  lemma ItemAdds(item: Item, w: Walk)
    requires !Hides(item)
    ensures !("--- " <= ItemText(item)) && !("@@" <= ItemText(item))
    ensures BodyLine(w, ItemText(item)) == Some(AfterBody(w, ItemLines(item)))
  {
    match item
    case Shown(line) =>
      LineAsHeader(line);
      LineIsNoHunk(line);
      LineReadsBack(line, w);
      hide BodyLine, PrintLine, LooksLikeHeader, OldSide, NewSide;
    case Bare =>
      SingleSides(Context(""));
      hide OldSide, NewSide;
    case Remark(text) =>
      assert ("\\" + text)[0] == '\\';
      NothingAdded(w);
      hide OldSide, NewSide;
  }

  lemma AfterTwice(w: Walk, a: seq<EditLine>, b: seq<EditLine>)
    ensures AfterBody(AfterBody(w, a), b) == AfterBody(w, a + b)
  {
    PatchRoundTrip.SidesAdd(a, b);
    hide OldSide, NewSide;
    Glues(w.oldLines, OldSide(a), OldSide(b));
    Glues(w.newLines, NewSide(a), NewSide(b));
  }

  lemma {:induction false} BodyReads(items: seq<Item>, rest: seq<string>, w: Walk)
    requires w.inHunk && forall item | item in items :: !Hides(item)
    ensures ParseLines(BodyText(items) + rest, w) == ParseLines(rest, AfterBody(w, BodyLines(items)))
  {
    hide ParseLines, ItemText, ItemLines, Hides, OldSide, NewSide, BodyLine;
    if items == [] {
      assert BodyText(items) + rest == rest;
      NothingAdded(w);
    } else {
      var text, tail := BodyText(items) + rest, BodyText(items[1..]) + rest;
      assert text[0] == ItemText(items[0]) && text[1..] == tail;
      ItemAdds(items[0], w);
      BodyLineStep(text, w);
      var w' := AfterBody(w, ItemLines(items[0]));
      BodyReads(items[1..], rest, w');
      hide *;
      AfterTwice(w, ItemLines(items[0]), BodyLines(items[1..]));
      BodyLinesStep(items);
    }
  }

  lemma NothingAdded(w: Walk)
    ensures AfterBody(w, []) == w
  {
    assert w.oldLines + [] == w.oldLines && w.newLines + [] == w.newLines;
  }

  lemma BodyLinesStep(items: seq<Item>)
    requires items != []
    ensures BodyLines(items) == ItemLines(items[0]) + BodyLines(items[1..])
  {
  }

  lemma HunkReads(h: HunkForm, rest: seq<string>, w: Walk)
    requires w.patches != [] && forall item | item in h.items :: !Hides(item)
    ensures ParseLines(HunkText(h) + rest, w) ==
            ParseLines(rest, Walk(Flushed(w).patches, true, h.start, HunkMeant(h).oldLines, HunkMeant(h).newLines))
  {
    hide ParseLines, ParseHunkHeader, FormHeader, Hides, BodyLines, BodyText, OldSide, NewSide;
    var text := HunkText(h) + rest;
    assert text[0] == FormHeader(h) && text[1..] == BodyText(h.items) + rest;
    HeaderReads(h);
    HunkHeaderStep(text, w, h.start);
    var w1 := Walk(Flushed(w).patches, true, h.start, [], []);
    BodyReads(h.items, rest, w1);
    var lines := BodyLines(h.items);
    assert [] + OldSide(lines) == OldSide(lines) && [] + NewSide(lines) == NewSide(lines);
  }

  lemma FlushGains(w: Walk, h: HunkForm, more: seq<Hunk>)
    requires w.patches != []
    ensures var after := Walk(Flushed(w).patches, true, h.start, HunkMeant(h).oldLines, HunkMeant(h).newLines);
            WithHunks(Flushed(after).patches, more) == WithHunks(Flushed(w).patches, [HunkMeant(h)] + more)
  {
    var current := Flushed(w).patches[|w.patches| - 1];
    assert current.hunks + [HunkMeant(h)] + more == current.hunks + ([HunkMeant(h)] + more);
  }

  lemma {:induction false} HunksRead(hunks: seq<HunkForm>, rest: seq<string>, w: Walk) returns (w': Walk)
    requires w.patches != [] && Open(hunks)
    ensures ParseLines(HunksText(hunks) + rest, w) == ParseLines(rest, w')
    ensures w'.patches != [] && Flushed(w').patches == WithHunks(Flushed(w).patches, HunksMeant(hunks))
  {
    hide ParseLines, HunkText, Hides;
    if hunks == [] {
      assert HunksText(hunks) + rest == rest;
      var current := Flushed(w).patches[|w.patches| - 1];
      assert current.hunks + [] == current.hunks;
      w' := w;
    } else {
      var h, tail := hunks[0], HunksText(hunks[1..]) + rest;
      assert HunksText(hunks) + rest == HunkText(h) + tail;
      assert h in hunks && forall x | x in hunks[1..] :: x in hunks;
      HunkReads(h, tail, w);
      FlushGains(w, h, HunksMeant(hunks[1..]));
      hide Flushed, WithHunks, HunkMeant;
      w' := HunksRead(hunks[1..], rest,
        Walk(Flushed(w).patches, true, h.start, HunkMeant(h).oldLines, HunkMeant(h).newLines));
    }
  }

  /** Prose ends a hunk and says nothing. */
  lemma ProseLine(line: string, rest: seq<string>, w: Walk)
    requires IsProse(line)
    ensures ParseLines([line] + rest, w) == ParseLines(rest, Flushed(w))
  {
    var text := [line] + rest;
    assert text[0] == line && text[1..] == rest;
    assert !("--- " <= line) && !("@@" <= line) by {
      assert line[0] != '-' && line[0] != '@';
    }
    hide WithHunk, IsSpace, OneLine, GitLine;
    if w.inHunk {
      assert BodyLine(w, line) == None;
      assert ParseLines(text, w) == ParseLines(text, Flushed(w));
    } else {
      FlushedTwice(w);
      Unstarted(rest, w);
    }
  }

  lemma FlushedTwice(w: Walk)
    ensures Flushed(Flushed(w)) == Flushed(w) && !Flushed(w).inHunk
  {
  }

  /** Outside a hunk the sides of a walk do not matter. */
  lemma {:induction false} Unstarted(lines: seq<string>, w: Walk)
    requires !w.inHunk
    ensures ParseLines(lines, w) == ParseLines(lines, Flushed(w))
    decreases |lines|
  {
    hide StripPrefix, ParseHunkHeader, WithHunk, BodyLine;
    if lines != [] && !("--- " <= lines[0]) && !("@@" <= lines[0]) {
      Unstarted(lines[1..], w);
    }
  }

  lemma {:induction false} ProseReads(prose: seq<string>, rest: seq<string>, w: Walk) returns (w': Walk)
    requires forall line | line in prose :: IsProse(line)
    ensures ParseLines(prose + rest, w) == ParseLines(rest, w') && Flushed(w').patches == Flushed(w).patches
  {
    hide ParseLines, IsProse;
    if prose == [] {
      assert prose + rest == rest;
      w' := w;
    } else {
      assert prose + rest == [prose[0]] + (prose[1..] + rest);
      ProseLine(prose[0], prose[1..] + rest, w);
      FlushedTwice(w);
      hide Flushed;
      w' := ProseReads(prose[1..], rest, Flushed(w));
    }
  }

  lemma MarksOf(f: FileForm)
    requires MarkFits(f.older) && MarkFits(f.newer)
    ensures var older, newer := "--- " + f.older.text, "+++ " + f.newer.text;
            && "--- " <= older && StripPrefix(older[4..]) == f.older.path
            && "+++ " <= newer && StripPrefix(newer[4..]) == f.newer.path
  {
    MarkReads(f.older);
    MarkReads(f.newer);
    hide StripPrefix, MarkFits;
    var a, b := f.older.text, f.newer.text;
    assert ("--- " + a)[4..] == a && ("+++ " + b)[4..] == b;
    assert ("--- " + a)[..4] == "--- " && ("+++ " + b)[..4] == "+++ ";
  }

  lemma FileReads(f: FileForm, rest: seq<string>, w: Walk) returns (w': Walk)
    requires FileFits(f) && Open(f.hunks)
    ensures ParseLines(FileText(f) + rest, w) == ParseLines(rest, w')
    ensures Flushed(w').patches == Flushed(w).patches + [FileMeant(f)]
  {
    hide ParseLines, HunksText, IsProse, MarkFits, HunkFits, WithHunk, StripPrefix;
    var marks := ["--- " + f.older.text, "+++ " + f.newer.text] + HunksText(f.hunks) + rest;
    assert FileText(f) + rest == f.prose + marks;
    assert marks[2..] == HunksText(f.hunks) + rest;
    var w0 := ProseReads(f.prose, marks, w);
    MarksOf(f);
    FileHeaderStep(marks, w0);
    var begun := Flushed(w).patches + [FilePatch(f.older.path, f.newer.path, [])];
    var w1 := Flushed(w0).(patches := begun);
    w' := HunksRead(f.hunks, rest, w1);
    assert [] + HunksMeant(f.hunks) == HunksMeant(f.hunks);
    assert Flushed(w1).patches == begun;
  }

  lemma {:induction false} FormsRead(forms: seq<FileForm>, w: Walk)
    requires forms != [] || Flushed(w).patches != []
    requires FormsFit(forms) && AllOpen(forms)
    ensures ParseLines(FormText(forms), w) == Success(Flushed(w).patches + Meant(forms))
  {
    hide ParseLines, FileText, Open, FileFits, FileMeant, Flushed;
    if forms == [] {
      NothingLeft(w);
      assert Flushed(w).patches + [] == Flushed(w).patches;
    } else {
      var f := forms[0];
      assert forall x | x in forms[1..] :: x in forms;
      var w' := FileReads(f, FormText(forms[1..]), w);
      FormsRead(forms[1..], w');
      Glues(Flushed(w).patches, [FileMeant(f)], Meant(forms[1..]));
    }
  }

  // ---------------------------------------------------------------- hidden headers

  lemma {:induction false} CountItems(items: seq<Item>)
    ensures HeaderCount(BodyText(items)) > 0 <==> exists item | item in items :: Hides(item)
  {
    if items != [] {
      var text := ItemText(items[0]);
      if items[0].Shown? {
        LineAsHeader(items[0].line);
      } else if items[0].Remark? {
        assert text[0] == '\\';
      }
      assert "--- " <= text <==> Hides(items[0]);
      CountItems(items[1..]);
      hide Hides, ItemText;
      assert BodyText(items)[1..] == BodyText(items[1..]);
      assert forall item :: item in items <==> item == items[0] || item in items[1..];
    }
  }

  lemma {:induction false} CountHunks(hunks: seq<HunkForm>)
    ensures HeaderCount(HunksText(hunks)) > 0 <==> !Open(hunks)
  {
    if hunks != [] {
      var h := hunks[0];
      CountItems(h.items);
      CountHunks(hunks[1..]);
      CountJoins(HunkText(h), HunksText(hunks[1..]));
      CountJoins([FormHeader(h)], BodyText(h.items));
      assert HeaderCount([FormHeader(h)]) == 0 by {
        assert FormHeader(h)[0] == '@';
      }
      hide FormHeader, Hides;
      assert forall x :: x in hunks <==> x == h || x in hunks[1..];
      if exists item | item in h.items :: Hides(item) {
        var item :| item in h.items && Hides(item);
        assert h in hunks && item in h.items;
      }
    }
  }

  lemma {:induction false} CountProse(prose: seq<string>)
    requires forall line | line in prose :: IsProse(line)
    ensures HeaderCount(prose) == 0
  {
    if prose != [] {
      assert prose[0] in prose && IsProse(prose[0]);
      assert prose[0][0] != '-';
      assert forall line | line in prose[1..] :: line in prose;
      hide IsProse;
      CountProse(prose[1..]);
    }
  }

  lemma CountFile(f: FileForm)
    requires FileFits(f)
    ensures HeaderCount(FileText(f)) >= 1 && (HeaderCount(FileText(f)) > 1 <==> !Open(f.hunks))
  {
    hide *;
    var marks := ["--- " + f.older.text, "+++ " + f.newer.text];
    FilePieces(f);
    CountHunks(f.hunks);
    CountProse(f.prose);
    CountJoins(f.prose + marks, HunksText(f.hunks));
    CountJoins(f.prose, marks);
    CountMarks(f.older.text, f.newer.text);
  }

  lemma FilePieces(f: FileForm)
    requires FileFits(f)
    ensures FileText(f) == f.prose + ["--- " + f.older.text, "+++ " + f.newer.text] + HunksText(f.hunks)
    ensures forall line | line in f.prose :: IsProse(line)
  {
    hide MarkFits, HunkFits, IsProse;
  }

  lemma CountMarks(a: string, b: string)
    ensures HeaderCount(["--- " + a, "+++ " + b]) == 1
  {
    var marks := ["--- " + a, "+++ " + b];
    assert marks[0][..4] == "--- ";
    assert marks[1..] == [marks[1]] && [marks[1]][1..] == [];
    assert !("--- " <= marks[1]) by {
      assert marks[1][0] == '+';
    }
    assert HeaderCount(marks[1..]) == 0;
  }

  lemma {:induction false} CountForms(forms: seq<FileForm>)
    requires FormsFit(forms)
    ensures HeaderCount(FormText(forms)) >= |forms|
    ensures HeaderCount(FormText(forms)) > |forms| <==> !AllOpen(forms)
  {
    if forms != [] {
      var f := forms[0];
      assert forall x :: x in forms <==> x == f || x in forms[1..];
      CountFile(f);
      CountForms(forms[1..]);
      CountJoins(FileText(f), FormText(forms[1..]));
      hide HeaderCount, Open, FileFits, FileText;
    }
  }

  lemma {:induction false} MeantCount(forms: seq<FileForm>)
    ensures |Meant(forms)| == |forms|
  {
    if forms != [] {
      MeantCount(forms[1..]);
    }
  }

  lemma NothingFlushed()
    ensures Flushed(START).patches == []
  {
  }

  /** Line by line, a diff is read as it is meant. */
  predicate ReadAsMeant(forms: seq<FileForm>) {
    ParseLines(FormText(forms), START) == Success(Meant(forms))
  }

  /** Line by line, every form is read as it is meant, unless a removed line looks like a file header. */
  lemma FormLinesRead(forms: seq<FileForm>)
    requires forms != [] && FormsFit(forms)
    ensures ReadAsMeant(forms) <==> AllOpen(forms)
  {
    MeantCount(forms);
    NothingFlushed();
    hide ParseLines, FormText, FileFits, Meant, Open, Flushed;
    if AllOpen(forms) {
      FormsRead(forms, START);
      assert [] + Meant(forms) == Meant(forms);
    } else {
      CountForms(forms);
      FilesAreHeaders(FormText(forms), START);
    }
  }

  // ---------------------------------------------------------------- what cannot be read

  /** A line the reader stops at: an old header without a new one, a bad hunk header, or a hunk before any file. */
  ghost predicate Stops(lines: seq<string>, i: int, begun: bool) {
    && 0 <= i < |lines|
    && (|| ("--- " <= lines[i] && !(i + 1 < |lines| && "+++ " <= lines[i + 1]))
        || ("@@" <= lines[i] && ParseHunkHeader(lines[i]).None?)
        || ("@@" <= lines[i] && !begun && Headless(lines[..i])))
  }

  ghost predicate SomeStop(lines: seq<string>, begun: bool) {
    exists i :: Stops(lines, i, begun)
  }

  predicate Headless(lines: seq<string>) {
    forall i | 0 <= i < |lines| :: !("--- " <= lines[i])
  }

  lemma StopsLater(lines: seq<string>, begun: bool)
    requires lines != []
    ensures var begun' := begun || "--- " <= lines[0];
            SomeStop(lines, begun) <==> Stops(lines, 0, begun) || SomeStop(lines[1..], begun')
  {
    hide Stops;
    var rest, begun' := lines[1..], begun || "--- " <= lines[0];
    forall i | 0 < i < |lines|
      ensures Stops(lines, i, begun) <==> Stops(rest, i - 1, begun')
    {
      StopShifts(lines, i, begun);
    }
    if i :| Stops(lines, i, begun) && i != 0 {
      StopsWithin(lines, i, begun);
      assert Stops(rest, i - 1, begun');
    }
    if i :| Stops(rest, i, begun') {
      StopsWithin(rest, i, begun');
      assert Stops(lines, i + 1, begun);
    }
  }

  lemma StopShifts(lines: seq<string>, i: int, begun: bool)
    requires 0 < i < |lines|
    ensures Stops(lines, i, begun) <==> Stops(lines[1..], i - 1, begun || "--- " <= lines[0])
  {
    hide ParseHunkHeader, Headless;
    var rest := lines[1..];
    assert rest[i - 1] == lines[i] && (i + 1 < |lines| ==> rest[i] == lines[i + 1]);
    assert lines[..i][1..] == rest[..i - 1] && lines[..i][0] == lines[0];
    HeadlessMore(lines[..i]);
  }

  lemma StopsWithin(lines: seq<string>, i: int, begun: bool)
    ensures Stops(lines, i, begun) ==> 0 <= i < |lines|
  {
    hide ParseHunkHeader, Headless;
  }

  lemma NoStop(begun: bool)
    ensures !SomeStop([], begun) && Headless([])
  {
  }

  lemma HeadlessMore(lines: seq<string>)
    requires lines != []
    ensures Headless(lines) <==> !("--- " <= lines[0]) && Headless(lines[1..])
  {
    assert lines == [lines[0]] + lines[1..];
    if !("--- " <= lines[0]) && Headless(lines[1..]) {
      forall i | 0 <= i < |lines|
        ensures !("--- " <= lines[i])
      {
        assert i > 0 ==> lines[i] == lines[1..][i - 1];
      }
    }
    if Headless(lines) {
      forall i | 0 <= i < |lines[1..]|
        ensures !("--- " <= lines[1..][i])
      {
        assert lines[1..][i] == lines[i + 1];
      }
    }
  }

  lemma ReadingEnds(w: Walk)
    ensures ParseLines([], w).Failure? <==> w.patches == []
  {
    hide WithHunk;
  }

  lemma AtHeader(lines: seq<string>, w: Walk) returns (w': Walk)
    requires lines != [] && "--- " <= lines[0]
    ensures Stops(lines, 0, w.patches != []) <==> !(|lines| > 1 && "+++ " <= lines[1])
    ensures if |lines| > 1 && "+++ " <= lines[1] then
              w'.patches != [] && ParseLines(lines, w) == ParseLines(lines[2..], w')
            else ParseLines(lines, w).Failure?
  {
    hide *;
    HeaderStops(lines, w.patches != []);
    w' := w;
    if |lines| > 1 && "+++ " <= lines[1] {
      w' := Flushed(w).(patches := Flushed(w).patches +
        [FilePatch(StripPrefix(lines[0][4..]), StripPrefix(lines[1][4..]), [])]);
    }
    FileHeaderStep(lines, w);
  }

  lemma HeaderStops(lines: seq<string>, begun: bool)
    requires lines != [] && "--- " <= lines[0]
    ensures Stops(lines, 0, begun) <==> !(|lines| > 1 && "+++ " <= lines[1])
  {
    assert lines[0][..4] == "--- " && lines[0][0] == '-';
    hide ParseHunkHeader, Headless;
  }

  lemma NewHeaderIsNone(lines: seq<string>, begun: bool)
    requires lines != [] && "+++ " <= lines[0]
    ensures !Stops(lines, 0, begun) && !("--- " <= lines[0])
  {
    assert lines[0][..4] == "+++ " && lines[0][0] == '+';
    hide ParseHunkHeader, Headless;
  }

  lemma AtHunk(lines: seq<string>, w: Walk) returns (w': Walk)
    requires lines != [] && "@@" <= lines[0]
    ensures !("--- " <= lines[0])
    ensures Stops(lines, 0, w.patches != []) <==> ParseHunkHeader(lines[0]).None? || w.patches == []
    ensures if ParseHunkHeader(lines[0]).Some? && w.patches != [] then
              w'.patches != [] && ParseLines(lines, w) == ParseLines(lines[1..], w')
            else ParseLines(lines, w).Failure?
  {
    assert lines[0][..2] == "@@" && lines[0][0] == '@' && lines[..0] == [];
    NoStop(w.patches != []);
    hide StripPrefix, ParseHunkHeader, WithHunk, Headless;
    w' := w;
    if ParseHunkHeader(lines[0]).Some? {
      w' := Walk(Flushed(w).patches, true, ParseHunkHeader(lines[0]).value, [], []);
    }
  }

  lemma AtOther(lines: seq<string>, w: Walk) returns (w': Walk)
    requires lines != [] && !("--- " <= lines[0]) && !("@@" <= lines[0])
    ensures !Stops(lines, 0, w.patches != []) && (w'.patches == [] <==> w.patches == [])
    ensures ParseLines(lines, w) == ParseLines(lines[1..], w')
  {
    hide StripPrefix, ParseHunkHeader, WithHunk, Headless;
    if !w.inHunk {
      w' := w;
    } else if BodyLine(w, lines[0]).Some? {
      w' := BodyLine(w, lines[0]).value;
    } else {
      w' := Flushed(w);
    }
  }

  /** A diff cannot be read exactly when some line stops the reader, or there is no file header at all. */
  lemma {:induction false} ReadingFails(lines: seq<string>, w: Walk, begun: bool)
    requires begun == (w.patches != [])
    ensures ParseLines(lines, w).Failure? <==> SomeStop(lines, begun) || (!begun && Headless(lines))
    decreases |lines|
  {
    hide *;
    if lines == [] {
      NoStop(begun);
      ReadingEnds(w);
    } else {
      StopsLater(lines, begun);
      HeadlessMore(lines);
      var later := begun || "--- " <= lines[0];
      if "--- " <= lines[0] {
        var w' := AtHeader(lines, w);
        if |lines| > 1 && "+++ " <= lines[1] {
          assert lines[1..][1..] == lines[2..] && lines[1..][0] == lines[1];
          NewHeaderIsNone(lines[1..], later);
          StopsLater(lines[1..], later);
          ReadingFails(lines[2..], w', true);
        }
      } else if "@@" <= lines[0] {
        var w' := AtHunk(lines, w);
        if ParseHunkHeader(lines[0]).Some? && begun {
          ReadingFails(lines[1..], w', later);
        }
      } else {
        var w' := AtOther(lines, w);
        ReadingFails(lines[1..], w', later);
      }
    }
  }
}
