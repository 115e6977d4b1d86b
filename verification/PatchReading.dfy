/**
 Any form of a diff in any wrapping is read as it is meant, exactly unless a removed line looks like a file header or
 white space that means something stands at the very end.
 */
module PatchReading {
  import opened Wrappers
  import opened Text
  import opened PatchParse
  import opened PatchPrint
  import opened PatchRoundTrip
  import opened PatchForms
  import opened PatchWrapping

  // ---------------------------------------------------------------- the end of a body

  function TrimItem(item: Item): Item {
    var text := RStrip(ItemText(item));
    if text == "" then item
    else match item
         case Shown(line) => Shown(line.(body := text[1..]))
         case Bare => Bare
         case Remark(_) => Remark(text[1..])
  }

  function TrimItems(items: seq<Item>): seq<Item> {
    if items == [] then []
    else
      var front, last := items[..|items| - 1], items[|items| - 1];
      if RStrip(ItemText(last)) == "" then TrimItems(front) else front + [TrimItem(last)]
  }

  /** Trimming leaves the last line alone, or it is a remark. */
  predicate EndStays(items: seq<Item>) {
    items != [] ==> var last := items[|items| - 1]; last.Remark? || TightTail(ItemText(last))
  }

  lemma {:induction false} BodyTextMore(items: seq<Item>, last: Item)
    ensures BodyText(items + [last]) == BodyText(items) + [ItemText(last)]
  {
    hide ItemText;
    if items == [] {
      assert items + [last] == [last] && [last][1..] == [];
    } else {
      assert (items + [last])[1..] == items[1..] + [last];
      BodyTextMore(items[1..], last);
    }
  }

  lemma {:induction false} BodyLinesMore(items: seq<Item>, last: Item)
    ensures BodyLines(items + [last]) == BodyLines(items) + ItemLines(last)
  {
    hide ItemLines;
    if items == [] {
      assert items + [last] == [last] && [last][1..] == [];
    } else {
      assert (items + [last])[1..] == items[1..] + [last];
      BodyLinesMore(items[1..], last);
    }
  }

  lemma ItemTrimmed(item: Item)
    requires RStrip(ItemText(item)) != ""
    ensures ItemText(TrimItem(item)) == RStrip(ItemText(item))
  {
    var text := RStrip(ItemText(item));
    match item
    case Shown(line) => KeptMark(line);
    case Bare =>
    case Remark(rest) =>
      assert text <= "\\" + rest;
      assert text[0] == '\\';
      assert text == "\\" + text[1..];
  }

  lemma {:induction false} BodyTrims(head: seq<string>, items: seq<Item>)
    requires head != [] && TightTail(head[|head| - 1])
    ensures TrimLines(head + BodyText(items)) == head + BodyText(TrimItems(items))
  {
    hide RStrip, ItemText, TrimItem, TightTail, TrimLines, BodyText;
    if items == [] {
      HeadAlone(head);
    } else {
      var front, last := items[..|items| - 1], items[|items| - 1];
      assert items == front + [last];
      BodyTextMore(front, last);
      assert head + (BodyText(front) + [ItemText(last)]) == head + BodyText(front) + [ItemText(last)];
      TrimMore(head + BodyText(front), ItemText(last));
      if RStrip(ItemText(last)) == "" {
        BodyTrims(head, front);
      } else {
        ItemTrimmed(last);
        BodyTextMore(front, TrimItem(last));
        assert head + (BodyText(front) + [RStrip(ItemText(last))]) ==
          head + BodyText(front) + [RStrip(ItemText(last))];
      }
    }
  }

  lemma HeadAlone(head: seq<string>)
    requires head != [] && TightTail(head[|head| - 1])
    ensures TrimLines(head + BodyText([])) == head + BodyText(TrimItems([]))
  {
    hide *;
    NothingTrimmed();
    assert head + [] == head;
    TightAlready(head);
  }

  lemma NothingTrimmed()
    ensures TrimItems([]) == [] && BodyText([]) == []
  {
  }

  /** Trimming loses something of the two sides exactly when the end does not stay. */
  lemma {:induction false} TrimCosts(items: seq<Item>)
    ensures Weight(BodyLines(TrimItems(items))) <= Weight(BodyLines(items))
    ensures EndStays(items) ==> BodyLines(TrimItems(items)) == BodyLines(items)
    ensures !EndStays(items) ==> Weight(BodyLines(TrimItems(items))) < Weight(BodyLines(items))
  {
    if items != [] {
      var front, last := items[..|items| - 1], items[|items| - 1];
      assert items == front + [last];
      hide Weight, BodyLines, ItemText, ItemLines, TrimItem, TightTail, RStrip;
      BodyLinesMore(front, last);
      WeightAdds(BodyLines(front), ItemLines(last));
      ItemCosts(last);
      if RStrip(ItemText(last)) == "" {
        TrimCosts(front);
      } else {
        BodyLinesMore(front, TrimItem(last));
        WeightAdds(BodyLines(front), ItemLines(TrimItem(last)));
      }
    }
  }

  lemma ItemCosts(item: Item)
    ensures var text := RStrip(ItemText(item));
            && (text == "" ==> !item.Remark? && !TightTail(ItemText(item)) && Weight(ItemLines(item)) > 0)
            && (text != "" && (item.Remark? || TightTail(ItemText(item))) ==>
                  ItemLines(TrimItem(item)) == ItemLines(item))
            && (text != "" && !item.Remark? && !TightTail(ItemText(item)) ==>
                  Weight(ItemLines(TrimItem(item))) < Weight(ItemLines(item)))
  {
    match item
    case Shown(line) =>
      LineWeight(line);
      TightKept(PrintLine(line));
      hide Weight, RStrip, IsSpace;
      if RStrip(PrintLine(line)) != "" {
        KeptWeight(line);
      }
    case Bare =>
      LineWeight(Context(""));
    case Remark(text) =>
      RemarkStays(text);
  }

  lemma TightKept(text: string)
    ensures TightTail(text) ==> RStrip(text) == text && text != ""
  {
    hide IsSpace;
  }

  lemma RemarkStays(text: string)
    ensures RStrip("\\" + text) != ""
  {
    assert !IsSpace('\\');
    hide IsSpace;
    RStripEnd("\\", text);
    assert RStrip("\\") == "\\" by { StripRemark(); }
    hide RStrip;
  }

  lemma StripRemark()
    ensures RStrip("\\") == "\\"
  {
    assert !IsSpace('\\');
    hide IsSpace;
    WordIsTight("\\");
  }

  lemma {:induction false} ItemsFit(items: seq<Item>)
    requires forall item | item in items :: ItemFits(item)
    ensures forall item | item in TrimItems(items) :: ItemFits(item)
  {
    if items != [] {
      var front, last := items[..|items| - 1], items[|items| - 1];
      hide ItemText, RStrip, TrimItem, ItemFits;
      assert forall item | item in front :: item in items;
      if RStrip(ItemText(last)) == "" {
        ItemsFit(front);
      } else {
        TrimmedFits(last);
      }
    }
  }

  lemma TrimmedFits(item: Item)
    requires ItemFits(item) && RStrip(ItemText(item)) != ""
    ensures ItemFits(TrimItem(item))
  {
    var text := RStrip(ItemText(item));
    match item
    case Shown(line) =>
      KeptMark(line);
      assert forall c | c in text[1..] :: c in line.body;
    case Bare =>
    case Remark(rest) =>
      assert text <= "\\" + rest;
      assert forall c | c in text[1..] :: c in rest by {
        assert ("\\" + rest)[1..] == rest;
        assert forall i | 1 <= i < |text| :: text[i] == rest[i - 1];
      }
  }

  /** An end that stays hides what it hid. */
  lemma HidesStays(items: seq<Item>)
    requires EndStays(items)
    ensures (exists item | item in TrimItems(items) :: Hides(item)) <==> exists item | item in items :: Hides(item)
  {
    if items != [] {
      var front, last := items[..|items| - 1], items[|items| - 1];
      assert items == front + [last];
      if last.Remark? {
        RemarkStays(last.text);
        assert TrimItem(last).Remark?;
        hide RStrip, ItemText, LooksLikeHeader, TrimItem;
        assert TrimItems(items) == front + [TrimItem(last)];
        SameBut(front, last, TrimItem(last));
      } else {
        TightKept(ItemText(last));
        assert TrimItem(last) == last by {
          hide RStrip;
          TightItem(last);
        }
        hide RStrip, ItemText, LooksLikeHeader, TrimItem;
        assert TrimItems(items) == items;
      }
    }
  }

  lemma TightItem(item: Item)
    requires RStrip(ItemText(item)) == ItemText(item) != ""
    ensures TrimItem(item) == item
  {
    hide RStrip;
    match item
    case Shown(line) => assert PrintLine(line)[1..] == line.body;
    case Bare =>
    case Remark(text) => assert ("\\" + text)[1..] == text;
  }

  lemma SameBut(front: seq<Item>, a: Item, b: Item)
    requires a.Remark? && b.Remark?
    ensures (exists item | item in front + [a] :: Hides(item)) <==> exists item | item in front + [b] :: Hides(item)
  {
    if item :| item in front + [a] && Hides(item) {
      assert item in front + [b];
    }
    if item :| item in front + [b] && Hides(item) {
      assert item in front + [a];
    }
  }

  // ---------------------------------------------------------------- the end of a diff

  function LastItems(forms: seq<FileForm>): seq<Item>
    requires forms != []
  {
    var hunks := forms[|forms| - 1].hunks;
    if hunks == [] then [] else hunks[|hunks| - 1].items
  }

  function WithItems(forms: seq<FileForm>, items: seq<Item>): seq<FileForm>
    requires forms != []
  {
    var n, f := |forms| - 1, forms[|forms| - 1];
    var k := |f.hunks| - 1;
    if f.hunks == [] then forms
    else forms[..n] + [f.(hunks := f.hunks[..k] + [f.hunks[k].(items := items)])]
  }

  lemma {:induction false} FormTextMore(forms: seq<FileForm>, f: FileForm)
    ensures FormText(forms + [f]) == FormText(forms) + FileText(f)
  {
    hide FileText;
    if forms == [] {
      assert forms + [f] == [f] && [f][1..] == [];
    } else {
      assert (forms + [f])[1..] == forms[1..] + [f];
      FormTextMore(forms[1..], f);
    }
  }

  lemma {:induction false} HunksTextMore(hunks: seq<HunkForm>, h: HunkForm)
    ensures HunksText(hunks + [h]) == HunksText(hunks) + HunkText(h)
  {
    hide HunkText;
    if hunks == [] {
      assert hunks + [h] == [h] && [h][1..] == [];
    } else {
      assert (hunks + [h])[1..] == hunks[1..] + [h];
      HunksTextMore(hunks[1..], h);
    }
  }

  /** Every line of a diff but the body of its last hunk. */
  function HeadText(forms: seq<FileForm>): seq<string>
    requires forms != [] && forms[|forms| - 1].hunks != []
  {
    var n, f := |forms| - 1, forms[|forms| - 1];
    var k := |f.hunks| - 1;
    FormText(forms[..n]) + FileText(f.(hunks := f.hunks[..k])) + [FormHeader(f.hunks[k])]
  }

  lemma LastFileText(f: FileForm, hunks: seq<HunkForm>, h: HunkForm, items: seq<Item>)
    ensures FileText(f.(hunks := hunks + [h.(items := items)])) ==
            FileText(f.(hunks := hunks)) + [FormHeader(h)] + BodyText(items)
  {
    HunksTextMore(hunks, h.(items := items));
    assert FormHeader(h.(items := items)) == FormHeader(h);
    hide FormHeader, BodyText, HunksText;
  }

  lemma TailText(forms: seq<FileForm>, items: seq<Item>)
    requires forms != [] && forms[|forms| - 1].hunks != []
    ensures FormText(WithItems(forms, items)) == HeadText(forms) + BodyText(items)
  {
    var n, f := |forms| - 1, forms[|forms| - 1];
    var k := |f.hunks| - 1;
    FormTextMore(forms[..n], f.(hunks := f.hunks[..k] + [f.hunks[k].(items := items)]));
    LastFileText(f, f.hunks[..k], f.hunks[k], items);
    hide FormText, FileText, BodyText, FormHeader;
    var front := FileText(f.(hunks := f.hunks[..k]));
    Glues(FormText(forms[..n]), front, [FormHeader(f.hunks[k])]);
    Glues(FormText(forms[..n]), front + [FormHeader(f.hunks[k])], BodyText(items));
  }

  lemma SameItems(forms: seq<FileForm>)
    requires forms != []
    ensures WithItems(forms, LastItems(forms)) == forms
  {
    var n, f := |forms| - 1, forms[|forms| - 1];
    assert forms[..n] + [f] == forms;
    if f.hunks != [] {
      var k := |f.hunks| - 1;
      assert f.hunks[..k] + [f.hunks[k]] == f.hunks;
    }
  }

  lemma HeaderEnds(h: HunkForm)
    requires HunkFits(h)
    ensures TightTail(FormHeader(h))
  {
    assert FormHeader(h)[|FormHeader(h)| - 1] == h.tail[|h.tail| - 1];
    hide Decimal, IsSpace;
  }

  lemma MarksEnd(forms: seq<FileForm>)
    requires forms != [] && FormsFit(forms) && forms[|forms| - 1].hunks == []
    ensures var lines := FormText(forms); lines != [] && TightTail(lines[|lines| - 1])
  {
    hide *;
    var n, f := |forms| - 1, forms[|forms| - 1];
    assert forms == forms[..n] + [f];
    FormTextMore(forms[..n], f);
    LastFits(forms);
    MarkLast(f);
  }

  lemma LastFits(forms: seq<FileForm>)
    requires forms != [] && FormsFit(forms)
    ensures FileFits(forms[|forms| - 1])
  {
    hide FileFits;
  }

  lemma MarkLast(f: FileForm)
    requires FileFits(f) && f.hunks == []
    ensures FileText(f) != [] && TightTail(FileText(f)[|FileText(f)| - 1])
  {
    MarkCases(f.newer);
    hide IsSpace, MarkFits, IsProse, OneLine;
    var last := "+++ " + f.newer.text;
    assert FileText(f)[|FileText(f)| - 1] == last;
    assert last[|last| - 1] == f.newer.text[|f.newer.text| - 1];
  }

  lemma {:induction false} TightAlready(lines: seq<string>)
    requires lines != [] && TightTail(lines[|lines| - 1])
    ensures TrimLines(lines) == lines
  {
    hide *;
    var front, last := lines[..|lines| - 1], lines[|lines| - 1];
    assert front + [last] == lines;
    TightKept(last);
    TrimMore(front, last);
  }

  /** Trimming a diff trims the body of its last hunk. */
  lemma FormTrims(forms: seq<FileForm>)
    requires forms != [] && FormsFit(forms)
    ensures TrimLines(FormText(forms)) == FormText(WithItems(forms, TrimItems(LastItems(forms))))
  {
    SameItems(forms);
    var f := forms[|forms| - 1];
    if f.hunks == [] {
      MarksEnd(forms);
      hide FormText, TightTail, TrimLines;
      TightAlready(FormText(forms));
    } else {
      assert FileFits(f) && HunkFits(f.hunks[|f.hunks| - 1]);
      HeaderEnds(f.hunks[|f.hunks| - 1]);
      hide FormText, FileText, FileFits, BodyText, FormHeader, TrimLines, TrimItems, TightTail, WithItems;
      TailText(forms, LastItems(forms));
      TailText(forms, TrimItems(LastItems(forms)));
      BodyTrims(HeadText(forms), LastItems(forms));
    }
  }

  lemma TrimmedFormsFit(forms: seq<FileForm>)
    requires forms != [] && FormsFit(forms)
    ensures FormsFit(WithItems(forms, TrimItems(LastItems(forms))))
  {
    var n, f := |forms| - 1, forms[|forms| - 1];
    assert FileFits(f);
    if f.hunks != [] {
      var k := |f.hunks| - 1;
      var h := f.hunks[k];
      assert HunkFits(h);
      ItemsFit(h.items);
      hide TrimItems, ItemFits, OneLine, IsSpace, MarkFits, IsProse;
      var h' := h.(items := TrimItems(h.items));
      assert HunkFits(h');
      hide HunkFits;
      var f' := f.(hunks := f.hunks[..k] + [h']);
      assert forall x | x in f'.hunks :: x in f.hunks || x == h';
      assert FileFits(f');
      hide FileFits;
      assert WithItems(forms, TrimItems(LastItems(forms))) == forms[..n] + [f'];
    }
  }

  lemma {:induction false} LastMeant(forms: seq<FileForm>)
    requires forms != []
    ensures |Meant(forms)| == |forms| && Meant(forms)[|forms| - 1] == FileMeant(forms[|forms| - 1])
  {
    if |forms| > 1 {
      LastMeant(forms[1..]);
    }
  }

  lemma {:induction false} LastHunkMeant(hunks: seq<HunkForm>)
    requires hunks != []
    ensures |HunksMeant(hunks)| == |hunks| && HunksMeant(hunks)[|hunks| - 1] == HunkMeant(hunks[|hunks| - 1])
  {
    if |hunks| > 1 {
      LastHunkMeant(hunks[1..]);
    }
  }

  lemma LastWeight(forms: seq<FileForm>, items: seq<Item>)
    requires forms != [] && forms[|forms| - 1].hunks != []
    ensures LastSides(Meant(WithItems(forms, items))) == Weight(BodyLines(items))
  {
    var left := WithItems(forms, items);
    LastMeant(left);
    LastHunkMeant(left[|left| - 1].hunks);
    hide OldSide, NewSide, Size, BodyLines;
  }

  lemma {:induction false} SameMeaning(a: seq<FileForm>, b: seq<FileForm>)
    requires |a| == |b| && forall i | 0 <= i < |a| :: FileMeant(a[i]) == FileMeant(b[i])
    ensures Meant(a) == Meant(b)
  {
    hide FileMeant;
    if a != [] {
      SameMeaning(a[1..], b[1..]);
    }
  }

  lemma {:induction false} HunksMeantMore(hunks: seq<HunkForm>, h: HunkForm)
    ensures HunksMeant(hunks + [h]) == HunksMeant(hunks) + [HunkMeant(h)]
  {
    hide HunkMeant;
    if hunks == [] {
      assert hunks + [h] == [h] && [h][1..] == [];
    } else {
      assert (hunks + [h])[1..] == hunks[1..] + [h];
      HunksMeantMore(hunks[1..], h);
    }
  }

  /** The body of the last hunk may be exchanged for one with the same lines. */
  lemma LastMeaning(forms: seq<FileForm>, items: seq<Item>)
    requires forms != [] && BodyLines(items) == BodyLines(LastItems(forms))
    ensures Meant(WithItems(forms, items)) == Meant(forms)
  {
    var n, f := |forms| - 1, forms[|forms| - 1];
    if f.hunks != [] {
      var k := |f.hunks| - 1;
      var h := f.hunks[k];
      assert f.hunks == f.hunks[..k] + [h];
      HunksMeantMore(f.hunks[..k], h);
      HunksMeantMore(f.hunks[..k], h.(items := items));
      assert HunkMeant(h) == HunkMeant(h.(items := items));
      hide HunksMeant, HunkMeant, BodyLines;
      SameMeaning(WithItems(forms, items), forms);
    }
  }

  lemma OpenStays(forms: seq<FileForm>)
    requires forms != [] && EndStays(LastItems(forms))
    ensures AllOpen(WithItems(forms, TrimItems(LastItems(forms)))) <==> AllOpen(forms)
  {
    hide *;
    var items := LastItems(forms);
    HidesStays(items);
    OpenWith(forms, TrimItems(items));
    OpenWith(forms, items);
    SameItems(forms);
  }

  lemma OpenWith(forms: seq<FileForm>, items: seq<Item>)
    requires forms != []
    ensures var n, f := |forms| - 1, forms[|forms| - 1];
            AllOpen(WithItems(forms, items)) <==>
            AllOpen(forms[..n])
            && (f.hunks != [] ==> Open(f.hunks[..|f.hunks| - 1]) && !exists item | item in items :: Hides(item))
  {
    var n, f := |forms| - 1, forms[|forms| - 1];
    if f.hunks == [] {
      assert forms == forms[..n] + [f] && Open(f.hunks);
      AllOpenParts(forms[..n], f);
    } else {
      hide AllOpen, Open, Hides;
      var k := |f.hunks| - 1;
      var h := f.hunks[k].(items := items);
      AllOpenParts(forms[..n], f.(hunks := f.hunks[..k] + [h]));
      OpenParts(f.hunks[..k], h);
    }
  }

  lemma AllOpenParts(forms: seq<FileForm>, f: FileForm)
    ensures AllOpen(forms + [f]) <==> AllOpen(forms) && Open(f.hunks)
  {
    hide Open;
    assert forall x :: x in forms + [f] <==> x in forms || x == f;
  }

  lemma OpenParts(hunks: seq<HunkForm>, h: HunkForm)
    ensures Open(hunks + [h]) <==> Open(hunks) && !exists item | item in h.items :: Hides(item)
  {
    hide Hides;
    var all := hunks + [h];
    assert forall x :: x in all <==> x in hunks || x == h;
  }

  // ---------------------------------------------------------------- the main result

  lemma FormBegins(forms: seq<FileForm>)
    requires forms != [] && FormsFit(forms)
    ensures Begins(FormText(forms))
  {
    var f := forms[0];
    assert FileFits(f);
    if f.prose != [] {
      assert IsProse(f.prose[0]);
    }
    assert !IsSpace('-');
    hide IsProse, IsSpace, GitLine, OneLine, MarkFits, HunkFits, HunksText;
    assert FormText(forms)[0] == if f.prose != [] then f.prose[0] else "--- " + f.older.text;
    assert ("--- " + f.older.text)[0] == '-';
    ProseBegins(f.prose);
  }

  lemma ProseBegins(prose: seq<string>)
    ensures prose != [] && IsProse(prose[0]) ==> prose[0] != "" && !IsSpace(prose[0][0]) && prose[0][0] != '`'
  {
    hide IsSpace, OneLine, GitLine;
  }

  lemma LacedBegins(lines: seq<string>, diff: seq<string>)
    requires Laced(lines, diff) && Begins(diff)
    ensures Begins(lines)
  {
    if GitLine(lines[0]) {
      assert lines[0][0] in {'d', 'i', 'n'};
    }
  }

  /**
   Whatever form its lines take and whatever surrounds them, a diff is read as it is meant if and only if no removed
   line starts with `-- ` and its last line, remarks aside, does not end in white space.
   */
  lemma AnyFormReads(forms: seq<FileForm>, lines: seq<string>, fence: Option<string>, wide: seq<bool>)
    requires forms != [] && FormsFit(forms) && Laced(lines, FormText(forms)) && OneLiners(lines)
    requires (fence.Some? ==> OneLine(fence.value)) && |wide| == |Fenced(lines, fence)|
    ensures Parse(Broken(Fenced(lines, fence), wide)) == Success(Meant(forms)) <==>
            AllOpen(forms) && EndStays(LastItems(forms))
  {
    hide *;
    var left := WithItems(forms, TrimItems(LastItems(forms)));
    FormBegins(forms);
    LacedBegins(lines, FormText(forms));
    WrappersVanish(lines, FormText(forms), fence, wide);
    FormTrims(forms);
    TrimmedFormsFit(forms);
    TrimCosts(LastItems(forms));
    SameSize(forms, TrimItems(LastItems(forms)));
    FormLinesRead(left);
    ReadIs(left);
    MeantCount(forms);
    if EndStays(LastItems(forms)) {
      LastMeaning(forms, TrimItems(LastItems(forms)));
      OpenStays(forms);
    } else {
      Lost(forms);
    }
  }

  lemma ReadIs(forms: seq<FileForm>)
    ensures ReadAsMeant(forms) <==> ParseLines(FormText(forms), START) == Success(Meant(forms))
  {
    hide ParseLines, FormText, Meant;
  }

  lemma SameSize(forms: seq<FileForm>, items: seq<Item>)
    requires forms != []
    ensures |WithItems(forms, items)| == |forms| && WithItems(forms, items) != []
  {
  }

  lemma Lost(forms: seq<FileForm>)
    requires forms != [] && FormsFit(forms) && !EndStays(LastItems(forms))
    ensures var left := WithItems(forms, TrimItems(LastItems(forms)));
            left != [] && ParseLines(FormText(left), START) != Success(Meant(forms))
  {
    hide *;
    var left := WithItems(forms, TrimItems(LastItems(forms)));
    SomeHunk(forms);
    SameItems(forms);
    TrimCosts(LastItems(forms));
    LastWeight(forms, LastItems(forms));
    LastWeight(forms, TrimItems(LastItems(forms)));
    TrimmedFormsFit(forms);
    SameSize(forms, TrimItems(LastItems(forms)));
    FormLinesRead(left);
    ReadIs(left);
    if !AllOpen(left) {
      CountForms(left);
      FilesAreHeaders(FormText(left), START);
      MeantCount(forms);
      NothingYet();
    }
  }

  lemma NothingYet()
    ensures |START.patches| == 0
  {
  }

  lemma SomeHunk(forms: seq<FileForm>)
    requires forms != [] && !EndStays(LastItems(forms))
    ensures forms[|forms| - 1].hunks != []
  {
  }
}
