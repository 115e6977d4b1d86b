/** Token usage of model calls and its totals (src/gca/usage.py). */
module Usage {
  import opened Wrappers
  import opened Text

  datatype LlmUsage = LlmUsage(promptTokens: int, completionTokens: int, totalTokens: int, model: string)

  /** The counters of one model, or of all of them. */
  datatype Counts = Counts(prompt: int, completion: int, total: int) {
    function Plus(other: Counts): Counts {
      Counts(prompt + other.prompt, completion + other.completion, total + other.total)
    }
  }

  const ZERO := Counts(0, 0, 0)

  type Buckets = map<string, Counts>

  datatype Totals = Totals(all: Counts, byModel: Buckets)

  const EMPTY := Totals(ZERO, map[])

  /** What a completion counts for: nothing negative, and a missing total is the sum of its parts. */
  function Clamped(u: LlmUsage): Counts {
    var prompt, completion := Max(0, u.promptTokens), Max(0, u.completionTokens);
    Counts(prompt, completion, Max(0, if u.totalTokens != 0 then u.totalTokens else prompt + completion))
  }

  function ModelOf(u: LlmUsage): string {
    var name := Strip(if u.model != "" then u.model else "unknown");
    if name != "" then name else "unknown"
  }

  function BucketOf(buckets: Buckets, model: string): Counts {
    if model in buckets then buckets[model] else ZERO
  }

  function Counted(buckets: Buckets, model: string, counts: Counts): Buckets {
    buckets[model := BucketOf(buckets, model).Plus(counts)]
  }

  function Merged(t: Totals, u: LlmUsage): Totals {
    Totals(t.all.Plus(Clamped(u)), Counted(t.byModel, ModelOf(u), Clamped(u)))
  }

  function MergedTotals(left: Totals, right: Totals): Totals {
    Totals(left.all.Plus(right.all),
           map model | model in left.byModel.Keys + right.byModel.Keys ::
             BucketOf(left.byModel, model).Plus(BucketOf(right.byModel, model)))
  }

  /** Counter by counter: `after` counts one completion more than `before`, under its model or as unknown. */
  predicate CountsFor(before: Totals, after: Totals, u: LlmUsage) {
    var prompt := if u.promptTokens > 0 then u.promptTokens else 0;
    var completion := if u.completionTokens > 0 then u.completionTokens else 0;
    var total := if u.totalTokens == 0 then prompt + completion else if u.totalTokens > 0 then u.totalTokens else 0;
    var model := if u.model == "" || Strip(u.model) == "" then "unknown" else Strip(u.model);
    && after.all.prompt == before.all.prompt + prompt && after.all.completion == before.all.completion + completion
    && after.all.total == before.all.total + total
    && after.byModel.Keys == before.byModel.Keys + {model}
    && (forall other | other in before.byModel && other != model :: after.byModel[other] == before.byModel[other])
    && after.byModel[model].prompt == prompt + (if model in before.byModel then before.byModel[model].prompt else 0)
    && after.byModel[model].completion ==
       completion + (if model in before.byModel then before.byModel[model].completion else 0)
    && after.byModel[model].total == total + (if model in before.byModel then before.byModel[model].total else 0)
  }

  lemma MergedCounts(t: Totals, u: LlmUsage)
    ensures CountsFor(t, Merged(t, u), u)
  {
    UnknownStays();
    hide Strip;
  }

  lemma UnknownStays()
    ensures Strip("unknown") == "unknown"
  {
    assert !IsSpace('u') && !IsSpace('n');
    hide IsSpace, Strip;
    StripTight("unknown");
  }

  // ---------------------------------------------------------------- the classes of the source

  class LlmUsageTotals {
    var all: Counts
    var byModel: Buckets

    constructor (value: Totals)
      ensures Value() == value
    {
      all, byModel := value.all, value.byModel;
    }

    function Value(): Totals
      reads this
    {
      Totals(all, byModel)
    }
  }

  /** Adds one completion.  The buckets of the argument are updated in place and shared with the result. */
  method MergeUsage(totals: LlmUsageTotals, usage: Option<LlmUsage>) returns (merged: LlmUsageTotals)
    modifies totals
    ensures usage.None? ==> merged == totals && totals.Value() == old(totals.Value())
    ensures usage.Some? ==>
              && fresh(merged) && merged.Value() == Merged(old(totals.Value()), usage.value)
              && totals.all == old(totals.all) && totals.byModel == merged.byModel
    ensures usage.Some? ==> CountsFor(old(totals.Value()), merged.Value(), usage.value)
  {
    if usage.None? {
      return totals;
    }
    var counts, model := Clamped(usage.value), ModelOf(usage.value);
    MergedCounts(totals.Value(), usage.value);
    hide CountsFor, Clamped, ModelOf;
    if model !in totals.byModel {
      totals.byModel := totals.byModel[model := ZERO];
    }
    totals.byModel := totals.byModel[model := totals.byModel[model].Plus(counts)];
    merged := new LlmUsageTotals(Totals(totals.all.Plus(counts), totals.byModel));
  }

  method MergeTotals(left: LlmUsageTotals, right: LlmUsageTotals) returns (merged: LlmUsageTotals)
    ensures fresh(merged) && merged.Value() == MergedTotals(left.Value(), right.Value())
  {
    merged := new LlmUsageTotals(Totals(left.all.Plus(right.all), left.byModel));
    var models := right.byModel.Keys;
    while models != {}
      invariant fresh(merged) && models <= right.byModel.Keys
      invariant merged.all == left.all.Plus(right.all)
      invariant merged.byModel.Keys == left.byModel.Keys + (right.byModel.Keys - models)
      invariant forall model | model in merged.byModel ::
                  merged.byModel[model] == BucketOf(left.byModel, model).Plus(
                    if model in models then ZERO else BucketOf(right.byModel, model))
    {
      var model :| model in models;
      if model !in merged.byModel {
        merged.byModel := merged.byModel[model := ZERO];
      }
      merged.byModel := merged.byModel[model := merged.byModel[model].Plus(right.byModel[model])];
      models := models - {model};
    }
  }

  // ---------------------------------------------------------------- sums

  ghost function Sum(buckets: Buckets): Counts {
    if buckets == map[] then ZERO
    else
      var model :| model in buckets;
      buckets[model].Plus(Sum(buckets - {model}))
  }

  lemma PlusSwaps(a: Counts, b: Counts, c: Counts)
    ensures a.Plus(b.Plus(c)) == b.Plus(a.Plus(c)) && a.Plus(b).Plus(c) == a.Plus(b.Plus(c)) && a.Plus(ZERO) == a
  {
  }

  lemma {:induction false} SumSplits(buckets: Buckets, model: string)
    requires model in buckets
    ensures Sum(buckets) == buckets[model].Plus(Sum(buckets - {model}))
    decreases |buckets|
  {
    var first :| first in buckets && Sum(buckets) == buckets[first].Plus(Sum(buckets - {first}));
    if first == model {
      assert buckets - {first} == buckets - {model};
    } else {
      var a, b := buckets - {first}, buckets - {model};
      SumSplits(a, model);
      SumSplits(b, first);
      assert a - {model} == b - {first};
      assert a[model] == buckets[model] && b[first] == buckets[first];
      PlusSwaps(buckets[first], buckets[model], Sum(a - {model}));
    }
  }

  lemma SumCounted(buckets: Buckets, model: string, counts: Counts)
    ensures Sum(Counted(buckets, model, counts)) == Sum(buckets).Plus(counts)
  {
    var more := Counted(buckets, model, counts);
    SumSplits(more, model);
    if model in buckets {
      SumSplits(buckets, model);
      assert more - {model} == buckets - {model};
    } else {
      assert more - {model} == buckets;
    }
  }

  /** The totals are the sums over the models. */
  ghost predicate Balanced(t: Totals) {
    t.all == Sum(t.byModel)
  }

  // ---------------------------------------------------------------- conservation

  /** All completions of a list, counted one by one. */
  function Collected(t: Totals, usages: seq<LlmUsage>): Totals {
    if usages == [] then t else Merged(Collected(t, usages[..|usages| - 1]), usages[|usages| - 1])
  }

  function TotalOf(usages: seq<LlmUsage>): Counts {
    if usages == [] then ZERO else TotalOf(usages[..|usages| - 1]).Plus(Clamped(usages[|usages| - 1]))
  }

  /** The completions of one model. */
  function Of(usages: seq<LlmUsage>, model: string): seq<LlmUsage> {
    if usages == [] then []
    else
      var last := usages[|usages| - 1];
      Of(usages[..|usages| - 1], model) + if ModelOf(last) == model then [last] else []
  }

  lemma TotalMore(usages: seq<LlmUsage>, last: LlmUsage)
    ensures TotalOf(usages + [last]) == TotalOf(usages).Plus(Clamped(last))
  {
    assert (usages + [last])[..|usages|] == usages;
    hide Clamped;
  }

  lemma OfStep(usages: seq<LlmUsage>, last: LlmUsage, model: string)
    ensures Of(usages + [last], model) == if ModelOf(last) == model then Of(usages, model) + [last]
            else Of(usages, model)
  {
    assert (usages + [last])[..|usages|] == usages;
    hide ModelOf;
  }

  lemma OfMore(usages: seq<LlmUsage>, last: LlmUsage, model: string)
    ensures TotalOf(Of(usages + [last], model)) ==
            TotalOf(Of(usages, model)).Plus(if ModelOf(last) == model then Clamped(last) else ZERO)
  {
    hide *;
    OfStep(usages, last, model);
    TotalMore(Of(usages, model), last);
    PlusSwaps(TotalOf(Of(usages, model)), ZERO, ZERO);
  }

  lemma MergedBucket(t: Totals, u: LlmUsage, model: string)
    ensures BucketOf(Merged(t, u).byModel, model) ==
            BucketOf(t.byModel, model).Plus(if ModelOf(u) == model then Clamped(u) else ZERO)
  {
    hide Clamped, ModelOf;
  }

  lemma CollectedStep(t: Totals, usages: seq<LlmUsage>)
    ensures usages == [] ==> Collected(t, usages) == t
    ensures usages != [] ==>
              Collected(t, usages) == Merged(Collected(t, usages[..|usages| - 1]), usages[|usages| - 1])
  {
  }

  lemma NoneOf(c: Counts, model: string)
    ensures c.Plus(TotalOf(Of([], model))) == c
  {
  }

  lemma {:induction false} BucketsConserved(t: Totals, usages: seq<LlmUsage>, model: string)
    ensures BucketOf(Collected(t, usages).byModel, model) == BucketOf(t.byModel, model).Plus(TotalOf(Of(usages, model)))
  {
    hide *;
    CollectedStep(t, usages);
    if usages == [] {
      NoneOf(BucketOf(t.byModel, model), model);
    } else {
      var front, last := usages[..|usages| - 1], usages[|usages| - 1];
      BucketsConserved(t, front, model);
      MergedBucket(Collected(t, front), last, model);
      OfMore(front, last, model);
      assert front + [last] == usages;
      PlusSwaps(BucketOf(t.byModel, model), TotalOf(Of(front, model)), if ModelOf(last) == model then Clamped(last)
        else ZERO);
    }
  }

  lemma {:induction false} BalanceKept(t: Totals, usages: seq<LlmUsage>)
    requires Balanced(t)
    ensures Balanced(Collected(t, usages))
  {
    if usages != [] {
      var n := |usages| - 1;
      BalanceKept(t, usages[..n]);
      hide Clamped, ModelOf, Sum, Counted;
      SumCounted(Collected(t, usages[..n]).byModel, ModelOf(usages[n]), Clamped(usages[n]));
    }
  }

  lemma {:induction false} TotalConserved(t: Totals, usages: seq<LlmUsage>)
    ensures Collected(t, usages).all == t.all.Plus(TotalOf(usages))
  {
    if usages != [] {
      TotalConserved(t, usages[..|usages| - 1]);
      hide Clamped, ModelOf;
    }
  }

  /** Nothing is lost or counted twice: each counter grows by the clamped sum, in all and model by model. */
  lemma Conserved(t: Totals, usages: seq<LlmUsage>)
    ensures var after := Collected(t, usages);
            && after.all == t.all.Plus(TotalOf(usages))
            && (forall model ::
                    BucketOf(after.byModel, model) ==
                    BucketOf(t.byModel, model).Plus(TotalOf(Of(usages, model))))
            && (Balanced(t) ==> Balanced(after))
  {
    hide *;
    TotalConserved(t, usages);
    forall model
      ensures BucketOf(Collected(t, usages).byModel, model) ==
              BucketOf(t.byModel, model).Plus(TotalOf(Of(usages, model)))
    {
      BucketsConserved(t, usages, model);
    }
    if Balanced(t) {
      BalanceKept(t, usages);
    }
  }

  lemma MergedIntoMore(left: Totals, right: Totals, u: LlmUsage)
    ensures MergedTotals(left, Merged(right, u)) == Merged(MergedTotals(left, right), u)
  {
    hide Clamped, ModelOf;
    var a, b := MergedTotals(left, Merged(right, u)), Merged(MergedTotals(left, right), u);
    assert a.byModel.Keys == b.byModel.Keys;
    forall model | model in a.byModel
      ensures a.byModel[model] == b.byModel[model]
    {
    }
  }

  /** Counting into a child and rolling it up once equals counting into the parent. */
  lemma {:induction false} RollUp(parent: Totals, usages: seq<LlmUsage>)
    ensures MergedTotals(parent, Collected(EMPTY, usages)) == Collected(parent, usages)
  {
    if usages == [] {
      var merged := MergedTotals(parent, EMPTY);
      assert merged.byModel.Keys == parent.byModel.Keys;
      assert merged.byModel == parent.byModel;
    } else {
      var n := |usages| - 1;
      RollUp(parent, usages[..n]);
      MergedIntoMore(parent, Collected(EMPTY, usages[..n]), usages[n]);
    }
  }

  lemma {:induction false} CollectedMore(t: Totals, a: seq<LlmUsage>, b: seq<LlmUsage>)
    ensures Collected(t, a + b) == Collected(Collected(t, a), b)
  {
    if b == [] {
      assert a + b == a;
    } else {
      var n := |b| - 1;
      assert (a + b)[..|a + b| - 1] == a + b[..n];
      CollectedMore(t, a, b[..n]);
    }
  }
}
