/** Request re-batching (`Batch` and both `rebatch_input` overloads). */
module Rebatch {
  import opened Types
  import opened Seqs
  import Options

  /** Entry j of a batch is input example exampleIndex[j], with its source and target prefix. */
  datatype Batch = Batch(source: seq<TokenSeq>, target: seq<TokenSeq>, exampleIndex: seq<nat>)

  /** The target prefix list does not hold one prefix per source. */
  datatype RebatchError = SizeMismatch(sourceSize: nat, targetSize: nat)

  predicate InRange(n: nat, order: seq<nat>)
  {
    forall m :: 0 <= m < |order| ==> order[m] < n
  }

  /** Every entry of `b` is the input example it names, source and target. */
  predicate WellFormed(b: Batch, source: seq<TokenSeq>, target: seq<TokenSeq>)
  {
    && |b.source| == |b.exampleIndex|
    && |b.target| == |b.exampleIndex|
    && forall j :: 0 <= j < |b.exampleIndex| ==>
         && b.exampleIndex[j] < |source|
         && b.exampleIndex[j] < |target|
         && b.source[j] == source[b.exampleIndex[j]]
         && b.target[j] == target[b.exampleIndex[j]]
  }

  // ---------------------------------------------------------------------------
  // Sorting by source length

  /** Example x goes before example y: its source is shorter, or as long and earlier in the input. */
  predicate Before(source: seq<TokenSeq>, x: nat, y: nat)
    requires x < |source| && y < |source|
  {
    |source[x]| < |source[y]| || (|source[x]| == |source[y]| && x < y)
  }

  predicate SortedByLength(source: seq<TokenSeq>, order: seq<nat>)
    requires InRange(|source|, order)
  {
    forall a, b :: 0 <= a < b < |order| ==> Before(source, order[a], order[b])
  }

  /** Inserts example x into a sequence of examples sorted by length. */
  function Insert(source: seq<TokenSeq>, x: nat, sorted: seq<nat>): (r: seq<nat>)
    requires x < |source| && InRange(|source|, sorted)
    ensures multiset(r) == multiset(sorted) + multiset{x}
    ensures InRange(|source|, r)
  {
    if sorted == [] then [x]
    else if Before(source, x, sorted[0]) then [x] + sorted
    else
      assert sorted == [sorted[0]] + sorted[1..];
      [sorted[0]] + Insert(source, x, sorted[1..])
  }

  /** Stable sort of example positions by source length (insertion sort). */
  function SortByLength(source: seq<TokenSeq>, order: seq<nat>): (r: seq<nat>)
    requires InRange(|source|, order)
    ensures multiset(r) == multiset(order)
    ensures InRange(|source|, r)
  {
    if order == [] then []
    else
      assert order == [order[0]] + order[1..];
      Insert(source, order[0], SortByLength(source, order[1..]))
  }

  /** Prepending an example that goes before every element keeps a sequence sorted. */
  lemma SortedCons(source: seq<TokenSeq>, y: nat, rest: seq<nat>)
    requires y < |source| && InRange(|source|, rest) && SortedByLength(source, rest)
    requires forall m :: 0 <= m < |rest| ==> Before(source, y, rest[m])
    ensures InRange(|source|, [y] + rest)
    ensures SortedByLength(source, [y] + rest)
  {
    var r := [y] + rest;
    forall a, b | 0 <= a < b < |r| ensures Before(source, r[a], r[b]) {
      assert r[b] == rest[b - 1];
      if a > 0 {
        assert r[a] == rest[a - 1];
      }
    }
  }

  /** An example that goes before x and before every element of s goes before every element of Insert(x, s). */
  lemma BeforeInsert(source: seq<TokenSeq>, y: nat, x: nat, s: seq<nat>)
    requires y < |source| && x < |source| && InRange(|source|, s)
    requires Before(source, y, x)
    requires forall m :: 0 <= m < |s| ==> Before(source, y, s[m])
    ensures forall m :: 0 <= m < |Insert(source, x, s)| ==> Before(source, y, Insert(source, x, s)[m])
  {
    var r := Insert(source, x, s);
    forall m | 0 <= m < |r| ensures Before(source, y, r[m]) {
      assert r[m] in multiset(r);
      if r[m] != x {
        assert r[m] in multiset(s);
        var q :| 0 <= q < |s| && s[q] == r[m];
      }
    }
  }

  lemma {:induction false} InsertSorted(source: seq<TokenSeq>, x: nat, sorted: seq<nat>)
    requires x < |source| && InRange(|source|, sorted)
    requires SortedByLength(source, sorted) && x !in sorted
    ensures SortedByLength(source, Insert(source, x, sorted))
  {
    if sorted == [] {
    } else if Before(source, x, sorted[0]) {
      forall m | 0 <= m < |sorted| ensures Before(source, x, sorted[m]) {
        if m > 0 {
          assert Before(source, sorted[0], sorted[m]);
        }
      }
      SortedCons(source, x, sorted);
    } else {
      var tail := sorted[1..];
      assert x != sorted[0];
      assert sorted == [sorted[0]] + tail;
      forall m | 0 <= m < |tail| ensures Before(source, sorted[0], tail[m]) {
        assert tail[m] == sorted[m + 1];
      }
      assert SortedByLength(source, tail) by {
        forall a, b | 0 <= a < b < |tail| ensures Before(source, tail[a], tail[b]) {
          assert tail[a] == sorted[a + 1] && tail[b] == sorted[b + 1];
        }
      }
      InsertSorted(source, x, tail);
      BeforeInsert(source, sorted[0], x, tail);
      SortedCons(source, sorted[0], Insert(source, x, tail));
    }
  }

  /** Sorting distinct examples gives them strictly in (length, input position) order. */
  lemma {:induction false} SortSorted(source: seq<TokenSeq>, order: seq<nat>)
    requires InRange(|source|, order) && Distinct(order)
    ensures SortedByLength(source, SortByLength(source, order))
  {
    if order != [] {
      assert Distinct(order[1..]);
      SortSorted(source, order[1..]);
      assert forall q :: 0 <= q < |order[1..]| ==> order[1..][q] == order[q + 1];
      assert order[0] !in multiset(order[1..]);
      InsertSorted(source, order[0], SortByLength(source, order[1..]));
    }
  }

  lemma SortedDistinct(source: seq<TokenSeq>, order: seq<nat>)
    requires InRange(|source|, order) && SortedByLength(source, order)
    ensures Distinct(order)
  {
    forall a, b | 0 <= a < b < |order| ensures order[a] != order[b] {
      assert Before(source, order[a], order[b]);
    }
  }

  // ---------------------------------------------------------------------------
  // Batch cost and splitting

  /** What one example adds to a batch's size. */
  function Increment(batchType: BatchType, example: TokenSeq): nat
  {
    match batchType
    case Examples => 1
    case Tokens => |example|
  }

  /** The size of a batch: its number of examples, or its total number of source tokens. */
  function BatchCost(batchType: BatchType, examples: seq<TokenSeq>): nat
  {
    if examples == [] then 0
    else BatchCost(batchType, examples[..|examples| - 1]) + Increment(batchType, examples[|examples| - 1])
  }

  /** A batch respects the budget, or is one example that exceeds it on its own. */
  predicate WithinBudget(maxBatchSize: nat, batchType: BatchType, examples: seq<TokenSeq>)
  {
    BatchCost(batchType, examples) <= maxBatchSize || |examples| == 1
  }

  predicate AllWithinBudget(source: seq<TokenSeq>, maxBatchSize: nat, batchType: BatchType, groups: seq<seq<nat>>)
  {
    forall k :: 0 <= k < |groups| ==>
      InRange(|source|, groups[k]) && WithinBudget(maxBatchSize, batchType, Gather(source, groups[k]))
  }

  /** Counted in examples, the size of a batch is its length. */
  lemma {:induction false} ExampleCost(examples: seq<TokenSeq>)
    ensures BatchCost(Examples, examples) == |examples|
  {
    if examples != [] {
      ExampleCost(examples[..|examples| - 1]);
    }
  }

  lemma CostSnoc(batchType: BatchType, examples: seq<TokenSeq>, e: TokenSeq)
    ensures BatchCost(batchType, examples + [e]) == BatchCost(batchType, examples) + Increment(batchType, e)
  {
    assert (examples + [e])[..|examples|] == examples;
  }

  /** The sources of the examples at the given positions. */
  function Gather(source: seq<TokenSeq>, g: seq<nat>): (r: seq<TokenSeq>)
    requires InRange(|source|, g)
  {
    seq(|g|, j requires 0 <= j < |g| => source[g[j]])
  }

  lemma GatherSnoc(source: seq<TokenSeq>, g: seq<nat>, x: nat)
    requires InRange(|source|, g) && x < |source|
    ensures InRange(|source|, g + [x])
    ensures Gather(source, g + [x]) == Gather(source, g) + [source[x]]
  {
  }

  /**
   * Walks `order`, appending each example to the current batch and closing the current
   * batch first when it is non-empty and the example would take it over the budget.
   */
  function Group(source: seq<TokenSeq>, maxBatchSize: nat, batchType: BatchType,
                 order: seq<nat>, current: seq<nat>, currentCost: nat): (r: seq<seq<nat>>)
    requires InRange(|source|, order) && InRange(|source|, current)
    ensures forall k :: 0 <= k < |r| ==> r[k] != [] && InRange(|source|, r[k])
    decreases |order|
  {
    if order == [] then
      (if current == [] then [] else [current])
    else
      var x := order[0];
      var size := Increment(batchType, source[x]);
      if current != [] && currentCost + size > maxBatchSize then
        [current] + Group(source, maxBatchSize, batchType, order[1..], [x], size)
      else
        GatherSnoc(source, current, x);
        Group(source, maxBatchSize, batchType, order[1..], current + [x], currentCost + size)
  }

  lemma {:induction false} GroupFlatten(source: seq<TokenSeq>, maxBatchSize: nat, batchType: BatchType,
                                         order: seq<nat>, current: seq<nat>, currentCost: nat)
    requires InRange(|source|, order) && InRange(|source|, current)
    ensures Flatten<nat>(Group(source, maxBatchSize, batchType, order, current, currentCost)) == current + order
    decreases |order|
  {
    if order == [] {
      if current != [] {
        assert Flatten([current]) == current + Flatten([]);
      }
    } else {
      var x := order[0];
      var size := Increment(batchType, source[x]);
      assert order == [x] + order[1..];
      if current != [] && currentCost + size > maxBatchSize {
        var rest := Group(source, maxBatchSize, batchType, order[1..], [x], size);
        GroupFlatten(source, maxBatchSize, batchType, order[1..], [x], size);
        assert Group(source, maxBatchSize, batchType, order, current, currentCost) == [current] + rest;
        FlattenCons(current, rest);
      } else {
        GatherSnoc(source, current, x);
        GroupFlatten(source, maxBatchSize, batchType, order[1..], current + [x], currentCost + size);
        assert Group(source, maxBatchSize, batchType, order, current, currentCost)
            == Group(source, maxBatchSize, batchType, order[1..], current + [x], currentCost + size);
        assert (current + [x]) + order[1..] == current + order;
      }
    }
  }

  lemma BudgetCons(source: seq<TokenSeq>, maxBatchSize: nat, batchType: BatchType,
                    current: seq<nat>, rest: seq<seq<nat>>)
    requires InRange(|source|, current) && WithinBudget(maxBatchSize, batchType, Gather(source, current))
    requires AllWithinBudget(source, maxBatchSize, batchType, rest)
    ensures AllWithinBudget(source, maxBatchSize, batchType, [current] + rest)
  {
    var r := [current] + rest;
    forall k | 0 <= k < |r|
      ensures InRange(|source|, r[k]) && WithinBudget(maxBatchSize, batchType, Gather(source, r[k]))
    {
      if k > 0 {
        assert r[k] == rest[k - 1];
      }
    }
  }

  /** A batch opened with example x alone respects the budget and costs x's increment. */
  lemma OpenBudget(source: seq<TokenSeq>, maxBatchSize: nat, batchType: BatchType, x: nat)
    requires x < |source|
    ensures InRange(|source|, [x])
    ensures BatchCost(batchType, Gather(source, [x])) == Increment(batchType, source[x])
    ensures WithinBudget(maxBatchSize, batchType, Gather(source, [x]))
  {
    assert InRange(|source|, [x]);
    var g := Gather(source, [x]);
    assert |g| == 1 && g[0] == source[x];
    assert g[..0] == [];
  }

  /** Appending x when it fits, or to an empty batch, respects the budget. */
  lemma ExtendBudget(source: seq<TokenSeq>, maxBatchSize: nat, batchType: BatchType,
                     current: seq<nat>, currentCost: nat, x: nat)
    requires InRange(|source|, current) && x < |source|
    requires currentCost == BatchCost(batchType, Gather(source, current))
    requires !(current != [] && currentCost + Increment(batchType, source[x]) > maxBatchSize)
    ensures InRange(|source|, current + [x])
    ensures currentCost + Increment(batchType, source[x]) == BatchCost(batchType, Gather(source, current + [x]))
    ensures WithinBudget(maxBatchSize, batchType, Gather(source, current + [x]))
  {
    GatherSnoc(source, current, x);
    CostSnoc(batchType, Gather(source, current), source[x]);
    if current == [] {
      assert |Gather(source, current + [x])| == 1;
    }
  }

  lemma {:induction false} GroupWithinBudget(source: seq<TokenSeq>, maxBatchSize: nat, batchType: BatchType,
                                              order: seq<nat>, current: seq<nat>, currentCost: nat)
    requires InRange(|source|, order) && InRange(|source|, current)
    requires currentCost == BatchCost(batchType, Gather(source, current))
    requires current == [] || WithinBudget(maxBatchSize, batchType, Gather(source, current))
    ensures AllWithinBudget(source, maxBatchSize, batchType, Group(source, maxBatchSize, batchType, order, current, currentCost))
    decreases |order|, 1
  {
    if order == [] {
      if current != [] {
        BudgetCons(source, maxBatchSize, batchType, current, []);
        assert [current] + [] == [current];
      }
    } else if current != [] && currentCost + Increment(batchType, source[order[0]]) > maxBatchSize {
      SplitWithinBudget(source, maxBatchSize, batchType, order, current, currentCost);
    } else {
      ExtendWithinBudget(source, maxBatchSize, batchType, order, current, currentCost);
    }
  }

  /** GroupWithinBudget when the next example closes the current batch. */
  lemma {:induction false} SplitWithinBudget(source: seq<TokenSeq>, maxBatchSize: nat, batchType: BatchType,
                                              order: seq<nat>, current: seq<nat>, currentCost: nat)
    requires InRange(|source|, order) && InRange(|source|, current)
    requires current != [] && WithinBudget(maxBatchSize, batchType, Gather(source, current))
    requires order != [] && currentCost + Increment(batchType, source[order[0]]) > maxBatchSize
    ensures AllWithinBudget(source, maxBatchSize, batchType, Group(source, maxBatchSize, batchType, order, current, currentCost))
    decreases |order|, 0
  {
    var x := order[0];
    var size := Increment(batchType, source[x]);
    OpenBudget(source, maxBatchSize, batchType, x);
    GroupWithinBudget(source, maxBatchSize, batchType, order[1..], [x], size);
    var rest := Group(source, maxBatchSize, batchType, order[1..], [x], size);
    assert Group(source, maxBatchSize, batchType, order, current, currentCost) == [current] + rest;
    BudgetCons(source, maxBatchSize, batchType, current, rest);
  }

  /** GroupWithinBudget when the next example joins the current batch. */
  lemma {:induction false} ExtendWithinBudget(source: seq<TokenSeq>, maxBatchSize: nat, batchType: BatchType,
                                               order: seq<nat>, current: seq<nat>, currentCost: nat)
    requires InRange(|source|, order) && InRange(|source|, current)
    requires currentCost == BatchCost(batchType, Gather(source, current))
    requires order != [] && !(current != [] && currentCost + Increment(batchType, source[order[0]]) > maxBatchSize)
    ensures AllWithinBudget(source, maxBatchSize, batchType, Group(source, maxBatchSize, batchType, order, current, currentCost))
    decreases |order|, 0
  {
    var x := order[0];
    var size := Increment(batchType, source[x]);
    ExtendBudget(source, maxBatchSize, batchType, current, currentCost, x);
    GroupWithinBudget(source, maxBatchSize, batchType, order[1..], current + [x], currentCost + size);
    assert Group(source, maxBatchSize, batchType, order, current, currentCost)
        == Group(source, maxBatchSize, batchType, order[1..], current + [x], currentCost + size);
  }

  /**
   * Group k was closed because the first example of group k + 1 would have taken it over the
   * budget.
   */
  predicate ClosedAt(source: seq<TokenSeq>, maxBatchSize: nat, batchType: BatchType, groups: seq<seq<nat>>, k: nat)
    requires k + 1 < |groups|
  {
    && InRange(|source|, groups[k]) && groups[k + 1] != [] && groups[k + 1][0] < |source|
    && BatchCost(batchType, Gather(source, groups[k])) + Increment(batchType, source[groups[k + 1][0]]) > maxBatchSize
  }

  /** Every group but the last was closed because the next example did not fit. */
  predicate ClosedWhenFull(source: seq<TokenSeq>, maxBatchSize: nat, batchType: BatchType, groups: seq<seq<nat>>)
  {
    forall k: nat :: k + 1 < |groups| ==> ClosedAt(source, maxBatchSize, batchType, groups, k)
  }

  /** A non-empty current batch opens the first group the splitter emits. */
  lemma {:induction false} GroupHead(source: seq<TokenSeq>, maxBatchSize: nat, batchType: BatchType,
                                      order: seq<nat>, current: seq<nat>, currentCost: nat)
    requires InRange(|source|, order) && InRange(|source|, current) && current != []
    ensures var r := Group(source, maxBatchSize, batchType, order, current, currentCost);
            r != [] && r[0] != [] && r[0][0] == current[0]
    decreases |order|
  {
    if order != [] {
      var x := order[0];
      var size := Increment(batchType, source[x]);
      if !(currentCost + size > maxBatchSize) {
        GatherSnoc(source, current, x);
        GroupHead(source, maxBatchSize, batchType, order[1..], current + [x], currentCost + size);
        assert Group(source, maxBatchSize, batchType, order, current, currentCost)
            == Group(source, maxBatchSize, batchType, order[1..], current + [x], currentCost + size);
      }
    }
  }

  lemma ClosedCons(source: seq<TokenSeq>, maxBatchSize: nat, batchType: BatchType,
                   current: seq<nat>, rest: seq<seq<nat>>)
    requires InRange(|source|, current) && rest != [] && rest[0] != [] && rest[0][0] < |source|
    requires BatchCost(batchType, Gather(source, current)) + Increment(batchType, source[rest[0][0]]) > maxBatchSize
    requires ClosedWhenFull(source, maxBatchSize, batchType, rest)
    ensures ClosedWhenFull(source, maxBatchSize, batchType, [current] + rest)
  {
    var r := [current] + rest;
    forall k: nat | k + 1 < |r| ensures ClosedAt(source, maxBatchSize, batchType, r, k) {
      assert r[k + 1] == rest[k];
      if k > 0 {
        assert ClosedAt(source, maxBatchSize, batchType, rest, k - 1);
        assert r[k] == rest[k - 1];
      }
    }
  }

  /** The splitter closes a batch only when the next example does not fit in it. */
  lemma {:induction false} GroupClosedWhenFull(source: seq<TokenSeq>, maxBatchSize: nat, batchType: BatchType,
                                                order: seq<nat>, current: seq<nat>, currentCost: nat)
    requires InRange(|source|, order) && InRange(|source|, current)
    requires currentCost == BatchCost(batchType, Gather(source, current))
    ensures ClosedWhenFull(source, maxBatchSize, batchType, Group(source, maxBatchSize, batchType, order, current, currentCost))
    decreases |order|, 1
  {
    if order == [] {
    } else if current != [] && currentCost + Increment(batchType, source[order[0]]) > maxBatchSize {
      SplitClosedWhenFull(source, maxBatchSize, batchType, order, current, currentCost);
    } else {
      var x := order[0];
      var size := Increment(batchType, source[x]);
      ExtendBudget(source, maxBatchSize, batchType, current, currentCost, x);
      GroupClosedWhenFull(source, maxBatchSize, batchType, order[1..], current + [x], currentCost + size);
      assert Group(source, maxBatchSize, batchType, order, current, currentCost)
          == Group(source, maxBatchSize, batchType, order[1..], current + [x], currentCost + size);
    }
  }

  /** GroupClosedWhenFull when the next example closes the current batch. */
  lemma {:induction false} SplitClosedWhenFull(source: seq<TokenSeq>, maxBatchSize: nat, batchType: BatchType,
                                                order: seq<nat>, current: seq<nat>, currentCost: nat)
    requires InRange(|source|, order) && InRange(|source|, current)
    requires currentCost == BatchCost(batchType, Gather(source, current))
    requires current != [] && order != [] && currentCost + Increment(batchType, source[order[0]]) > maxBatchSize
    ensures ClosedWhenFull(source, maxBatchSize, batchType, Group(source, maxBatchSize, batchType, order, current, currentCost))
    decreases |order|, 0
  {
    var x := order[0];
    var size := Increment(batchType, source[x]);
    OpenBudget(source, maxBatchSize, batchType, x);
    GroupClosedWhenFull(source, maxBatchSize, batchType, order[1..], [x], size);
    GroupHead(source, maxBatchSize, batchType, order[1..], [x], size);
    var rest := Group(source, maxBatchSize, batchType, order[1..], [x], size);
    assert Group(source, maxBatchSize, batchType, order, current, currentCost) == [current] + rest;
    ClosedCons(source, maxBatchSize, batchType, current, rest);
  }

  // ---------------------------------------------------------------------------
  // Building batches

  /** The batch holding the given input examples, in the given order. */
  function MakeBatch(source: seq<TokenSeq>, target: seq<TokenSeq>, g: seq<nat>): Batch
    requires |source| == |target| && InRange(|source|, g)
  {
    Batch(Gather(source, g), Gather(target, g), g)
  }

  function MakeBatches(source: seq<TokenSeq>, target: seq<TokenSeq>, groups: seq<seq<nat>>): seq<Batch>
    requires |source| == |target|
    requires forall k :: 0 <= k < |groups| ==> InRange(|source|, groups[k])
  {
    seq(|groups|, k requires 0 <= k < |groups| => MakeBatch(source, target, groups[k]))
  }

  /** The example positions of each batch. */
  function IndicesOf(batches: seq<Batch>): seq<seq<nat>>
  {
    seq(|batches|, k requires 0 <= k < |batches| => batches[k].exampleIndex)
  }

  /** The groups of example positions the planner forms. */
  function PlanIndices(source: seq<TokenSeq>, maxBatchSize: nat, batchType: BatchType): (groups: seq<seq<nat>>)
    ensures forall k :: 0 <= k < |groups| ==> groups[k] != [] && InRange(|source|, groups[k])
  {
    var n := |source|;
    if n == 0 then []
    else if maxBatchSize == 0 then [Iota(n)]
    else Group(source, maxBatchSize, batchType, SortByLength(source, Iota(n)), [], 0)
  }

  function Plan(source: seq<TokenSeq>, target: seq<TokenSeq>, maxBatchSize: nat, batchType: BatchType): seq<Batch>
    requires |source| == |target|
  {
    MakeBatches(source, target, PlanIndices(source, maxBatchSize, batchType))
  }

  /** rebatch_input(source, target, max_batch_size, batch_type). */
  function RebatchInput(source: seq<TokenSeq>, target: seq<TokenSeq>, maxBatchSize: nat, batchType: BatchType)
    : (r: Result<seq<Batch>, RebatchError>)
    ensures r.Failure? <==> |target| != |source|
    ensures r.Failure? ==> r.error == SizeMismatch(|source|, |target|)
    ensures r.Success? && source == [] ==> r.value == []
  {
    if |target| != |source| then Failure(SizeMismatch(|source|, |target|))
    else
      assert source == [] ==> PlanIndices(source, maxBatchSize, batchType) == [];
      Success(Plan(source, target, maxBatchSize, batchType))
  }

  /** rebatch_input(source, target_prefix, options): the internal flag can switch re-batching off. */
  function RebatchWithOptions(source: seq<TokenSeq>, target: seq<TokenSeq>, options: Options.TranslationOptions)
    : (r: Result<seq<Batch>, RebatchError>)
    ensures r.Failure? <==> |target| != |source|
    ensures !options.rebatchInput && r.Success? && source != [] ==> r.value == [Batch(source, target, Iota(|source|))]
  {
    if options.rebatchInput then RebatchInput(source, target, options.maxBatchSize, options.batchType)
    else
      if |source| == |target| && source != [] then
        ForwardAsIs(source, target, Examples);
        RebatchInput(source, target, 0, Examples)
      else RebatchInput(source, target, 0, Examples)
  }

  /** The batches still to come when the splitting loop is at `order` with the current batch `current`. */
  function Pending(source: seq<TokenSeq>, target: seq<TokenSeq>, maxBatchSize: nat, batchType: BatchType,
                   order: seq<nat>, current: seq<nat>, currentCost: nat): seq<Batch>
    requires |source| == |target| && InRange(|source|, order) && InRange(|source|, current)
  {
    MakeBatches(source, target, Group(source, maxBatchSize, batchType, order, current, currentCost))
  }

  /**
   * The splitting loop: walks `order`, appending each example to the current batch and
   * emitting the current batch first when it is non-empty and the example would take it
   * over the budget.
   */
  method BuildBatches(source: seq<TokenSeq>, target: seq<TokenSeq>, maxBatchSize: nat, batchType: BatchType,
                      order: seq<nat>) returns (batches: seq<Batch>)
    requires |source| == |target| && InRange(|source|, order)
    ensures batches == MakeBatches(source, target, Group(source, maxBatchSize, batchType, order, [], 0))
  {
    ghost var goal := Pending(source, target, maxBatchSize, batchType, order, [], 0);
    assert order[0..] == order;
    batches := [];
    var current := Batch([], [], []);
    var currentSize: nat := 0;
    var i := 0;
    while i < |order|
      invariant i <= |order|
      invariant InRange(|source|, current.exampleIndex)
      invariant current == MakeBatch(source, target, current.exampleIndex)
      invariant batches + Pending(source, target, maxBatchSize, batchType, order[i..], current.exampleIndex, currentSize)
                == goal
    {
      var x := order[i];
      var size := Increment(batchType, source[x]);
      if current.exampleIndex != [] && currentSize + size > maxBatchSize {
        SplitStep(source, target, maxBatchSize, batchType, order, i, current.exampleIndex, currentSize);
        batches := batches + [current];
        current := Batch([source[x]], [target[x]], [x]);
        currentSize := size;
      } else {
        ExtendStep(source, target, maxBatchSize, batchType, order, i, current.exampleIndex, currentSize);
        current := Batch(current.source + [source[x]], current.target + [target[x]], current.exampleIndex + [x]);
        currentSize := currentSize + size;
      }
      i := i + 1;
    }
    LastStep(source, target, maxBatchSize, batchType, order[i..], current.exampleIndex, currentSize);
    if current.exampleIndex != [] {
      batches := batches + [current];
    }
  }

  /**
   * rebatch_input as a procedure: reject a target list of the wrong length, forward the
   * input as one batch when there is no bound, otherwise sort by length and split.
   */
  method RebatchExamples(source: seq<TokenSeq>, target: seq<TokenSeq>, maxBatchSize: nat, batchType: BatchType)
    returns (r: Result<seq<Batch>, RebatchError>)
    ensures r == RebatchInput(source, target, maxBatchSize, batchType)
  {
    if |target| != |source| {
      return Failure(SizeMismatch(|source|, |target|));
    }
    var n := |source|;
    if n == 0 {
      assert PlanIndices(source, maxBatchSize, batchType) == [];
      assert |Plan(source, target, maxBatchSize, batchType)| == 0;
      return Success([]);
    }
    if maxBatchSize == 0 {
      ForwardAsIs(source, target, batchType);
      return Success([Batch(source, target, Iota(n))]);
    }
    var order := SortByLength(source, Iota(n));
    var batches := BuildBatches(source, target, maxBatchSize, batchType, order);
    return Success(batches);
  }

  /** Closing the current batch before order[i]: one step of Group. */
  lemma SplitStep(source: seq<TokenSeq>, target: seq<TokenSeq>, maxBatchSize: nat, batchType: BatchType,
                  order: seq<nat>, i: nat, current: seq<nat>, currentCost: nat)
    requires |source| == |target| && InRange(|source|, order) && InRange(|source|, current)
    requires i < |order|
    requires current != [] && currentCost + Increment(batchType, source[order[i]]) > maxBatchSize
    ensures InRange(|source|, order[i..]) && InRange(|source|, order[i + 1..]) && InRange(|source|, [order[i]])
    ensures MakeBatch(source, target, [order[i]]) == Batch([source[order[i]]], [target[order[i]]], [order[i]])
    ensures Pending(source, target, maxBatchSize, batchType, order[i..], current, currentCost)
            == [MakeBatch(source, target, current)]
               + Pending(source, target, maxBatchSize, batchType, order[i + 1..], [order[i]],
                         Increment(batchType, source[order[i]]))
  {
    var x := order[i];
    var size := Increment(batchType, source[x]);
    assert order[i..][0] == x && order[i..][1..] == order[i + 1..];
    var rest := Group(source, maxBatchSize, batchType, order[i + 1..], [x], size);
    assert Group(source, maxBatchSize, batchType, order[i..], current, currentCost) == [current] + rest;
    MakeBatchesCons(source, target, current, rest);
  }

  /** Appending order[i] to the current batch: one step of Group. */
  lemma ExtendStep(source: seq<TokenSeq>, target: seq<TokenSeq>, maxBatchSize: nat, batchType: BatchType,
                   order: seq<nat>, i: nat, current: seq<nat>, currentCost: nat)
    requires |source| == |target| && InRange(|source|, order) && InRange(|source|, current)
    requires i < |order|
    requires !(current != [] && currentCost + Increment(batchType, source[order[i]]) > maxBatchSize)
    ensures InRange(|source|, order[i..]) && InRange(|source|, order[i + 1..])
    ensures InRange(|source|, current + [order[i]])
    ensures MakeBatch(source, target, current + [order[i]])
            == Batch(Gather(source, current) + [source[order[i]]], Gather(target, current) + [target[order[i]]],
                     current + [order[i]])
    ensures Pending(source, target, maxBatchSize, batchType, order[i..], current, currentCost)
            == Pending(source, target, maxBatchSize, batchType, order[i + 1..], current + [order[i]],
                       currentCost + Increment(batchType, source[order[i]]))
  {
    var x := order[i];
    GatherSnoc(source, current, x);
    GatherSnoc(target, current, x);
    assert order[i..][0] == x && order[i..][1..] == order[i + 1..];
  }

  /** At the end of the input, only the current batch is still to come, if it holds anything. */
  lemma LastStep(source: seq<TokenSeq>, target: seq<TokenSeq>, maxBatchSize: nat, batchType: BatchType,
                 order: seq<nat>, current: seq<nat>, currentCost: nat)
    requires |source| == |target| && InRange(|source|, order) && InRange(|source|, current)
    requires order == []
    ensures Pending(source, target, maxBatchSize, batchType, order, current, currentCost)
            == if current == [] then [] else [MakeBatch(source, target, current)]
  {
    if current != [] {
      MakeBatchesCons(source, target, current, []);
    }
  }

  lemma MakeBatchesCons(source: seq<TokenSeq>, target: seq<TokenSeq>, g: seq<nat>, groups: seq<seq<nat>>)
    requires |source| == |target| && InRange(|source|, g)
    requires forall k :: 0 <= k < |groups| ==> InRange(|source|, groups[k])
    ensures MakeBatches(source, target, [g] + groups)
         == [MakeBatch(source, target, g)] + MakeBatches(source, target, groups)
  {
  }

  // ---------------------------------------------------------------------------
  // Properties of the plan

  lemma IndicesOfMakeBatches(source: seq<TokenSeq>, target: seq<TokenSeq>, groups: seq<seq<nat>>)
    requires |source| == |target|
    requires forall k :: 0 <= k < |groups| ==> InRange(|source|, groups[k])
    ensures IndicesOf(MakeBatches(source, target, groups)) == groups
  {
  }

  lemma SingleSorted(source: seq<TokenSeq>)
    requires |source| == 1
    ensures SortByLength(source, [0]) == [0]
  {
    assert [0][1..] == [];
    assert SortByLength(source, []) == [];
  }

  lemma SingleGroup(source: seq<TokenSeq>, maxBatchSize: nat, batchType: BatchType)
    requires |source| == 1
    ensures Group(source, maxBatchSize, batchType, [0], [], 0) == [[0]]
  {
    var size := Increment(batchType, source[0]);
    assert [0][1..] == [];
    assert Group(source, maxBatchSize, batchType, [0], [], 0)
        == Group(source, maxBatchSize, batchType, [], [] + [0], size);
    assert [] + [0] == [0];
    assert Group(source, maxBatchSize, batchType, [], [0], size) == [[0]];
  }

  lemma SinglePlanIndices(source: seq<TokenSeq>, maxBatchSize: nat, batchType: BatchType)
    requires |source| == 1
    ensures PlanIndices(source, maxBatchSize, batchType) == [[0]]
  {
    assert Iota(1) == [0];
    if maxBatchSize > 0 {
      SingleSorted(source);
      SingleGroup(source, maxBatchSize, batchType);
    }
  }

  /** A single example always travels alone, whatever the bound. */
  lemma SingleExample(source: seq<TokenSeq>, target: seq<TokenSeq>, maxBatchSize: nat, batchType: BatchType)
    requires |source| == 1 && |target| == 1
    ensures Plan(source, target, maxBatchSize, batchType) == [Batch(source, target, [0])]
  {
    SinglePlanIndices(source, maxBatchSize, batchType);
    GatherSingle(source);
    GatherSingle(target);
    assert MakeBatches(source, target, [[0]]) == [MakeBatch(source, target, [0])];
  }

  lemma GatherSingle(s: seq<TokenSeq>)
    requires |s| == 1
    ensures Gather(s, [0]) == s
  {
  }

  /** With max_batch_size 0 a non-empty input is forwarded as is: one batch, in input order. */
  lemma ForwardAsIs(source: seq<TokenSeq>, target: seq<TokenSeq>, batchType: BatchType)
    requires |source| == |target| && |source| > 0
    ensures Plan(source, target, 0, batchType) == [Batch(source, target, Iota(|source|))]
  {
    var n := |source|;
    assert Gather(source, Iota(n)) == source;
    assert Gather(target, Iota(n)) == target;
  }

  /** Every batch is non-empty and each of its entries is the input example it names. */
  lemma PlanWellFormed(source: seq<TokenSeq>, target: seq<TokenSeq>, maxBatchSize: nat, batchType: BatchType)
    requires |source| == |target|
    ensures var batches := Plan(source, target, maxBatchSize, batchType);
            forall k :: 0 <= k < |batches| ==>
              WellFormed(batches[k], source, target) && batches[k].exampleIndex != []
  {
  }

  /** The batches' example positions, read in sequence: the input order, or the order sorted by length. */
  lemma PlanFlatten(source: seq<TokenSeq>, target: seq<TokenSeq>, maxBatchSize: nat, batchType: BatchType)
    requires |source| == |target|
    ensures Flatten<nat>(IndicesOf(Plan(source, target, maxBatchSize, batchType)))
         == if maxBatchSize == 0 then Iota(|source|) else SortByLength(source, Iota(|source|))
  {
    var n := |source|;
    var groups := PlanIndices(source, maxBatchSize, batchType);
    IndicesOfMakeBatches(source, target, groups);
    if n == 0 {
      assert Iota(0) == [];
    } else if maxBatchSize == 0 {
      assert groups == [Iota(n)] && groups[1..] == [];
      assert Flatten<nat>(groups) == Iota(n) + Flatten<nat>(groups[1..]);
    } else {
      GroupFlatten(source, maxBatchSize, batchType, SortByLength(source, Iota(n)), [], 0);
    }
  }

  /** Read in sequence, the batches' example positions are a permutation of 0..n-1. */
  lemma PlanPartition(source: seq<TokenSeq>, target: seq<TokenSeq>, maxBatchSize: nat, batchType: BatchType)
    requires |source| == |target|
    ensures var flat := Flatten<nat>(IndicesOf(Plan(source, target, maxBatchSize, batchType)));
            && multiset(flat) == multiset(Iota(|source|))
            && Distinct(flat)
            && |flat| == |source|
            && forall i :: 0 <= i < |source| ==> i in flat
  {
    var n := |source|;
    var flat := Flatten<nat>(IndicesOf(Plan(source, target, maxBatchSize, batchType)));
    PlanFlatten(source, target, maxBatchSize, batchType);
    assert Distinct(Iota(n));
    if maxBatchSize != 0 {
      SortSorted(source, Iota(n));
      SortedDistinct(source, flat);
    }
    assert |multiset(flat)| == |flat|;
    forall i | 0 <= i < n ensures i in flat {
      IotaMembers(flat, n, i);
    }
  }

  /**
   * With a positive max_batch_size every batch stays within the budget (examples or
   * source tokens) unless it is one example that exceeds the budget on its own.
   */
  lemma PlanWithinBudget(source: seq<TokenSeq>, target: seq<TokenSeq>, maxBatchSize: nat, batchType: BatchType)
    requires |source| == |target| && maxBatchSize > 0
    ensures var batches := Plan(source, target, maxBatchSize, batchType);
            forall k :: 0 <= k < |batches| ==> WithinBudget(maxBatchSize, batchType, batches[k].source)
    ensures batchType == Examples ==>
            var batches := Plan(source, target, maxBatchSize, batchType);
            forall k :: 0 <= k < |batches| ==> |batches[k].source| <= maxBatchSize
  {
    var n := |source|;
    var groups := PlanIndices(source, maxBatchSize, batchType);
    var batches := Plan(source, target, maxBatchSize, batchType);
    if n > 0 {
      var order := SortByLength(source, Iota(n));
      assert Gather(source, []) == [];
      GroupWithinBudget(source, maxBatchSize, batchType, order, [], 0);
      assert AllWithinBudget(source, maxBatchSize, batchType, groups);
      forall k | 0 <= k < |batches| ensures WithinBudget(maxBatchSize, batchType, batches[k].source) {
        assert batches[k].source == Gather(source, groups[k]);
      }
      if batchType == Examples {
        forall k | 0 <= k < |batches| ensures |batches[k].source| <= maxBatchSize {
          ExampleCost(batches[k].source);
        }
      }
    }
  }

  /** Batch k was closed because the first example of batch k + 1 would not fit in it. */
  predicate BatchClosedAt(maxBatchSize: nat, batchType: BatchType, batches: seq<Batch>, k: nat)
    requires k + 1 < |batches|
  {
    batches[k + 1].source != [] &&
    BatchCost(batchType, batches[k].source) + Increment(batchType, batches[k + 1].source[0]) > maxBatchSize
  }

  /**
   * With a positive max_batch_size, a batch is only closed when the first example of the next
   * batch would have taken it over the bound.
   */
  lemma PlanClosedWhenFull(source: seq<TokenSeq>, target: seq<TokenSeq>, maxBatchSize: nat, batchType: BatchType)
    requires |source| == |target| && maxBatchSize > 0
    ensures var batches := Plan(source, target, maxBatchSize, batchType);
            forall k: nat :: k + 1 < |batches| ==> BatchClosedAt(maxBatchSize, batchType, batches, k)
  {
    var n := |source|;
    var groups := PlanIndices(source, maxBatchSize, batchType);
    var batches := Plan(source, target, maxBatchSize, batchType);
    if n > 0 {
      var order := SortByLength(source, Iota(n));
      assert Gather(source, []) == [];
      GroupClosedWhenFull(source, maxBatchSize, batchType, order, [], 0);
      assert ClosedWhenFull(source, maxBatchSize, batchType, groups);
      forall k: nat | k + 1 < |batches| ensures BatchClosedAt(maxBatchSize, batchType, batches, k) {
        assert ClosedAt(source, maxBatchSize, batchType, groups, k);
        assert batches[k].source == Gather(source, groups[k]);
        assert batches[k + 1].source == Gather(source, groups[k + 1]);
      }
    }
  }

  /** Counted in examples, every batch but the last holds exactly max_batch_size examples. */
  lemma PlanFullBatches(source: seq<TokenSeq>, target: seq<TokenSeq>, maxBatchSize: nat)
    requires |source| == |target| && maxBatchSize > 0
    ensures var batches := Plan(source, target, maxBatchSize, Examples);
            forall k: nat :: k + 1 < |batches| ==> |batches[k].source| == maxBatchSize
  {
    var batches := Plan(source, target, maxBatchSize, Examples);
    PlanWithinBudget(source, target, maxBatchSize, Examples);
    PlanClosedWhenFull(source, target, maxBatchSize, Examples);
    forall k: nat | k + 1 < |batches| ensures |batches[k].source| == maxBatchSize {
      assert BatchClosedAt(maxBatchSize, Examples, batches, k);
      ExampleCost(batches[k].source);
    }
  }


  /**
   * With a positive max_batch_size, reading the batches in sequence gives the examples by
   * non-decreasing source length, examples of equal length in input order.
   */
  lemma PlanSortedByLength(source: seq<TokenSeq>, target: seq<TokenSeq>, maxBatchSize: nat, batchType: BatchType)
    requires |source| == |target| && maxBatchSize > 0
    ensures InRange(|source|, Flatten<nat>(IndicesOf(Plan(source, target, maxBatchSize, batchType))))
    ensures SortedByLength(source, Flatten<nat>(IndicesOf(Plan(source, target, maxBatchSize, batchType))))
  {
    PlanFlatten(source, target, maxBatchSize, batchType);
    assert Distinct(Iota(|source|));
    SortSorted(source, Iota(|source|));
  }

  /** Source sequences of lengths 3, 7, 3 and 5. */
  function ExampleSource(a: string): seq<TokenSeq>
  {
    [[a, a, a], [a, a, a, a, a, a, a], [a, a, a], [a, a, a, a, a]]
  }

  lemma ExampleSortedTail(a: string)
    ensures SortByLength(ExampleSource(a), [2, 3]) == [2, 3]
  {
    var source := ExampleSource(a);
    assert [2, 3][1..] == [3] && [3][1..] == [];
    assert SortByLength(source, [3]) == [3];
    assert Insert(source, 2, [3]) == [2, 3];
  }

  lemma ExampleInsertLong(a: string)
    ensures Insert(ExampleSource(a), 1, [2, 3]) == [2, 3, 1]
  {
    var source := ExampleSource(a);
    assert [2, 3][1..] == [3] && [3][1..] == [];
    assert Insert(source, 1, []) == [1];
    assert Insert(source, 1, [3]) == [3, 1];
  }

  lemma ExampleSortedMid(a: string)
    ensures SortByLength(ExampleSource(a), [1, 2, 3]) == [2, 3, 1]
  {
    ExampleSortedTail(a);
    ExampleInsertLong(a);
    assert [1, 2, 3][1..] == [2, 3];
  }

  lemma ExampleInsertFirst(a: string)
    ensures Insert(ExampleSource(a), 0, [2, 3, 1]) == [0, 2, 3, 1]
  {
    assert Before(ExampleSource(a), 0, 2);
  }

  lemma ExampleSorted(a: string)
    ensures SortByLength(ExampleSource(a), [0, 1, 2, 3]) == [0, 2, 3, 1]
  {
    ExampleSortedMid(a);
    ExampleInsertFirst(a);
    assert [0, 1, 2, 3][1..] == [1, 2, 3];
  }

  lemma IotaFour()
    ensures Iota(4) == [0, 1, 2, 3]
  {
    assert Iota(0) == [];
    assert Iota(1) == [0];
    assert Iota(2) == [0, 1];
    assert Iota(3) == [0, 1, 2];
  }

  lemma ExampleGroupsTail(a: string)
    ensures Group(ExampleSource(a), 2, Examples, [3, 1], [0, 2], 2) == [[0, 2], [3, 1]]
  {
    var source := ExampleSource(a);
    assert [3, 1][1..] == [1] && [1][1..] == [];
    assert Group(source, 2, Examples, [], [3, 1], 2) == [[3, 1]];
    assert [3] + [1] == [3, 1];
    assert Group(source, 2, Examples, [1], [3], 1) == [[3, 1]];
  }

  lemma ExampleGroups(a: string)
    ensures Group(ExampleSource(a), 2, Examples, [0, 2, 3, 1], [], 0) == [[0, 2], [3, 1]]
  {
    var source := ExampleSource(a);
    ExampleGroupsTail(a);
    assert [0, 2, 3, 1][1..] == [2, 3, 1] && [2, 3, 1][1..] == [3, 1];
    assert [] + [0] == [0] && [0] + [2] == [0, 2];
    assert Group(source, 2, Examples, [2, 3, 1], [0], 1) == [[0, 2], [3, 1]];
  }

  /**
   * Inputs of source lengths 3, 7, 3, 5 in batches of two examples: sorted by length they
   * are examples 0, 2, 3, 1, which form the batches [0, 2] and [3, 1].
   */
  lemma LengthSortExample(a: string)
    ensures IndicesOf(Plan(ExampleSource(a), [[], [], [], []], 2, Examples)) == [[0, 2], [3, 1]]
  {
    IotaFour();
    ExampleSorted(a);
    ExampleGroups(a);
    assert PlanIndices(ExampleSource(a), 2, Examples) == [[0, 2], [3, 1]];
    IndicesOfMakeBatches(ExampleSource(a), [[], [], [], []], [[0, 2], [3, 1]]);
  }
}
