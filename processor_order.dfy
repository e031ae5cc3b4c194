/** The processor ordering engine: the configured processors are put in the
    fixed precedence
      attributes < spanmetrics < tail_sampling < automatic_logging < batch
    and, when the pipeline is split for load-balanced tail sampling, cut into
    two groups just before tail_sampling. */
module ProcessorOrder {

  datatype Kind = Attributes | SpanMetrics | TailSampling | AutomaticLogging | Batch

  /** The processor's type as it appears in component identifiers. */
  function Name(k: Kind): string {
    match k
    case Attributes => "attributes"
    case SpanMetrics => "spanmetrics"
    case TailSampling => "tail_sampling"
    case AutomaticLogging => "automatic_logging"
    case Batch => "batch"
  }

  lemma NameInjective(j: Kind, k: Kind)
    ensures Name(j) == Name(k) <==> j == k
  {
  }

  /** Position of a kind in the precedence. */
  function Rank(k: Kind): nat {
    match k
    case Attributes => 0
    case SpanMetrics => 1
    case TailSampling => 2
    case AutomaticLogging => 3
    case Batch => 4
  }

  /** The processors that run after the load-balancing hop. */
  predicate SecondStage(k: Kind) { Rank(k) >= Rank(TailSampling) }

  /** Each processor's rank is at most its successor's. */
  predicate Ordered(s: seq<Kind>) {
    forall i :: 0 < i < |s| ==> Rank(s[i - 1]) <= Rank(s[i])
  }

  /** Strict precedence order, hence no kind twice. */
  predicate StrictlyOrdered(s: seq<Kind>) {
    forall i :: 0 < i < |s| ==> Rank(s[i - 1]) < Rank(s[i])
  }

  predicate Distinct(s: seq<Kind>) {
    forall i, j :: 0 <= i < j < |s| ==> s[i] != s[j]
  }

  function Insert(k: Kind, s: seq<Kind>): seq<Kind> {
    if s == [] then [k]
    else if Rank(k) <= Rank(s[0]) then [k] + s
    else [s[0]] + Insert(k, s[1..])
  }

  /** Inserting adds exactly one `k`. */
  lemma {:induction false} InsertMultiset(k: Kind, s: seq<Kind>)
    ensures multiset(Insert(k, s)) == multiset(s) + multiset{k}
  {
    if s != [] && Rank(k) > Rank(s[0]) {
      InsertMultiset(k, s[1..]);
      assert s == [s[0]] + s[1..];
    }
  }

  /** The inserted element or the old head comes first. */
  lemma InsertHead(k: Kind, s: seq<Kind>)
    ensures Insert(k, s) != []
    ensures Insert(k, s)[0] == k || (s != [] && Insert(k, s)[0] == s[0])
  {
  }

  /** Inserting into an ordered sequence keeps it ordered. */
  lemma {:induction false} InsertOrdered(k: Kind, s: seq<Kind>)
    requires Ordered(s)
    ensures Ordered(Insert(k, s))
  {
    if s != [] && Rank(k) > Rank(s[0]) {
      var t := s[1..];
      assert Ordered(t);
      InsertOrdered(k, t);
      InsertHead(k, t);
      var r := Insert(k, s);
      assert r == [s[0]] + Insert(k, t);
      forall i | 0 < i < |r| ensures Rank(r[i - 1]) <= Rank(r[i]) {
        if i > 1 {
          assert r[i - 1] == Insert(k, t)[i - 2] && r[i] == Insert(k, t)[i - 1];
        }
      }
    }
  }

  /** The processors sorted into precedence order (a stable insertion sort). */
  function SortByRank(s: seq<Kind>): seq<Kind> {
    if s == [] then [] else Insert(s[0], SortByRank(s[1..]))
  }

  /** Sorting yields an ordered rearrangement of its input. */
  lemma {:induction false} SortByRankSpec(s: seq<Kind>)
    ensures Ordered(SortByRank(s)) && multiset(SortByRank(s)) == multiset(s)
  {
    if s != [] {
      SortByRankSpec(s[1..]);
      InsertMultiset(s[0], SortByRank(s[1..]));
      InsertOrdered(s[0], SortByRank(s[1..]));
      assert s == [s[0]] + s[1..];
    }
  }

  lemma {:induction false} OrderedRanks(s: seq<Kind>, i: nat, j: nat)
    requires Ordered(s) && i <= j < |s|
    ensures Rank(s[i]) <= Rank(s[j])
  {
    if i < j {
      OrderedRanks(s, i, j - 1);
    }
  }

  /** Index of the first second-stage processor, or `|s|` when there is none. */
  function SplitPoint(s: seq<Kind>): (k: nat)
    ensures k <= |s|
    ensures forall i :: 0 <= i < k ==> !SecondStage(s[i])
    ensures k < |s| ==> SecondStage(s[k])
  {
    if s == [] then 0 else if SecondStage(s[0]) then 0 else 1 + SplitPoint(s[1..])
  }

  /** Cutting an ordered sequence at its split point leaves two ordered
      parts, the second made of second-stage processors only. */
  lemma CutOrdered(s: seq<Kind>, k: nat)
    requires Ordered(s) && k == SplitPoint(s)
    ensures Ordered(s[..k]) && Ordered(s[k..])
    ensures multiset(s[..k] + s[k..]) == multiset(s)
    ensures forall i :: 0 <= i < |s[..k]| ==> !SecondStage(s[..k][i])
    ensures forall i :: 0 <= i < |s[k..]| ==> SecondStage(s[k..][i])
  {
    assert s == s[..k] + s[k..];
    forall i | 0 <= i < |s[k..]| ensures SecondStage(s[k..][i]) {
      OrderedRanks(s, k, k + i);
    }
  }

  /** orderProcessors: one group in precedence order, or two groups cut
      before tail_sampling when `split` is set. */
  function OrderProcessors(processors: seq<Kind>, split: bool): (groups: seq<seq<Kind>>)
    ensures !split ==> |groups| == 1
    ensures split ==> |groups| == 2
    ensures Ordered(groups[0]) && (split ==> Ordered(groups[1]))
    ensures (if split then multiset(groups[0] + groups[1]) else multiset(groups[0]))
         == multiset(processors)
    ensures split ==> forall i :: 0 <= i < |groups[0]| ==> !SecondStage(groups[0][i])
    ensures split ==> forall i :: 0 <= i < |groups[1]| ==> SecondStage(groups[1][i])
  {
    var sorted := SortByRank(processors);
    SortByRankSpec(processors);
    if !split then [sorted]
    else
      var k := SplitPoint(sorted);
      CutOrdered(sorted, k);
      [sorted[..k], sorted[k..]]
  }

  lemma RankInjective(j: Kind, k: Kind)
    ensures Rank(j) == Rank(k) ==> j == k
  {
  }

  lemma HeadIsLeast(x: seq<Kind>, k: Kind)
    requires Ordered(x) && k in multiset(x)
    ensures Rank(x[0]) <= Rank(k)
  {
    assert k in x;
    var i :| 0 <= i < |x| && x[i] == k;
    OrderedRanks(x, 0, i);
  }

  lemma TailMultiset(x: seq<Kind>)
    requires x != []
    ensures multiset(x[1..]) == multiset(x) - multiset{x[0]}
  {
    assert x == [x[0]] + x[1..];
  }

  lemma OrderedTail(x: seq<Kind>)
    requires Ordered(x) && x != []
    ensures Ordered(x[1..])
  {
    forall i | 0 < i < |x[1..]| ensures Rank(x[1..][i - 1]) <= Rank(x[1..][i]) {
      assert x[1..][i - 1] == x[i] && x[1..][i] == x[i + 1];
    }
  }

  /** Two ordered sequences with the same elements start alike. */
  lemma SameHead(x: seq<Kind>, y: seq<Kind>)
    requires Ordered(x) && Ordered(y) && multiset(x) == multiset(y) && x != []
    ensures y != [] && x[0] == y[0]
  {
    assert x[0] in multiset(x);
    assert y != [];
    assert y[0] in multiset(y);
    HeadIsLeast(x, y[0]);
    HeadIsLeast(y, x[0]);
    RankInjective(x[0], y[0]);
  }

  /** Sequences in precedence order with the same elements are equal: the
      precedence decides the order completely. */
  lemma {:induction false} OrderedUnique(x: seq<Kind>, y: seq<Kind>)
    requires Ordered(x) && Ordered(y) && multiset(x) == multiset(y)
    ensures x == y
  {
    if x == [] {
      assert |y| == |multiset(y)|;
    } else {
      SameHead(x, y);
      TailMultiset(x);
      TailMultiset(y);
      OrderedTail(x);
      OrderedTail(y);
      OrderedUnique(x[1..], y[1..]);
      assert x == [x[0]] + x[1..] && y == [y[0]] + y[1..];
    }
  }

  /** The result does not depend on the order the processors were declared in. */
  lemma PermutationInvariant(a: seq<Kind>, b: seq<Kind>, split: bool)
    requires multiset(a) == multiset(b)
    ensures OrderProcessors(a, split) == OrderProcessors(b, split)
  {
    SortByRankSpec(a);
    SortByRankSpec(b);
    OrderedUnique(SortByRank(a), SortByRank(b));
  }

  lemma OrderedDistinctIsStrict(s: seq<Kind>)
    requires Ordered(s) && Distinct(s)
    ensures StrictlyOrdered(s)
  {
    forall i | 0 < i < |s| ensures Rank(s[i - 1]) < Rank(s[i]) {
      assert s[i - 1] != s[i];
    }
  }

  lemma MultisetMembers(a: seq<Kind>, b: seq<Kind>)
    requires multiset(a) == multiset(b)
    ensures forall k :: k in a <==> k in b
  {
    forall k ensures k in a <==> k in b {
      assert k in a <==> k in multiset(a);
      assert k in b <==> k in multiset(b);
    }
  }

  lemma {:induction false} DistinctCount(s: seq<Kind>, k: Kind)
    requires Distinct(s)
    ensures multiset(s)[k] <= 1
  {
    if s != [] {
      assert s == [s[0]] + s[1..];
      DistinctCount(s[1..], k);
      if s[0] == k {
        assert k !in s[1..];
      }
    }
  }

  lemma CountDistinct(s: seq<Kind>)
    requires forall k :: multiset(s)[k] <= 1
    ensures Distinct(s)
  {
    forall i, j | 0 <= i < j < |s| ensures s[i] != s[j] {
      assert s == s[..j] + s[j..];
      assert s[..j][i] == s[i] && s[j..][0] == s[j];
      assert multiset(s) == multiset(s[..j]) + multiset(s[j..]);
      assert multiset(s[..j])[s[i]] >= 1 && multiset(s[j..])[s[j]] >= 1;
      assert multiset(s)[s[i]] == multiset(s[..j])[s[i]] + multiset(s[j..])[s[i]];
    }
  }

  /** Without split: exactly the configured processors, each once, in the
      fixed precedence, whatever order they were given in. */
  lemma SingleGroup(processors: seq<Kind>)
    requires Distinct(processors)
    ensures var groups := OrderProcessors(processors, false);
      |groups| == 1 && StrictlyOrdered(groups[0]) &&
      forall k :: k in groups[0] <==> k in processors
  {
    var r := OrderProcessors(processors, false)[0];
    MultisetMembers(r, processors);
    forall k ensures multiset(r)[k] <= 1 { DistinctCount(processors, k); }
    CountDistinct(r);
    OrderedDistinctIsStrict(r);
  }

  lemma SplitMembers(w: seq<Kind>, cut: nat)
    requires cut <= |w|
    requires forall i :: 0 <= i < cut ==> !SecondStage(w[i])
    requires forall i :: cut <= i < |w| ==> SecondStage(w[i])
    ensures forall k :: k in w[..cut] <==> k in w && !SecondStage(k)
    ensures forall k :: k in w[cut..] <==> k in w && SecondStage(k)
  {
    assert w == w[..cut] + w[cut..];
  }

  lemma StrictSlices(w: seq<Kind>, cut: nat)
    requires cut <= |w| && StrictlyOrdered(w)
    ensures StrictlyOrdered(w[..cut]) && StrictlyOrdered(w[cut..])
  {
  }

  /** With split, the two groups together are the unsplit order, and each
      is in strict precedence order. */
  lemma SplitGroups(processors: seq<Kind>)
    requires Distinct(processors)
    ensures var groups := OrderProcessors(processors, true);
      |groups| == 2 &&
      groups[0] + groups[1] == OrderProcessors(processors, false)[0] &&
      StrictlyOrdered(groups[0]) && StrictlyOrdered(groups[1])
  {
    var whole := SortByRank(processors);
    var cut := SplitPoint(whole);
    assert OrderProcessors(processors, true) == [whole[..cut], whole[cut..]];
    assert OrderProcessors(processors, false) == [whole];
    assert whole == whole[..cut] + whole[cut..];
    SingleGroup(processors);
    StrictSlices(whole, cut);
  }

  /** With split: the first group holds exactly the configured members of
      {attributes, spanmetrics}, the second exactly those of
      {tail_sampling, automatic_logging, batch}. */
  lemma SplitMembership(processors: seq<Kind>)
    ensures var groups := OrderProcessors(processors, true);
      |groups| == 2 &&
      (forall k :: k in groups[0] <==> k in processors && !SecondStage(k)) &&
      (forall k :: k in groups[1] <==> k in processors && SecondStage(k))
  {
    var whole := SortByRank(processors);
    SortByRankSpec(processors);
    var cut := SplitPoint(whole);
    assert OrderProcessors(processors, true) == [whole[..cut], whole[cut..]];
    MultisetMembers(whole, processors);
    SplitMembers(whole, cut);
  }

  /** The declared orders of the ordering table, sorted step by step. */
  lemma SortedTableInputs()
    ensures SortByRank([Batch, TailSampling, AutomaticLogging]) == [TailSampling, AutomaticLogging, Batch]
    ensures SortByRank([SpanMetrics, Batch, TailSampling, Attributes, AutomaticLogging])
         == [Attributes, SpanMetrics, TailSampling, AutomaticLogging, Batch]
    ensures SortByRank([SpanMetrics, Attributes]) == [Attributes, SpanMetrics]
  {
    assert Insert(Batch, [AutomaticLogging]) == [AutomaticLogging, Batch];
    assert SortByRank([TailSampling, AutomaticLogging]) == [TailSampling, AutomaticLogging];
    assert Insert(Batch, [TailSampling, AutomaticLogging]) == [TailSampling, AutomaticLogging, Batch];
    assert SortByRank([Attributes, AutomaticLogging]) == [Attributes, AutomaticLogging];
    assert Insert(TailSampling, [AutomaticLogging]) == [TailSampling, AutomaticLogging];
    assert Insert(TailSampling, [Attributes, AutomaticLogging]) == [Attributes, TailSampling, AutomaticLogging];
    assert SortByRank([TailSampling, Attributes, AutomaticLogging]) == [Attributes, TailSampling, AutomaticLogging];
    assert Insert(Batch, [Attributes, TailSampling, AutomaticLogging])
        == [Attributes, TailSampling, AutomaticLogging, Batch];
    assert SortByRank([Batch, TailSampling, Attributes, AutomaticLogging])
        == [Attributes, TailSampling, AutomaticLogging, Batch];
    assert Insert(SpanMetrics, [Attributes, TailSampling, AutomaticLogging, Batch])
        == [Attributes, SpanMetrics, TailSampling, AutomaticLogging, Batch];
    assert SortByRank([Attributes]) == [Attributes];
    assert Insert(SpanMetrics, [Attributes]) == [Attributes, SpanMetrics];
  }

  /** The unsplit cases of the ordering table. */
  lemma OrderingTableSingle()
    ensures OrderProcessors([], false) == [[]]
    ensures OrderProcessors([TailSampling], false) == [[TailSampling]]
    ensures OrderProcessors([Batch, TailSampling, AutomaticLogging], false)
         == [[TailSampling, AutomaticLogging, Batch]]
    ensures OrderProcessors([SpanMetrics, Batch, TailSampling, Attributes, AutomaticLogging], false)
         == [[Attributes, SpanMetrics, TailSampling, AutomaticLogging, Batch]]
  {
    SortedTableInputs();
  }

  /** The split cases of the ordering table with no processors or all of them. */
  lemma OrderingTableSplitAll()
    ensures OrderProcessors([], true) == [[], []]
    ensures OrderProcessors([SpanMetrics, Batch, TailSampling, Attributes, AutomaticLogging], true)
         == [[Attributes, SpanMetrics], [TailSampling, AutomaticLogging, Batch]]
  {
    SortedTableInputs();
    var want := [Attributes, SpanMetrics, TailSampling, AutomaticLogging, Batch];
    assert SplitPoint(want) == 2 by {
      assert want[1..][1..] == want[2..];
    }
    assert want[..2] == [Attributes, SpanMetrics] && want[2..] == [TailSampling, AutomaticLogging, Batch];
  }

  /** The split cases of the ordering table where one group is empty. */
  lemma OrderingTableSplitOneSided()
    ensures OrderProcessors([Batch, TailSampling, AutomaticLogging], true)
         == [[], [TailSampling, AutomaticLogging, Batch]]
    ensures OrderProcessors([SpanMetrics, Attributes], true) == [[Attributes, SpanMetrics], []]
  {
    SortedTableInputs();
    var two := [Attributes, SpanMetrics];
    assert SplitPoint(two) == 2 by {
      assert two[1..][1..] == [];
    }
    assert two[..2] == two && two[2..] == [];
    var three := [TailSampling, AutomaticLogging, Batch];
    assert SplitPoint(three) == 0;
    assert three[..0] == [] && three[0..] == three;
  }
}
