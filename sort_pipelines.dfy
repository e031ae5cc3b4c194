/** The test helper that puts the `traces` pipeline's receivers and
    exporters into a canonical order before two configurations are compared:
    each list is sorted in place, in descending order of the identifiers'
    rendered strings. */
module SortPipelines {
  import opened ComponentIds
  import opened Assembler

  /** Strict lexicographic order on strings, character by character, a
      proper prefix coming first. */
  predicate Below(a: string, b: string) {
    if |a| == 0 then |b| > 0
    else |b| > 0 && (a[0] < b[0] || (a[0] == b[0] && Below(a[1..], b[1..])))
  }

  /** The textbook definition of the order: `a` is a proper prefix of `b`,
      or the two agree up to a position where `a` has the smaller character. */
  predicate Lexicographic(a: string, b: string) {
    (|a| < |b| && a == b[..|a|]) ||
    (exists k :: 0 <= k < |a| && k < |b| && a[..k] == b[..k] && a[k] < b[k])
  }

  /** The recursive order is the textbook one. */
  lemma BelowSpec(a: string, b: string)
    ensures Below(a, b) <==> Lexicographic(a, b)
  {
    if Below(a, b) {
      BelowSound(a, b);
    }
    if Lexicographic(a, b) {
      BelowComplete(a, b);
    }
  }

  lemma {:induction false} BelowSound(a: string, b: string)
    requires Below(a, b)
    ensures Lexicographic(a, b)
  {
    if |a| == 0 {
    } else if a[0] < b[0] {
      assert a[..0] == b[..0];
    } else {
      BelowSound(a[1..], b[1..]);
      if |a[1..]| < |b[1..]| && a[1..] == b[1..][..|a[1..]|] {
        assert a == [a[0]] + a[1..] && b[..|a|] == [b[0]] + b[1..][..|a[1..]|];
      } else {
        var k :| 0 <= k < |a[1..]| && k < |b[1..]| && a[1..][..k] == b[1..][..k] && a[1..][k] < b[1..][k];
        assert a[..k + 1] == [a[0]] + a[1..][..k] && b[..k + 1] == [b[0]] + b[1..][..k];
        assert a[k + 1] < b[k + 1];
      }
    }
  }

  lemma {:induction false} BelowComplete(a: string, b: string)
    requires Lexicographic(a, b)
    ensures Below(a, b)
  {
    if |a| == 0 {
    } else if a[0] != b[0] {
      if a[0] > b[0] {
        var k :| 0 <= k < |a| && k < |b| && a[..k] == b[..k] && a[k] < b[k];
        assert false;
      }
    } else {
      if |a| < |b| && a == b[..|a|] {
        assert a[1..] == b[1..][..|a[1..]|];
      } else {
        var k :| 0 <= k < |a| && k < |b| && a[..k] == b[..k] && a[k] < b[k];
        assert k > 0;
        assert a[1..][..k - 1] == a[..k][1..] == b[..k][1..] == b[1..][..k - 1];
        assert a[1..][k - 1] < b[1..][k - 1];
      }
      BelowComplete(a[1..], b[1..]);
    }
  }

  lemma {:induction false} BelowIrreflexive(a: string)
    ensures !Below(a, a)
  {
    if |a| > 0 {
      BelowIrreflexive(a[1..]);
    }
  }

  lemma {:induction false} BelowAsymmetric(a: string, b: string)
    ensures Below(a, b) ==> !Below(b, a)
  {
    if |a| > 0 && |b| > 0 && a[0] == b[0] {
      BelowAsymmetric(a[1..], b[1..]);
    }
  }

  lemma {:induction false} BelowTransitive(a: string, b: string, c: string)
    requires Below(a, b) && Below(b, c)
    ensures Below(a, c)
  {
    if |a| > 0 && a[0] == b[0] && b[0] == c[0] {
      BelowTransitive(a[1..], b[1..], c[1..]);
    }
  }

  /** Two different strings are always ordered one way or the other. */
  lemma {:induction false} BelowTotal(a: string, b: string)
    ensures a == b || Below(a, b) || Below(b, a)
  {
    if |a| > 0 && |b| > 0 && a[0] == b[0] {
      BelowTotal(a[1..], b[1..]);
      if a[1..] == b[1..] {
        assert a == [a[0]] + a[1..] && b == [b[0]] + b[1..];
      }
    }
  }

  /** `x` may stand before `y` in descending order of rendered strings. */
  predicate NotBelow(x: ComponentId, y: ComponentId) {
    !Below(Render(x), Render(y))
  }

  lemma NotBelowTransitive(x: ComponentId, y: ComponentId, z: ComponentId)
    requires NotBelow(x, y) && NotBelow(y, z)
    ensures NotBelow(x, z)
  {
    BelowTotal(Render(x), Render(y));
    if Below(Render(x), Render(z)) {
      if Render(x) != Render(y) {
        BelowTransitive(Render(y), Render(x), Render(z));
      }
    }
  }

  /** The order the helper leaves a list in: no identifier renders below
      one that comes after it. */
  predicate Descending(s: seq<ComponentId>) {
    forall p, q :: 0 <= p < q < |s| ==> NotBelow(s[p], s[q])
  }

  /** The first element of a descending list sorts no later than any
      member of the list. */
  lemma HeadFirst(x: seq<ComponentId>, c: ComponentId)
    requires Descending(x) && c in multiset(x)
    ensures NotBelow(x[0], c)
  {
    var k :| 0 <= k < |x| && x[k] == c;
    if k == 0 {
      BelowIrreflexive(Render(c));
    }
  }

  /** Two descending lists with the same members start with the same
      element, when their kinds hold no `/`. */
  lemma LeadingEqual(x: seq<ComponentId>, y: seq<ComponentId>)
    requires |x| > 0 && forall i :: 0 <= i < |x| ==> WellFormedKind(x[i].kind)
    requires Descending(x) && Descending(y) && multiset(x) == multiset(y)
    ensures |y| > 0 && x[0] == y[0]
  {
    assert x[0] in multiset(y);
    assert |y| > 0;
    assert y[0] in multiset(x);
    assert WellFormedKind(y[0].kind) by {
      var m :| 0 <= m < |x| && x[m] == y[0];
    }
    HeadFirst(y, x[0]);
    HeadFirst(x, y[0]);
    BelowTotal(Render(x[0]), Render(y[0]));
    RenderInjective(x[0], y[0]);
  }

  lemma TailMembers(x: seq<ComponentId>, y: seq<ComponentId>)
    requires |x| > 0 && |y| > 0 && x[0] == y[0] && multiset(x) == multiset(y)
    ensures multiset(x[1..]) == multiset(y[1..])
  {
    assert x == [x[0]] + x[1..] && y == [y[0]] + y[1..];
    assert multiset(x[1..]) == multiset(x) - multiset{x[0]} == multiset(y[1..]);
  }

  lemma DescendingTail(x: seq<ComponentId>)
    requires |x| > 0 && Descending(x)
    ensures Descending(x[1..])
  {
    assert forall p, q :: 0 <= p < q < |x| - 1 ==> x[1..][p] == x[p + 1] && x[1..][q] == x[q + 1];
  }

  /** Sorting makes the comparison order-insensitive: two descending lists
      with the same members, whose kinds hold no `/`, are equal. */
  lemma {:induction false} DescendingUnique(x: seq<ComponentId>, y: seq<ComponentId>)
    requires forall i :: 0 <= i < |x| ==> WellFormedKind(x[i].kind)
    requires Descending(x) && Descending(y) && multiset(x) == multiset(y)
    ensures x == y
  {
    if |x| == 0 {
      assert |y| == |multiset(y)| == 0;
    } else {
      LeadingEqual(x, y);
      TailMembers(x, y);
      DescendingTail(x);
      DescendingTail(y);
      DescendingUnique(x[1..], y[1..]);
    }
  }

  /** Sorts `a` in place into descending order of rendered strings. */
  method SortDescending(a: array<ComponentId>)
    modifies a
    ensures Descending(a[..])
    ensures multiset(a[..]) == multiset(old(a[..]))
  {
    var i := 0;
    while i < a.Length
      invariant 0 <= i <= a.Length
      invariant forall p, q :: 0 <= p < q < i ==> NotBelow(a[p], a[q])
      invariant multiset(a[..]) == multiset(old(a[..]))
    {
      InsertAt(a, i);
      i := i + 1;
    }
  }

  /** The state of one insertion step: `s[j]` is the element being moved
      down; it sorts no later than what follows it up to `i`, and the rest of
      `s[..i + 1]` is descending. */
  predicate Inserting(s: seq<ComponentId>, i: nat, j: nat) {
    j <= i < |s| &&
    (forall p, q :: 0 <= p < q <= i && p != j && q != j ==> NotBelow(s[p], s[q])) &&
    (forall q :: j < q <= i ==> NotBelow(s[j], s[q]))
  }

  /** Swapping the moved element with a smaller predecessor keeps the state. */
  lemma InsertingSwap(s: seq<ComponentId>, i: nat, j: nat)
    requires Inserting(s, i, j) && 0 < j && Below(Render(s[j - 1]), Render(s[j]))
    ensures Inserting(s[j - 1 := s[j]][j := s[j - 1]], i, j - 1)
  {
    BelowAsymmetric(Render(s[j - 1]), Render(s[j]));
  }

  /** Once the predecessor is no smaller, the whole prefix is descending. */
  lemma InsertingDone(s: seq<ComponentId>, i: nat, j: nat)
    requires Inserting(s, i, j) && (j == 0 || !Below(Render(s[j - 1]), Render(s[j])))
    ensures forall p, q :: 0 <= p < q <= i ==> NotBelow(s[p], s[q])
  {
    forall p | 0 <= p < j
      ensures NotBelow(s[p], s[j])
    {
      if p < j - 1 {
        NotBelowTransitive(s[p], s[j - 1], s[j]);
      }
    }
  }

  /** One insertion step: moves `a[i]` down into the descending prefix
      `a[..i]`, leaving the elements after `i` where they were. */
  method InsertAt(a: array<ComponentId>, i: nat)
    requires i < a.Length
    requires forall p, q :: 0 <= p < q < i ==> NotBelow(a[p], a[q])
    modifies a
    ensures forall p, q :: 0 <= p < q <= i ==> NotBelow(a[p], a[q])
    ensures forall k :: i < k < a.Length ==> a[k] == old(a[k])
    ensures multiset(a[..]) == multiset(old(a[..]))
  {
    var j: nat := i;
    while j > 0 && Below(Render(a[j - 1]), Render(a[j]))
      invariant Inserting(a[..], i, j)
      invariant forall k :: i < k < a.Length ==> a[k] == old(a[k])
      invariant multiset(a[..]) == multiset(old(a[..]))
    {
      InsertingSwap(a[..], i, j);
      a[j - 1], a[j] := a[j], a[j - 1];
      j := j - 1;
    }
    InsertingDone(a[..], i, j);
  }

  /** A pipeline's component lists. */
  class PipelineConfig {
    var receivers: array<ComponentId>
    var exporters: array<ComponentId>

    constructor (receivers: array<ComponentId>, exporters: array<ComponentId>)
      ensures this.receivers == receivers && this.exporters == exporters
    {
      this.receivers := receivers;
      this.exporters := exporters;
    }
  }

  /** A compiled configuration's pipelines by name; a name may map to no
      pipeline at all. */
  class Config {
    var pipelines: map<string, PipelineConfig?>

    constructor (pipelines: map<string, PipelineConfig?>)
      ensures this.pipelines == pipelines
    {
      this.pipelines := pipelines;
    }
  }

  predicate HasTraces(cfg: Config)
    reads cfg
  {
    TracesKind in cfg.pipelines && cfg.pipelines[TracesKind] != null
  }

  /** The lists the helper may reorder: those of the `traces` pipeline,
      when there is one, and nothing otherwise. */
  function TraceLists(cfg: Config): set<object>
    reads cfg, if HasTraces(cfg) then {cfg.pipelines[TracesKind]} else {}
  {
    if HasTraces(cfg) then {cfg.pipelines[TracesKind].exporters, cfg.pipelines[TracesKind].receivers} else {}
  }

  /** Sorts the `traces` pipeline's exporters and receivers, each into
      descending order and each a permutation of its old contents. Without a
      `traces` pipeline nothing changes; the configuration, its map and every
      other pipeline are never written. */
  method SortTracePipeline(cfg: Config)
    modifies TraceLists(cfg)
    ensures HasTraces(cfg) ==>
      var p := cfg.pipelines[TracesKind];
      Descending(p.exporters[..]) && multiset(p.exporters[..]) == multiset(old(p.exporters[..])) &&
      Descending(p.receivers[..]) && multiset(p.receivers[..]) == multiset(old(p.receivers[..]))
  {
    if !HasTraces(cfg) {
      return;
    }
    var p := cfg.pipelines[TracesKind];
    SortDescending(p.exporters);
    SortDescending(p.receivers);
  }
}
