/** Component identifiers of the telemetry runtime: a component type plus an
    optional name, rendered as `type` or `type/name`.  Indexed identifiers
    (`otlp/0`, `traces/1`, `always_sample/3`) use the decimal rendering of a
    list position as their name. */
module ComponentIds {
  import opened Wrappers

  datatype ComponentId = ComponentId(kind: string, name: string)

  predicate IsDigit(c: char) { '0' <= c <= '9' }

  function DigitChar(d: nat): (c: char)
    requires d < 10
    ensures IsDigit(c) && DigitValue(c) == d
  {
    ('0' as int + d) as char
  }

  function DigitValue(c: char): nat
    requires IsDigit(c)
  {
    c as int - '0' as int
  }

  /** Canonical decimal rendering of a natural number (no leading zeros). */
  function Decimal(n: nat): (s: string)
    ensures |s| >= 1
    ensures forall i :: 0 <= i < |s| ==> IsDigit(s[i])
    ensures |s| > 1 ==> s[0] != '0'
  {
    if n < 10 then [DigitChar(n)] else Decimal(n / 10) + [DigitChar(n % 10)]
  }

  /** The value of a string of decimal digits. */
  function DigitsValue(s: string): nat
    requires forall i :: 0 <= i < |s| ==> IsDigit(s[i])
  {
    if s == [] then 0 else DigitsValue(s[..|s| - 1]) * 10 + DigitValue(s[|s| - 1])
  }

  /** Reading back a rendered index gives the index. */
  lemma {:induction false} DecimalRoundTrip(n: nat)
    ensures DigitsValue(Decimal(n)) == n
  {
    if n >= 10 {
      var s := Decimal(n);
      assert s[..|s| - 1] == Decimal(n / 10);
      DecimalRoundTrip(n / 10);
    }
  }

  lemma DecimalInjective(m: nat, n: nat)
    ensures Decimal(m) == Decimal(n) <==> m == n
  {
    DecimalRoundTrip(m);
    DecimalRoundTrip(n);
  }

  function Unindexed(kind: string): (id: ComponentId)
    ensures Render(id) == kind
  {
    ComponentId(kind, "")
  }

  /** The identifier of the element at position `i` of an ordered collection. */
  function Indexed(kind: string, i: nat): (id: ComponentId)
    ensures Render(id) == kind + "/" + Decimal(i)
  {
    ComponentId(kind, Decimal(i))
  }

  function Render(id: ComponentId): string {
    if id.name == "" then id.kind else id.kind + "/" + id.name
  }

  /** Position of the first `/` in `s`, or `|s|` when there is none. */
  function FirstSlash(s: string): (k: nat)
    ensures k <= |s|
    ensures forall i :: 0 <= i < k ==> s[i] != '/'
    ensures k < |s| ==> s[k] == '/'
    ensures k == |s| <==> '/' !in s
  {
    if s == [] then 0 else if s[0] == '/' then 0 else 1 + FirstSlash(s[1..])
  }

  /** Splits a rendered identifier at its first `/`. */
  function Parse(s: string): ComponentId {
    var k := FirstSlash(s);
    if k == |s| then ComponentId(s, "") else ComponentId(s[..k], s[k + 1..])
  }

  predicate WellFormedKind(kind: string) { '/' !in kind }

  lemma FirstSlashAfter(a: string, b: string)
    requires '/' !in a
    ensures FirstSlash(a + "/" + b) == |a|
  {
    var s := a + "/" + b;
    assert s[|a|] == '/';
    assert forall i :: 0 <= i < |a| ==> s[i] == a[i];
  }

  /** Rendering loses nothing as long as the type contains no `/`. */
  lemma ParseRender(id: ComponentId)
    requires WellFormedKind(id.kind)
    ensures Parse(Render(id)) == id
  {
    if id.name != "" {
      var s := id.kind + "/" + id.name;
      FirstSlashAfter(id.kind, id.name);
      assert s[..|id.kind|] == id.kind;
      assert s[|id.kind| + 1..] == id.name;
    }
  }

  lemma RenderInjective(a: ComponentId, b: ComponentId)
    requires WellFormedKind(a.kind) && WellFormedKind(b.kind)
    ensures Render(a) == Render(b) <==> a == b
  {
    ParseRender(a);
    ParseRender(b);
  }

  /** Two indexed identifiers render alike exactly when both their types and
      their positions agree. */
  lemma IndexedDistinct(k1: string, i: nat, k2: string, j: nat)
    requires WellFormedKind(k1) && WellFormedKind(k2)
    ensures Render(Indexed(k1, i)) == Render(Indexed(k2, j)) <==> k1 == k2 && i == j
  {
    RenderInjective(Indexed(k1, i), Indexed(k2, j));
    DecimalInjective(i, j);
  }

  /** The text after the last `/` of `s` (all of `s` when it has none). */
  function AfterLastSlash(s: string): string {
    if s == [] then []
    else if s[|s| - 1] == '/' then []
    else AfterLastSlash(s[..|s| - 1]) + [s[|s| - 1]]
  }

  lemma {:induction false} AfterSlash(kind: string, name: string)
    requires '/' !in name
    ensures AfterLastSlash(kind + "/" + name) == name
  {
    var s := kind + "/" + name;
    if name != [] {
      var front := name[..|name| - 1];
      assert s[..|s| - 1] == kind + "/" + front;
      AfterSlash(kind, front);
      assert name == front + [name[|name| - 1]];
    }
  }

  /** The position can be read back from an indexed identifier whatever its
      type, so identifiers at different positions never render alike. */
  lemma IndexOfRendered(kind: string, i: nat)
    ensures AfterLastSlash(Render(Indexed(kind, i))) == Decimal(i)
    ensures DigitsValue(AfterLastSlash(Render(Indexed(kind, i)))) == i
  {
    var d := Decimal(i);
    assert forall k :: 0 <= k < |d| ==> d[k] != '/';
    AfterSlash(kind, d);
    DecimalRoundTrip(i);
  }

  lemma PositionsDistinct(k1: string, i: nat, k2: string, j: nat)
    requires i != j
    ensures Render(Indexed(k1, i)) != Render(Indexed(k2, j))
  {
    IndexOfRendered(k1, i);
    IndexOfRendered(k2, j);
  }
}
