/** The shadow comparison of feed/shadow.go: answers compared as canonical text. */
module Shadow {
  import opened Bytes

  // ---------------------------------------------------------------- the printer

  function Digit(d: nat): char
    requires d < 10
  {
    ['0', '1', '2', '3', '4', '5', '6', '7', '8', '9'][d]
  }

  /** %d. */
  function Decimal(n: nat): (s: string)
    ensures s != []
  {
    if n < 10 then [Digit(n)] else Decimal(n / 10) + [Digit(n % 10)]
  }

  /** Comma-joined decimals. */
  function Join(v: seq<nat>): string
  {
    if v == [] then ""
    else if |v| == 1 then Decimal(v[0])
    else Join(v[..|v| - 1]) + "," + Decimal(v[|v| - 1])
  }

  predicate Sorted(v: seq<nat>)
  {
    forall i, j :: 0 <= i < j < |v| ==> v[i] <= v[j]
  }

  function Insert(x: nat, v: seq<nat>): (r: seq<nat>)
    ensures |r| == |v| + 1
    ensures forall y: nat {:trigger y in r} :: y in r <==> y == x || y in v
  {
    if v == [] || x <= v[0] then [x] + v
    else [v[0]] + Insert(x, v[1..])
  }

  lemma {:induction false} InsertCounts(x: nat, v: seq<nat>)
    ensures multiset(Insert(x, v)) == multiset(v) + multiset{x}
  {
    if v != [] && x > v[0] {
      InsertCounts(x, v[1..]);
      assert v == [v[0]] + v[1..];
    }
  }

  lemma {:induction false} InsertSorts(x: nat, v: seq<nat>)
    requires Sorted(v)
    ensures Sorted(Insert(x, v))
  {
    var r := Insert(x, v);
    if v != [] && x > v[0] {
      var t := Insert(x, v[1..]);
      InsertSorts(x, v[1..]);
      forall i | 0 <= i < |t|
        ensures v[0] <= t[i]
      {
        assert t[i] in t;
      }
      assert r == [v[0]] + t;
    }
  }

  /** sort.Slice. Any ascending sort gives this result (SortedUnique). */
  function Sort(v: seq<nat>): seq<nat>
  {
    if v == [] then [] else Insert(v[0], Sort(v[1..]))
  }

  lemma {:induction false} SortSorts(v: seq<nat>)
    ensures Sorted(Sort(v)) && multiset(Sort(v)) == multiset(v)
  {
    if v == [] {
    } else {
      SortSorts(v[1..]);
      InsertCounts(v[0], Sort(v[1..]));
      InsertSorts(v[0], Sort(v[1..]));
      assert v == [v[0]] + v[1..];
    }
  }

  /** canon: a sorted copy printed into a buffer. */
  method Canon(v: seq<nat>) returns (s: string)
    ensures s == Join(Sort(v))
  {
    if |v| == 0 {
      return "";
    }
    var c := Sort(v);
    s := "";
    for i := 0 to |c|
      invariant s == Join(c[..i])
    {
      if i > 0 {
        s := s + ",";
      }
      s := s + Decimal(c[i]);
      assert c[..i + 1][..i] == c[..i];
    }
    assert c[..|c|] == c;
  }

  // --------------------------------------------------------------- injectivity

  function Value(s: string): nat
  {
    if s == [] then 0 else 10 * Value(s[..|s| - 1]) + DigitValue(s[|s| - 1])
  }

  function DigitValue(c: char): nat
  {
    if '0' <= c <= '9' then (c as int) - ('0' as int) else 0
  }

  lemma {:induction false} DecimalValue(n: nat)
    ensures Value(Decimal(n)) == n
    ensures forall i :: 0 <= i < |Decimal(n)| ==> Decimal(n)[i] != ','
  {
    if n < 10 {
      assert Decimal(n)[..0] == [];
    } else {
      DecimalValue(n / 10);
      assert Decimal(n)[..|Decimal(n)| - 1] == Decimal(n / 10);
    }
  }

  /** %d prints digits only, and no leading zero. */
  lemma {:induction false} DecimalPlain(n: nat)
    ensures forall i :: 0 <= i < |Decimal(n)| ==> '0' <= Decimal(n)[i] <= '9'
    ensures |Decimal(n)| > 1 ==> Decimal(n)[0] != '0'
  {
    if n < 10 {
    } else {
      DecimalPlain(n / 10);
      if n / 10 < 10 {
        assert Decimal(n / 10) == [Digit(n / 10)];
      }
    }
  }

  predicate NoComma(s: string) { forall i :: 0 <= i < |s| ==> s[i] != ',' }

  /** Two texts equal up to the end agree on what follows their last comma. */
  lemma LastFieldUnique(a: string, x: string, b: string, y: string)
    requires NoComma(x) && NoComma(y) && a + "," + x == b + "," + y
    ensures a == b && x == y
  {
    LastCommaBound(a, x, b, y);
    LastCommaBound(b, y, a, x);
    var s := a + "," + x;
    assert s == b + "," + y;
    assert a == s[..|a|] == b;
    assert x == s[|a| + 1..] == y;
  }

  lemma LastCommaBound(a: string, x: string, b: string, y: string)
    requires NoComma(x) && a + "," + x == b + "," + y
    ensures |b| <= |a|
  {
    var s := a + "," + x;
    assert s[|b|] == (b + "," + y)[|b|] == ',';
    assert forall k :: |a| < k < |s| ==> s[k] == x[k - |a| - 1];
  }

  lemma LastFieldAlone(a: string, x: string, y: string)
    requires NoComma(y)
    ensures a + "," + x != y
  {
    assert (a + "," + x)[|a|] == ',';
  }

  lemma {:induction false} JoinInjective(v: seq<nat>, w: seq<nat>)
    requires Join(v) == Join(w)
    ensures v == w
    decreases |v|
  {
    if v == [] || w == [] {
      JoinEmpty(v);
      JoinEmpty(w);
    } else {
      var x, y := v[|v| - 1], w[|w| - 1];
      DecimalValue(x);
      DecimalValue(y);
      if |v| == 1 && |w| == 1 {
        assert v == [x] && w == [y];
      } else if |v| == 1 {
        LastFieldAlone(Join(w[..|w| - 1]), Decimal(y), Decimal(x));
      } else if |w| == 1 {
        LastFieldAlone(Join(v[..|v| - 1]), Decimal(x), Decimal(y));
      } else {
        LastFieldUnique(Join(v[..|v| - 1]), Decimal(x), Join(w[..|w| - 1]), Decimal(y));
        JoinInjective(v[..|v| - 1], w[..|w| - 1]);
        assert v == v[..|v| - 1] + [x] && w == w[..|w| - 1] + [y];
      }
    }
  }

  lemma JoinEmpty(v: seq<nat>)
    ensures Join(v) == "" <==> v == []
  {
  }

  lemma {:induction false} SortedUnique(a: seq<nat>, b: seq<nat>)
    requires Sorted(a) && Sorted(b) && multiset(a) == multiset(b)
    ensures a == b
    decreases |a|
  {
    if a == [] {
      assert |multiset(b)| == 0;
    } else {
      assert |multiset(a)| == |a| && |multiset(b)| == |b|;
      FirstIsLeast(a, b);
      FirstIsLeast(b, a);
      assert a == [a[0]] + a[1..] && b == [b[0]] + b[1..];
      assert multiset(a[1..]) == multiset(a) - multiset{a[0]};
      assert multiset(b[1..]) == multiset(b) - multiset{b[0]};
      SortedUnique(a[1..], b[1..]);
    }
  }

  lemma FirstIsLeast(a: seq<nat>, b: seq<nat>)
    requires a != [] && b != [] && Sorted(a) && multiset(a) == multiset(b)
    ensures a[0] <= b[0]
  {
    assert b[0] in multiset(b);
    assert b[0] in a;
  }

  /** The canonical texts agree exactly when the lists agree as multisets: the
      order is ignored, repeats are not. */
  lemma CanonExact(v: seq<nat>, w: seq<nat>)
    ensures Join(Sort(v)) == Join(Sort(w)) <==> multiset(v) == multiset(w)
    ensures Join(Sort(v)) == "" <==> v == []
  {
    SortSorts(v);
    SortSorts(w);
    if Join(Sort(v)) == Join(Sort(w)) {
      JoinInjective(Sort(v), Sort(w));
    }
    if multiset(v) == multiset(w) {
      SortedUnique(Sort(v), Sort(w));
    }
    JoinEmpty(Sort(v));
    assert |multiset(Sort(v))| == |Sort(v)| && |multiset(v)| == |v|;
  }

  // ------------------------------------------------------------- classification

  datatype Admittance = Admittance(outputs: seq<nat>, coins: seq<nat>)

  datatype Kind = Match | PrimaryOnly | ShadowOnly | Differ

  function Texts(a: Option<Admittance>): (string, string)
  {
    if a.None? then ("", "") else (Join(Sort(a.value.outputs)), Join(Sort(a.value.coins)))
  }

  function Classify(primary: Option<Admittance>, shadow: Option<Admittance>): Kind
  {
    var (po, pc) := Texts(primary);
    var (so, sc) := Texts(shadow);
    if po == so && pc == sc then Match
    else
      var pEmpty, sEmpty := po == "" && pc == "", so == "" && sc == "";
      if pEmpty && !sEmpty then ShadowOnly
      else if !pEmpty && sEmpty then PrimaryOnly
      else Differ
  }

  /** An engine that answered nothing admits and retains nothing. */
  function Admitted(a: Option<Admittance>): Admittance
  {
    if a.Some? then a.value else Admittance([], [])
  }

  predicate Agree(a: Admittance, b: Admittance)
  {
    multiset(a.outputs) == multiset(b.outputs) && multiset(a.coins) == multiset(b.coins)
  }

  predicate Nothing(a: Admittance) { a.outputs == [] && a.coins == [] }

  /** Each verdict of the comparison, in terms of the answers alone. */
  lemma ClassifyExact(primary: Option<Admittance>, shadow: Option<Admittance>)
    ensures var p, s := Admitted(primary), Admitted(shadow);
            && (Classify(primary, shadow) == Match <==> Agree(p, s))
            && (Classify(primary, shadow) == PrimaryOnly <==> !Nothing(p) && Nothing(s))
            && (Classify(primary, shadow) == ShadowOnly <==> Nothing(p) && !Nothing(s))
            && (Classify(primary, shadow) == Differ <==> !Agree(p, s) && !Nothing(p) && !Nothing(s))
  {
    var p, s := Admitted(primary), Admitted(shadow);
    CanonExact([], []);
    CanonExact(p.outputs, s.outputs);
    CanonExact(p.coins, s.coins);
    CanonExact(s.outputs, p.outputs);
    CanonExact(s.coins, p.coins);
    assert Texts(primary) == (Join(Sort(p.outputs)), Join(Sort(p.coins)));
    assert Texts(shadow) == (Join(Sort(s.outputs)), Join(Sort(s.coins)));
    EmptyMultisets(p, s);
  }

  lemma EmptyMultisets(p: Admittance, s: Admittance)
    ensures Agree(p, s) ==> (Nothing(p) <==> Nothing(s))
    ensures Nothing(p) && Nothing(s) ==> Agree(p, s)
  {
    assert |multiset(p.outputs)| == |p.outputs| && |multiset(s.outputs)| == |s.outputs|;
    assert |multiset(p.coins)| == |p.coins| && |multiset(s.coins)| == |s.coins|;
  }

  function Swapped(k: Kind): Kind
  {
    match k
    case PrimaryOnly => ShadowOnly
    case ShadowOnly => PrimaryOnly
    case _ => k
  }

  /** Neither engine is favoured. */
  lemma ClassifySwaps(a: Option<Admittance>, b: Option<Admittance>)
    ensures Classify(b, a) == Swapped(Classify(a, b))
  {
    ClassifyExact(a, b);
    ClassifyExact(b, a);
  }

  /** The comparison is not one of sets: a repeat makes a difference. */
  lemma RepeatsDiffer(n: nat)
    ensures Classify(Some(Admittance([n, n], [])), Some(Admittance([n], []))) == Differ
  {
    ClassifyExact(Some(Admittance([n, n], [])), Some(Admittance([n], [])));
    assert multiset([n, n])[n] == 2 && multiset([n])[n] == 1;
  }
}
