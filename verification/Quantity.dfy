/** CPU and memory quantities. */
module Quantity {
  import opened Entries
  import opened Text

  /** What reading a number gives; finite values are taken as exact. */
  datatype Number = Malformed | NotANumber | Infinite | Finite(value: real)

  datatype Amount = Size(n: int) | Invalid

  function TrimLeft(s: string): string {
    if s != "" && IsSpace(s[0]) then TrimLeft(s[1..]) else s
  }

  function TrimRight(s: string): string {
    if s != "" && IsSpace(s[|s| - 1]) then TrimRight(s[..|s| - 1]) else s
  }

  function Trim(s: string): string {
    TrimRight(TrimLeft(s))
  }

  predicate EndsWith(s: string, suffix: string) {
    |suffix| <= |s| && s[|s| - |suffix|..] == suffix
  }

  function Before(s: string, suffix: string): string
    requires EndsWith(s, suffix)
  {
    s[..|s| - |suffix|]
  }

  function Ceil(q: real): (n: int)
    ensures n as real >= q && n as real < q + 1.0
  {
    -((-q).Floor)
  }

  predicate Covers(n: int, q: real) {
    n as real >= q
  }

  /** The least whole number that is not below q. */
  ghost predicate IsLeast(n: int, q: real) {
    Covers(n, q) && forall m: int :: Covers(m, q) ==> n <= m
  }

  /** A size that is not below zero, rounded up. */
  function RoundUp(q: Number): Amount {
    if !q.Finite? || q.value < 0.0 then Invalid
    else if q.value == 0.0 then Size(0)
    else
      var n := Ceil(q.value);
      Size(if n < 1 then 1 else n)
  }

  function Scale(q: Number, factor: real): Number {
    if q.Finite? then Finite(q.value * factor) else q
  }

  // ------------------------------------------------------------------------- CPU

  /** The number of cores a quantity asks for. */
  function Cores(parse: string -> Number, text: string): Number {
    var s := Trim(text);
    if s == "" then Finite(0.0)
    else if EndsWith(s, "m") then Scale(parse(Before(s, "m")), 1.0 / 1000.0)
    else parse(s)
  }

  function ParseCpu(parse: string -> Number, text: string): Amount {
    RoundUp(Cores(parse, text))
  }

  // ---------------------------------------------------------------------- memory

  datatype Unit = Unit(suffix: string, factor: real)

  const MIB: real := 1048576.0

  const UNITS: seq<Unit> :=
    [ Unit("Ki", 1024.0), Unit("Mi", 1048576.0), Unit("Gi", 1073741824.0), Unit("Ti", 1099511627776.0),
      Unit("K", 1000.0), Unit("M", 1000000.0), Unit("G", 1000000000.0), Unit("T", 1000000000000.0) ]

  /** The first unit the text ends with. */
  function FindUnit(units: seq<Unit>, s: string): (r: Option<Unit>)
    ensures r.None? ==> forall i :: 0 <= i < |units| ==> !EndsWith(s, units[i].suffix)
    ensures r.Some? ==> r.value in units && EndsWith(s, r.value.suffix)
  {
    if units == [] then None
    else if EndsWith(s, units[0].suffix) then Some(units[0])
    else FindUnit(units[1..], s)
  }

  /** The number a quantity states, before its unit, and what the unit multiplies it by. */
  function NumberOf(parse: string -> Number, units: seq<Unit>, text: string): Number {
    var s := Trim(text);
    if s == "" then Finite(0.0)
    else
      match FindUnit(units, s)
      case Some(u) => parse(Before(s, u.suffix))
      case None => parse(s)
  }

  function FactorOf(units: seq<Unit>, s: string): real {
    match FindUnit(units, s)
    case Some(u) => u.factor
    case None => 1.0
  }

  /** The bytes a quantity asks for. */
  function Bytes(parse: string -> Number, units: seq<Unit>, text: string): Number {
    Scale(NumberOf(parse, units, text), FactorOf(units, Trim(text)))
  }

  function MemoryMB(parse: string -> Number, units: seq<Unit>, text: string): Amount {
    RoundUp(Scale(Bytes(parse, units, text), 1.0 / MIB))
  }

  predicate Positive(units: seq<Unit>) {
    forall i :: 0 <= i < |units| ==> units[i].factor > 0.0
  }

  /** No text ends in two of the units. */
  ghost predicate Unambiguous(units: seq<Unit>) {
    forall s, i, j :: 0 <= i < |units| && 0 <= j < |units| && EndsWith(s, units[i].suffix) && EndsWith(s, units[j].suffix) ==> i == j
  }

  method ParseMemory(parse: string -> Number, units: seq<Unit>, text: string) returns (r: Amount)
    requires Positive(units)
    ensures r == MemoryMB(parse, units, text)
  {
    var s := Trim(text);
    if s == "" { return Size(0); }
    var num, factor := TakeUnit(units, s);
    var v := parse(num);
    RoundedStepwise(v, factor);
    if !v.Finite? || v.value < 0.0 { return Invalid; }
    var bytes := v.value * factor;
    if bytes == 0.0 { return Size(0); }
    var mb := Ceil(bytes / MIB);
    if mb < 1 { mb := 1; }
    return Size(mb);
  }

  /** The loop over the table: the number before the unit, and the unit's factor. */
  method TakeUnit(units: seq<Unit>, s: string) returns (num: string, factor: real)
    requires Positive(units)
    ensures factor == FactorOf(units, s) && factor > 0.0
    ensures num == match FindUnit(units, s) case Some(u) => Before(s, u.suffix) case None => s
  {
    factor := 1.0;
    num := s;
    var i := 0;
    while i < |units|
      invariant 0 <= i <= |units| && factor == 1.0 && num == s
      invariant FindUnit(units, s) == FindUnit(units[i..], s)
    {
      if EndsWith(s, units[i].suffix) {
        factor := units[i].factor;
        num := Before(s, units[i].suffix);
        break;
      }
      assert units[i..][1..] == units[i + 1..];
      i := i + 1;
    }
  }

  /** The checks and the rounding as the code makes them, one by one. */
  lemma RoundedStepwise(v: Number, factor: real)
    requires factor > 0.0
    ensures RoundUp(Scale(Scale(v, factor), 1.0 / MIB)) ==
      if !v.Finite? || v.value < 0.0 then Invalid
      else if v.value * factor == 0.0 then Size(0)
      else
        var mb := Ceil((v.value * factor) / MIB);
        Size(if mb < 1 then 1 else mb)
  {
    if v.Finite? {
      SignOfProduct(v.value, factor);
      var bytes := v.value * factor;
      assert bytes * (1.0 / MIB) == bytes / MIB;
    }
  }

  lemma SignOfProduct(v: real, f: real)
    requires f > 0.0
    ensures v * f < 0.0 <==> v < 0.0
    ensures v * f == 0.0 <==> v == 0.0
  {
  }

  // ------------------------------------------------------------------ properties

  /** What a quantity means: none without a finite number that is not below zero, else the
      least whole number of units that covers it, zero exactly when nothing is asked. */
  lemma RoundUpIsLeast(q: Number)
    ensures RoundUp(q).Invalid? <==> !q.Finite? || q.value < 0.0
    ensures RoundUp(q).Size? ==> IsLeast(RoundUp(q).n, q.value) && RoundUp(q).n >= 0
    ensures RoundUp(q).Size? ==> (RoundUp(q).n == 0 <==> q.value == 0.0)
  {
    if RoundUp(q).Size? {
      var n := RoundUp(q).n;
      forall m: int | Covers(m, q.value) ensures n <= m {
        assert n == 0 || n == Ceil(q.value);
      }
    }
  }

  lemma SizesAreNatural(parse: string -> Number, units: seq<Unit>)
    ensures forall text :: ParseCpu(parse, text).Size? ==> ParseCpu(parse, text).n >= 0
    ensures forall text :: MemoryMB(parse, units, text).Size? ==> MemoryMB(parse, units, text).n >= 0
  {
    forall text ensures ParseCpu(parse, text).Size? ==> ParseCpu(parse, text).n >= 0 { RoundUpIsLeast(Cores(parse, text)); }
    forall text ensures MemoryMB(parse, units, text).Size? ==> MemoryMB(parse, units, text).n >= 0 {
      RoundUpIsLeast(Scale(Bytes(parse, units, text), 1.0 / MIB));
    }
  }

  lemma RoundUpIsMonotone(p: Number, q: Number)
    requires RoundUp(p).Size? && RoundUp(q).Size? && p.value <= q.value
    ensures RoundUp(p).n <= RoundUp(q).n
  {
    RoundUpIsLeast(p);
    RoundUpIsLeast(q);
  }

  /** The memory handed to the VM covers the bytes asked for, and one mebibyte less would not. */
  lemma MemoryCovers(parse: string -> Number, units: seq<Unit>, text: string)
    requires MemoryMB(parse, units, text).Size?
    ensures var n, bytes := MemoryMB(parse, units, text).n, Bytes(parse, units, text).value;
            n as real * (1024.0 * 1024.0) >= bytes && (n > 0 ==> (n - 1) as real * (1024.0 * 1024.0) < bytes) && (n == 0 <==> bytes == 0.0)
  {
    var q := Scale(Bytes(parse, units, text), 1.0 / MIB);
    RoundUpIsLeast(q);
    var n := RoundUp(q).n;
    assert Covers(n - 1, q.value) ==> n <= n - 1;
  }

  /** The vCPUs cover the cores asked for, and one less would not. */
  lemma CpuCovers(parse: string -> Number, text: string)
    requires ParseCpu(parse, text).Size?
    ensures var n, cores := ParseCpu(parse, text).n, Cores(parse, text).value;
            n as real >= cores && (n > 0 ==> (n - 1) as real < cores) && (n == 0 <==> cores == 0.0)
  {
    RoundUpIsLeast(Cores(parse, text));
    var n := ParseCpu(parse, text).n;
    assert Covers(n - 1, Cores(parse, text).value) ==> n <= n - 1;
  }

  function Power(base: real, k: nat): real {
    if k == 0 then 1.0 else base * Power(base, k - 1)
  }

  /** The table: K, M, G and T are the first four powers, of 1024 with an 'i' and of 1000
      without. */
  lemma UnitsArePowers(i: nat)
    requires i < |UNITS|
    ensures UNITS[i].suffix == ["KMGT"[i % 4]] + (if i < 4 then "i" else "")
    ensures UNITS[i].factor == Power(if i < 4 then 1024.0 else 1000.0, i % 4 + 1)
  {
    var base := if i < 4 then 1024.0 else 1000.0;
    assert Power(base, 1) == base && Power(base, 2) == base * base;
    assert Power(base, 3) == base * (base * base) && Power(base, 4) == base * (base * (base * base));
    assert i == 0 || i == 1 || i == 2 || i == 3 || i == 4 || i == 5 || i == 6 || i == 7;
  }

  /** The bytes a quantity asks for: none if it is blank; its number times the power its
      suffix stands for; its number alone without a suffix. */
  lemma BytesMean(parse: string -> Number, text: string)
    ensures var s, b := Trim(text), Bytes(parse, UNITS, text);
      && (s == "" ==> b == Finite(0.0))
      && (forall i :: 0 <= i < |UNITS| && EndsWith(s, UNITS[i].suffix) ==>
            b == Scale(parse(Before(s, UNITS[i].suffix)), Power(if i < 4 then 1024.0 else 1000.0, i % 4 + 1)))
      && (s != "" && (forall i :: 0 <= i < |UNITS| ==> !EndsWith(s, UNITS[i].suffix)) ==> b == Scale(parse(s), 1.0))
  {
    var s := Trim(text);
    UnitsAreUnambiguous();
    var u := FindUnit(UNITS, s);
    forall i | 0 <= i < |UNITS| && EndsWith(s, UNITS[i].suffix)
      ensures s != "" && u == Some(UNITS[i]) && UNITS[i].factor == Power(if i < 4 then 1024.0 else 1000.0, i % 4 + 1)
    {
      LastLetters(s, i);
      UnitsArePowers(i);
      var j :| 0 <= j < |UNITS| && UNITS[j] == u.value;
      assert i == j;
    }
    if s == "" { assert u.None?; }
  }

  /** The cores a quantity asks for: none if it is blank, thousandths with an 'm'. */
  lemma CoresMean(parse: string -> Number, text: string)
    ensures var s, c := Trim(text), Cores(parse, text);
      && (s == "" ==> c == Finite(0.0))
      && (s != "" && !EndsWith(s, "m") ==> c == parse(s))
      && (EndsWith(s, "m") ==>
            var milli := parse(Before(s, "m")); (c.Finite? <==> milli.Finite?) && (c.Finite? ==> c.value * 1000.0 == milli.value))
  {
  }

  lemma {:induction false} TrimLeftPads(a: string, s: string)
    requires Blank(a) && (s == "" || !IsSpace(s[0]))
    ensures TrimLeft(a + s) == s
    decreases |a|
  {
    if a == "" {
      assert a + s == s;
    } else {
      assert a[0] in a && forall c <- a[1..] :: c in a;
      assert (a + s)[1..] == a[1..] + s;
      TrimLeftPads(a[1..], s);
    }
  }

  lemma {:induction false} TrimRightPads(s: string, b: string)
    requires Blank(b) && (s == "" || !IsSpace(s[|s| - 1]))
    ensures TrimRight(s + b) == s
    decreases |b|
  {
    if b == "" {
      assert s + b == s;
    } else {
      var init := b[..|b| - 1];
      assert b[|b| - 1] in b && forall c <- init :: c in b;
      assert (s + b)[..|s + b| - 1] == s + init;
      TrimRightPads(s, init);
    }
  }

  /** Blanks around a quantity are ignored, and nothing else is. */
  lemma PaddingIsMoot(a: string, s: string, b: string)
    requires Blank(a) && Blank(b) && s != "" && !IsSpace(s[0]) && !IsSpace(s[|s| - 1])
    ensures Trim(a + (s + b)) == s
  {
    TrimLeftPads(a, s + b);
    TrimRightPads(s, b);
  }

  /** The same unit, or none in both. */
  ghost predicate SameUnit(units: seq<Unit>, s: string, t: string) {
    forall i :: 0 <= i < |units| ==> (EndsWith(s, units[i].suffix) <==> EndsWith(t, units[i].suffix))
  }

  lemma {:induction false} SameFind(units: seq<Unit>, s: string, t: string)
    requires SameUnit(units, s, t)
    ensures FindUnit(units, s) == FindUnit(units, t)
    decreases |units|
  {
    if units != [] && !EndsWith(s, units[0].suffix) {
      forall i | 0 <= i < |units| - 1 ensures EndsWith(s, units[1..][i].suffix) <==> EndsWith(t, units[1..][i].suffix) {
        assert units[1..][i] == units[i + 1];
      }
      SameFind(units[1..], s, t);
    }
  }

  /** A table of the same units in any other order reads every quantity the same. */
  lemma OrderIsMoot(parse: string -> Number, units: seq<Unit>, other: seq<Unit>, text: string)
    requires Unambiguous(units) && forall u :: u in units <==> u in other
    ensures MemoryMB(parse, other, text) == MemoryMB(parse, units, text)
  {
    SameFound(units, other, Trim(text));
  }

  lemma SameFound(units: seq<Unit>, other: seq<Unit>, s: string)
    requires Unambiguous(units) && forall u :: u in units <==> u in other
    ensures FindUnit(other, s) == FindUnit(units, s)
  {
    var x, y := FindUnit(units, s), FindUnit(other, s);
    assert x.Some? ==> x.value in other;
    assert y.Some? ==> y.value in units;
    if x.Some? && y.Some? {
      var i :| 0 <= i < |units| && units[i] == x.value;
      var j :| 0 <= j < |units| && units[j] == y.value;
      assert i == j;
    }
  }

  /** More of the same unit, or of plain bytes, never gives a smaller VM. */
  lemma MemoryIsMonotone(parse: string -> Number, units: seq<Unit>, a: string, b: string)
    requires Positive(units) && SameUnit(units, Trim(a), Trim(b))
    requires var x, y := NumberOf(parse, units, a), NumberOf(parse, units, b); x.Finite? && y.Finite? && 0.0 <= x.value <= y.value
    ensures MemoryMB(parse, units, a).Size? && MemoryMB(parse, units, b).Size?
    ensures MemoryMB(parse, units, a).n <= MemoryMB(parse, units, b).n
  {
    var x, y, f := NumberOf(parse, units, a), NumberOf(parse, units, b), FactorOf(units, Trim(a));
    SameFind(units, Trim(a), Trim(b));
    ScaledIsMonotone(x, y, f);
  }

  lemma ScaledIsMonotone(x: Number, y: Number, f: real)
    requires x.Finite? && y.Finite? && 0.0 <= x.value <= y.value && f > 0.0
    ensures var a, b := RoundUp(Scale(Scale(x, f), 1.0 / MIB)), RoundUp(Scale(Scale(y, f), 1.0 / MIB)); a.Size? && b.Size? && a.n <= b.n
  {
    Product(x.value, y.value, f);
    RoundUpIsMonotone(Scale(Scale(x, f), 1.0 / MIB), Scale(Scale(y, f), 1.0 / MIB));
  }

  lemma Product(x: real, y: real, f: real)
    requires f > 0.0 && 0.0 <= x <= y
    ensures 0.0 <= x * f <= y * f
  {
  }

  /** The number of a CPU quantity, of cores or of thousandths. */
  function CpuNumber(parse: string -> Number, text: string): Number {
    var s := Trim(text);
    if s == "" then Finite(0.0) else if EndsWith(s, "m") then parse(Before(s, "m")) else parse(s)
  }

  /** More cores, or more thousandths, never give fewer vCPUs. */
  lemma CpuIsMonotone(parse: string -> Number, a: string, b: string)
    requires EndsWith(Trim(a), "m") <==> EndsWith(Trim(b), "m")
    requires var x, y := CpuNumber(parse, a), CpuNumber(parse, b); x.Finite? && y.Finite? && 0.0 <= x.value <= y.value
    ensures ParseCpu(parse, a).Size? && ParseCpu(parse, b).Size? && ParseCpu(parse, a).n <= ParseCpu(parse, b).n
  {
    RoundUpIsMonotone(Cores(parse, a), Cores(parse, b));
  }

  /** At most one unit of the table ends any text: trying the longest first changes nothing. */
  lemma UnitsAreUnambiguous()
    ensures Unambiguous(UNITS) && Positive(UNITS)
  {
    forall s: string, i, j | 0 <= i < |UNITS| && 0 <= j < |UNITS| && EndsWith(s, UNITS[i].suffix) && EndsWith(s, UNITS[j].suffix)
      ensures i == j
    {
      LastLetters(s, i);
      LastLetters(s, j);
    }
  }

  /** The letters that tell a unit: the last, and the one before it when the last is 'i'. */
  lemma LastLetters(s: string, i: nat)
    requires i < |UNITS| && EndsWith(s, UNITS[i].suffix)
    ensures s != "" && s[|s| - 1] == if i < 4 then 'i' else "KMGT"[i - 4]
    ensures i < 4 ==> |s| > 1 && s[|s| - 2] == "KMGT"[i]
  {
    var u := UNITS[i].suffix;
    assert s[|s| - |u|..][|u| - 1] == s[|s| - 1];
    if i < 4 { assert s[|s| - 2..][0] == s[|s| - 2]; }
  }

  // ---------------------------------------------------------------------- choice

  /** The first size above zero among the candidates. */
  method FirstQuantity(parse: string -> Amount, candidates: seq<string>) returns (r: Amount)
    requires forall c <- candidates :: parse(c).Size? ==> parse(c).n >= 0
    ensures r.Invalid? ==> exists i :: 0 <= i < |candidates| && parse(candidates[i]).Invalid?
                                    && forall j :: 0 <= j < i ==> parse(candidates[j]) == Size(0)
    ensures r.Size? && r.n > 0 ==> exists i :: 0 <= i < |candidates| && parse(candidates[i]) == r
                                            && forall j :: 0 <= j < i ==> parse(candidates[j]) == Size(0)
    ensures r == Size(0) <==> forall i :: 0 <= i < |candidates| ==> parse(candidates[i]) == Size(0)
    ensures r.Size? ==> r.n >= 0
  {
    for i := 0 to |candidates|
      invariant forall j :: 0 <= j < i ==> parse(candidates[j]) == Size(0)
    {
      var v := parse(candidates[i]);
      assert candidates[i] in candidates;
      if v.Invalid? { return Invalid; }
      if v.n > 0 { return v; }
    }
    return Size(0);
  }

  /** The limit if it is above zero, else the request, else the default; what is not reached
      need not parse. */
  function Chosen(limit: Amount, request: Amount, fallback: int): Amount {
    if limit.Invalid? || limit.n > 0 then limit
    else if request.Invalid? || request.n > 0 then request
    else Size(fallback)
  }

  method ChooseSize(parse: string -> Amount, limit: string, request: string, fallback: int) returns (r: Amount)
    requires parse(limit).Size? ==> parse(limit).n >= 0
    requires parse(request).Size? ==> parse(request).n >= 0
    ensures r == Chosen(parse(limit), parse(request), fallback)
    ensures parse(limit).Invalid? || parse(limit).n > 0 ==> r == parse(limit)
    ensures parse(limit) == Size(0) && (parse(request).Invalid? || parse(request).n > 0) ==> r == parse(request)
    ensures parse(limit) == Size(0) && parse(request) == Size(0) ==> r == Size(fallback)
  {
    var cs := [limit, request];
    r := FirstQuantity(parse, cs);
    assert cs[0] == limit && cs[1] == request;
    if r == Size(0) { r := Size(fallback); }
  }
}
