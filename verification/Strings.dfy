/** Byte-wise string order, sorted keys and decimal numbers. */
module Strings {
  import opened Entries

  /** Lexicographic order. */
  predicate Less(a: string, b: string)
    decreases |a|
  {
    b != "" && (a == "" || a[0] < b[0] || (a[0] == b[0] && Less(a[1..], b[1..])))
  }

  lemma {:induction false} LessIsTransitive(a: string, b: string, c: string)
    requires Less(a, b) && Less(b, c)
    ensures Less(a, c)
    decreases |a|
  {
    if a != "" && a[0] == b[0] == c[0] { LessIsTransitive(a[1..], b[1..], c[1..]); }
  }

  lemma {:induction false} LessIsStrict(a: string, b: string)
    requires Less(a, b)
    ensures a != b && !Less(b, a)
    decreases |a|
  {
    if a != "" && a[0] == b[0] { LessIsStrict(a[1..], b[1..]); }
  }

  lemma {:induction false} LessIsTotal(a: string, b: string)
    ensures a == b || Less(a, b) || Less(b, a)
    decreases |a|
  {
    if a != "" && b != "" && a[0] == b[0] {
      LessIsTotal(a[1..], b[1..]);
      assert a == [a[0]] + a[1..] && b == [b[0]] + b[1..];
    }
  }

  predicate Increasing(ks: seq<string>) {
    forall i, j :: 0 <= i < j < |ks| ==> Less(ks[i], ks[j])
  }

  function Insert(k: string, ks: seq<string>): (r: seq<string>)
    requires Increasing(ks) && k !in ks
    ensures Increasing(r)
    ensures forall x :: x in r <==> x == k || x in ks
  {
    if ks == [] then [k]
    else if Less(k, ks[0]) then
      InsertFront(k, ks);
      [k] + ks
    else
      LessIsTotal(k, ks[0]);
      var rest := Insert(k, ks[1..]);
      InsertBehind(ks[0], k, ks[1..], rest);
      [ks[0]] + rest
  }

  lemma InsertFront(k: string, ks: seq<string>)
    requires Increasing(ks) && ks != [] && Less(k, ks[0])
    ensures Increasing([k] + ks)
  {
    forall j | 0 <= j < |ks| ensures Less(k, ks[j]) {
      if j > 0 { LessIsTransitive(k, ks[0], ks[j]); }
    }
  }

  lemma InsertBehind(first: string, k: string, ks: seq<string>, rest: seq<string>)
    requires Increasing([first] + ks) && Less(first, k) && Increasing(rest)
    requires forall x :: x in rest <==> x == k || x in ks
    ensures Increasing([first] + rest)
  {
    forall j | 0 <= j < |rest| ensures Less(first, rest[j]) {
      assert rest[j] in rest;
      if rest[j] != k {
        var i :| 0 <= i < |ks| && ks[i] == rest[j];
        assert Less(([first] + ks)[0], ([first] + ks)[i + 1]);
      }
    }
  }

  /** The elements of a set in increasing order. */
  ghost function KeysOf(s: set<string>): (ks: seq<string>)
    ensures Increasing(ks)
    ensures forall x :: x in ks <==> x in s
  {
    if s == {} then []
    else
      var k :| k in s;
      Insert(k, KeysOf(s - {k}))
  }

  /** Increasing sequences of the same elements are equal: sorting leaves no freedom. */
  lemma {:induction false} SortingIsUnique(a: seq<string>, b: seq<string>)
    requires Increasing(a) && Increasing(b) && forall x :: x in a <==> x in b
    ensures a == b
    decreases |a|
  {
    if a == [] {
      assert forall i :: 0 <= i < |b| ==> b[i] in b;
    } else {
      assert a[0] in b && b != [] && b[0] in a;
      if a[0] != b[0] {
        LessIsStrict(a[0], b[0]);
      }
      forall x ensures x in a[1..] <==> x in b[1..] {
        TailElements(a, x);
        TailElements(b, x);
      }
      SortingIsUnique(a[1..], b[1..]);
    }
  }

  lemma TailElements(a: seq<string>, x: string)
    requires Increasing(a) && a != []
    ensures x in a[1..] <==> x in a && x != a[0]
  {
    if x in a[1..] {
      var i :| 0 <= i < |a| - 1 && a[1..][i] == x;
      LessIsStrict(a[0], a[i + 1]);
    }
  }

  // ------------------------------------------------------------------- splitting

  datatype Pair = Pair(left: string, right: string)

  /** The text before and after the first `c`. */
  function SplitAt(s: string, c: char): (r: Option<Pair>)
    ensures r.None? ==> c !in s
    ensures r.Some? ==> s == r.value.left + ([c] + r.value.right) && c !in r.value.left
  {
    if s == "" then None
    else if s[0] == c then Some(Pair("", s[1..]))
    else
      match SplitAt(s[1..], c)
      case None => None
      case Some(p) => Some(Pair([s[0]] + p.left, p.right))
  }

  lemma {:induction false} SplitIs(left: string, c: char, right: string)
    requires c !in left
    ensures SplitAt(left + ([c] + right), c) == Some(Pair(left, right))
    decreases |left|
  {
    var s := left + ([c] + right);
    if left == "" {
      assert s[1..] == right;
    } else {
      assert s[1..] == left[1..] + ([c] + right);
      SplitIs(left[1..], c, right);
      assert left == [left[0]] + left[1..];
    }
  }

  function LastIndex(s: string, c: char): (i: int)
    ensures -1 <= i < |s|
    ensures i >= 0 ==> s[i] == c
    ensures forall j :: 0 <= j < |s| && i < j ==> s[j] != c
  {
    if s == "" then -1
    else if s[|s| - 1] == c then |s| - 1
    else LastIndex(s[..|s| - 1], c)
  }

  lemma {:induction false} LastIndexBefore(start: string, tag: string, c: char)
    requires c !in tag
    ensures LastIndex(start + tag, c) == LastIndex(start, c)
    decreases |tag|
  {
    var ref := start + tag;
    if tag == "" {
      assert ref == start;
    } else {
      assert ref[|ref| - 1] == tag[|tag| - 1] && ref[..|ref| - 1] == start + tag[..|tag| - 1];
      LastIndexBefore(start, tag[..|tag| - 1], c);
    }
  }

  lemma LastIndexIs(left: string, c: char, right: string)
    requires c !in right
    ensures LastIndex(left + ([c] + right), c) == |left|
  {
    var start := left + [c];
    assert left + ([c] + right) == start + right;
    assert start[|start| - 1] == c;
    LastIndexBefore(start, right, c);
  }

  /** The text before and after the last `c`. */
  function SplitLast(s: string, c: char): (r: Option<Pair>)
    ensures r.None? ==> c !in s
    ensures r.Some? ==> s == r.value.left + ([c] + r.value.right) && c !in r.value.right
  {
    if s == "" then None
    else
      var last := s[|s| - 1];
      if last == c then Some(Pair(s[..|s| - 1], ""))
      else
        match SplitLast(s[..|s| - 1], c)
        case None => None
        case Some(p) => Some(Pair(p.left, p.right + [last]))
  }

  lemma SplitLastIs(left: string, c: char, right: string)
    requires c !in right
    ensures SplitLast(left + ([c] + right), c) == Some(Pair(left, right))
  {
    var s := left + ([c] + right);
    assert s[|left|] == c;
    var p := SplitLast(s, c).value;
    LastIndexIs(left, c, right);
    LastIndexIs(p.left, c, p.right);
    assert left == s[..|left|] == p.left && right == s[|left| + 1..] == p.right;
  }

  // --------------------------------------------------------------------- numbers

  function Digit(d: nat): char
    requires d < 10
  {
    '0' + d as char
  }

  function Digits(n: nat): (r: string)
    ensures r != ""
  {
    if n < 10 then [Digit(n)] else Digits(n / 10) + [Digit(n % 10)]
  }

  function FormatInt(n: int): string {
    if n < 0 then "-" + Digits(-n) else Digits(n)
  }

  function ParseDigits(s: string): (r: Option<int>)
    ensures r.Some? ==> r.value >= 0
  {
    if s == "" || !('0' <= s[|s| - 1] <= '9') then None
    else
      var d := (s[|s| - 1] - '0') as int;
      if |s| == 1 then Some(d)
      else
        match ParseDigits(s[..|s| - 1])
        case None => None
        case Some(n) => Some(10 * n + d)
  }

  function ParseInt(s: string): Option<int> {
    if s != "" && s[0] == '-' then
      match ParseDigits(s[1..])
      case None => None
      case Some(n) => Some(-n)
    else
      match ParseDigits(s)
      case None => None
      case Some(n) => Some(n)
  }

  lemma {:induction false} DigitsRoundTrip(n: nat)
    ensures ParseDigits(Digits(n)) == Some(n) && Digits(n)[0] != '-'
    decreases n
  {
    if n >= 10 {
      DigitsRoundTrip(n / 10);
      var s := Digits(n);
      assert s[..|s| - 1] == Digits(n / 10);
    }
  }

  lemma {:induction false} DigitsOnly(n: nat)
    ensures forall c <- Digits(n) :: '0' <= c <= '9'
    decreases n
  {
    if n >= 10 { DigitsOnly(n / 10); }
  }

  lemma IntRoundTrip(n: int)
    ensures ParseInt(FormatInt(n)) == Some(n)
  {
    DigitsRoundTrip(if n < 0 then -n else n);
    if n < 0 { assert FormatInt(n)[1..] == Digits(-n); }
  }
}
