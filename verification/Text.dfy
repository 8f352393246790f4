/** Substring search and line-oriented facts about texts. */
module Text {

  predicate OccursAt(s: string, p: string, i: nat) {
    i + |p| <= |s| && s[i..i + |p|] == p
  }

  ghost predicate Free(s: string, p: string) {
    forall i: nat :: !OccursAt(s, p, i)
  }

  /** A text split around a pattern. */
  datatype Cut = Whole | Around(head: string, tail: string)

  function CutFrom(s: string, p: string, from: nat): (r: Cut)
    requires from <= |s|
    ensures r.Whole? ==> forall j: nat :: from <= j ==> !OccursAt(s, p, j)
    ensures r.Around? ==> s == r.head + (p + r.tail) && from <= |r.head|
    ensures r.Around? ==> forall j: nat :: from <= j < |r.head| ==> !OccursAt(s, p, j)
    decreases |s| - from
  {
    if OccursAt(s, p, from) then Around(s[..from], s[from + |p|..])
    else if from == |s| then Whole
    else CutFrom(s, p, from + 1)
  }

  /** The text before and after the first occurrence of `p`. */
  function CutAt(s: string, p: string): (r: Cut)
    ensures r.Whole? ==> Free(s, p)
    ensures r.Around? ==> s == r.head + (p + r.tail)
    ensures r.Around? ==> forall j: nat :: j < |r.head| ==> !OccursAt(s, p, j)
  {
    CutFrom(s, p, 0)
  }

  lemma OccursBetween(head: string, p: string, tail: string)
    ensures OccursAt(head + (p + tail), p, |head|)
  {
    var s := head + (p + tail);
    assert s[|head|..|head| + |p|] == p;
  }

  /** What pins the first occurrence down. */
  lemma CutIs(head: string, p: string, tail: string)
    requires forall j: nat :: j < |head| ==> !OccursAt(head + (p + tail), p, j)
    ensures CutAt(head + (p + tail), p) == Around(head, tail)
  {
    var s := head + (p + tail);
    OccursBetween(head, p, tail);
    var c := CutAt(s, p);
    OccursBetween(c.head, p, c.tail);
    assert c.head == s[..|head|] == head;
    assert c.tail == s[|head| + |p|..] == tail;
  }

  function TrimPrefix(s: string, c: char): string {
    if s != "" && s[0] == c then s[1..] else s
  }

  function TrimRightNewlines(s: string): (r: string)
    ensures r <= s
  {
    if s != "" && (s[|s| - 1] == '\r' || s[|s| - 1] == '\n') then TrimRightNewlines(s[..|s| - 1]) else s
  }

  /** The characters that strings.TrimSpace removes, by code point. */
  predicate IsSpace(c: char) {
    var n := c as int;
    || n == 0x20 || 0x9 <= n <= 0xD || n == 0x85 || n == 0xA0 || n == 0x1680 || 0x2000 <= n <= 0x200A
    || n == 0x2028 || n == 0x2029 || n == 0x202F || n == 0x205F || n == 0x3000
  }

  predicate Blank(s: string) {
    forall c <- s :: IsSpace(c)
  }

  lemma BlankPart(a: string, b: string)
    requires Blank(a + b)
    ensures Blank(a)
  {
    forall c | c in a ensures IsSpace(c) { assert c in a + b; }
  }

  /** Empty, or ends in a newline. */
  predicate Closed(s: string) {
    s == "" || s[|s| - 1] == '\n'
  }

  /** A pattern that stays within one line. */
  predicate OneLine(p: string) {
    p != "" && forall c <- p :: c != '\n' && c != '\r'
  }

  function Join(lines: seq<string>): string {
    if lines == [] then "" else if |lines| == 1 then lines[0] else lines[0] + "\n" + Join(lines[1..])
  }

  /** An occurrence inside a part is an occurrence in that part. */
  lemma OccursInPart(a: string, b: string, p: string, i: nat)
    requires OccursAt(a + b, p, i)
    ensures i + |p| <= |a| ==> OccursAt(a, p, i)
    ensures |a| <= i ==> OccursAt(b, p, i - |a|)
  {
    var s := a + b;
    if i + |p| <= |a| { assert a[i..i + |p|] == s[i..i + |p|]; }
    if |a| <= i { assert b[i - |a|..i - |a| + |p|] == s[i..i + |p|]; }
  }

  /** An occurrence of a one-line pattern never spans a line break. */
  lemma NoSpan(s: string, p: string, i: nat, k: nat)
    requires OneLine(p) && OccursAt(s, p, i) && k < |s| && (s[k] == '\n' || s[k] == '\r')
    ensures k < i || i + |p| <= k
  {
    if i <= k < i + |p| { CharOfOccurrence(s, p, i, k); }
  }

  lemma CharOfOccurrence(s: string, p: string, i: nat, k: nat)
    requires OccursAt(s, p, i) && i <= k < i + |p|
    ensures s[k] == p[k - i] && s[k] in p
  {
    assert s[i..i + |p|][k - i] == s[k];
  }

  /** One-line patterns do not form across the end of a closed text. */
  lemma FreeConcat(a: string, b: string, p: string)
    requires OneLine(p) && Closed(a) && Free(a, p) && Free(b, p)
    ensures Free(a + b, p)
  {
    forall i: nat ensures !OccursAt(a + b, p, i) {
      if OccursAt(a + b, p, i) {
        OccursInPart(a, b, p, i);
        if a != "" { assert (a + b)[|a| - 1] == '\n'; NoSpan(a + b, p, i, |a| - 1); }
      }
    }
  }

  /** Nor before a line break. */
  lemma FreeThenBreak(a: string, p: string, rest: string)
    requires OneLine(p) && Free(a, p) && rest != "" && (rest[0] == '\n' || rest[0] == '\r') && Free(rest[1..], p)
    ensures Free(a + rest, p)
  {
    forall i: nat ensures !OccursAt(a + rest, p, i) {
      if OccursAt(a + rest, p, i) {
        assert (a + rest)[|a|] == rest[0];
        NoSpan(a + rest, p, i, |a|);
        OccursInPart(a, rest, p, i);
        if |a| < i {
          assert a + rest == (a + [rest[0]]) + rest[1..];
          OccursInPart(a + [rest[0]], rest[1..], p, i);
        }
      }
    }
  }

  /** The first occurrence right after a closed text that has none. */
  lemma CutAfterClosed(a: string, p: string, b: string)
    requires OneLine(p) && Closed(a) && Free(a, p)
    ensures CutAt(a + (p + b), p) == Around(a, b)
  {
    var s := a + (p + b);
    forall j: nat | j < |a| ensures !OccursAt(s, p, j) {
      assert s[|a| - 1] == '\n';
      if OccursAt(s, p, j) {
        NoSpan(s, p, j, |a| - 1);
        OccursInPart(a, p + b, p, j);
      }
    }
    CutIs(a, p, b);
  }

  /** What comes before the first occurrence has none. */
  lemma CutHeadIsFree(s: string, p: string)
    requires CutAt(s, p).Around? && p != ""
    ensures Free(CutAt(s, p).head, p)
  {
    var c := CutAt(s, p);
    assert s[..|c.head|] == c.head;
    FreePrefix(s, p, |c.head|);
  }

  lemma FreePrefix(s: string, p: string, n: nat)
    requires n <= |s| && forall j: nat :: j < n ==> !OccursAt(s, p, j)
    requires p != ""
    ensures Free(s[..n], p)
  {
    forall i: nat ensures !OccursAt(s[..n], p, i) {
      if OccursAt(s[..n], p, i) { OccursInWhole(s, p, n, i); }
    }
  }

  lemma OccursInWhole(s: string, p: string, n: nat, i: nat)
    requires n <= |s| && OccursAt(s[..n], p, i) && p != ""
    ensures OccursAt(s, p, i) && i < n
  {
    assert s[i..i + |p|] == s[..n][i..i + |p|];
  }

  lemma FreePart(s: string, p: string, t: string)
    requires Free(s, p) && t <= s && p != ""
    ensures Free(t, p)
  {
    assert s[..|t|] == t;
    FreePrefix(s, p, |t|);
  }

  lemma ShortIsFree(s: string, p: string)
    requires |s| < |p|
    ensures Free(s, p)
  {
  }

  lemma {:induction false} JoinFree(lines: seq<string>, p: string)
    requires OneLine(p) && forall i :: 0 <= i < |lines| ==> Free(lines[i], p)
    ensures Free(Join(lines), p)
  {
    if |lines| == 0 {
      ShortIsFree("", p);
    } else if |lines| > 1 {
      JoinFree(lines[1..], p);
      var rest := "\n" + Join(lines[1..]);
      assert rest[1..] == Join(lines[1..]);
      FreeThenBreak(lines[0], p, rest);
      assert lines[0] + rest == Join(lines);
    }
  }
}
