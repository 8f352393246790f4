/** Rooted paths as text and as segments. */
module Paths {

  /** The text between slashes. */
  function Split(s: string): (r: seq<string>)
    ensures r != [] && forall i :: 0 <= i < |r| ==> '/' !in r[i]
  {
    if s == "" then [""]
    else
      var rest := Split(s[1..]);
      if s[0] == '/' then [""] + rest else [[s[0]] + rest[0]] + rest[1..]
  }

  /** A segment of a clean path. */
  predicate Good(seg: string) {
    seg != "" && seg != "." && seg != ".." && '/' !in seg
  }

  predicate AllGood(segs: seq<string>) {
    forall i :: 0 <= i < |segs| ==> Good(segs[i])
  }

  /** Walks the segments: empty ones and "." stay put, ".." goes up, but not above the root. */
  function Walk(segs: seq<string>, at: seq<string>): (r: seq<string>)
    requires AllGood(at) && forall i :: 0 <= i < |segs| ==> '/' !in segs[i]
    ensures AllGood(r)
    decreases |segs|
  {
    if segs == [] then at
    else if segs[0] == "" || segs[0] == "." then Walk(segs[1..], at)
    else if segs[0] == ".." then Walk(segs[1..], if at == [] then [] else at[..|at| - 1])
    else Walk(segs[1..], at + [segs[0]])
  }

  predicate Rooted(s: string) {
    s != "" && s[0] == '/'
  }

  function Segments(s: string): (r: seq<string>)
    ensures AllGood(r)
  {
    Walk(Split(s), [])
  }

  /** Each segment after its slash. */
  function Text(segs: seq<string>): string {
    if segs == [] then "" else "/" + (segs[0] + Text(segs[1..]))
  }

  function Render(segs: seq<string>): string {
    if segs == [] then "/" else Text(segs)
  }

  /** path.Clean on rooted paths. */
  function Clean(s: string): string {
    Render(Segments(s))
  }

  /** The test the driver makes on texts. */
  predicate AtOrUnder(t: string, root: string) {
    t == root || root + "/" <= t
  }

  // -------------------------------------------------------------------------

  lemma {:induction false} SplitSegment(seg: string, rest: string)
    requires '/' !in seg && (rest == "" || rest[0] == '/')
    ensures Split(seg + rest) == [seg] + Split(rest)[1..]
    decreases |seg|
  {
    if seg == "" {
      assert seg + rest == rest;
      if rest != "" { assert Split(rest)[0] == ""; }
    } else {
      assert (seg + rest)[1..] == seg[1..] + rest;
      SplitSegment(seg[1..], rest);
      assert [seg[0]] + seg[1..] == seg;
    }
  }

  lemma {:induction false} SplitText(segs: seq<string>)
    requires AllGood(segs)
    ensures Split(Text(segs)) == [""] + segs
    decreases |segs|
  {
    if segs != [] {
      var rest := Text(segs[1..]);
      SplitText(segs[1..]);
      SplitSegment(segs[0], rest);
      assert Text(segs)[1..] == segs[0] + rest;
      assert segs == [segs[0]] + segs[1..];
    }
  }

  lemma {:induction false} WalkGood(segs: seq<string>, at: seq<string>)
    requires AllGood(segs) && AllGood(at)
    ensures Walk(segs, at) == at + segs
    decreases |segs|
  {
    if segs != [] {
      WalkGood(segs[1..], at + [segs[0]]);
      assert at + [segs[0]] + segs[1..] == at + segs;
    } else {
      assert at + segs == at;
    }
  }

  /** Reading a rendered path gives its segments back. */
  lemma SegmentsOfRender(segs: seq<string>)
    requires AllGood(segs)
    ensures Segments(Render(segs)) == segs
  {
    if segs == [] {
      assert Split("/") == [""] + Split("") == ["", ""];
      assert Walk(["", ""], []) == Walk([""], []) == [] by { assert ["", ""][1..] == [""]; }
    } else {
      SplitText(segs);
      assert ([""] + segs)[1..] == segs;
      WalkGood(segs, []);
    }
  }

  lemma CleanIsIdempotent(s: string)
    ensures Clean(Clean(s)) == Clean(s)
  {
    SegmentsOfRender(Segments(s));
  }

  lemma {:induction false} SplitSnoc(s: string, seg: string)
    requires '/' !in seg
    ensures Split(s + ("/" + seg)) == Split(s) + [seg]
    decreases |s|
  {
    if s == "" {
      assert s + ("/" + seg) == "/" + seg && ("/" + seg)[1..] == seg + "";
      SplitSegment(seg, "");
      assert seg + "" == seg;
    } else {
      assert (s + ("/" + seg))[1..] == s[1..] + ("/" + seg);
      SplitSnoc(s[1..], seg);
      var rest := Split(s[1..]);
      assert (rest + [seg])[1..] == rest[1..] + [seg];
    }
  }

  lemma {:induction false} WalkSnoc(segs: seq<string>, seg: string, at: seq<string>)
    requires AllGood(at) && '/' !in seg && forall i :: 0 <= i < |segs| ==> '/' !in segs[i]
    ensures Walk(segs + [seg], at) == Walk([seg], Walk(segs, at))
    decreases |segs|
  {
    if segs == [] {
      assert segs + [seg] == [seg];
    } else {
      assert (segs + [seg])[1..] == segs[1..] + [seg];
      var next := if segs[0] == "" || segs[0] == "." then at
                  else if segs[0] == ".." then if at == [] then [] else at[..|at| - 1]
                  else at + [segs[0]];
      WalkSnoc(segs[1..], seg, next);
    }
  }

  /** Where a path leads, one segment at a time: nothing and "." stay, ".." leaves the last
      directory but never the root, anything else enters. */
  lemma SegmentsFollow(s: string, seg: string)
    requires '/' !in seg
    ensures Segments("") == []
    ensures var at, next := Segments(s), Segments(s + ("/" + seg));
      && (seg == "" || seg == "." ==> next == at)
      && (seg == ".." && at != [] ==> next == at[..|at| - 1])
      && (seg == ".." && at == [] ==> next == [])
      && (Good(seg) ==> next == at + [seg])
  {
    SplitSnoc(s, seg);
    WalkSnoc(Split(s), seg, []);
    assert [seg][1..] == [] && [""][1..] == [];
  }

  lemma {:induction false} TextConcat(a: seq<string>, b: seq<string>)
    ensures Text(a + b) == Text(a) + Text(b)
    decreases |a|
  {
    if a == [] {
      assert a + b == b;
    } else {
      assert (a + b)[1..] == a[1..] + b;
      TextConcat(a[1..], b);
    }
  }

  /** Texts that agree up to a slash agree on whole segments. */
  lemma {:induction false} TextPrefix(rs: seq<string>, ts: seq<string>, u: string)
    requires AllGood(rs) && AllGood(ts) && Text(ts) == Text(rs) + u && (u == "" || u[0] == '/')
    ensures rs <= ts
    decreases |rs|
  {
    if rs != [] {
      var a, b := Text(rs[1..]), Text(ts[1..]);
      assert Text(ts) == "/" + (ts[0] + b) && Text(rs) + u == "/" + (rs[0] + (a + u));
      assert ts[0] + b == Text(ts)[1..] == rs[0] + (a + u);
      FirstSegment(rs[0], a + u, ts[0], b);
      TextPrefix(rs[1..], ts[1..], u);
    }
  }

  lemma FirstSegment(p: string, a: string, q: string, b: string)
    requires p + a == q + b && '/' !in p && '/' !in q
    requires (a == "" || a[0] == '/') && (b == "" || b[0] == '/')
    ensures p == q && a == b
  {
    assert forall k :: 0 <= k < |q| ==> (q + b)[k] == q[k];
    assert forall k :: 0 <= k < |p| ==> (p + a)[k] == p[k];
    if a != "" { assert (p + a)[|p|] == a[0]; }
    if b != "" { assert (q + b)[|q|] == b[0]; }
    assert p == (p + a)[..|p|] && q == (q + b)[..|q|];
    assert a == (p + a)[|p|..] && b == (q + b)[|q|..];
  }

  /** On clean paths other than the root itself, the prefix test on texts is exactly the
      prefix relation on segments: "/etc/openshellx" is not under "/etc/openshell". */
  lemma AtOrUnderIsSegmentPrefix(t: string, root: string)
    requires Clean(t) == t && Clean(root) == root && root != "/"
    ensures AtOrUnder(t, root) <==> Segments(root) <= Segments(t)
  {
    var ts, rs := Segments(t), Segments(root);
    if AtOrUnder(t, root) && t != root {
      assert t == root + t[|root|..];
      if ts != [] { TextPrefix(rs, ts, t[|root|..]); }
    }
    if rs <= ts {
      var more := ts[|rs|..];
      assert ts == rs + more;
      TextConcat(rs, more);
      if more != [] { assert t == root + "/" + t[|root| + 1..]; }
    }
  }

  // ------------------------------------------------------------- relative paths

  /** A segment of a clean relative path, which may climb at its start. */
  predicate Part(seg: string) {
    seg != "" && '/' !in seg
  }

  /** Walks as from an unknown directory: ".." climbs further once there is nothing to leave. */
  function WalkRelative(segs: seq<string>, at: seq<string>): (r: seq<string>)
    requires forall i :: 0 <= i < |at| ==> Part(at[i])
    requires forall i :: 0 <= i < |segs| ==> '/' !in segs[i]
    ensures forall i :: 0 <= i < |r| ==> Part(r[i])
    decreases |segs|
  {
    if segs == [] then at
    else if segs[0] == "" || segs[0] == "." then WalkRelative(segs[1..], at)
    else if segs[0] == ".." && at != [] && at[|at| - 1] != ".." then WalkRelative(segs[1..], at[..|at| - 1])
    else WalkRelative(segs[1..], at + [segs[0]])
  }

  function RenderRelative(segs: seq<string>): string {
    if segs == [] then "." else segs[0] + Text(segs[1..])
  }

  /** filepath.Clean. */
  function CleanPath(s: string): string {
    if Rooted(s) then Clean(s) else RenderRelative(WalkRelative(Split(s), []))
  }

  lemma CleanKeepsRoot(s: string)
    ensures CleanPath(s) != "" && (Rooted(CleanPath(s)) <==> Rooted(s))
  {
    if Rooted(s) {
      if Segments(s) != [] { RenderIsLong(Segments(s)); }
    } else {
      var segs := WalkRelative(Split(s), []);
      if segs != [] { assert Part(segs[0]) && segs[0][0] in segs[0]; }
    }
  }

  /** Whether `p` is the directory `root` or lies below it. */
  predicate PathWithin(root: string, p: string) {
    AtOrUnder(CleanPath(p), CleanPath(root))
  }

  /** For an absolute path the test agrees with the segments exactly when the root is not
      the whole filesystem, or the path is the root itself: below "/" the text "//" never
      starts a clean path.  A relative root holds no absolute path. */
  lemma PathWithinIff(root: string, p: string)
    requires Rooted(p)
    ensures (PathWithin(root, p) <==> Rooted(root) && Segments(root) <= Segments(p))
       <==> (!Rooted(root) || Segments(root) != [] || Segments(p) == [])
  {
    CleanKeepsRoot(root);
    CleanKeepsRoot(p);
    if Rooted(root) {
      RootedWithin(root, p);
    } else {
      RelativeHoldsNone(CleanPath(root), CleanPath(p));
    }
  }

  lemma RelativeHoldsNone(root: string, t: string)
    requires root != "" && !Rooted(root) && Rooted(t)
    ensures !AtOrUnder(t, root)
  {
    assert (root + "/")[0] == root[0];
  }

  lemma RootedWithin(root: string, p: string)
    requires Rooted(root) && Rooted(p)
    ensures (PathWithin(root, p) <==> Segments(root) <= Segments(p)) <==> (Segments(root) != [] || Segments(p) == [])
  {
    var r, t := Clean(root), Clean(p);
    CleanIsIdempotent(root);
    CleanIsIdempotent(p);
    SegmentsOfRender(Segments(root));
    SegmentsOfRender(Segments(p));
    if Segments(root) != [] {
      RenderIsLong(Segments(root));
      AtOrUnderIsSegmentPrefix(t, r);
    } else if Segments(p) != [] {
      RenderIsLong(Segments(p));
      assert t[1] == Segments(p)[0][0];
    }
  }

  lemma RenderIsLong(segs: seq<string>)
    requires AllGood(segs) && segs != []
    ensures |Render(segs)| > 1 && segs[0] != "" && Render(segs)[1] == segs[0][0] && segs[0][0] in segs[0]
  {
    assert Good(segs[0]);
  }
}
