/** The names and cache keys of supervisor extraction. */
module SeedNames {
  import R = Records
  import opened Entries
  import opened Strings

  type Key = string

  predicate SafeChar(c: char) {
    'a' <= c <= 'z' || 'A' <= c <= 'Z' || '0' <= c <= '9' || c == '.' || c == '_' || c == '-'
  }

  /** An image reference as a directory name component. */
  function SanitizeRef(ref: string): (r: string)
    ensures |r| == |ref| && forall i :: 0 <= i < |r| ==> SafeChar(r[i]) && r[i] == (if SafeChar(ref[i]) then ref[i] else '-')
  {
    seq(|ref|, i requires 0 <= i < |ref| => if SafeChar(ref[i]) then ref[i] else '-')
  }

  function TrimPrefix(s: string, p: string): string {
    if p <= s then s[|p|..] else s
  }

  function ShortDigest(digest: string): (r: string)
    ensures 1 <= |r| <= 12
  {
    var d := TrimPrefix(digest, "sha256:");
    if d == "" then "nodigest" else if |d| > 12 then d[..12] else d
  }

  function CacheKey(image: string, digest: string): Key {
    SanitizeRef(image) + ("-" + ShortDigest(digest))
  }

  /** Characters that sanitizing does not tell apart. */
  predicate Dashed(c: char) {
    c == '-' || !SafeChar(c)
  }

  predicate Alike(a: string, b: string) {
    |a| == |b| && forall i :: 0 <= i < |a| ==> a[i] == b[i] || (Dashed(a[i]) && Dashed(b[i]))
  }

  lemma SanitizesAlike(a: string, b: string)
    ensures SanitizeRef(a) == SanitizeRef(b) <==> Alike(a, b)
  {
    if Alike(a, b) {
      assert forall i :: 0 <= i < |a| ==> SanitizeRef(a)[i] == SanitizeRef(b)[i];
    }
    if SanitizeRef(a) == SanitizeRef(b) {
      assert |a| == |SanitizeRef(a)| == |b|;
      forall i | 0 <= i < |a| ensures a[i] == b[i] || (Dashed(a[i]) && Dashed(b[i])) {
        assert SanitizeRef(a)[i] == SanitizeRef(b)[i];
      }
    }
  }

  /** Digests whose place in a key is plain: as long as each other, or free of dashes as
      hexadecimal ones are. */
  predicate Comparable(x: string, y: string) {
    |x| == |y| || ('-' !in x && '-' !in y)
  }

  lemma KeyParts(a: string, x: string, b: string, y: string)
    requires Comparable(x, y)
    ensures a + ("-" + x) == b + ("-" + y) <==> a == b && x == y
  {
    var p, q := a + ("-" + x), b + ("-" + y);
    if p == q {
      if '-' !in x && '-' !in y {
        LastIndexIs(a, '-', x);
        LastIndexIs(b, '-', y);
      }
      assert |a| == |b|;
      assert a == p[..|a|] && b == q[..|b|] && x == p[|a| + 1..] && y == q[|b| + 1..];
    }
  }

  lemma ShortOf(hex: string)
    requires |hex| >= 12
    ensures ShortDigest("sha256:" + hex) == hex[..12]
  {
    assert ("sha256:" + hex)[|"sha256:"|..] == hex;
    assert |hex| == 12 ==> hex[..12] == hex;
  }

  /** Two images share a cache key if and only if their short digests are equal and their
      references differ at most where both have a dash or an unsafe character. */
  lemma CacheKeysClashIff(a: string, d: string, b: string, e: string)
    requires Comparable(ShortDigest(d), ShortDigest(e))
    ensures CacheKey(a, d) == CacheKey(b, e) <==> ShortDigest(d) == ShortDigest(e) && Alike(a, b)
  {
    KeyParts(SanitizeRef(a), ShortDigest(d), SanitizeRef(b), ShortDigest(e));
    SanitizesAlike(a, b);
  }

  /** Of real digests, keys tell the first twelve digits apart and nothing after them. */
  lemma DigestKeysClashIff(a: string, x: string, b: string, y: string)
    requires |x| >= 12 && |y| >= 12
    ensures CacheKey(a, "sha256:" + x) == CacheKey(b, "sha256:" + y) <==> x[..12] == y[..12] && Alike(a, b)
  {
    ShortOf(x);
    ShortOf(y);
    CacheKeysClashIff(a, "sha256:" + x, b, "sha256:" + y);
  }

  /** The unique part of an extraction attempt's names. */
  function UniqText(digest: string, pid: nat, n: nat): string {
    ShortDigest(digest) + ("-" + (Digits(pid) + ("-" + Digits(n))))
  }

  const EXTRACT := "extract-"

  /** The extraction container of an attempt: process id and attempt number count from one. */
  function ExtractName(digest: string, pid: nat, n: nat): string {
    (R.NAME_PREFIX + EXTRACT) + UniqText(digest, pid, n)
  }

  predicate Counting(s: string) {
    var n := ParseDigits(s);
    n.Some? && n.value > 0 && Digits(n.value) == s
  }

  /** A short digest, a process id and an attempt number. */
  predicate LooksUnique(t: string) {
    match SplitLast(t, '-')
    case None => false
    case Some(p) =>
      Counting(p.right) &&
      match SplitLast(p.left, '-')
      case None => false
      case Some(q) => 1 <= |q.left| <= 12 && Counting(q.right)
  }

  lemma DigitsCount(n: nat)
    requires n > 0
    ensures Counting(Digits(n)) && '-' !in Digits(n)
  {
    DigitsOnly(n);
    DigitsRoundTrip(n);
  }

  lemma UniqLooksUnique(digest: string, pid: nat, n: nat)
    requires pid > 0 && n > 0
    ensures LooksUnique(UniqText(digest, pid, n))
  {
    DigitsCount(pid);
    DigitsCount(n);
    TwoSplits(ShortDigest(digest), Digits(pid), Digits(n));
  }

  lemma TwoSplits(x: string, y: string, z: string)
    requires '-' !in y && '-' !in z
    ensures SplitLast(x + ("-" + (y + ("-" + z))), '-') == Some(Pair(x + ("-" + y), z))
    ensures SplitLast(x + ("-" + y), '-') == Some(Pair(x, y))
  {
    assert x + ("-" + (y + ("-" + z))) == (x + ("-" + y)) + ("-" + z);
    SplitLastIs(x + ("-" + y), '-', z);
    SplitLastIs(x, '-', y);
  }

  lemma AnyShortDigest(x: string)
    requires 1 <= |x| <= 12
    ensures ShortDigest("sha256:" + x) == x
  {
    assert ("sha256:" + x)[|"sha256:"|..] == x;
  }

  ghost predicate IsUniqText(t: string) {
    exists digest, pid: nat, n: nat :: pid > 0 && n > 0 && UniqText(digest, pid, n) == t
  }

  lemma PartsAreUniq(x: string, y: string, z: string)
    requires 1 <= |x| <= 12 && Counting(y) && Counting(z)
    ensures IsUniqText(x + ("-" + (y + ("-" + z))))
  {
    AnyShortDigest(x);
    assert UniqText("sha256:" + x, ParseDigits(y).value, ParseDigits(z).value) == x + ("-" + (y + ("-" + z)));
  }

  lemma Regroup(x: string, y: string, z: string)
    ensures (x + ("-" + y)) + ("-" + z) == x + ("-" + (y + ("-" + z)))
  {
  }

  lemma LooksUniqueIsUniq(t: string)
    requires LooksUnique(t)
    ensures IsUniqText(t)
  {
    var p := SplitLast(t, '-').value;
    var q := SplitLast(p.left, '-').value;
    PartsAreUniq(q.left, q.right, p.right);
    Regroup(q.left, q.right, p.right);
  }

  /** Extraction containers do share the sandboxes' namespace: some extraction's name is the
      VM name of a sandbox id exactly when the id is "extract-" followed by a short digest,
      a process id and an attempt number. */
  lemma ExtractionNameClash(id: R.Id)
    ensures (exists digest, pid: nat, n: nat :: pid > 0 && n > 0 && ExtractName(digest, pid, n) == R.ContainerName(id))
       <==> EXTRACT <= id && LooksUnique(id[|EXTRACT|..])
  {
    if EXTRACT <= id && LooksUnique(id[|EXTRACT|..]) { ClashIsReal(id); }
    if digest, pid: nat, n: nat :| pid > 0 && n > 0 && ExtractName(digest, pid, n) == R.ContainerName(id) {
      ClashLooksSo(digest, pid, n, id);
    }
  }

  lemma ClashIsReal(id: R.Id)
    requires EXTRACT <= id && LooksUnique(id[|EXTRACT|..])
    ensures exists digest, pid: nat, n: nat :: pid > 0 && n > 0 && ExtractName(digest, pid, n) == R.ContainerName(id)
  {
    LooksUniqueIsUniq(id[|EXTRACT|..]);
    var digest, pid: nat, n: nat :| pid > 0 && n > 0 && UniqText(digest, pid, n) == id[|EXTRACT|..];
    assert id == EXTRACT + UniqText(digest, pid, n);
    NameParts(UniqText(digest, pid, n), id);
    assert ExtractName(digest, pid, n) == R.ContainerName(id);
  }

  lemma ClashLooksSo(digest: string, pid: nat, n: nat, id: R.Id)
    requires pid > 0 && n > 0 && ExtractName(digest, pid, n) == R.ContainerName(id)
    ensures EXTRACT <= id && LooksUnique(id[|EXTRACT|..])
  {
    var u := UniqText(digest, pid, n);
    NameParts(u, id);
    assert (EXTRACT + u)[|EXTRACT|..] == u;
    UniqLooksUnique(digest, pid, n);
  }

  lemma NameParts(u: string, id: R.Id)
    ensures (R.NAME_PREFIX + EXTRACT) + u == R.ContainerName(id) <==> id == EXTRACT + u
  {
    var p, q := R.NAME_PREFIX, EXTRACT + u;
    assert (p + EXTRACT) + u == p + q;
    assert (p + q)[|p|..] == q && (p + id)[|p|..] == id;
  }

  /** A gateway may well use such an id. */
  lemma ClashingIdIsValid()
    ensures var id := EXTRACT + UniqText("", 7, 1); R.ValidId(id) && ExtractName("", 7, 1) == R.ContainerName(id)
  {
    var id := EXTRACT + UniqText("", 7, 1);
    NameParts(UniqText("", 7, 1), id);
    assert Digits(7) == "7" && Digits(1) == "1";
    assert UniqText("", 7, 1) == "nodigest" + ("-" + ("7" + ("-" + "1")));
    forall i | 0 <= i < |id| ensures R.IdChar(id[i]) {
      assert forall c <- EXTRACT :: R.IdChar(c);
      assert forall c <- "nodigest" :: R.IdChar(c);
      assert id[i] in id;
    }
    assert |id| == 20 && id[0] == 'e';
  }

  /** For example, a slash and a colon. */
  lemma CacheKeysCanClash(digest: string)
    ensures CacheKey("a/b", digest) == CacheKey("a:b", digest)
  {
    CacheKeysClashIff("a/b", digest, "a:b", digest);
  }
}
