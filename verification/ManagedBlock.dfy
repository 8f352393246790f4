/** The managed block setup keeps in the user's gateway.env file. */
module ManagedBlock {
  import opened Text

  /** The begin and end marker lines. */
  datatype Markers = Markers(begin: string, end: string)

  const BLOCK_NAME := " openshell-driver-applecontainer setup "
  const MARKERS := Markers("# " + ">>>" + BLOCK_NAME + ">>>", "# " + "<<<" + BLOCK_NAME + "<<<")

  /** Its first character comes nowhere else in it, so it does not overlap itself. */
  predicate Anchored(p: string) {
    p != "" && forall k :: 0 < k < |p| ==> p[k] != p[0]
  }

  /** All the editor relies on: two different one-line texts of the same length, with one
      first character that comes nowhere else in them. */
  predicate Usable(m: Markers) {
    && OneLine(m.begin) && OneLine(m.end) && |m.begin| == |m.end| && m.begin != m.end
    && Anchored(m.begin) && Anchored(m.end) && m.begin[0] == m.end[0]
  }

  lemma NameIsOneLine()
    ensures OneLine(BLOCK_NAME) && '#' !in BLOCK_NAME
  {
  }

  lemma HashLeads(arrows: string)
    requires '#' !in arrows
    ensures Anchored("# " + arrows + BLOCK_NAME + arrows) && ("# " + arrows + BLOCK_NAME + arrows)[0] == '#'
  {
    NameIsOneLine();
    var p, rest := "# " + arrows + BLOCK_NAME + arrows, " " + arrows + BLOCK_NAME + arrows;
    assert p == "#" + rest && '#' !in rest;
  }

  lemma MarkersAreUsable()
    ensures Usable(MARKERS)
  {
    NameIsOneLine();
    assert MARKERS.begin[2] == ">>>"[0] && MARKERS.end[2] == "<<<"[0];
    HashLeads(">>>");
    HashLeads("<<<");
  }

  /** The text after the block's end marker, without its line ending (LF or CRLF). */
  function AfterBlock(rest: string): string {
    TrimPrefix(TrimPrefix(rest, '\r'), '\n')
  }

  /** The text around a block put together again; blank text before it is dropped. */
  function Rejoin(head: string, rest: string): (r: string)
    ensures |r| <= |head| + |rest|
  {
    if Blank(head) then rest else head + rest
  }

  /** The text with every managed block removed; a block without an end marker takes
      the rest of the file with it. */
  function Remove(m: Markers, s: string): string
    requires Usable(m)
    decreases |s|
  {
    match CutAt(s, m.begin)
    case Whole => s
    case Around(head, tail) =>
      match CutAt(m.begin + tail, m.end)
      case Whole => TrimRightNewlines(head) + "\n"
      case Around(_, rest) => Remove(m, Rejoin(head, AfterBlock(rest)))
  }

  method RemoveManagedBlock(m: Markers, text: string) returns (r: string)
    requires Usable(m)
    ensures r == Remove(m, text)
  {
    var existing := text;
    while true
      invariant Remove(m, existing) == Remove(m, text)
      decreases |existing|
    {
      var begin := CutAt(existing, m.begin);
      if begin.Whole? { return existing; }
      var end := CutAt(m.begin + begin.tail, m.end);
      if end.Whole? { return TrimRightNewlines(begin.head) + "\n"; }
      var rest := AfterBlock(end.tail);
      existing := if Blank(begin.head) then rest else begin.head + rest;
    }
  }

  function Body(m: Markers, lines: seq<string>): string {
    m.begin + "\n" + Join(lines) + "\n" + m.end + "\n"
  }

  /** A text made ready for a block to follow it. */
  function Ready(stripped: string): string {
    if Blank(stripped) then "" else if Closed(stripped) then stripped else stripped + "\n"
  }

  function Upsert(m: Markers, existing: string, lines: seq<string>): string
    requires Usable(m)
  {
    Ready(Remove(m, existing)) + Body(m, lines)
  }

  method UpsertManagedBlock(m: Markers, existing: string, lines: seq<string>) returns (r: string)
    requires Usable(m)
    ensures r == Upsert(m, existing, lines)
  {
    var body := m.begin + "\n" + Join(lines) + "\n" + m.end + "\n";
    var stripped := RemoveManagedBlock(m, existing);
    if Blank(stripped) { return body; }
    if stripped[|stripped| - 1] != '\n' { stripped := stripped + "\n"; }
    return stripped + body;
  }

  // ------------------------------------------------------------------- removal

  /** The result never contains the begin marker, even where joining the text before
      and after a block forms a new one. */
  lemma {:induction false} RemoveRemoves(m: Markers, s: string)
    requires Usable(m)
    ensures Free(Remove(m, s), m.begin)
    decreases |s|
  {
    var c := CutAt(s, m.begin);
    if c.Around? {
      var d := CutAt(m.begin + c.tail, m.end);
      if d.Whole? {
        CutHeadIsFree(s, m.begin);
        FreePart(c.head, m.begin, TrimRightNewlines(c.head));
        ShortIsFree("", m.begin);
        FreeThenBreak(TrimRightNewlines(c.head), m.begin, "\n");
      } else {
        RemoveRemoves(m, Rejoin(c.head, AfterBlock(d.tail)));
      }
    }
  }

  lemma RemoveIdle(m: Markers, s: string)
    requires Usable(m)
    requires Free(s, m.begin)
    ensures Remove(m, s) == s
  {
    var c := CutAt(s, m.begin);
    if c.Around? { OccursBetween(c.head, m.begin, c.tail); }
  }

  lemma RemoveIsIdempotent(m: Markers, s: string)
    requires Usable(m)
    ensures Remove(m, Remove(m, s)) == Remove(m, s)
  {
    RemoveRemoves(m, s);
    RemoveIdle(m, Remove(m, s));
  }

  /** A well-formed block: `middle` is everything from the line ending after the begin
      marker to the one before the end marker. */
  datatype Block = Block(middle: string, eol: string)

  ghost predicate WellFormed(m: Markers, k: Block) {
    && k.middle != "" && (k.middle[0] == '\n' || k.middle[0] == '\r') && k.middle[|k.middle| - 1] == '\n'
    && Free(k.middle, m.end)
    && (k.eol == "\n" || k.eol == "\r\n")
  }

  function BlockText(m: Markers, k: Block): string {
    m.begin + Rest(m, k)
  }

  /** The block without its begin marker. */
  function Rest(m: Markers, k: Block): string {
    k.middle + m.end + k.eol
  }

  lemma OtherStart(p: string, rest: string, q: string)
    requires |p| == |q| && p != q
    ensures !OccursAt(p + rest, q, 0)
  {
    assert (p + rest)[0..|p|] == p;
  }

  /** Where the end marker of a well-formed block is found. */
  lemma EndOfBlock(m: Markers, k: Block, after: string)
    requires Usable(m)
    requires WellFormed(m, k)
    ensures CutAt(m.begin + (Rest(m, k) + after), m.end) == Around(m.begin + k.middle, k.eol + after)
  {
    var a := m.begin + k.middle;
    OtherStart(m.begin, k.middle, m.end);
    forall i: nat ensures !OccursAt(a, m.end, i) {
      if OccursAt(a, m.end, i) {
        assert a[|m.begin|] == k.middle[0];
        NoSpan(a, m.end, i, |m.begin|);
        OccursInPart(m.begin, k.middle, m.end, i);
      }
    }
    CutAfterClosed(a, m.end, k.eol + after);
    assert m.begin + (Rest(m, k) + after) == a + (m.end + (k.eol + after));
  }

  /** Removing the first block of a text. */
  lemma RemoveFirst(m: Markers, head: string, k: Block, after: string)
    requires Usable(m)
    requires WellFormed(m, k) && Closed(head) && Free(head, m.begin)
    ensures Remove(m, head + (BlockText(m, k) + after)) == Remove(m, Rejoin(head, after))
  {
    CutAfterClosed(head, m.begin, Rest(m, k) + after);
    assert BlockText(m, k) + after == m.begin + (Rest(m, k) + after);
    EndOfBlock(m, k, after);
    LineEndingGoes(k.eol, after);
  }

  lemma LineEndingGoes(eol: string, after: string)
    requires eol == "\n" || eol == "\r\n"
    ensures AfterBlock(eol + after) == after
  {
    if eol == "\n" {
      assert (eol + after)[1..] == after;
    } else {
      assert (eol + after)[1..] == "\n" + after;
      assert ("\n" + after)[1..] == after;
    }
  }

  /** texts[0] block[0] texts[1] ... block[k-1] texts[k] */
  function Weave(m: Markers, texts: seq<string>, blocks: seq<Block>): string
    requires |texts| == |blocks| + 1
  {
    if blocks == [] then texts[0]
    else texts[0] + (BlockText(m, blocks[0]) + Weave(m, texts[1..], blocks[1..]))
  }

  function Concat(texts: seq<string>): string {
    if texts == [] then "" else texts[0] + Concat(texts[1..])
  }

  lemma {:induction false} WeaveHead(m: Markers, t: string, texts: seq<string>, blocks: seq<Block>)
    requires Usable(m)
    requires |texts| == |blocks| + 1
    ensures Weave(m, [t + texts[0]] + texts[1..], blocks) == t + Weave(m, texts, blocks)
  {
    var joined := [t + texts[0]] + texts[1..];
    if blocks != [] {
      assert joined[1..] == texts[1..];
      var tail := BlockText(m, blocks[0]) + Weave(m, texts[1..], blocks[1..]);
      assert Weave(m, texts, blocks) == texts[0] + tail;
      assert Weave(m, joined, blocks) == (t + texts[0]) + tail;
    }
  }

  /** The texts from the first that holds something on; the last one always stays. */
  function Held(texts: seq<string>): seq<string>
    requires texts != []
    decreases |texts|
  {
    if |texts| > 1 && Blank(texts[0]) then Held(texts[1..]) else texts
  }

  /** Removing gives back exactly the text around any number of well-formed blocks, whatever
      mix of LF and CRLF they use, but for blank text before the first text that holds
      something. */
  lemma {:induction false} RemoveUnweaves(m: Markers, texts: seq<string>, blocks: seq<Block>)
    requires Usable(m)
    requires |texts| == |blocks| + 1
    requires forall i :: 0 <= i < |texts| ==> Closed(texts[i]) && Free(texts[i], m.begin)
    requires forall i :: 0 <= i < |blocks| ==> WellFormed(m, blocks[i])
    ensures Remove(m, Weave(m, texts, blocks)) == Concat(Held(texts))
    decreases |blocks|
  {
    if blocks == [] {
      RemoveIdle(m, texts[0]);
      assert Concat(texts[1..]) == "";
    } else {
      RemoveFirst(m, texts[0], blocks[0], Weave(m, texts[1..], blocks[1..]));
      if Blank(texts[0]) {
        RemoveUnweaves(m, texts[1..], blocks[1..]);
      } else {
        MergeFirst(m, texts, blocks[1..]);
        RemoveUnweaves(m, Merged(texts), blocks[1..]);
      }
    }
  }

  /** The texts with the first two joined. */
  function Merged(texts: seq<string>): seq<string>
    requires |texts| >= 2
  {
    [texts[0] + texts[1]] + texts[2..]
  }

  lemma MergedOk(m: Markers, texts: seq<string>)
    requires Usable(m) && |texts| >= 2 && !Blank(texts[0])
    requires forall i :: 0 <= i < |texts| ==> Closed(texts[i]) && Free(texts[i], m.begin)
    ensures !Blank(Merged(texts)[0])
    ensures forall i :: 0 <= i < |Merged(texts)| ==> Closed(Merged(texts)[i]) && Free(Merged(texts)[i], m.begin)
  {
    FreeConcat(texts[0], texts[1], m.begin);
    if Blank(texts[0] + texts[1]) { BlankPart(texts[0], texts[1]); }
  }

  /** What joining the first two texts changes, and what it keeps. */
  lemma MergeFirst(m: Markers, texts: seq<string>, blocks: seq<Block>)
    requires Usable(m) && |texts| == |blocks| + 2 && !Blank(texts[0])
    requires forall i :: 0 <= i < |texts| ==> Closed(texts[i]) && Free(texts[i], m.begin)
    ensures Weave(m, Merged(texts), blocks) == texts[0] + Weave(m, texts[1..], blocks)
    ensures Concat(Merged(texts)) == Concat(texts)
    ensures !Blank(Merged(texts)[0])
    ensures forall i :: 0 <= i < |Merged(texts)| ==> Closed(Merged(texts)[i]) && Free(Merged(texts)[i], m.begin)
  {
    MergedOk(m, texts);
    assert texts[1..][1..] == texts[2..];
    WeaveHead(m, texts[0], texts[1..], blocks);
    assert Concat(texts) == texts[0] + (texts[1] + Concat(texts[2..]));
    assert Merged(texts)[1..] == texts[2..];
  }

  // ----------------------------------------------------------- a damaged block

  predicate IsBreak(c: char) {
    c == '\r' || c == '\n'
  }

  /** Ends in no line break. */
  predicate Trimmed(p: string) {
    p == "" || !IsBreak(p[|p| - 1])
  }

  predicate Breaks(s: string) {
    forall c <- s :: IsBreak(c)
  }

  lemma {:induction false} TrimsBreaks(p: string, breaks: string)
    requires Trimmed(p) && Breaks(breaks)
    ensures TrimRightNewlines(p + breaks) == p
    decreases |breaks|
  {
    if breaks == "" {
      assert p + breaks == p;
    } else {
      var init, last := breaks[..|breaks| - 1], breaks[|breaks| - 1];
      assert last in breaks && forall c <- init :: c in breaks;
      assert (p + breaks)[..|p + breaks| - 1] == p + init;
      TrimsBreaks(p, init);
    }
  }

  /** An occurrence that does not overlap itself is found where it was put. */
  lemma AnchoredCut(head: string, p: string, tail: string)
    requires Anchored(p) && Free(head, p)
    ensures CutAt(head + (p + tail), p) == Around(head, tail)
  {
    var s := head + (p + tail);
    forall j: nat | j < |head| ensures !OccursAt(s, p, j) {
      if OccursAt(s, p, j) {
        OccursInPart(head, p + tail, p, j);
        assert s[|head|] == p[0];
        CharOfOccurrence(s, p, j, |head|);
      }
    }
    CutIs(head, p, tail);
  }

  lemma NoEnd(m: Markers, tail: string)
    requires Usable(m) && Free(tail, m.end)
    ensures CutAt(m.begin + tail, m.end) == Whole
  {
    var s := m.begin + tail;
    OtherStart(m.begin, tail, m.end);
    forall i: nat ensures !OccursAt(s, m.end, i) {
      if OccursAt(s, m.end, i) {
        OccursInPart(m.begin, tail, m.end, i);
        if 0 < i < |m.begin| { CharOfOccurrence(s, m.end, i, i); }
      }
    }
    var c := CutAt(s, m.end);
    if c.Around? { OccursBetween(c.head, m.end, c.tail); }
  }

  /** A block without an end marker takes the rest of the file with it and nothing before it:
      of the text before the begin marker only its last line breaks change, into one newline. */
  lemma DamagedBlockIsCut(m: Markers, p: string, breaks: string, tail: string)
    requires Usable(m) && Trimmed(p) && Breaks(breaks)
    requires Free(p + breaks, m.begin) && Free(tail, m.end)
    ensures Remove(m, (p + breaks) + (m.begin + tail)) == p + "\n"
  {
    AnchoredCut(p + breaks, m.begin, tail);
    NoEnd(m, tail);
    TrimsBreaks(p, breaks);
  }

  // -------------------------------------------------------------------- upsert

  ghost predicate MarkerFree(m: Markers, lines: seq<string>) {
    forall i :: 0 <= i < |lines| ==> Free(lines[i], m.begin) && Free(lines[i], m.end)
  }

  function AsBlock(lines: seq<string>): Block {
    Block("\n" + Join(lines) + "\n", "\n")
  }

  /** A marker-free joined text between line breaks stays free. */
  lemma MiddleFree(lines: seq<string>, p: string)
    requires OneLine(p) && forall i :: 0 <= i < |lines| ==> Free(lines[i], p)
    ensures Free(AsBlock(lines).middle, p)
  {
    JoinFree(lines, p);
    ShortIsFree("", p);
    FreeThenBreak(Join(lines), p, "\n");
    var m := "\n" + (Join(lines) + "\n");
    assert m[1..] == Join(lines) + "\n";
    FreeThenBreak("", p, m);
    assert "" + m == m == AsBlock(lines).middle;
  }

  lemma BodyIsBlock(m: Markers, lines: seq<string>)
    requires Usable(m)
    requires MarkerFree(m, lines)
    ensures WellFormed(m, AsBlock(lines)) && Body(m, lines) == BlockText(m, AsBlock(lines))
  {
    MiddleFree(lines, m.end);
  }

  lemma ReadyIsReady(m: Markers, s: string)
    requires Usable(m)
    requires Free(s, m.begin)
    ensures Closed(Ready(s)) && Free(Ready(s), m.begin) && (Blank(Ready(s)) ==> Ready(s) == "")
    ensures Ready(Ready(s)) == Ready(s)
  {
    ShortIsFree("", m.begin);
    if !Blank(s) && !Closed(s) {
      FreeThenBreak(s, m.begin, "\n");
      if Blank(s + "\n") { BlankPart(s, "\n"); }
    }
  }

  /** Removing the block that an upsert wrote gives back the text it was added to. */
  lemma RemoveUndoesUpsert(m: Markers, x: string, lines: seq<string>)
    requires Usable(m)
    requires MarkerFree(m, lines)
    ensures Remove(m, Upsert(m, x, lines)) == Ready(Remove(m, x))
  {
    var head := Ready(Remove(m, x));
    RemoveRemoves(m, x);
    ReadyIsReady(m, Remove(m, x));
    BodyIsBlock(m, lines);
    RemoveFirst(m, head, AsBlock(lines), "");
    assert BlockText(m, AsBlock(lines)) + "" == Body(m, lines);
    assert head + "" == head;
    ShortIsFree("", m.begin);
    RemoveIdle(m, if Blank(head) then "" else head);
  }

  /** The last upsert wins: re-running setup leaves no trace of the earlier run. */
  lemma UpsertReplaces(m: Markers, x: string, first: seq<string>, second: seq<string>)
    requires Usable(m)
    requires MarkerFree(m, first)
    ensures Upsert(m, Upsert(m, x, first), second) == Upsert(m, x, second)
  {
    RemoveUndoesUpsert(m, x, first);
    RemoveRemoves(m, x);
    ReadyIsReady(m, Remove(m, x));
  }

  /** For a text that holds something and has no block, removing after an upsert gives
      the text back, newline-terminated. */
  lemma UpsertThenRemove(m: Markers, x: string, lines: seq<string>)
    requires Usable(m)
    requires MarkerFree(m, lines) && !Blank(x) && Free(x, m.begin)
    ensures Remove(m, Upsert(m, x, lines)) == if Closed(x) then x else x + "\n"
  {
    RemoveUndoesUpsert(m, x, lines);
    RemoveIdle(m, x);
  }

  /** Setup repairs a damaged file: what comes before the block is kept, the block is new. */
  lemma UpsertRepairs(m: Markers, p: string, breaks: string, tail: string, lines: seq<string>)
    requires Usable(m) && Trimmed(p) && Breaks(breaks)
    requires Free(p + breaks, m.begin) && Free(tail, m.end)
    ensures Upsert(m, (p + breaks) + (m.begin + tail), lines) == (if Blank(p) then "" else p + "\n") + Body(m, lines)
  {
    DamagedBlockIsCut(m, p, breaks, tail);
    if Blank(p + "\n") { BlankPart(p, "\n"); }
    if Blank(p) { assert forall c <- p + "\n" :: c in p || c == '\n'; }
  }

  lemma TailFree(m: Markers, lines: seq<string>)
    requires Usable(m)
    requires MarkerFree(m, lines)
    ensures Free("\n" + Join(lines) + "\n" + m.end + "\n", m.begin)
  {
    var u := m.end + "\n";
    OtherStart(m.end, "\n", m.begin);
    forall i: nat ensures !OccursAt(u, m.begin, i) {
      if OccursAt(u, m.begin, i) {
        assert u[|m.end|] == '\n';
        NoSpan(u, m.begin, i, |m.end|);
      }
    }
    MiddleFree(lines, m.begin);
    FreeConcat(AsBlock(lines).middle, u, m.begin);
    assert AsBlock(lines).middle + u == "\n" + Join(lines) + "\n" + m.end + "\n";
  }

  /** After an upsert the file holds exactly one begin marker, at the start of the
      block that was written. */
  lemma ExactlyOneBlock(m: Markers, x: string, lines: seq<string>, i: nat)
    requires Usable(m)
    requires MarkerFree(m, lines)
    ensures OccursAt(Upsert(m, x, lines), m.begin, i) <==> i == |Ready(Remove(m, x))|
  {
    var head := Ready(Remove(m, x));
    var tail := "\n" + Join(lines) + "\n" + m.end + "\n";
    var s := head + (m.begin + tail);
    RemoveRemoves(m, x);
    ReadyIsReady(m, Remove(m, x));
    assert Body(m, lines) == m.begin + tail;
    assert Upsert(m, x, lines) == s;
    
    OccursBetween(head, m.begin, tail);
    CutAfterClosed(head, m.begin, tail);
    TailFree(m, lines);
    if i > |head| { NoneAfter(head, m.begin, tail, i); }
  }

  lemma NoneAfter(head: string, p: string, tail: string, i: nat)
    requires OneLine(p) && tail != "" && tail[0] == '\n' && Free(tail, p) && i > |head|
    ensures !OccursAt(head + (p + tail), p, i)
  {
    var s := head + (p + tail);
    assert s == head + p + tail && s[|head + p|] == '\n';
    if OccursAt(s, p, i) {
      NoSpan(s, p, i, |head + p|);
      OccursInPart(head + p, tail, p, i);
    }
  }
}
