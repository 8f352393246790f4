/** The supervisor extractor: a file cache filled through a transient container,
    with a lock-free fast path, a mutex around the slow path, and an atomic rename.
    Any number of callers run concurrently, every runtime and file operation may fail,
    and the process may crash at any step; files and containers survive the crash. */
module Extractor {
  import opened Entries
  import opened SeedNames

  type Tid = nat
  type Bytes = seq<bv8>

  // --------------------------------------------------------------- the protocol

  predicate IsElf(b: Bytes) {
    |b| >= 4 && b[0] == 0x7f && b[1] == 0x45 && b[2] == 0x4c && b[3] == 0x46
  }

  /** Process id and sequence number: the unique part of container and temp names. */
  datatype Uniq = Uniq(pid: nat, n: nat)

  datatype Pc =
    | FastStat | Lock
    | SlowStat | MakeDir | RunContainer | Copy | Validate | Chmod | Rename
    | RemoveTemp | DeleteContainer | Unlock
    | Returned

  /** One call of Ensure.  `named` is the binary of the image whose digest it read, `source`
      the binary of the image its container ran: the tag may have moved in between.  `ran`,
      `copied` and `cleared` are history: its container was started, its copy succeeded, its
      container was deleted. */
  datatype Call = Call(key: Key, named: Bytes, source: Bytes, pc: Pc, uniq: Uniq, ran: bool, attempted: bool, ok: bool,
                       copied: bool, cleared: bool)

  datatype State = State(
    cached: map<Key, Bytes>,
    temps: map<Uniq, Bytes>,
    containers: set<Uniq>,
    lock: Option<Tid>,
    calls: map<Tid, Call>,
    pid: nat,
    next: nat,
    named: set<(Key, Bytes)>,        // history: what the images held whose digests were read
    sources: set<(Key, Bytes)>,      // history: what the containers held that were run
    filled: map<Key, Filling>,       // history: the extraction that filled the cache
    extractions: map<Key, nat>)      // history: containers started per key

  datatype Filling = Filling(named: Bytes, source: Bytes)

  const COLD := State(map[], map[], {}, None, map[], 0, 0, {}, {}, map[], map[])

  datatype Act =
    | StatHit | StatMiss | Acquire
    | DirMade | Started(source: Bytes) | Copied | CopiedPart(n: nat) | ElfFine | Chmodded | Renamed
    | Fails(partial: bool)  // the current operation reports an error
    | TempRemoved | ContainerDeleted(gone: bool) | Unlocks

  predicate Critical(pc: Pc) {
    !(pc == FastStat || pc == Lock || pc == Returned)
  }

  predicate CanAct(s: State, t: Tid, a: Act) {
    && t in s.calls
    && var c := s.calls[t];
    match a
    case StatHit => (c.pc == FastStat || c.pc == SlowStat) && c.key in s.cached
    case StatMiss => (c.pc == FastStat || c.pc == SlowStat) && c.key !in s.cached
    case Acquire => c.pc == Lock && s.lock == None
    case DirMade => c.pc == MakeDir
    case Started(_) => c.pc == RunContainer
    case Copied => c.pc == Copy
    case CopiedPart(n) => c.pc == Copy && n <= |c.source|
    case ElfFine => c.pc == Validate && c.uniq in s.temps && IsElf(s.temps[c.uniq])
    case Chmodded => c.pc == Chmod
    case Renamed => c.pc == Rename && c.uniq in s.temps
    case Fails(_) => c.pc == MakeDir || c.pc == RunContainer || c.pc == Copy || c.pc == Validate || c.pc == Chmod || c.pc == Rename
    case TempRemoved => c.pc == RemoveTemp
    case ContainerDeleted(_) => c.pc == DeleteContainer
    case Unlocks => c.pc == Unlock
  }

  function CallAt(s: State, t: Tid, c: Call): State {
    s.(calls := s.calls[t := c])
  }

  function Count(s: State, k: Key): nat {
    if k in s.extractions then s.extractions[k] else 0
  }

  function DoAct(s: State, t: Tid, a: Act): State
    requires CanAct(s, t, a)
  {
    var c := s.calls[t];
    match a
    case StatHit => CallAt(s, t, c.(ok := true, pc := if c.pc == FastStat then Returned else Unlock))
    case StatMiss => CallAt(s, t, c.(pc := if c.pc == FastStat then Lock else MakeDir))
    case Acquire => CallAt(s.(lock := Some(t)), t, c.(pc := SlowStat))
    case DirMade => CallAt(s, t, c.(pc := RunContainer))
    case Started(source) =>
      var u := Uniq(s.pid, s.next);
      CallAt(s.(containers := s.containers + {u}, next := s.next + 1,
                sources := s.sources + {(c.key, source)}, extractions := s.extractions[c.key := Count(s, c.key) + 1]),
             t, c.(pc := Copy, uniq := u, ran := true, source := source))
    case Copied => CallAt(s.(temps := s.temps[c.uniq := c.source]), t, c.(pc := Validate, copied := true))
    case CopiedPart(n) => CallAt(s.(temps := s.temps[c.uniq := c.source[..n]]), t, c)
    case ElfFine => CallAt(s, t, c.(pc := Chmod))
    case Chmodded => CallAt(s, t, c.(pc := Rename))
    case Renamed =>
      CallAt(s.(cached := s.cached[c.key := s.temps[c.uniq]], temps := s.temps - {c.uniq},
                filled := s.filled[c.key := Filling(c.named, c.source)]), t,
             c.(pc := RemoveTemp, ok := true))
    case Fails(partial) =>
      // deferred clean-ups run only for the resources acquired so far
      var pc := if c.pc == MakeDir || c.pc == RunContainer then Unlock
                else if c.pc == Copy then DeleteContainer
                else RemoveTemp;
      var s' := if c.pc == RunContainer && partial
                then s.(containers := s.containers + {Uniq(s.pid, s.next)}, next := s.next + 1) else s;
      CallAt(s', t, c.(pc := pc))
    case TempRemoved => CallAt(s.(temps := s.temps - {c.uniq}), t, c.(pc := DeleteContainer))
    case ContainerDeleted(gone) =>
      CallAt(s.(containers := if gone then s.containers - {c.uniq} else s.containers), t, c.(pc := Unlock, attempted := true, cleared := gone))
    case Unlocks => CallAt(s.(lock := None), t, c.(pc := Returned))
  }

  datatype Step = Begin(t: Tid, key: Key, named: Bytes) | Run(u: Tid, act: Act) | Crash(pid: nat)

  predicate Enabled(s: State, st: Step) {
    match st
    case Begin(t, _, _) => t !in s.calls
    case Run(t, a) => CanAct(s, t, a)
    case Crash(_) => true
  }

  function Apply(s: State, st: Step): State
    requires Enabled(s, st)
  {
    match st
    case Begin(t, key, named) =>
      s.(calls := s.calls[t := Call(key, named, [], FastStat, Uniq(s.pid, 0), false, false, false, false, false)],
         named := s.named + {(key, named)})
    case Run(t, a) => DoAct(s, t, a)
    case Crash(pid) => s.(lock := None, calls := map[], pid := pid, next := 0)
  }

  datatype History = History(states: seq<State>, steps: seq<Step>)

  ghost predicate IsHistory(h: History) {
    && |h.states| == |h.steps| + 1 && h.states[0] == COLD
    && forall i :: 0 <= i < |h.steps| ==> Enabled(h.states[i], h.steps[i]) && h.states[i + 1] == Apply(h.states[i], h.steps[i])
  }

  // ------------------------------------------------------------------ invariant

  predicate Extracting(pc: Pc) {
    pc == Copy || pc == Validate || pc == Chmod || pc == Rename
  }

  /** Past the second look at the cache, and not yet through with the extraction. */
  predicate Missing(pc: Pc) {
    pc == MakeDir || pc == RunContainer || Extracting(pc)
  }

  /** What a call in each position knows of the files it works on. */
  ghost predicate CallOk(s: State, t: Tid)
    requires t in s.calls
  {
    var c := s.calls[t];
    && (c.key, c.named) in s.named
    && (c.ran ==> (c.key, c.source) in s.sources)
    && (Missing(c.pc) ==> c.key !in s.cached)
    && (Extracting(c.pc) ==> c.ran)
    && (Critical(c.pc) <==> s.lock == Some(t))
    && (c.pc == FastStat || c.pc == Lock || c.pc == SlowStat || c.pc == MakeDir || c.pc == RunContainer ==> !c.ran)
    && (c.pc == Validate || c.pc == Chmod || c.pc == Rename ==> c.uniq in s.temps && s.temps[c.uniq] == c.source)
    && (c.pc == Chmod || c.pc == Rename ==> IsElf(c.source))
    && (c.pc == Unlock || c.pc == Returned ==> (c.ran ==> c.attempted))
  }

  ghost predicate KeyOk(s: State, k: Key)
    requires k in s.cached
  {
    && IsElf(s.cached[k]) && (k, s.cached[k]) in s.sources
    && k in s.filled && s.filled[k].source == s.cached[k] && (k, s.filled[k].named) in s.named
  }

  ghost predicate Inv(s: State) {
    && (forall k :: k in s.cached ==> KeyOk(s, k))
    && (forall t :: t in s.calls ==> CallOk(s, t))
    && (s.lock.Some? ==> s.lock.value in s.calls)
  }

  lemma OwnCall(s: State, t: Tid, a: Act)
    requires CanAct(s, t, a) && CallOk(s, t)
    ensures CallOk(DoAct(s, t, a), t)
  {
    if a.StatHit? || a.StatMiss? || a.Acquire? || a.DirMade? || a.Started? {
      OwnCallBefore(s, t, a);
    } else {
      OwnCallWithin(s, t, a);
    }
  }

  lemma OwnCallBefore(s: State, t: Tid, a: Act)
    requires CanAct(s, t, a) && CallOk(s, t)
    requires a.StatHit? || a.StatMiss? || a.Acquire? || a.DirMade? || a.Started?
    ensures CallOk(DoAct(s, t, a), t)
  {
  }

  lemma OwnCallWithin(s: State, t: Tid, a: Act)
    requires CanAct(s, t, a) && CallOk(s, t)
    requires !(a.StatHit? || a.StatMiss? || a.Acquire? || a.DirMade? || a.Started?)
    ensures CallOk(DoAct(s, t, a), t)
  {
    if a.Fails? { OwnCallFails(s, t, a); }
    if a.TempRemoved? || a.ContainerDeleted? || a.Unlocks? { OwnCallEnding(s, t, a); }
  }

  lemma OwnCallEnding(s: State, t: Tid, a: Act)
    requires CanAct(s, t, a) && CallOk(s, t)
    requires a.TempRemoved? || a.ContainerDeleted? || a.Unlocks?
    ensures CallOk(DoAct(s, t, a), t)
  {
    if a.Unlocks? { OwnCallUnlocks(s, t); }
  }

  lemma OwnCallUnlocks(s: State, t: Tid)
    requires CanAct(s, t, Unlocks) && CallOk(s, t)
    ensures CallOk(DoAct(s, t, Unlocks), t)
  {
  }

  lemma OwnCallFails(s: State, t: Tid, a: Act)
    requires CanAct(s, t, a) && CallOk(s, t) && a.Fails?
    ensures CallOk(DoAct(s, t, a), t)
  {
    var s' := DoAct(s, t, a);
    assert s'.temps == s.temps && s'.lock == s.lock && s'.cached == s.cached && s'.named == s.named && s'.sources == s.sources;
  }

  /** Only the lock holder touches temporary files, the cache or the lock. */
  lemma OtherCall(s: State, t: Tid, a: Act, u: Tid)
    requires CanAct(s, t, a) && CallOk(s, t) && u in s.calls && u != t && CallOk(s, u)
    ensures CallOk(DoAct(s, t, a), u)
  {
  }

  lemma ActKeepsInv(s: State, t: Tid, a: Act)
    requires Inv(s) && CanAct(s, t, a)
    ensures Inv(DoAct(s, t, a))
  {
    var s' := DoAct(s, t, a);
    forall u | u in s'.calls ensures CallOk(s', u) {
      if u == t { OwnCall(s, t, a); } else { OtherCall(s, t, a, u); }
    }
    forall k | k in s'.cached ensures KeyOk(s', k) { KeyKept(s, t, a, k); }
    assert CallOk(s, t);
  }

  lemma KeyKept(s: State, t: Tid, a: Act, k: Key)
    requires Inv(s) && CanAct(s, t, a) && k in DoAct(s, t, a).cached
    ensures KeyOk(DoAct(s, t, a), k)
  {
    assert CallOk(s, t);
    if k in s.cached { assert KeyOk(s, k); }
  }

  lemma StepKeepsInv(s: State, st: Step)
    requires Inv(s) && Enabled(s, st)
    ensures Inv(Apply(s, st))
  {
    match st
    case Run(t, a) => ActKeepsInv(s, t, a);
    case Begin(t, _, _) =>
      forall u | u in s.calls ensures CallOk(Apply(s, st), u) { assert CallOk(s, u); }
    case Crash(_) =>
  }

  lemma {:induction false} HistoriesAreSafe(h: History, i: nat)
    requires IsHistory(h) && i < |h.states|
    ensures Inv(h.states[i])
  {
    if i > 0 {
      HistoriesAreSafe(h, i - 1);
      StepKeepsInv(h.states[i - 1], h.steps[i - 1]);
    }
  }

  /** At every point of every history, crashes included, a cached path is absent or
      holds the complete binary of an image that was run for that key, checked to be ELF. */
  lemma CacheIsSound(h: History, i: nat, k: Key)
    requires IsHistory(h) && i < |h.states| && k in h.states[i].cached
    ensures IsElf(h.states[i].cached[k]) && (k, h.states[i].cached[k]) in h.states[i].sources
  {
    HistoriesAreSafe(h, i);
  }

  /** Two calls are never both between lock and unlock, so extractions never overlap;
      and a call that started a container has tried to delete it before it unlocks. */
  lemma ExtractionsExclude(h: History, i: nat, t: Tid, u: Tid)
    requires IsHistory(h) && i < |h.states| && t in h.states[i].calls && u in h.states[i].calls
    ensures Critical(h.states[i].calls[t].pc) && Critical(h.states[i].calls[u].pc) ==> t == u
    ensures h.states[i].calls[t].pc == Unlock && h.states[i].calls[t].ran ==> h.states[i].calls[t].attempted
  {
    HistoriesAreSafe(h, i);
    assert CallOk(h.states[i], t) && CallOk(h.states[i], u);
  }

  /** What a call that reports success has found. */
  ghost predicate OkCached(s: State) {
    forall t :: t in s.calls && s.calls[t].ok ==> s.calls[t].key in s.cached
  }

  lemma OkCachedStep(s: State, st: Step)
    requires Inv(s) && OkCached(s) && Enabled(s, st)
    ensures OkCached(Apply(s, st))
  {
    var s' := Apply(s, st);
    forall t | t in s'.calls && s'.calls[t].ok ensures s'.calls[t].key in s'.cached {
      if st.Run? { OkKept(s, st.u, st.act, t); }
    }
  }

  lemma OkKept(s: State, u: Tid, a: Act, t: Tid)
    requires OkCached(s) && CanAct(s, u, a) && t in DoAct(s, u, a).calls && DoAct(s, u, a).calls[t].ok
    ensures DoAct(s, u, a).calls[t].key in DoAct(s, u, a).cached
  {
    OkSource(s, u, a, t);
    OnlyRenameFills(s, u, a);
  }

  lemma OkSource(s: State, u: Tid, a: Act, t: Tid)
    requires CanAct(s, u, a) && t in DoAct(s, u, a).calls
    ensures t in s.calls && DoAct(s, u, a).calls[t].key == s.calls[t].key
    ensures DoAct(s, u, a).calls[t].ok ==> s.calls[t].ok || (t == u && (a.Renamed? || (a.StatHit? && s.calls[t].key in s.cached)))
  {
  }

  lemma {:induction false} OkMeansCached(h: History, i: nat)
    requires IsHistory(h) && i < |h.states|
    ensures OkCached(h.states[i])
  {
    if i > 0 {
      OkMeansCached(h, i - 1);
      HistoriesAreSafe(h, i - 1);
      OkCachedStep(h.states[i - 1], h.steps[i - 1]);
    }
  }

  /** All images whose digests were read for a key hold the same binary, as images of one
      digest do. */
  ghost predicate Agree(s: State, k: Key) {
    forall x, y :: (k, x) in s.named && (k, y) in s.named ==> x == y
  }

  /** A call that succeeds finds a binary in the cache; it is the one of the digest the call
      read if and only if the tag had not moved when the extraction that filled the cache ran
      it, whoever did that, through failures and crashes. */
  lemma OwnBinaryIff(h: History, i: nat, t: Tid)
    requires IsHistory(h) && i < |h.states| && t in h.states[i].calls && h.states[i].calls[t].ok
    requires Agree(h.states[i], h.states[i].calls[t].key)
    ensures var s, c := h.states[i], h.states[i].calls[t];
      && c.key in s.cached && c.key in s.filled
      && (s.cached[c.key] == c.named <==> s.filled[c.key].source == s.filled[c.key].named)
  {
    HistoriesAreSafe(h, i);
    OkMeansCached(h, i);
    var s := h.states[i];
    assert CallOk(s, t) && KeyOk(s, s.calls[t].key);
  }

  lemma CacheStays(s: State, st: Step, k: Key)
    requires Inv(s) && Enabled(s, st) && k in s.cached
    ensures k in Apply(s, st).cached && Apply(s, st).cached[k] == s.cached[k]
  {
    if st.Run? {
      OnlyRenameFills(s, st.u, st.act);
      assert CallOk(s, st.u);
    }
  }

  lemma OnlyRenameFills(s: State, t: Tid, a: Act)
    requires CanAct(s, t, a)
    ensures DoAct(s, t, a).cached == if a.Renamed? then s.cached[s.calls[t].key := s.temps[s.calls[t].uniq]] else s.cached
  {
  }

  /** What is cached stays cached, unchanged, for good. */
  lemma {:induction false} CacheIsForever(h: History, i: nat, j: nat, k: Key)
    requires IsHistory(h) && i <= j < |h.states| && k in h.states[i].cached
    ensures k in h.states[j].cached && h.states[j].cached[k] == h.states[i].cached[k]
    decreases j
  {
    if i < j {
      CacheIsForever(h, i, j - 1, k);
      HistoriesAreSafe(h, j - 1);
      CacheStays(h.states[j - 1], h.steps[j - 1], k);
    }
  }

  // ------------------------------------------------------------ without failures

  predicate SmoothAct(a: Act) {
    !a.Fails? && (a.Started? ==> IsElf(a.source))
  }

  /** No operation fails, the process does not crash, and every image run holds an ELF. */
  predicate Smooth(st: Step) {
    match st
    case Begin(_, _, _) => true
    case Run(_, a) => SmoothAct(a)
    case Crash(_) => false
  }

  ghost predicate SmoothCall(s: State, t: Tid)
    requires t in s.calls
  {
    var c := s.calls[t];
    && (Extracting(c.pc) ==> IsElf(c.source))
    && (c.pc == RemoveTemp || c.pc == DeleteContainer || c.pc == Unlock || c.pc == Returned ==> c.ok && c.key in s.cached)
    && (c.pc == MakeDir || c.pc == RunContainer ==> c.key !in s.cached && Count(s, c.key) == 0)
    && (Extracting(c.pc) ==> c.key !in s.cached && Count(s, c.key) == 1)
  }

  predicate HolderExtracts(s: State, k: Key) {
    s.lock.Some? && s.lock.value in s.calls && s.calls[s.lock.value].key == k && Extracting(s.calls[s.lock.value].pc)
  }

  ghost predicate SmoothInv(s: State) {
    && (forall t :: t in s.calls ==> SmoothCall(s, t))
    && (forall k :: k in s.cached ==> Count(s, k) == 1)
    && (forall k :: k !in s.cached && Count(s, k) != 0 ==> HolderExtracts(s, k))
  }

  lemma SmoothOwn(s: State, t: Tid, a: Act)
    requires CanAct(s, t, a) && SmoothAct(a) && CallOk(s, t) && SmoothCall(s, t)
    requires var k := s.calls[t].key; k !in s.cached && Count(s, k) != 0 ==> HolderExtracts(s, k)
    ensures SmoothCall(DoAct(s, t, a), t)
  {
    if a.StatHit? || a.StatMiss? || a.Acquire? || a.DirMade? || a.Started? {
      SmoothBefore(s, t, a);
    } else {
      SmoothWithin(s, t, a);
    }
  }

  lemma SmoothBefore(s: State, t: Tid, a: Act)
    requires CanAct(s, t, a) && CallOk(s, t) && SmoothCall(s, t) && SmoothAct(a)
    requires a.StatHit? || a.StatMiss? || a.Acquire? || a.DirMade? || a.Started?
    requires var k := s.calls[t].key; k !in s.cached && Count(s, k) != 0 ==> HolderExtracts(s, k)
    ensures SmoothCall(DoAct(s, t, a), t)
  {
  }

  lemma SmoothWithin(s: State, t: Tid, a: Act)
    requires CanAct(s, t, a) && CallOk(s, t) && SmoothCall(s, t) && SmoothAct(a)
    requires !(a.StatHit? || a.StatMiss? || a.Acquire? || a.DirMade? || a.Started?)
    ensures SmoothCall(DoAct(s, t, a), t)
  {
  }

  lemma SmoothOther(s: State, t: Tid, a: Act, u: Tid)
    requires CanAct(s, t, a) && CallOk(s, t) && u in s.calls && u != t && CallOk(s, u) && SmoothCall(s, u)
    ensures SmoothCall(DoAct(s, t, a), u)
  {
  }

  lemma SmoothKeys(s: State, t: Tid, a: Act, k: Key)
    requires Inv(s) && SmoothInv(s) && CanAct(s, t, a) && SmoothAct(a)
    ensures var s' := DoAct(s, t, a);
            && (k in s'.cached ==> Count(s', k) == 1)
            && (k !in s'.cached && Count(s', k) != 0 ==> HolderExtracts(s', k))
  {
    if a.Started? || a.Renamed? { SmoothMoves(s, t, a, k); } else { SmoothStays(s, t, a, k); }
  }

  lemma SmoothMoves(s: State, t: Tid, a: Act, k: Key)
    requires Inv(s) && SmoothInv(s) && CanAct(s, t, a) && (a.Started? || a.Renamed?)
    ensures var s' := DoAct(s, t, a);
            && (k in s'.cached ==> Count(s', k) == 1)
            && (k !in s'.cached && Count(s', k) != 0 ==> HolderExtracts(s', k))
  {
    assert CallOk(s, t) && SmoothCall(s, t);
    if k !in s.cached && Count(s, k) != 0 { assert HolderExtracts(s, k); }
  }

  lemma SmoothStays(s: State, t: Tid, a: Act, k: Key)
    requires Inv(s) && SmoothInv(s) && CanAct(s, t, a) && SmoothAct(a) && !(a.Started? || a.Renamed?)
    ensures var s' := DoAct(s, t, a);
            && (k in s'.cached ==> Count(s', k) == 1)
            && (k !in s'.cached && Count(s', k) != 0 ==> HolderExtracts(s', k))
  {
    var s' := DoAct(s, t, a);
    assert s'.cached == s.cached && s'.extractions == s.extractions;
    assert CallOk(s, t) && SmoothCall(s, t);
    if k !in s.cached && Count(s, k) != 0 { assert HolderExtracts(s, k); }
  }

  lemma SmoothActKeeps(s: State, t: Tid, a: Act)
    requires Inv(s) && SmoothInv(s) && CanAct(s, t, a) && SmoothAct(a)
    ensures SmoothInv(DoAct(s, t, a))
  {
    var s' := DoAct(s, t, a);
    forall u | u in s'.calls ensures SmoothCall(s', u) {
      assert CallOk(s, t);
      if u == t { SmoothOwn(s, t, a); } else { assert CallOk(s, u); SmoothOther(s, t, a, u); }
    }
    forall k ensures (k in s'.cached ==> Count(s', k) == 1) && (k !in s'.cached && Count(s', k) != 0 ==> HolderExtracts(s', k)) {
      SmoothKeys(s, t, a, k);
    }
  }

  lemma SmoothStep(s: State, st: Step)
    requires Inv(s) && SmoothInv(s) && Enabled(s, st) && Smooth(st)
    ensures SmoothInv(Apply(s, st))
  {
    match st
    case Run(t, a) => SmoothActKeeps(s, t, a);
    case Begin(t, _, _) =>
      forall u | u in Apply(s, st).calls ensures SmoothCall(Apply(s, st), u) {
        assert u != t ==> SmoothCall(s, u);
      }
  }

  lemma {:induction false} SmoothHistories(h: History, i: nat)
    requires IsHistory(h) && i < |h.states| && forall j :: 0 <= j < |h.steps| ==> Smooth(h.steps[j])
    ensures SmoothInv(h.states[i])
  {
    if i > 0 {
      SmoothHistories(h, i - 1);
      HistoriesAreSafe(h, i - 1);
      SmoothStep(h.states[i - 1], h.steps[i - 1]);
    }
  }

  /** Without failures a cold cache is filled by exactly one extraction per key, and
      every caller of that key returns successfully with its path. */
  lemma OneExtractionPerKey(h: History, i: nat, t: Tid)
    requires IsHistory(h) && i < |h.states| && forall j :: 0 <= j < |h.steps| ==> Smooth(h.steps[j])
    requires t in h.states[i].calls
    ensures var s := h.states[i];
            var c := s.calls[t];
            && Count(s, c.key) <= 1
            && (c.pc == Returned ==> c.ok && c.key in s.cached && Count(s, c.key) == 1)
  {
    SmoothHistories(h, i);
    var s := h.states[i];
    assert SmoothCall(s, t);
    var k := s.calls[t].key;
    if k !in s.cached && Count(s, k) != 0 { assert SmoothCall(s, s.lock.value); }
  }
}
