/** A tag that moves between the reading of its digest and the run of its image. */
module ExtractorWitness {
  import opened Entries
  import opened SeedNames
  import opened Extractor

  ghost predicate Reached(s: State) {
    exists h: History :: IsHistory(h) && h.states[|h.steps|] == s
  }

  lemma Extend(s: State, st: Step)
    requires Reached(s) && Enabled(s, st)
    ensures Reached(Apply(s, st))
  {
    var h: History :| IsHistory(h) && h.states[|h.steps|] == s;
    var g := History(h.states + [Apply(s, st)], h.steps + [st]);
    forall i | 0 <= i < |g.steps|
      ensures Enabled(g.states[i], g.steps[i]) && g.states[i + 1] == Apply(g.states[i], g.steps[i])
    {
      if i < |h.steps| { assert g.states[i] == h.states[i] && g.states[i + 1] == h.states[i + 1]; }
    }
    assert IsHistory(g);
  }

  /** One call, alone, and where it stands. */
  predicate Alone(s: State, k: Key, named: Bytes, source: Bytes, pc: Pc) {
    && 0 in s.calls && s.calls[0].key == k && s.calls[0].named == named && s.calls[0].source == source && s.calls[0].pc == pc
  }

  lemma Acts(s: State, a: Act)
    requires Reached(s) && CanAct(s, 0, a)
    ensures Reached(DoAct(s, 0, a))
  {
    Extend(s, Run(0, a));
  }

  /** The call has found the cache empty and is about to start its container. */
  ghost predicate AboutToRun(s: State, k: Key, named: Bytes) {
    Reached(s) && Alone(s, k, named, [], RunContainer) && !s.calls[0].copied && k !in s.cached
  }

  lemma AboutToRunIsReached(k: Key, named: Bytes)
    ensures exists s :: AboutToRun(s, k, named)
  {
    assert IsHistory(History([COLD], []));
    Extend(COLD, Begin(0, k, named));
    var s1 := Apply(COLD, Begin(0, k, named));
    Acts(s1, StatMiss);
    var s2 := DoAct(s1, 0, StatMiss);
    Acts(s2, Acquire);
    var s3 := DoAct(s2, 0, Acquire);
    Acts(s3, StatMiss);
    var s4 := DoAct(s3, 0, StatMiss);
    Acts(s4, DirMade);
    assert AboutToRun(DoAct(s4, 0, DirMade), k, named);
  }

  /** The call has copied the binary it ran. */
  ghost predicate HasCopied(s: State, k: Key, named: Bytes, source: Bytes) {
    Reached(s) && Alone(s, k, named, source, Validate) && s.calls[0].uniq in s.temps && s.temps[s.calls[0].uniq] == source
  }

  lemma CopiedIsReached(s: State, k: Key, named: Bytes, source: Bytes)
    requires AboutToRun(s, k, named)
    ensures exists s' :: HasCopied(s', k, named, source)
  {
    Acts(s, Started(source));
    var s1 := DoAct(s, 0, Started(source));
    Acts(s1, Copied);
    assert HasCopied(DoAct(s1, 0, Copied), k, named, source);
  }

  /** A call has returned success, and what is cached for its key is not the binary of the
      digest it read. */
  ghost predicate Mistaken(s: State, k: Key, named: Bytes) {
    && Reached(s) && 0 in s.calls && s.calls[0].pc == Returned && s.calls[0].ok
    && s.calls[0].key == k && s.calls[0].named == named && k in s.cached && s.cached[k] != named
  }

  lemma RenamedReturns(s: State, k: Key, named: Bytes, source: Bytes)
    requires Reached(s) && Alone(s, k, named, source, RemoveTemp) && s.calls[0].ok && k in s.cached && s.cached[k] != named
    ensures exists s' :: Mistaken(s', k, named)
  {
    Acts(s, TempRemoved);
    var s1 := DoAct(s, 0, TempRemoved);
    Acts(s1, ContainerDeleted(true));
    var s2 := DoAct(s1, 0, ContainerDeleted(true));
    Acts(s2, Unlocks);
    assert Mistaken(DoAct(s2, 0, Unlocks), k, named);
  }

  /** If the tag moves to another ELF image before the container is started, that image's
      binary is cached under the key of the digest that was read. */
  lemma MovedTagIsCached(k: Key, named: Bytes, source: Bytes)
    requires IsElf(source) && source != named
    ensures exists s :: Mistaken(s, k, named)
  {
    AboutToRunIsReached(k, named);
    var s0 :| AboutToRun(s0, k, named);
    CopiedIsReached(s0, k, named, source);
    var s1 :| HasCopied(s1, k, named, source);
    Acts(s1, ElfFine);
    var s2 := DoAct(s1, 0, ElfFine);
    Acts(s2, Chmodded);
    var s3 := DoAct(s2, 0, Chmodded);
    Acts(s3, Renamed);
    RenamedReturns(DoAct(s3, 0, Renamed), k, named, source);
  }

  /** A call has returned after its copy failed, and the part it had copied is still there. */
  ghost predicate LeftPart(s: State) {
    && Reached(s) && 0 in s.calls && s.calls[0].pc == Returned && s.calls[0].ran && !s.calls[0].copied
    && s.calls[0].uniq in s.temps
  }

  /** The clean-up of the temporary file is armed only once the copy has succeeded, so a copy
      that fails part way leaves its file. */
  lemma PartialCopyIsLeft(k: Key, named: Bytes, source: Bytes)
    ensures exists s :: LeftPart(s)
  {
    AboutToRunIsReached(k, named);
    var s :| AboutToRun(s, k, named);
    Acts(s, Started(source));
    var s1 := DoAct(s, 0, Started(source));
    Acts(s1, CopiedPart(0));
    var s2 := DoAct(s1, 0, CopiedPart(0));
    Acts(s2, Fails(false));
    EndsWithPart(DoAct(s2, 0, Fails(false)));
  }

  lemma EndsWithPart(s: State)
    requires Reached(s) && 0 in s.calls && s.calls[0].pc == DeleteContainer && s.calls[0].ran && !s.calls[0].copied && s.calls[0].uniq in s.temps
    ensures exists s' :: LeftPart(s')
  {
    Acts(s, ContainerDeleted(true));
    var s1 := DoAct(s, 0, ContainerDeleted(true));
    Acts(s1, Unlocks);
    assert LeftPart(DoAct(s1, 0, Unlocks));
  }
}
