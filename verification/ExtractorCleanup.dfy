/** What an extraction leaves behind: temporary files and containers, and when. */
module ExtractorCleanup {
  import opened Entries
  import opened SeedNames
  import opened Extractor

  /** After its clean-ups. */
  predicate PastTemp(pc: Pc) {
    pc == DeleteContainer || pc == Unlock || pc == Returned
  }

  /** The names a call uses are of this process, and are gone once cleaned up. */
  ghost predicate Tidy(s: State, c: Call) {
    && (Extracting(c.pc) || c.pc == RemoveTemp || c.pc == DeleteContainer || c.copied || c.cleared ==> c.ran)
    && (c.ran ==> c.uniq.pid == s.pid && c.uniq.n < s.next)
    && (c.pc == Validate || c.pc == Chmod || c.pc == Rename || c.pc == RemoveTemp ==> c.copied)
    && (c.copied ==> c.pc == Validate || c.pc == Chmod || c.pc == Rename || c.pc == RemoveTemp || PastTemp(c.pc))
    && (c.copied && PastTemp(c.pc) ==> c.uniq !in s.temps)
    && (c.cleared ==> c.uniq !in s.containers && (c.pc == Unlock || c.pc == Returned))
  }

  ghost predicate AllTidy(s: State) {
    && (forall t :: t in s.calls ==> Tidy(s, s.calls[t]))
    && (forall t, u :: t in s.calls && u in s.calls && t != u && s.calls[t].ran && s.calls[u].ran ==> s.calls[t].uniq != s.calls[u].uniq)
  }

  lemma OwnTidy(s: State, t: Tid, a: Act)
    requires CanAct(s, t, a) && CallOk(s, t) && Tidy(s, s.calls[t])
    ensures Tidy(DoAct(s, t, a), DoAct(s, t, a).calls[t])
  {
    if a.Fails? { OwnFailsTidy(s, t, a); }
    else if a.Started? { OwnStartTidy(s, t, a); }
    else if a.Copied? || a.CopiedPart? { OwnCopyTidy(s, t, a); }
    else { OwnRestTidy(s, t, a); }
  }

  lemma OwnFailsTidy(s: State, t: Tid, a: Act)
    requires CanAct(s, t, a) && CallOk(s, t) && Tidy(s, s.calls[t]) && a.Fails?
    ensures Tidy(DoAct(s, t, a), DoAct(s, t, a).calls[t])
  {
    assert DoAct(s, t, a).temps == s.temps;
  }

  lemma OwnStartTidy(s: State, t: Tid, a: Act)
    requires CanAct(s, t, a) && CallOk(s, t) && Tidy(s, s.calls[t]) && a.Started?
    ensures Tidy(DoAct(s, t, a), DoAct(s, t, a).calls[t])
  {
  }

  lemma OwnCopyTidy(s: State, t: Tid, a: Act)
    requires CanAct(s, t, a) && CallOk(s, t) && Tidy(s, s.calls[t]) && (a.Copied? || a.CopiedPart?)
    ensures Tidy(DoAct(s, t, a), DoAct(s, t, a).calls[t])
  {
  }

  lemma OwnRestTidy(s: State, t: Tid, a: Act)
    requires CanAct(s, t, a) && CallOk(s, t) && Tidy(s, s.calls[t]) && !a.Fails? && !a.Started? && !a.Copied? && !a.CopiedPart?
    ensures Tidy(DoAct(s, t, a), DoAct(s, t, a).calls[t])
  {
    var s' := DoAct(s, t, a);
    assert s'.next == s.next && s'.pid == s.pid;
  }

  /** A call works on files and containers of its own names only. */
  lemma OtherTidy(s: State, t: Tid, a: Act, u: Tid)
    requires CanAct(s, t, a) && CallOk(s, t) && Tidy(s, s.calls[t])
    requires u in s.calls && u != t && Tidy(s, s.calls[u])
    requires s.calls[t].ran && s.calls[u].ran ==> s.calls[t].uniq != s.calls[u].uniq
    ensures Tidy(DoAct(s, t, a), s.calls[u])
  {
  }

  /** The names of two calls, when one of them acts. */
  lemma StillApart(s: State, t: Tid, a: Act, u: Tid)
    requires CanAct(s, t, a) && Tidy(s, s.calls[t]) && u in s.calls && u != t && Tidy(s, s.calls[u])
    requires s.calls[t].ran && s.calls[u].ran ==> s.calls[t].uniq != s.calls[u].uniq
    ensures var c := DoAct(s, t, a).calls[t]; c.ran && s.calls[u].ran ==> c.uniq != s.calls[u].uniq
  {
  }

  lemma OthersStand(s: State, t: Tid, a: Act)
    requires CanAct(s, t, a)
    ensures DoAct(s, t, a).calls.Keys == s.calls.Keys && forall u :: u in s.calls && u != t ==> DoAct(s, t, a).calls[u] == s.calls[u]
  {
  }

  lemma ActTidy(s: State, t: Tid, a: Act)
    requires Inv(s) && AllTidy(s) && CanAct(s, t, a)
    ensures AllTidy(DoAct(s, t, a))
  {
    var s' := DoAct(s, t, a);
    assert CallOk(s, t);
    OthersStand(s, t, a);
    forall u | u in s'.calls ensures Tidy(s', s'.calls[u]) {
      if u == t { OwnTidy(s, t, a); } else { OtherTidy(s, t, a, u); }
    }
    forall u, w | u in s'.calls && w in s'.calls && u != w && s'.calls[u].ran && s'.calls[w].ran ensures s'.calls[u].uniq != s'.calls[w].uniq {
      if u == t { StillApart(s, t, a, w); } else if w == t { StillApart(s, t, a, u); }
    }
  }

  lemma {:induction false} HistoriesAreTidy(h: History, i: nat)
    requires IsHistory(h) && i < |h.states|
    ensures AllTidy(h.states[i])
  {
    if i > 0 {
      HistoriesAreTidy(h, i - 1);
      HistoriesAreSafe(h, i - 1);
      var s, st := h.states[i - 1], h.steps[i - 1];
      assert Enabled(s, st) && h.states[i] == Apply(s, st);
      if st.Run? { ActTidy(s, st.u, st.act); }
    }
  }

  /** In every history, a call that has returned has left its temporary file behind only if its
      copy reported an error, and its container only if its delete did. */
  lemma LeftBehindOnlyByErrors(h: History, i: nat, t: Tid)
    requires IsHistory(h) && i < |h.states| && t in h.states[i].calls
    requires h.states[i].calls[t].pc == Returned && h.states[i].calls[t].ran
    ensures var s, c := h.states[i], h.states[i].calls[t];
      && (c.uniq in s.temps ==> !c.copied)
      && (c.uniq in s.containers ==> !c.cleared)
      && c.attempted
  {
    HistoriesAreTidy(h, i);
    HistoriesAreSafe(h, i);
    assert CallOk(h.states[i], t);
  }
}
