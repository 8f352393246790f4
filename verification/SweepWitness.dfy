/** A history in which a restart sweeps away the VM of an accepted sandbox. */
module SweepWitness {
  import opened Records
  import opened Entries
  import opened Lifecycle
  import opened Witness

  /** The driver is about to delete a VM as an orphan that is an accepted sandbox's. */
  ghost predicate AboutToSweep(s: State) {
    && Reached(s) && Enabled(s, RestartStep(Sweep(ID, true)))
    && var c := At(s, ID);
    c.past.accepted.Some? && !c.past.removed && c.saved.Some? && c.vm.Some? && c.vm.value.running && !c.registered
  }

  /** A record that cannot be read at a restart costs its sandbox the VM, though no delete
      was ever asked for. */
  lemma UnreadRecordCostsTheVm(cfg: Config, req: Request)
    requires req.id == ID
    ensures exists s :: AboutToSweep(s)
  {
    Booted(cfg, req);
    var c := Up(Rec(cfg, req));
    var s := Serve(c, map[], map[], Idle);
    Extend(s, RestartStep(Crash));
    var s1 := Downed(s);
    assert At(s1, ID) == DownCell(c);
    var load := RestartStep(Load({}, {ID}));
    Extend(s1, load);
    var s2 := Apply(s1, load);
    assert At(s2, ID) == LoadCell(s1, ID, DownCell(c), false, {ID});
    assert AboutToSweep(s2);
  }
}
