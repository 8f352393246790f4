/** The server's in-memory registry as the driver keeps it: a map from id to entry
    objects that the handlers and the poller update in place. */
module Registry {
  import opened Conditions
  import opened Records
  import E = Entries

  class EntryObject {
    var rec: Record
    var cond: Condition
    var deleting: bool
    var busy: bool
    var task: E.Task

    constructor (rec: Record, cond: Condition, task: E.Task)
      ensures View() == E.Entry(rec, cond, false, false, task)
    {
      this.rec, this.cond, this.deleting, this.busy, this.task := rec, cond, false, false, task;
    }

    function View(): E.Entry
      reads this
    {
      E.Entry(rec, cond, deleting, busy, task)
    }

    /** The poller's treatment of one entry, given what the list shows of its VM. */
    method Observe(seen: E.Option<E.Vm>) returns (persist: bool, changed: bool, exited: bool)
      modifies this
      ensures E.Poll(View(), persist, changed, exited) == E.PollEntry(old(View()), seen)
    {
      persist, changed, exited := false, false, false;
      if deleting || busy || !E.ProvisionDone(View()) { return; }
      var next: Condition;
      if seen.Some? {
        if seen.value.running {
          next := READY_CONDITION;
          if rec.stopped {
            rec := rec.(stopped := false);
            persist := true;
          }
        } else if rec.stopped {
          next := STOPPED_CONDITION;
        } else {
          next := EXITED_CONDITION;
        }
      } else {
        if cond.reason == ProvisioningFailed { return; }
        next := FAILED_CONDITION;
      }
      if next.ready != cond.ready || next.reason != cond.reason {
        cond := next;
        changed := true;
        exited := next.reason == ContainerExited;
      }
    }
  }

  type View = map<Id, E.Entry>

  /** What one poll of the given list does to one entry. */
  function PollOf(v: View, list: map<string, E.Vm>, id: Id): E.Poll
    requires id in v
  {
    E.PollEntry(v[id], E.Observe(list, v[id].rec))
  }

  /** The registry after one poll, and the entries the poll saves and reports. */
  function Polled(v: View, list: map<string, E.Vm>): View {
    map id | id in v :: PollOf(v, list, id).entry
  }

  function ToPersist(v: View, list: map<string, E.Vm>): set<Id> {
    set id | id in v && PollOf(v, list, id).persist
  }

  function Changed(v: View, list: map<string, E.Vm>): set<Id> {
    set id | id in v && PollOf(v, list, id).changed
  }

  function Exited(v: View, list: map<string, E.Vm>): set<Id> {
    set id | id in v && PollOf(v, list, id).exited
  }

  /** One row of the runtime's list. */
  datatype Container = Container(name: string, vm: E.Vm)

  /** The rows by name; a later row wins. */
  function ByName(rows: seq<Container>): map<string, E.Vm> {
    if rows == [] then map[]
    else ByName(rows[..|rows| - 1])[rows[|rows| - 1].name := rows[|rows| - 1].vm]
  }

  function ById(records: seq<Record>): map<Id, Record> {
    if records == [] then map[]
    else ById(records[..|records| - 1])[records[|records| - 1].who.id := records[|records| - 1]]
  }

  /** The entries a restart builds from the stored records; `tails` names the VMs
      whose console output could be fetched. */
  function Booted(records: map<Id, Record>, list: map<string, E.Vm>, tails: set<string>): View {
    map id | id in records ::
      E.BootEntry(records[id], E.Observe(list, records[id]), records[id].who.containerName in tails)
  }

  predicate IsOrphan(c: Container, known: set<Id>) {
    c.vm.managed && !(c.vm.sandbox != "" && c.vm.sandbox in known)
  }

  /** Managed containers whose sandbox label is not among the known ids, in list order. */
  function Orphans(rows: seq<Container>, known: set<Id>): seq<string> {
    if rows == [] then []
    else
      var c := rows[|rows| - 1];
      Orphans(rows[..|rows| - 1], known) + (if IsOrphan(c, known) then [c.name] else [])
  }

  class Server {
    var sandboxes: map<Id, EntryObject>

    /** Distinct ids have distinct entry objects. */
    ghost predicate Valid()
      reads this
    {
      forall i, j :: i in sandboxes && j in sandboxes && i != j ==> sandboxes[i] != sandboxes[j]
    }

    ghost function Entries(): View
      reads this, sandboxes.Values
    {
      map id | id in sandboxes :: sandboxes[id].View()
    }

    constructor ()
      ensures Valid() && Entries() == map[]
    {
      sandboxes := map[];
    }

    /** Rebuilds the registry from the stored records and the runtime's list, and
        returns the containers to be deleted as orphans. */
    method Bootstrap(records: seq<Record>, rows: seq<Container>, tails: set<string>) returns (orphans: seq<string>)
      requires Valid() && sandboxes == map[]
      modifies this
      ensures Valid() && forall id :: id in sandboxes ==> fresh(sandboxes[id])
      ensures Entries() == Booted(ById(records), ByName(rows), tails)
      ensures orphans == Orphans(rows, Entries().Keys)
    {
      var byName: map<string, E.Vm> := map[];
      for i := 0 to |rows|
        invariant byName == ByName(rows[..i])
      {
        byName := byName[rows[i].name := rows[i].vm];
        assert rows[..i + 1][..i] == rows[..i];
      }
      assert rows[..|rows|] == rows;
      Adopt(records, byName, tails);
      orphans := [];
      for i := 0 to |rows|
        invariant orphans == Orphans(rows[..i], sandboxes.Keys)
      {
        var c := rows[i];
        if c.vm.managed && !(c.vm.sandbox != "" && c.vm.sandbox in sandboxes) {
          orphans := orphans + [c.name];
        }
        assert rows[..i + 1][..i] == rows[..i];
      }
      assert rows[..|rows|] == rows && Entries().Keys == sandboxes.Keys;
    }

    method Adopt(records: seq<Record>, byName: map<string, E.Vm>, tails: set<string>)
      requires Valid() && sandboxes == map[]
      modifies this
      ensures Valid() && forall id :: id in sandboxes ==> fresh(sandboxes[id])
      ensures Entries() == Booted(ById(records), byName, tails)
    {
      for i := 0 to |records|
        invariant Valid() && forall id :: id in sandboxes ==> fresh(sandboxes[id])
        invariant Entries() == Booted(ById(records[..i]), byName, tails)
      {
        var rec := records[i];
        var cond: Condition;
        if rec.who.containerName in byName {
          if byName[rec.who.containerName].running {
            cond := READY_CONDITION;
          } else if rec.stopped {
            cond := STOPPED_CONDITION;
          } else {
            cond := EXITED_CONDITION;
            if rec.who.containerName in tails { cond := cond.(tail := true); }
          }
        } else {
          cond := FAILED_CONDITION;
        }
        AddEntry(rec, cond);
        assert records[..i + 1][..i] == records[..i];
        BootedGrows(ById(records[..i]), rec, byName, tails);
      }
      assert records[..|records|] == records;
    }

    /** Registers a new entry object under the record's id. */
    method AddEntry(rec: Record, cond: Condition)
      requires Valid()
      modifies this
      ensures Valid()
      ensures sandboxes.Keys == old(sandboxes.Keys) + {rec.who.id} && fresh(sandboxes[rec.who.id])
      ensures forall id :: id in old(sandboxes) && id != rec.who.id ==> sandboxes[id] == old(sandboxes)[id]
      ensures Entries() == old(Entries())[rec.who.id := E.Entry(rec, cond, false, false, E.NoTask)]
    {
      var e := new EntryObject(rec, cond, E.NoTask);
      sandboxes := sandboxes[rec.who.id := e];
    }

    /** Admits a stop or start: refuses with a reason, or marks the entry busy. */
    method BeginLifecycle(id: Id) returns (refused: E.Option<E.Refusal>)
      requires Valid()
      modifies sandboxes.Values
      ensures Valid()
      ensures if id in old(Entries()) then E.RefusedInOrder(old(Entries())[id], refused) else refused == E.Some(E.NotFound)
      ensures Entries() == if refused == E.None then old(Entries())[id := old(Entries())[id].(busy := true)] else old(Entries())
    {
      if id !in sandboxes { return E.Some(E.NotFound); }
      var e := sandboxes[id];
      if e.deleting { return E.Some(E.BeingDeleted); }
      if !E.ProvisionDone(e.View()) { return E.Some(E.StillProvisioning); }
      if e.busy { return E.Some(E.InProgress); }
      if e.cond.reason == ProvisioningFailed { return E.Some(E.NeverBooted); }
      refused := E.None;
      e.busy := true;
    }

    /** Whether a poll could change anything. */
    method HasPollable() returns (some: bool)
      ensures some <==> exists id :: id in sandboxes && E.Pollable(sandboxes[id].View())
    {
      var todo := sandboxes.Keys;
      while todo != {}
        invariant todo <= sandboxes.Keys
        invariant forall id :: id in sandboxes && id !in todo ==> !E.Pollable(sandboxes[id].View())
        decreases todo
      {
        var id :| id in todo;
        if E.Pollable(sandboxes[id].View()) { return true; }
        todo := todo - {id};
      }
      return false;
    }

    /** The poller's pass over the registry.  It skips the list call when no entry is
        pollable, and is then still equal to the pass over any list. */
    method PollOnce(list: map<string, E.Vm>) returns (persist: set<Id>, changed: set<Id>, exited: set<Id>)
      requires Valid()
      modifies sandboxes.Values
      ensures Valid() && Entries() == Polled(old(Entries()), list)
      ensures persist == ToPersist(old(Entries()), list)
      ensures changed == Changed(old(Entries()), list)
      ensures exited == Exited(old(Entries()), list)
    {
      var any := HasPollable();
      if any {
        persist, changed, exited := Pass(list);
      } else {
        persist, changed, exited := {}, {}, {};
        assert forall id :: id in sandboxes ==> !E.Pollable(Entries()[id]);
      }
    }

    /** One entry's share of the pass. */
    method PassOne(id: Id, list: map<string, E.Vm>) returns (persist: bool, changed: bool, exited: bool)
      requires Valid() && id in sandboxes
      modifies sandboxes[id]
      ensures Valid()
      ensures id in Entries() && E.Poll(Entries()[id], persist, changed, exited) == PollOf(old(Entries()), list, id)
      ensures Entries() == old(Entries())[id := Entries()[id]]
    {
      ghost var v := Entries();
      var e := sandboxes[id];
      assert e.View() == v[id];
      persist, changed, exited := e.Observe(E.Observe(list, e.rec));
      assert forall j :: j in sandboxes && j != id ==> sandboxes[j].View() == v[j];
    }

    method Pass(list: map<string, E.Vm>) returns (persist: set<Id>, changed: set<Id>, exited: set<Id>)
      requires Valid()
      modifies sandboxes.Values
      ensures Valid() && Entries() == Polled(old(Entries()), list)
      ensures persist == ToPersist(old(Entries()), list)
      ensures changed == Changed(old(Entries()), list)
      ensures exited == Exited(old(Entries()), list)
    {
      persist, changed, exited := {}, {}, {};
      var todo := sandboxes.Keys;
      ghost var before := Entries();
      while todo != {}
        invariant todo <= sandboxes.Keys == before.Keys && Valid()
        invariant Entries() == Partly(before, list, todo)
        invariant persist == ToPersist(before, list) - todo
        invariant changed == Changed(before, list) - todo
        invariant exited == Exited(before, list) - todo
        decreases todo
      {
        var id :| id in todo;
        var p, c, x := PassOne(id, list);
        PartlyStep(before, list, todo, id);
        FlagStep(ToPersist(before, list), todo, id);
        FlagStep(Changed(before, list), todo, id);
        FlagStep(Exited(before, list), todo, id);
        todo := todo - {id};
        persist := if p then persist + {id} else persist;
        changed := if c then changed + {id} else changed;
        exited := if x then exited + {id} else exited;
      }
    }
  }

  lemma BootedGrows(m: map<Id, Record>, rec: Record, list: map<string, E.Vm>, tails: set<string>)
    ensures Booted(m[rec.who.id := rec], list, tails) ==
            Booted(m, list, tails)[rec.who.id := E.BootEntry(rec, E.Observe(list, rec), rec.who.containerName in tails)]
  {
  }

  /** The registry when the pass still has the given ids to do. */
  function Partly(v: View, list: map<string, E.Vm>, todo: set<Id>): View {
    map id | id in v :: if id in todo then v[id] else PollOf(v, list, id).entry
  }

  lemma PartlyStep(v: View, list: map<string, E.Vm>, todo: set<Id>, id: Id)
    requires id in todo && id in v
    ensures PollOf(Partly(v, list, todo), list, id) == PollOf(v, list, id)
    ensures Partly(v, list, todo)[id := PollOf(v, list, id).entry] == Partly(v, list, todo - {id})
  {
  }

  lemma FlagStep(all: set<Id>, todo: set<Id>, id: Id)
    requires id in todo
    ensures all - (todo - {id}) == if id in all then (all - todo) + {id} else all - todo
  {
  }

  /** Restart and polling refine one classification: the first poll after a restart,
      on an unchanged runtime, changes no status or reason and reports nothing; it only
      drops the stop mark of sandboxes whose VM is running. */
  lemma PollAfterRestartIsQuiet(records: map<Id, Record>, list: map<string, E.Vm>, tails: set<string>)
    ensures var v := Booted(records, list, tails);
            && Changed(v, list) == {} && Exited(v, list) == {}
            && Polled(v, list).Keys == records.Keys
            && (forall id :: id in records ==>
                  var seen := E.Observe(list, records[id]);
                  && Polled(v, list)[id].cond == v[id].cond
                  && SamePhase(v[id].cond, E.Classify(seen, records[id].stopped))
                  && (id in ToPersist(v, list) <==> seen.Some? && seen.value.running && records[id].stopped))
  {
    var v := Booted(records, list, tails);
    forall id | id in records
      ensures E.Observe(list, v[id].rec) == E.Observe(list, records[id])
      ensures PollOf(v, list, id).entry.cond == v[id].cond && !PollOf(v, list, id).changed && !PollOf(v, list, id).exited
    {
      E.PollAfterBootIsQuiet(records[id], E.Observe(list, records[id]), records[id].who.containerName in tails);
    }
  }

  ghost predicate AllCoherent(v: View) {
    forall id :: id in v ==> Coherent(v[id].cond)
  }

  lemma SettledEntry(v: View, list: map<string, E.Vm>, id: Id)
    requires id in v && Coherent(v[id].cond)
    ensures var w := PollOf(v, list, id).entry;
            && E.Observe(list, w.rec) == E.Observe(list, v[id].rec)
            && E.PollEntry(w, E.Observe(list, w.rec)) == E.Poll(w, false, false, false)
            && (E.Pollable(v[id]) ==> SamePhase(w.cond, E.Classify(E.Observe(list, v[id].rec), w.rec.stopped)))
            && (!E.Pollable(v[id]) ==> w == v[id])
  {
    var seen := E.Observe(list, v[id].rec);
    if E.Pollable(v[id]) { E.PollMatchesClassification(v[id], seen); }
    E.SecondPollIsNoOp(v[id], seen);
  }

  /** One poll settles the registry: every pollable entry matches the classification
      of the VM the list shows, and every other entry is untouched. */
  lemma PollSettles(v: View, list: map<string, E.Vm>, id: Id)
    requires AllCoherent(v) && id in v
    ensures var w := Polled(v, list)[id];
            if E.Pollable(v[id]) then SamePhase(w.cond, E.Classify(E.Observe(list, v[id].rec), w.rec.stopped))
            else w == v[id]
  {
    SettledEntry(v, list, id);
  }

  /** What a poll makes of one pollable entry, from what the list shows under its VM's name:
      a running VM is ready, and drops the stop mark; one at rest is stopped or exited by the
      mark; a missing one has failed.  It is saved exactly if the mark was dropped, reported
      exactly if its status or reason changed, and gets a tail exactly if it has just exited. */
  lemma PollTells(v: View, list: map<string, E.Vm>, id: Id)
    requires AllCoherent(v) && id in v && E.Pollable(v[id])
    ensures var e, w, name := v[id], Polled(v, list)[id], v[id].rec.who.containerName;
      && (name in list && list[name].running ==> w.cond.reason == BackendReady && w.rec == e.rec.(stopped := false))
      && (name in list && !list[name].running ==> w.rec == e.rec && w.cond.reason == if e.rec.stopped then ContainerStopped else ContainerExited)
      && (name !in list ==> w.rec == e.rec && w.cond.reason == ProvisioningFailed)
      && (w.cond.ready <==> w.cond.reason == BackendReady) && !w.deleting && !w.busy && w.task == e.task
      && (id in ToPersist(v, list) <==> w.rec != e.rec)
      && (id in Changed(v, list) <==> w.cond.ready != e.cond.ready || w.cond.reason != e.cond.reason)
      && (id in Exited(v, list) <==> w.cond.reason == ContainerExited && e.cond.reason != ContainerExited)
  {
    assert Coherent(v[id].cond);
  }

  /** What a restart makes of one record, from what the list shows. */
  lemma BootTells(records: map<Id, Record>, list: map<string, E.Vm>, tails: set<string>, id: Id)
    requires id in records
    ensures var rec, w, name := records[id], Booted(records, list, tails)[id], records[id].who.containerName;
      && (name in list && list[name].running ==> w.cond.reason == BackendReady)
      && (name in list && !list[name].running ==> w.cond.reason == if rec.stopped then ContainerStopped else ContainerExited)
      && (name !in list ==> w.cond.reason == ProvisioningFailed)
      && (w.cond.ready <==> w.cond.reason == BackendReady)
      && (w.cond.tail <==> w.cond.reason == ContainerExited && name in tails)
      && w.rec == rec && !w.deleting && !w.busy && E.ProvisionDone(w)
  {
  }

  /** A name shows the last row that has it. */
  lemma {:induction false} ByNameTells(rows: seq<Container>, name: string)
    ensures name in ByName(rows) <==> exists i :: 0 <= i < |rows| && rows[i].name == name
    ensures name in ByName(rows) ==>
      exists i :: 0 <= i < |rows| && rows[i] == Container(name, ByName(rows)[name]) && forall j :: i < j < |rows| ==> rows[j].name != name
    decreases |rows|
  {
    if rows != [] {
      var init, last := rows[..|rows| - 1], rows[|rows| - 1];
      ByNameTells(init, name);
      if last.name == name {
        assert rows[|rows| - 1] == Container(name, ByName(rows)[name]);
      } else if name in ByName(init) {
        var i :| 0 <= i < |init| && init[i] == Container(name, ByName(init)[name]) && forall j :: i < j < |init| ==> init[j].name != name;
        assert rows[i] == init[i] && forall j :: i < j < |rows| - 1 ==> rows[j] == init[j];
      }
    }
  }

  /** The orphans are the managed containers whose label names no known sandbox; they are
      listed in the order of the rows, each as often as it occurs there. */
  lemma {:induction false} OrphansTell(rows: seq<Container>, known: set<Id>, name: string)
    ensures name in Orphans(rows, known) <==>
      exists c <- rows :: c.name == name && c.vm.managed && (c.vm.sandbox == "" || c.vm.sandbox !in known)
    decreases |rows|
  {
    if rows != [] {
      var init, last := rows[..|rows| - 1], rows[|rows| - 1];
      OrphansTell(init, known, name);
      assert rows == init + [last];
    }
  }

  lemma {:induction false} OrphansInOrder(a: seq<Container>, b: seq<Container>, known: set<Id>)
    ensures Orphans(a + b, known) == Orphans(a, known) + Orphans(b, known)
    decreases |b|
  {
    if b == [] {
      assert a + b == a;
    } else {
      assert (a + b)[..|a + b| - 1] == a + b[..|b| - 1];
      OrphansInOrder(a, b[..|b| - 1], known);
    }
  }

  /** A second poll of the same list does, saves and reports nothing. */
  lemma SecondPollIsQuiet(v: View, list: map<string, E.Vm>)
    requires AllCoherent(v)
    ensures var w := Polled(v, list);
            Polled(w, list) == w && ToPersist(w, list) == {} && Changed(w, list) == {} && Exited(w, list) == {}
  {
    var w := Polled(v, list);
    forall id | id in v ensures PollOf(w, list, id) == E.Poll(w[id], false, false, false) {
      SettledEntry(v, list, id);
    }
  }
}
