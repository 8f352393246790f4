/** The store on disk, at the granularity of file-system calls: any number of saves and
    deletes run at once, and a crash may stop them anywhere.  What every reader sees is an
    atomic map, which is how the lifecycle uses it. */
module StoreFiles {
  import opened Records
  import opened Entries

  type Tid = nat

  datatype Path = Path(dir: string, name: string)

  const RECORD := "state.json"

  /** A file that holds a record, or anything else: a record in the writing, or no record. */
  datatype File = Torn | Holds(rec: Record)

  datatype SavePc = MakeDir | MakeTemp | Write(tmp: Path) | Rename(tmp: Path) | Cleanup(tmp: Path, ok: bool)
  datatype Save = Save(rec: Record, pc: SavePc)

  /** `used` and `begun` are history: temporary names ever taken, records ever given to Save. */
  datatype State = State(dirs: set<string>, files: map<Path, File>, saves: map<Tid, Save>, deletes: map<Tid, Id>,
                         used: set<Path>, begun: set<Record>)

  const EMPTY := State({}, map[], map[], map[], {}, {})

  datatype Step =
    | BeginSave(t: Tid, rec: Record)
    | MakesDir(t: Tid)
    | MakesTemp(t: Tid, name: string)
    | Writes(t: Tid)
    | Renames(t: Tid)
    | SaveFails(t: Tid)
    | SaveReturns(t: Tid)
    | BeginDelete(u: Tid, id: Id)
    | Unlinks(u: Tid, p: Path)
    | RemovesDir(u: Tid)
    | DeleteFails(u: Tid)
    | OtherFile(p: Path)   // seed material beside the record
    | Crash

  function RecordPath(id: Id): Path {
    Path(id, RECORD)
  }

  predicate HasTemp(pc: SavePc) {
    pc.Write? || pc.Rename? || pc.Cleanup?
  }

  predicate Enabled(s: State, st: Step) {
    match st
    case BeginSave(t, rec) => t !in s.saves && ValidId(rec.who.id)
    case MakesDir(t) => t in s.saves && s.saves[t].pc.MakeDir?
    case MakesTemp(t, name) =>
      && t in s.saves && s.saves[t].pc.MakeTemp? && s.saves[t].rec.who.id in s.dirs
      && name != RECORD && Path(s.saves[t].rec.who.id, name) !in s.used && Path(s.saves[t].rec.who.id, name) !in s.files
    case Writes(t) => t in s.saves && s.saves[t].pc.Write?
    case Renames(t) => t in s.saves && s.saves[t].pc.Rename? && s.saves[t].pc.tmp in s.files
    case SaveFails(t) => t in s.saves && !s.saves[t].pc.Cleanup?
    case SaveReturns(t) => t in s.saves && s.saves[t].pc.Cleanup?
    case BeginDelete(u, id) => u !in s.deletes && ValidId(id)
    case Unlinks(u, p) => u in s.deletes && p in s.files && p.dir == s.deletes[u]
    case RemovesDir(u) => u in s.deletes && forall p <- s.files :: p.dir != s.deletes[u]
    case DeleteFails(u) => u in s.deletes
    case OtherFile(p) => p.dir in s.dirs && p.name != RECORD && p !in s.used && p !in s.files
    case Crash => true
  }

  function Apply(s: State, st: Step): State
    requires Enabled(s, st)
  {
    match st
    case BeginSave(t, rec) => s.(saves := s.saves[t := Save(rec, MakeDir)], begun := s.begun + {rec})
    case MakesDir(t) => s.(dirs := s.dirs + {s.saves[t].rec.who.id}, saves := s.saves[t := s.saves[t].(pc := MakeTemp)])
    case MakesTemp(t, name) =>
      var p := Path(s.saves[t].rec.who.id, name);
      s.(files := s.files[p := Torn], used := s.used + {p}, saves := s.saves[t := s.saves[t].(pc := Write(p))])
    case Writes(t) =>
      var p := s.saves[t].pc.tmp;
      // an unlinked file still takes the bytes, but no name leads to them
      s.(files := if p in s.files then s.files[p := Holds(s.saves[t].rec)] else s.files,
         saves := s.saves[t := s.saves[t].(pc := Rename(p))])
    case Renames(t) =>
      var p := s.saves[t].pc.tmp;
      s.(files := (s.files - {p})[RecordPath(s.saves[t].rec.who.id) := s.files[p]],
         saves := s.saves[t := s.saves[t].(pc := Cleanup(p, true))])
    case SaveFails(t) =>
      if HasTemp(s.saves[t].pc) then s.(saves := s.saves[t := s.saves[t].(pc := Cleanup(s.saves[t].pc.tmp, false))])
      else s.(saves := s.saves - {t})
    case SaveReturns(t) => s.(files := s.files - {s.saves[t].pc.tmp}, saves := s.saves - {t})
    case BeginDelete(u, id) => s.(deletes := s.deletes[u := id])
    case Unlinks(_, p) => s.(files := s.files - {p})
    case RemovesDir(u) => s.(dirs := s.dirs - {s.deletes[u]}, deletes := s.deletes - {u})
    case DeleteFails(u) => s.(deletes := s.deletes - {u})
    case OtherFile(p) => s.(files := s.files[p := Torn])
    case Crash => s.(saves := map[], deletes := map[])
  }

  datatype Run = Run(states: seq<State>, steps: seq<Step>)

  ghost predicate IsHistory(r: Run) {
    && |r.states| == |r.steps| + 1
    && r.states[0] == EMPTY
    && forall i :: 0 <= i < |r.steps| ==> Enabled(r.states[i], r.steps[i]) && r.states[i + 1] == Apply(r.states[i], r.steps[i])
  }

  /** What Load answers for an id. */
  function Visible(s: State, id: Id): Option<Record> {
    if RecordPath(id) in s.files && s.files[RecordPath(id)].Holds? then Some(s.files[RecordPath(id)].rec) else None
  }

  // --------------------------------------------------------------- the invariant

  predicate SaveOk(s: State, v: Save) {
    && v.rec in s.begun && ValidId(v.rec.who.id)
    && (HasTemp(v.pc) ==> v.pc.tmp.dir == v.rec.who.id && v.pc.tmp.name != RECORD && v.pc.tmp in s.used)
    && (v.pc.Rename? && v.pc.tmp in s.files ==> s.files[v.pc.tmp] == Holds(v.rec))
  }

  predicate FileOk(s: State, p: Path)
    requires p in s.files
  {
    && p.dir in s.dirs
    && (p.name == RECORD ==> s.files[p].Holds? && s.files[p].rec.who.id == p.dir && s.files[p].rec in s.begun && ValidId(p.dir))
  }

  predicate Apart(v: Save, w: Save) {
    HasTemp(v.pc) && HasTemp(w.pc) ==> v.pc.tmp != w.pc.tmp
  }

  ghost predicate FilesOk(s: State) {
    forall p <- s.files :: FileOk(s, p)
  }

  ghost predicate SavesOk(s: State) {
    forall t <- s.saves :: SaveOk(s, s.saves[t])
  }

  ghost predicate TempsApart(s: State) {
    forall t, u :: t in s.saves && u in s.saves && t != u ==> Apart(s.saves[t], s.saves[u])
  }

  ghost predicate Inv(s: State) {
    FilesOk(s) && SavesOk(s) && TempsApart(s)
  }

  predicate WritesFiles(st: Step) {
    st.MakesTemp? || st.Writes? || st.Renames?
  }

  lemma FilesKept(s: State, st: Step)
    requires Inv(s) && Enabled(s, st)
    ensures FilesOk(Apply(s, st))
  {
    var s' := Apply(s, st);
    if WritesFiles(st) { assert SaveOk(s, s.saves[st.t]); }
    forall p | p in s'.files ensures FileOk(s', p) {
      if p in s.files { assert FileOk(s, p); }
    }
  }

  /** A write or a rename of one save is nothing to another. */
  lemma OtherSaveKept(s: State, st: Step, u: Tid)
    requires Inv(s) && Enabled(s, st) && WritesFiles(st) && u in s.saves && u != st.t
    ensures SaveOk(Apply(s, st), s.saves[u])
  {
    assert SaveOk(s, s.saves[u]) && SaveOk(s, s.saves[st.t]) && Apart(s.saves[st.t], s.saves[u]);
  }

  lemma WriterKept(s: State, st: Step)
    requires Inv(s) && Enabled(s, st) && WritesFiles(st)
    ensures SavesOk(Apply(s, st))
  {
    var s' := Apply(s, st);
    assert SaveOk(s, s.saves[st.t]);
    forall u | u in s'.saves ensures SaveOk(s', s'.saves[u]) {
      if u != st.t { OtherSaveKept(s, st, u); }
    }
  }

  lemma SavesKept(s: State, st: Step)
    requires Inv(s) && Enabled(s, st) && !WritesFiles(st)
    ensures SavesOk(Apply(s, st))
  {
    var s' := Apply(s, st);
    forall u | u in s'.saves ensures SaveOk(s', s'.saves[u]) {
      if u in s.saves { assert SaveOk(s, s.saves[u]); }
    }
  }

  lemma ApartKept(s: State, st: Step)
    requires Inv(s) && Enabled(s, st)
    ensures TempsApart(Apply(s, st))
  {
    var s' := Apply(s, st);
    forall t, u | t in s'.saves && u in s'.saves && t != u ensures Apart(s'.saves[t], s'.saves[u]) {
      if t in s.saves { assert SaveOk(s, s.saves[t]); }
      if u in s.saves { assert SaveOk(s, s.saves[u]); }
    }
  }

  lemma StepKeepsInv(s: State, st: Step)
    requires Inv(s) && Enabled(s, st)
    ensures Inv(Apply(s, st))
  {
    FilesKept(s, st);
    if WritesFiles(st) { WriterKept(s, st); } else { SavesKept(s, st); }
    ApartKept(s, st);
  }

  lemma {:induction false} HistoriesAreSafe(r: Run, i: nat)
    requires IsHistory(r) && i < |r.states|
    ensures Inv(r.states[i])
  {
    if i > 0 {
      HistoriesAreSafe(r, i - 1);
      StepKeepsInv(r.states[i - 1], r.steps[i - 1]);
    }
  }

  // ------------------------------------------------------------------- theorems

  /** Readers never see a torn record: whatever runs or crashed, the record of an id is
      absent, or one that was given whole to some Save of that same id. */
  lemma NeverTorn(r: Run, i: nat, id: Id)
    requires IsHistory(r) && i < |r.states|
    ensures RecordPath(id) in r.states[i].files ==>
      var v := Visible(r.states[i], id); v.Some? && v.value.who.id == id && v.value in r.states[i].begun
  {
    HistoriesAreSafe(r, i);
    if RecordPath(id) in r.states[i].files { assert FileOk(r.states[i], RecordPath(id)); }
  }

  /** Each save and each delete takes effect on the map of records in one step: renaming
      sets the record to the one being saved, unlinking the record file removes it, and no
      other step, crash included, changes what is visible of any sandbox. */
  lemma OneStepEffects(s: State, st: Step, id: Id)
    requires Inv(s) && Enabled(s, st)
    ensures Visible(Apply(s, st), id) ==
      if st.Renames? && s.saves[st.t].rec.who.id == id then Some(s.saves[st.t].rec)
      else if st.Unlinks? && st.p == RecordPath(id) then None
      else Visible(s, id)
  {
    if st.Renames? || st.Writes? || st.SaveReturns? {
      assert SaveOk(s, s.saves[st.t]);
    }
  }

  predicate Done(v: Save) {
    v.pc.Cleanup? && v.pc.ok
  }

  /** A save counts as done only from its own rename on. */
  lemma SaveMoves(s: State, st: Step, t: Tid)
    requires Enabled(s, st) && t in s.saves && t in Apply(s, st).saves
    ensures var v, v' := s.saves[t], Apply(s, st).saves[t]; v'.rec == v.rec && (Done(v') <==> Done(v) || st == Renames(t))
  {
  }

  /** `t` is the same call of Save from step `m` to state `j`. */
  ghost predicate OneSave(r: Run, m: nat, j: nat, t: Tid, rec: Record) {
    && IsHistory(r) && m < j < |r.states| && r.steps[m] == BeginSave(t, rec)
    && forall k :: m < k <= j ==> t in r.states[k].saves
  }

  lemma {:induction false} SaveSoFar(r: Run, m: nat, j: nat, t: Tid, rec: Record)
    requires OneSave(r, m, j, t, rec)
    ensures r.states[j].saves[t].rec == rec
    ensures Done(r.states[j].saves[t]) <==> exists k :: m < k < j && r.steps[k] == Renames(t)
    decreases j
  {
    var s, st := r.states[j - 1], r.steps[j - 1];
    assert Enabled(s, st) && r.states[j] == Apply(s, st);
    if j > m + 1 {
      SaveSoFar(r, m, j - 1, t, rec);
      assert t in s.saves && t in r.states[j].saves;
      SaveMoves(s, st, t);
    }
  }

  /** From its start to its return, a save reports success if and only if it renamed its file
      into place, and at that moment its record was what every reader saw. */
  lemma SuccessMeansRenamed(r: Run, m: nat, i: nat, t: Tid, rec: Record)
    requires OneSave(r, m, i, t, rec) && i < |r.steps| && r.steps[i] == SaveReturns(t)
    ensures r.states[i].saves[t].pc.Cleanup?
    ensures r.states[i].saves[t].pc.ok <==> exists k :: m < k < i && r.steps[k] == Renames(t)
    ensures forall k :: m < k < i && r.steps[k] == Renames(t) ==> Visible(r.states[k + 1], rec.who.id) == Some(rec)
  {
    assert Enabled(r.states[i], r.steps[i]);
    SaveSoFar(r, m, i, t, rec);
    forall k | m < k < i && r.steps[k] == Renames(t) ensures Visible(r.states[k + 1], rec.who.id) == Some(rec) {
      HistoriesAreSafe(r, k);
      SaveSoFar(r, m, k, t, rec);
      assert Enabled(r.states[k], r.steps[k]) && r.states[k + 1] == Apply(r.states[k], r.steps[k]);
      OneStepEffects(r.states[k], r.steps[k], rec.who.id);
    }
  }

  /** When a delete succeeds, nothing of the sandbox is visible. */
  lemma DeleteLeavesNothing(s: State, u: Tid)
    requires Inv(s) && Enabled(s, RemovesDir(u))
    ensures var s' := Apply(s, RemovesDir(u)); Visible(s', s.deletes[u]) == None && s.deletes[u] !in s'.dirs
  {
  }

  /** The record a directory holds of its own. */
  function Own(s: State, d: string): Option<Record> {
    if ValidId(d) && Visible(s, d).Some? && Visible(s, d).value.who.id == d then Visible(s, d) else None
  }

  ghost predicate Lists(s: State, dirs: set<string>, records: seq<Record>) {
    && (forall rec :: rec in records <==> rec.who.id in dirs && Own(s, rec.who.id) == Some(rec))
    && (forall i, j :: 0 <= i < j < |records| ==> records[i].who.id != records[j].who.id)
  }

  lemma ListsOneMore(s: State, dirs: set<string>, records: seq<Record>, d: string)
    requires Lists(s, dirs, records) && d !in dirs
    ensures Lists(s, dirs + {d}, if Own(s, d).Some? then records + [Own(s, d).value] else records)
  {
    forall i | 0 <= i < |records| ensures records[i].who.id != d { assert records[i] in records; }
  }

  /** List: the records of all directories that hold one of their own and could be read;
      everything else is skipped and left alone.  Entries come in any order. */
  method List(s: State, unread: set<string>) returns (records: seq<Record>, skipped: set<string>)
    ensures Lists(s, s.dirs - unread, records)
    ensures skipped == set d | d in s.dirs && (d in unread || Own(s, d).None?)
  {
    records, skipped := [], {};
    var todo := s.dirs;
    ghost var read: set<string> := {};
    while todo != {}
      invariant todo <= s.dirs && Lists(s, read, records)
      invariant forall d :: d in read <==> d in s.dirs && d !in todo && d !in unread
      invariant forall d :: d in skipped <==> d in s.dirs && d !in todo && (d in unread || Own(s, d).None?)
      decreases |todo|
    {
      var d :| d in todo;
      if d in unread {
        skipped := skipped + {d};
      } else {
        ListsOneMore(s, read, records, d);
        read := read + {d};
        if Own(s, d).None? { skipped := skipped + {d}; } else { records := records + [Own(s, d).value]; }
      }
      todo := todo - {d};
    }
    assert read == s.dirs - unread;
  }

  /** In every history List misses no record that can be read, and returns nothing else. */
  lemma ListedIsVisible(r: Run, i: nat, unread: set<string>, rec: Record)
    requires IsHistory(r) && i < |r.states|
    ensures var s := r.states[i];
      rec.who.id in s.dirs - unread && Own(s, rec.who.id) == Some(rec)
      <==> rec.who.id !in unread && Visible(s, rec.who.id) == Some(rec)
  {
    HistoriesAreSafe(r, i);
    var s := r.states[i];
    if Visible(s, rec.who.id) == Some(rec) { assert FileOk(s, RecordPath(rec.who.id)); }
  }
}
