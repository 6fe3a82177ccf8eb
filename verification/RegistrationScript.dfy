/** The registration script statement by statement, whichever statements raise, and
    the run of the saga that one call of it is. */
module RegistrationScript {
  import opened Wrappers
  import opened ObjectStore
  import opened DatasetLayout
  import opened Registration

  /** The upload of the file at this position raises. */
  datatype PutFault = PutFault(at: nat, landed: bool)

  /** Which statements of a run raise. */
  datatype RunFaults = RunFaults(
    reserve: Option<Fault>,
    put: Option<PutFault>, verify: Option<string>,
    activate: Option<Fault>, compensate: Option<Fault>)

  predicate PutFails(d: Dataset, f: RunFaults) {
    f.put.Some? && f.put.value.at < |Puts(d)|
  }

  /** How many objects an upload writes. */
  function Sent(d: Dataset, f: RunFaults): (n: nat)
    ensures n <= |Puts(d)|
  {
    if PutFails(d, f) then f.put.value.at + (if f.put.value.landed then 1 else 0) else |Puts(d)|
  }

  predicate UploadFails(d: Dataset, f: RunFaults) {
    PutFails(d, f) || f.verify.Some?
  }

  function SendAll(r: Registry, d: Dataset, n: nat): Registry
    requires n <= |Puts(d)|
  {
    r.(objects := PutAll(r.objects, StoragePath(d), Puts(d)[..n]))
  }

  /** What follows a fresh reservation. */
  function AfterReserve(r: Registry, d: Dataset, id: int, f: RunFaults): (Registry, Option<int>) {
    var sent := SendAll(r, d, Sent(d, f));
    if UploadFails(d, f) then (Attempt(f.compensate, sent, DeletePending(sent, id)), None)
    else (Attempt(f.activate, sent, Activate(sent, id)), if f.activate.None? then Some(id) else None)
  }

  /** The whole script run alone: the registry after it and the printed id, or the failure. */
  ghost function RunAlone(r: Registry, d: Dataset, f: RunFaults): (Registry, Option<int>) {
    var (reserved, id, already) := Reserve(r, d);
    if f.reserve.Some? then (Attempt(f.reserve, r, reserved), None)
    else if already then (reserved, Some(id))
    else AfterReserve(reserved, d, id, f)
  }

  class RegisterDataset {
    var rows: map<int, Reg>
    var nextId: int
    var objects: Objects

    constructor (objects: Objects)
      ensures Value() == Registry(map[], 1, objects)
    {
      this.rows, this.nextId, this.objects := map[], 1, objects;
    }

    function Value(): Registry
      reads this
    {
      Registry(rows, nextId, objects)
    }

    /** reserve_dataset_row; `name` and `version` name at most one row (UNIQUE). */
    method ReserveRow(d: Dataset) returns (id: int, already: bool)
      requires OneRowPerRef(rows)
      modifies this`rows, this`nextId
      ensures (Value(), id, already) == Reserve(old(Value()), d)
      ensures already ==> Value() == old(Value()) && Names(rows, d, id) && rows[id].status == Ready
      ensures !already ==>
                && id == old(nextId) && nextId == id + 1 && id in rows && rows[id] == Reg(d, Pending)
                && (forall i :: i in old(rows) && Names(old(rows), d, i) ==> old(rows)[i].status != Ready)
                && (forall i :: i in old(rows) && !Names(old(rows), d, i) && i != id ==> i in rows && rows[i] == old(rows)[i])
                && (forall i :: i in rows && i != id ==> i in old(rows) && !Names(old(rows), d, i))
    {
      ghost var x := Existing(rows, d);
      assert x.Some? ==> Names(rows, d, x.value);
      if exists i :: i in rows && Names(rows, d, i) {
        var i :| i in rows && Names(rows, d, i);
        if rows[i].status == Ready {
          return i, true;
        }
        rows := rows - {i};
      }
      id, already := nextId, false;
      rows := rows[id := Reg(d, Pending)];
      nextId := nextId + 1;
    }

    method ActivateRow(id: int)
      modifies this`rows
      ensures Value() == Activate(old(Value()), id)
      ensures rows == if id in old(rows) then old(rows)[id := old(rows)[id].(status := Ready)] else old(rows)
    {
      if id in rows {
        rows := rows[id := rows[id].(status := Ready)];
      }
    }

    method DeleteRow(id: int)
      modifies this`rows
      ensures Value() == DeletePending(old(Value()), id)
      ensures rows == if id in old(rows) && old(rows)[id].status == Pending then old(rows) - {id} else old(rows)
    {
      if id in rows && rows[id].status == Pending {
        rows := rows - {id};
      }
    }

    /** upload_dataset: file by file, then the verification. */
    method Upload(d: Dataset, f: RunFaults) returns (ok: bool)
      requires Valid(d)
      modifies this`objects
      ensures ok <==> !UploadFails(d, f)
      ensures ok <==> !(f.put.Some? && f.put.value.at < |Puts(d)|) && f.verify.None?
      ensures Value() == SendAll(old(Value()), d, Sent(d, f))
    {
      var files := Puts(d);
      var prefix := StoragePath(d);
      for i := 0 to |files|
        invariant f.put.Some? ==> f.put.value.at >= i
        invariant objects == PutAll(old(objects), prefix, files[..i])
      {
        assert files[..i + 1][..i] == files[..i];
        if f.put.Some? && f.put.value.at == i {
          if f.put.value.landed { objects := objects[prefix + files[i].path := files[i].content]; }
          return false;
        }
        objects := objects[prefix + files[i].path := files[i].content];
      }
      assert files[..|files|] == files;
      if f.verify.Some? { return false; }
      UploadIsVerified(old(objects), d);
      ok := KeysPresent(objects, d);
    }

    /** main: the printed id, or None when an exception left it. */
    method Register(d: Dataset, f: RunFaults) returns (id: Option<int>)
      requires Valid(d)
      requires OneRowPerRef(rows)
      modifies this
      ensures (Value(), id) == RunAlone(old(Value()), d, f)
    {
      var datasetId, already := 0, false;
      if Takes(f.reserve) { datasetId, already := ReserveRow(d); }
      if f.reserve.Some? { return None; }
      if already {
        return Some(datasetId);
      }
      var ok := Upload(d, f);
      if !ok {
        if Takes(f.compensate) { DeleteRow(datasetId); }
        return None;
      }
      if Takes(f.activate) { ActivateRow(datasetId); }
      return if f.activate.None? then Some(datasetId) else None;
    }
  }

  lemma UploadIsVerified(objects: Objects, d: Dataset)
    requires Valid(d)
    ensures KeysPresent(Uploaded(objects, d), d)
  {
    PutAllFacts(objects, StoragePath(d), Puts(d));
  }

  // -------------------------------------------------------- as a run

  function PutTrace(p: nat, n: nat): seq<Action> {
    if n == 0 then [] else PutTrace(p, n - 1) + [PutNext(p)]
  }

  function EndTrace(p: nat, d: Dataset, f: RunFaults): seq<Action> {
    if UploadFails(d, f) then [Action.PutFails(p), if Takes(f.compensate) then Compensate(p) else Cut(p)]
    else [Verify(p), if Takes(f.activate) then ActivateRow(p) else Cut(p)]
  }

  /** The steps of the saga that one run of the script takes. */
  ghost function RegisterTrace(p: nat, r: Registry, d: Dataset, f: RunFaults): seq<Action> {
    if f.reserve.Some? then [Begin(p, d), if f.reserve.value.landed then ReserveRow(p) else Cut(p)]
    else if Reserve(r, d).2 then [Begin(p, d), ReserveRow(p)]
    else [Begin(p, d), ReserveRow(p)] + PutTrace(p, Sent(d, f)) + EndTrace(p, d, f)
  }

  lemma {:induction false} ExecConcat(s: State, a: seq<Action>, b: seq<Action>)
    ensures Exec(s, a + b) == Exec(Exec(s, a), b)
    decreases |a|
  {
    if a == [] {
      assert a + b == b;
    } else {
      assert (a + b)[1..] == a[1..] + b;
      ExecConcat(Apply(s, a[0]), a[1..], b);
    }
  }

  lemma ExecOne(s: State, a: Action)
    ensures Exec(s, [a]) == Apply(s, a)
  {
    assert [a][1..] == [];
  }

  lemma ExecTwo(s: State, a: Action, b: Action)
    ensures Exec(s, [a, b]) == Apply(Apply(s, a), b)
  {
    assert [a, b][1..] == [b];
    ExecOne(Apply(s, a), b);
  }

  /** A run that has uploaded its first n objects. */
  function Sending(s: State, p: nat, r: Registry, d: Dataset, id: int, n: nat): State
    requires n <= |Puts(d)|
  {
    State(SendAll(r, d, n), s.runs[p := Uploading(d, id, n)])
  }

  lemma {:induction false} PutsRun(s: State, p: nat, r: Registry, d: Dataset, id: int, n: nat)
    requires n <= |Puts(d)|
    ensures Exec(Sending(s, p, r, d, id, 0), PutTrace(p, n)) == Sending(s, p, r, d, id, n)
    decreases n
  {
    if n > 0 {
      PutsRun(s, p, r, d, id, n - 1);
      OneMorePut(Sending(s, p, r, d, id, 0), PutTrace(p, n - 1), s, p, r, d, id, n - 1);
    }
  }

  lemma OneMorePut(start: State, t: seq<Action>, s: State, p: nat, r: Registry, d: Dataset, id: int, n: nat)
    requires n < |Puts(d)| && Exec(start, t) == Sending(s, p, r, d, id, n)
    ensures Exec(start, t + [PutNext(p)]) == Sending(s, p, r, d, id, n + 1)
  {
    ExecConcat(start, t, [PutNext(p)]);
    ExecOne(Sending(s, p, r, d, id, n), PutNext(p));
    PutOneMore(s, p, r, d, id, n);
  }

  lemma PutOneMore(s: State, p: nat, r: Registry, d: Dataset, id: int, n: nat)
    requires n < |Puts(d)|
    ensures Apply(Sending(s, p, r, d, id, n), PutNext(p)) == Sending(s, p, r, d, id, n + 1)
  {
    assert Puts(d)[..n + 1][..n] == Puts(d)[..n];
    var g, h := Uploading(d, id, n), Uploading(d, id, n + 1);
    assert s.runs[p := g][p := h] == s.runs[p := h];
  }

  lemma FailedUploadRuns(m: State, p: nat, d: Dataset, id: int, n: nat, f: RunFaults)
    requires p in m.runs && m.runs[p] == Uploading(d, id, n) && UploadFails(d, f)
    ensures Exec(m, EndTrace(p, d, f)).reg == Attempt(f.compensate, m.reg, DeletePending(m.reg, id))
  {
    ExecTwo(m, Action.PutFails(p), if Takes(f.compensate) then Compensate(p) else Cut(p));
  }

  lemma VerifiedRuns(m: State, p: nat, d: Dataset, id: int, f: RunFaults)
    requires p in m.runs && m.runs[p] == Uploading(d, id, |Puts(d)|) && !UploadFails(d, f)
    requires KeysPresent(m.reg.objects, d)
    ensures Exec(m, EndTrace(p, d, f)).reg == Attempt(f.activate, m.reg, Activate(m.reg, id))
  {
    ExecTwo(m, Verify(p), if Takes(f.activate) then ActivateRow(p) else Cut(p));
  }

  lemma EndRuns(s: State, p: nat, r: Registry, d: Dataset, id: int, f: RunFaults)
    requires Valid(d)
    ensures Exec(Sending(s, p, r, d, id, Sent(d, f)), EndTrace(p, d, f)).reg == AfterReserve(r, d, id, f).0
  {
    var m := Sending(s, p, r, d, id, Sent(d, f));
    if UploadFails(d, f) {
      FailedUploadRuns(m, p, d, id, Sent(d, f), f);
    } else {
      assert Puts(d)[..|Puts(d)|] == Puts(d);
      UploadIsVerified(r.objects, d);
      VerifiedRuns(m, p, d, id, f);
    }
  }

  lemma ReservesFresh(s: State, p: nat, d: Dataset)
    requires p !in s.runs && !Reserve(s.reg, d).2
    ensures var (r, id, _) := Reserve(s.reg, d);
            Apply(Apply(s, Begin(p, d)), ReserveRow(p)) == Sending(s, p, r, d, id, 0)
  {
    var (r, id, _) := Reserve(s.reg, d);
    assert SendAll(r, d, 0) == r;
    assert s.runs[p := Began(d)][p := Uploading(d, id, 0)] == s.runs[p := Uploading(d, id, 0)];
  }

  /** The code's `main`, whichever statements raise, is a run of the saga. */
  lemma RegisterIsARun(s: State, p: nat, d: Dataset, f: RunFaults)
    requires Valid(d) && p !in s.runs
    ensures Exec(s, RegisterTrace(p, s.reg, d, f)).reg == RunAlone(s.reg, d, f).0
  {
    if f.reserve.Some? {
      ExecTwo(s, Begin(p, d), if f.reserve.value.landed then ReserveRow(p) else Cut(p));
    } else if Reserve(s.reg, d).2 {
      ExecTwo(s, Begin(p, d), ReserveRow(p));
    } else {
      FreshRuns(s, p, d, f);
    }
  }

  lemma FreshRuns(s: State, p: nat, d: Dataset, f: RunFaults)
    requires Valid(d) && p !in s.runs && f.reserve.None? && !Reserve(s.reg, d).2
    ensures Exec(s, RegisterTrace(p, s.reg, d, f)).reg == RunAlone(s.reg, d, f).0
  {
    var (r, id, _) := Reserve(s.reg, d);
    var begin := [Begin(p, d), ReserveRow(p)];
    var puts := PutTrace(p, Sent(d, f));
    ExecTwo(s, Begin(p, d), ReserveRow(p));
    ReservesFresh(s, p, d);
    PutsRun(s, p, r, d, id, Sent(d, f));
    ExecConcat(s, begin, puts);
    ExecConcat(s, begin + puts, EndTrace(p, d, f));
    EndRuns(s, p, r, d, id, f);
  }

  lemma {:induction false} PutTraceWithin(p: nat, n: nat)
    ensures forall a :: a in PutTrace(p, n) ==> a == PutNext(p)
  {
    if n > 0 { PutTraceWithin(p, n - 1); }
  }

  lemma RegisterTraceWithin(p: nat, r: Registry, d: Dataset, f: RunFaults, ds: set<Dataset>)
    requires d in ds
    ensures Within(RegisterTrace(p, r, d, f), ds)
  {
    PutTraceWithin(p, Sent(d, f));
  }

  /** So a call keeps what every run of the saga keeps. */
  lemma RegisterKeepsRows(r: Registry, ds: set<Dataset>, d: Dataset, f: RunFaults)
    requires Universe(ds) && RowsGood(r, ds) && d in ds
    ensures RowsGood(RunAlone(r, d, f).0, ds)
  {
    var s := State(r, map[]);
    RegisterIsARun(s, 0, d, f);
    RegisterTraceWithin(0, r, d, f, ds);
    InvKept(s, RegisterTrace(0, r, d, f), ds);
  }

  // -------------------------------------------------------- run alone

  ghost predicate HasRow(rows: map<int, Reg>, d: Dataset) {
    exists i :: Names(rows, d, i)
  }

  /** A run that prints no id leaves a row of its name and version behind. */
  ghost predicate LeavesRow(r: Registry, d: Dataset, f: RunFaults) {
    if f.reserve.Some? then f.reserve.value.landed || HasRow(r.rows, d)
    else ((f.put.Some? && f.put.value.at < |Puts(d)|) || f.verify.Some?) ==> !Takes(f.compensate)
  }

  /** An id is printed exactly when the reservation returned and either the version
      was ready, or every upload, the verification and the activation returned. */
  lemma PrintsExactly(r: Registry, d: Dataset, f: RunFaults)
    requires OneRowPerRef(r.rows)
    ensures RunAlone(r, d, f).1.Some?
            <==> && f.reserve.None?
                 && (|| (exists i :: Names(r.rows, d, i) && r.rows[i].status == Ready)
                     || (!(f.put.Some? && f.put.value.at < |Puts(d)|) && f.verify.None? && f.activate.None?))
  {
    var x := Existing(r.rows, d);
    assert x.Some? ==> Names(r.rows, d, x.value);
    assert forall i :: Names(r.rows, d, i) ==> x == Some(i);
  }

  /** A ready row of this name and version holds something else. */
  ghost predicate TakenByAnother(r: Registry, d: Dataset) {
    exists i :: Names(r.rows, d, i) && r.rows[i].status == Ready && r.rows[i].source != d
  }

  /** Run alone, whichever statements raise: a registration that prints an id leaves
      a ready row under its name and version, which is the caller's own dataset
      unless another was ready there; running it again changes nothing and prints
      the same id, unless its reservation raises; one that prints none leaves a row
      exactly as LeavesRow says; and no other row changes. */
  lemma RegisterIsIdempotent(r: Registry, ds: set<Dataset>, d: Dataset, f: RunFaults, again: RunFaults)
    requires Universe(ds) && RowsGood(r, ds) && d in ds
    ensures var (r1, id) := RunAlone(r, d, f);
            && (id.Some? ==> Names(r1.rows, d, id.value) && r1.rows[id.value].status == Ready)
            && (id.Some? ==> (r1.rows[id.value].source == d <==> !TakenByAnother(r, d)))
            && (id.Some? ==> RunAlone(r1, d, again) == (r1, if again.reserve.None? then id else None))
            && (id.None? ==> (HasRow(r1.rows, d) <==> LeavesRow(r, d, f)))
            && (forall i :: i in r.rows && !SameRef(r.rows[i].source, d) ==> i in r1.rows && r1.rows[i] == r.rows[i])
  {
    OthersStay(r, ds, d, f);
    if RunAlone(r, d, f).1.Some? {
      PrintedIsReady(r, ds, d, f);
      RepeatIsIdle(r, ds, d, f, again);
    } else {
      FailureLeaves(r, ds, d, f);
    }
  }

  lemma OthersStay(r: Registry, ds: set<Dataset>, d: Dataset, f: RunFaults)
    requires RowsGood(r, ds)
    ensures var r1 := RunAlone(r, d, f).0;
            forall i :: i in r.rows && !SameRef(r.rows[i].source, d) ==> i in r1.rows && r1.rows[i] == r.rows[i]
  {
    OneExisting(r, ds, d);
  }

  lemma OneExisting(r: Registry, ds: set<Dataset>, d: Dataset)
    requires RowsGood(r, ds)
    ensures forall i :: Names(r.rows, d, i) ==> Existing(r.rows, d) == Some(i)
    ensures Existing(r.rows, d).Some? ==> Names(r.rows, d, Existing(r.rows, d).value)
  {}

  lemma PrintedIsReady(r: Registry, ds: set<Dataset>, d: Dataset, f: RunFaults)
    requires RowsGood(r, ds) && RunAlone(r, d, f).1.Some?
    ensures var (r1, id) := RunAlone(r, d, f);
            && Names(r1.rows, d, id.value) && r1.rows[id.value].status == Ready
            && (r1.rows[id.value].source == d <==> !TakenByAnother(r, d))
  {
    OneExisting(r, ds, d);
    var x := Existing(r.rows, d);
    if x.Some? { assert Names(r.rows, d, x.value); }
  }

  lemma RepeatIsIdle(r: Registry, ds: set<Dataset>, d: Dataset, f: RunFaults, again: RunFaults)
    requires Universe(ds) && RowsGood(r, ds) && d in ds && RunAlone(r, d, f).1.Some?
    ensures var (r1, id) := RunAlone(r, d, f);
            RunAlone(r1, d, again) == (r1, if again.reserve.None? then id else None)
  {
    var (r1, id) := RunAlone(r, d, f);
    PrintedIsReady(r, ds, d, f);
    RegisterKeepsRows(r, ds, d, f);
    OneExisting(r1, ds, d);
  }

  lemma FailureLeaves(r: Registry, ds: set<Dataset>, d: Dataset, f: RunFaults)
    requires RowsGood(r, ds) && RunAlone(r, d, f).1.None?
    ensures HasRow(RunAlone(r, d, f).0.rows, d) <==> LeavesRow(r, d, f)
  {
    OneExisting(r, ds, d);
    var r1 := RunAlone(r, d, f).0;
    var x := Existing(r.rows, d);
    if f.reserve.Some? {
      if f.reserve.value.landed {
        assert Names(r1.rows, d, Reserve(r, d).1);
      }
    } else if LeavesRow(r, d, f) {
      assert Names(r1.rows, d, r.nextId);
    } else {
      forall i ensures !Names(r1.rows, d, i) {
        if i in r1.rows { assert i in r.rows && x != Some(i); }
      }
    }
  }

  const NO_FAULTS := RunFaults(None, None, None, None, None)

  /** A fresh success stores exactly the dataset's own objects. */
  lemma RegisterStoresTheDataset(r: Registry, d: Dataset)
    requires Valid(d) && Existing(r.rows, d).None?
    ensures var (r1, id) := RunAlone(r, d, NO_FAULTS);
            id == Some(r.nextId) && r1.rows == r.rows[r.nextId := Reg(d, Ready)] && AllStored(r1.objects, d)
  {
    assert Puts(d)[..|Puts(d)|] == Puts(d);
    PutAllFacts(r.objects, StoragePath(d), Puts(d));
    var (r1, id) := RunAlone(r, d, NO_FAULTS);
    forall i | 0 <= i < |Puts(d)|
      ensures StoragePath(d) + Puts(d)[i].path in r1.objects
              && r1.objects[StoragePath(d) + Puts(d)[i].path] == Puts(d)[i].content
    {
      assert Puts(d)[i] in Puts(d);
    }
  }
}
