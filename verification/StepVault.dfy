/** pkg/manager/control/vault/servicev3.go: v3 services and their steps are kept as records that are
    only ever appended; a query takes the newest record of each key. Tables are sequences of rows in
    the order in which the database hands them out. */
module StepVault {
  import opened Wrappers
  import opened ServiceModel
  import opened Sorting

  // ---------------------------------------------------------------- newest record per key

  /** Of the records with key `k`, the one at `i` is the first of the newest. */
  ghost predicate NewestAt<T(!new), K(!new)>(log: seq<T>, key: T -> K, stamp: T -> Time, k: K, i: int) {
    && 0 <= i < |log|
    && key(log[i]) == k
    && (forall j :: 0 <= j < i && key(log[j]) == k ==> stamp(log[j]) < stamp(log[i]))
    && (forall j :: i < j < |log| && key(log[j]) == k ==> stamp(log[j]) <= stamp(log[i]))
  }

  function Add<T, K>(found: map<K, T>, key: T -> K, stamp: T -> Time, x: T): map<K, T> {
    if key(x) in found && stamp(found[key(x)]) >= stamp(x) then found else found[key(x) := x]
  }

  function Reduce<T, K>(log: seq<T>, key: T -> K, stamp: T -> Time): map<K, T> {
    if log == [] then map[]
    else Add(Reduce(log[..|log| - 1], key, stamp), key, stamp, log[|log| - 1])
  }

  lemma NewestOfExtended<T(!new), K(!new)>(log: seq<T>, key: T -> K, stamp: T -> Time, k: K, i: int, x: T)
    requires NewestAt(log, key, stamp, k, i)
    ensures if key(x) == k && stamp(x) > stamp(log[i]) then NewestAt(log + [x], key, stamp, k, |log|)
            else NewestAt(log + [x], key, stamp, k, i)
  {
    assert forall j :: 0 <= j < |log| ==> (log + [x])[j] == log[j];
  }

  /** The reduction has a record for exactly the keys that occur, the first of the newest. */
  lemma {:induction false} ReduceIsNewest<T(!new), K(!new)>(log: seq<T>, key: T -> K, stamp: T -> Time, k: K)
    ensures k in Reduce(log, key, stamp) <==> exists j :: 0 <= j < |log| && key(log[j]) == k
    ensures k in Reduce(log, key, stamp) ==>
              exists i :: NewestAt(log, key, stamp, k, i) && log[i] == Reduce(log, key, stamp)[k]
  {
    if log != [] {
      var init, x := log[..|log| - 1], log[|log| - 1];
      assert log == init + [x];
      ReduceIsNewest(init, key, stamp, k);
      if k in Reduce(init, key, stamp) {
        var i :| NewestAt(init, key, stamp, k, i) && init[i] == Reduce(init, key, stamp)[k];
        NewestOfExtended(init, key, stamp, k, i, x);
      } else if key(x) == k {
        assert NewestAt(log, key, stamp, k, |init|);
      }
    }
  }

  /** There is only one such record. */
  lemma NewestIsUnique<T(!new), K(!new)>(log: seq<T>, key: T -> K, stamp: T -> Time, k: K, i: int, j: int)
    requires NewestAt(log, key, stamp, k, i) && NewestAt(log, key, stamp, k, j)
    ensures i == j
  {
  }

  lemma ReduceOneMore<T, K>(log: seq<T>, key: T -> K, stamp: T -> Time, i: nat)
    requires i < |log|
    ensures Reduce(log[..i + 1], key, stamp) == Add(Reduce(log[..i], key, stamp), key, stamp, log[i])
  {
    assert log[..i + 1][..i] == log[..i];
  }

  method ReduceLog<T, K(==)>(log: seq<T>, key: T -> K, stamp: T -> Time) returns (found: map<K, T>)
    ensures found == Reduce(log, key, stamp)
  {
    found := map[];
    for i := 0 to |log|
      invariant found == Reduce(log[..i], key, stamp)
    {
      var x := log[i];
      ReduceOneMore(log, key, stamp, i);
      if key(x) !in found {
        found := found[key(x) := x];
      }
      if stamp(found[key(x)]) < stamp(x) {
        found := found[key(x) := x];
      }
    }
    assert log[..|log|] == log;
  }

  /** `list` holds the records found, each once. */
  ghost predicate Lists<T(!new), K>(found: map<K, T>, key: T -> K, list: seq<T>) {
    forall x :: multiset(list)[x] == if key(x) in found && found[key(x)] == x then 1 else 0
  }

  method Values<T(!new), K(==)>(found: map<K, T>, key: T -> K) returns (list: seq<T>)
    requires forall k :: k in found ==> key(found[k]) == k
    ensures Lists(found, key, list)
  {
    list := [];
    var todo := found.Keys;
    while todo != {}
      invariant todo <= found.Keys
      invariant forall x :: multiset(list)[x] ==
                  if key(x) in found && key(x) !in todo && found[key(x)] == x then 1 else 0
    {
      var k :| k in todo;
      todo := todo - {k};
      list := list + [found[k]];
    }
  }

  lemma ReduceKeepsKeys<T(!new), K(!new)>(log: seq<T>, key: T -> K, stamp: T -> Time)
    ensures forall k :: k in Reduce(log, key, stamp) ==> key(Reduce(log, key, stamp)[k]) == k
  {
    forall k | k in Reduce(log, key, stamp) ensures key(Reduce(log, key, stamp)[k]) == k {
      ReduceIsNewest(log, key, stamp, k);
    }
  }

  ghost predicate IsNewest<T(!new), K(!new)>(log: seq<T>, key: T -> K, stamp: T -> Time, x: T) {
    exists i :: NewestAt(log, key, stamp, key(x), i) && log[i] == x
  }

  /** Each key of the log once, by the first of its newest records. */
  ghost predicate AreNewest<T(!new), K(!new)>(log: seq<T>, key: T -> K, stamp: T -> Time, list: seq<T>) {
    && (forall i, j :: 0 <= i < j < |list| ==> key(list[i]) != key(list[j]))
    && (forall x :: x in list <==> IsNewest(log, key, stamp, x))
    && (forall x :: x in log ==> exists y :: y in list && key(y) == key(x))
  }

  /** So every record of the log has one with its key in the list that is no older. */
  lemma NoneIsNewer<T(!new), K(!new)>(log: seq<T>, key: T -> K, stamp: T -> Time, list: seq<T>, x: T)
    requires AreNewest(log, key, stamp, list) && x in log
    ensures exists y :: y in list && key(y) == key(x) && stamp(x) <= stamp(y)
  {
    var y :| y in list && key(y) == key(x);
    assert IsNewest(log, key, stamp, y);
    var i :| NewestAt(log, key, stamp, key(y), i) && log[i] == y;
    var j :| 0 <= j < |log| && log[j] == x;
    assert j < i || j == i || i < j;
  }

  lemma ListedAreThere<T(!new), K(!new)>(log: seq<T>, key: T -> K, stamp: T -> Time, list: seq<T>)
    requires AreNewest(log, key, stamp, list)
    ensures forall y :: y in list ==> y in log
  {
    forall y | y in list ensures y in log {
      assert IsNewest(log, key, stamp, y);
    }
  }

  lemma CountTwice<T>(list: seq<T>, i: nat, j: nat)
    requires i < j < |list| && list[i] == list[j]
    ensures multiset(list)[list[i]] >= 2
  {
    assert list == list[..i] + [list[i]] + list[i + 1..j] + [list[j]] + list[j + 1..];
  }

  lemma ListedAreNewest<T(!new), K(!new)>(log: seq<T>, key: T -> K, stamp: T -> Time, list: seq<T>)
    requires Lists(Reduce(log, key, stamp), key, list)
    ensures AreNewest(log, key, stamp, list)
  {
    var found := Reduce(log, key, stamp);
    forall x ensures x in list <==> IsNewest(log, key, stamp, x) {
      assert x in list <==> multiset(list)[x] > 0;
      ReduceIsNewest(log, key, stamp, key(x));
      if IsNewest(log, key, stamp, x) {
        var i :| NewestAt(log, key, stamp, key(x), i) && log[i] == x;
        var j :| NewestAt(log, key, stamp, key(x), j) && log[j] == found[key(x)];
        NewestIsUnique(log, key, stamp, key(x), i, j);
      }
    }
    forall i, j | 0 <= i < j < |list| ensures key(list[i]) != key(list[j]) {
      assert multiset(list)[list[i]] <= 1 && multiset(list)[list[j]] > 0;
      assert found[key(list[i])] == list[i] && found[key(list[j])] == list[j];
      if list[i] == list[j] {
        CountTwice(list, i, j);
      }
    }
    forall x | x in log ensures exists y :: y in list && key(y) == key(x) {
      ReduceIsNewest(log, key, stamp, key(x));
      ReduceKeepsKeys(log, key, stamp);
      var y := found[key(x)];
      assert multiset(list)[y] == 1;
      assert y in list;
    }
  }

  // ---------------------------------------------------------------- steps

  datatype StepRow = StepRow(cluster: string, uuid: Uuid, sequence: int, timestamp: Time, status: StepStatus)

  function SequenceOf(): StepRow -> int {
    (r: StepRow) => r.sequence
  }

  function StampOf(): StepRow -> Time {
    (r: StepRow) => r.timestamp
  }

  predicate BySequence(a: StepRow, b: StepRow) {
    a.sequence < b.sequence
  }

  function StepsOf(table: seq<StepRow>, cluster: string, uuid: Uuid): seq<StepRow> {
    if table == [] then []
    else
      var n := |table| - 1;
      var rest := StepsOf(table[..n], cluster, uuid);
      if (cluster == "" || table[n].cluster == cluster) && table[n].uuid == uuid then rest + [table[n]] else rest
  }

  lemma {:induction false} StepsOfIn(table: seq<StepRow>, cluster: string, uuid: Uuid, row: StepRow)
    ensures row in StepsOf(table, cluster, uuid) <==>
            row in table && row.uuid == uuid && (cluster == "" || row.cluster == cluster)
  {
    if table != [] {
      var n := |table| - 1;
      StepsOfIn(table[..n], cluster, uuid, row);
      assert table == table[..n] + [table[n]];
    }
  }

  lemma StepsAreThoseOf(table: seq<StepRow>, cluster: string, uuid: Uuid, steps: seq<StepRow>)
    requires AreSteps(StepsOf(table, cluster, uuid), steps)
    ensures forall s :: s in steps ==> s in table && s.uuid == uuid && (cluster == "" || s.cluster == cluster)
    ensures forall r :: r in table && r.uuid == uuid && (cluster == "" || r.cluster == cluster) ==>
              exists s :: s in steps && s.sequence == r.sequence && r.timestamp <= s.timestamp
  {
    var rows := StepsOf(table, cluster, uuid);
    ListedAreThere(rows, SequenceOf(), StampOf(), steps);
    forall s | s in steps ensures s in table && s.uuid == uuid && (cluster == "" || s.cluster == cluster) {
      StepsOfIn(table, cluster, uuid, s);
    }
    forall r | r in table && r.uuid == uuid && (cluster == "" || r.cluster == cluster)
      ensures exists s :: s in steps && s.sequence == r.sequence && r.timestamp <= s.timestamp
    {
      StepsOfIn(table, cluster, uuid, r);
      NoneIsNewer(rows, SequenceOf(), StampOf(), steps, r);
      var s :| s in steps && SequenceOf()(s) == SequenceOf()(r) && StampOf()(r) <= StampOf()(s);
      assert s.sequence == r.sequence;
    }
  }

  /** The steps of a service, one for each sequence number, in order. */
  ghost predicate AreSteps(rows: seq<StepRow>, steps: seq<StepRow>) {
    && AreNewest(rows, SequenceOf(), StampOf(), steps)
    && (forall i, j :: 0 <= i < j < |steps| ==> steps[i].sequence < steps[j].sequence)
  }

  method GetServiceSteps(table: seq<StepRow>, cluster: string, uuid: Uuid) returns (steps: seq<StepRow>)
    ensures AreSteps(StepsOf(table, cluster, uuid), steps)
    ensures forall s :: s in steps ==> s in table && s.uuid == uuid && (cluster == "" || s.cluster == cluster)
    ensures forall r :: r in table && r.uuid == uuid && (cluster == "" || r.cluster == cluster) ==>
              exists s :: s in steps && s.sequence == r.sequence && r.timestamp <= s.timestamp
    ensures forall i, j :: 0 <= i < j < |steps| ==> steps[i].sequence < steps[j].sequence
  {
    var rows := StepsOf(table, cluster, uuid);
    var found := ReduceLog(rows, SequenceOf(), StampOf());
    ReduceKeepsKeys(rows, SequenceOf(), StampOf());
    var list := Values(found, SequenceOf());
    steps := SortSlice(list, BySequence);
    ListedAreNewest(rows, SequenceOf(), StampOf(), steps);
    assert forall i, j :: 0 <= i < j < |steps| ==> SequenceOf()(steps[i]) != SequenceOf()(steps[j]);
    StepsAreThoseOf(table, cluster, uuid, steps);
  }

  function WithSequence(rows: seq<StepRow>, sequence: int): seq<StepRow> {
    if rows == [] then []
    else
      var n := |rows| - 1;
      var rest := WithSequence(rows[..n], sequence);
      if rows[n].sequence == sequence then rest + [rows[n]] else rest
  }

  function Lookup<K, T>(found: map<K, T>, k: K): Option<T> {
    if k in found then Some(found[k]) else None
  }

  /** Asking for one sequence number finds what asking for all of them finds under it. */
  lemma {:induction false} OneStepAmongAll(rows: seq<StepRow>, sequence: int)
    ensures forall r :: r in WithSequence(rows, sequence) ==> r.sequence == sequence
    ensures Lookup(Reduce(WithSequence(rows, sequence), SequenceOf(), StampOf()), sequence)
         == Lookup(Reduce(rows, SequenceOf(), StampOf()), sequence)
  {
    if rows != [] {
      var n := |rows| - 1;
      OneStepAmongAll(rows[..n], sequence);
      var rest := WithSequence(rows[..n], sequence);
      assert (rest + [rows[n]])[..|rest|] == rest;
    }
  }

  /** The record found for a sequence number is a newest one of the table; without one there is no such row. */
  lemma OneStepOfTable(table: seq<StepRow>, cluster: string, uuid: Uuid, sequence: int)
    ensures var rows := StepsOf(table, cluster, uuid);
      match Lookup(Reduce(rows, SequenceOf(), StampOf()), sequence)
      case None => !exists s :: s in table && s.uuid == uuid && (cluster == "" || s.cluster == cluster)
                                && s.sequence == sequence
      case Some(r) =>
        && r in table && r.uuid == uuid && (cluster == "" || r.cluster == cluster) && r.sequence == sequence
        && forall s ::
             (s in table && s.uuid == uuid && (cluster == "" || s.cluster == cluster) && s.sequence == sequence) ==>
               s.timestamp <= r.timestamp
  {
    var rows := StepsOf(table, cluster, uuid);
    forall s ensures s in rows <==> s in table && s.uuid == uuid && (cluster == "" || s.cluster == cluster) {
      StepsOfIn(table, cluster, uuid, s);
    }
    ReduceIsNewest(rows, SequenceOf(), StampOf(), sequence);
    forall s | s in rows && s.sequence == sequence ensures sequence in Reduce(rows, SequenceOf(), StampOf()) {
      var j :| 0 <= j < |rows| && rows[j] == s;
      assert SequenceOf()(rows[j]) == sequence;
    }
    if sequence in Reduce(rows, SequenceOf(), StampOf()) {
      var i :| NewestAt(rows, SequenceOf(), StampOf(), sequence, i)
               && rows[i] == Reduce(rows, SequenceOf(), StampOf())[sequence];
      forall s | s in rows && s.sequence == sequence ensures s.timestamp <= rows[i].timestamp {
        var j :| 0 <= j < |rows| && rows[j] == s;
        assert SequenceOf()(rows[j]) == sequence && StampOf()(rows[j]) == s.timestamp;
        assert j < i || j == i || i < j;
      }
    }
  }

  /** One record instead of a map of them. */
  method GetServiceStep(table: seq<StepRow>, cluster: string, uuid: Uuid, sequence: int)
    returns (r: Result<StepRow, string>)
    ensures r.Ok? ==>
              && r.value.sequence == sequence
              && IsNewest(StepsOf(table, cluster, uuid), SequenceOf(), StampOf(), r.value)
    ensures r.Err? <==> forall s :: s in StepsOf(table, cluster, uuid) ==> s.sequence != sequence
    ensures r.Ok? ==>
              && r.value in table && r.value.uuid == uuid && (cluster == "" || r.value.cluster == cluster)
              && forall s ::
                   (s in table && s.uuid == uuid && (cluster == "" || s.cluster == cluster) && s.sequence == sequence)
                   ==> s.timestamp <= r.value.timestamp
    ensures r.Err? <==> !exists s :: s in table && s.uuid == uuid && (cluster == "" || s.cluster == cluster)
                                     && s.sequence == sequence
  {
    var rows := StepsOf(table, cluster, uuid);
    var scanned := WithSequence(rows, sequence);
    OneStepAmongAll(rows, sequence);
    ReduceIsNewest(rows, SequenceOf(), StampOf(), sequence);
    var record: Option<StepRow> := None;
    for i := 0 to |scanned|
      invariant record == Lookup(Reduce(scanned[..i], SequenceOf(), StampOf()), sequence)
    {
      ReduceOneMore(scanned, SequenceOf(), StampOf(), i);
      if record.None? {
        record := Some(scanned[i]);
      }
      if record.value.timestamp < scanned[i].timestamp {
        record := Some(scanned[i]);
      }
    }
    assert scanned[..|scanned|] == scanned;
    OneStepOfTable(table, cluster, uuid, sequence);
    if record.None? {
      return Err("could not found service step record");
    }
    return Ok(record.value);
  }

  // ---------------------------------------------------------------- services

  datatype ServiceRecord = ServiceRecord(cluster: string, uuid: Uuid, priority: int, created: Time, timestamp: Time,
                                         status: StepStatus)

  function UuidOf(): ServiceRecord -> Uuid {
    (r: ServiceRecord) => r.uuid
  }

  function RecordedAt(): ServiceRecord -> Time {
    (r: ServiceRecord) => r.timestamp
  }

  predicate BestFirst(a: ServiceRecord, b: ServiceRecord) {
    if a.priority != b.priority then a.priority > b.priority else a.created < b.created
  }

  function RecordsOf(table: seq<ServiceRecord>, cluster: string, offset: Option<int>): seq<ServiceRecord> {
    if table == [] then []
    else
      var n := |table| - 1;
      var rest := RecordsOf(table[..n], cluster, offset);
      if (cluster == "" || table[n].cluster == cluster) && (offset.Some? ==> table[n].created >= offset.value)
      then rest + [table[n]]
      else rest
  }

  lemma {:induction false} RecordsOfIn(table: seq<ServiceRecord>, cluster: string, offset: Option<int>,
                                       row: ServiceRecord)
    ensures row in RecordsOf(table, cluster, offset) <==>
            && row in table && (cluster == "" || row.cluster == cluster)
            && (offset.Some? ==> row.created >= offset.value)
  {
    if table != [] {
      var n := |table| - 1;
      RecordsOfIn(table[..n], cluster, offset, row);
      assert table == table[..n] + [table[n]];
    }
  }

  /** Each service once, by the first of its newest records, best first. */
  ghost predicate AreCurrent(rows: seq<ServiceRecord>, records: seq<ServiceRecord>) {
    AreNewest(rows, UuidOf(), RecordedAt(), records) && Sorted(records, BestFirst)
  }

  lemma CurrentAreThoseOf(table: seq<ServiceRecord>, cluster: string, offset: Option<int>,
                          records: seq<ServiceRecord>)
    requires AreCurrent(RecordsOf(table, cluster, offset), records)
    ensures forall s :: s in records ==>
              && s in table && (cluster == "" || s.cluster == cluster)
              && (offset.Some? ==> s.created >= offset.value)
    ensures forall r :: r in table && (cluster == "" || r.cluster == cluster)
                        && (offset.Some? ==> r.created >= offset.value) ==>
              exists s :: s in records && s.uuid == r.uuid && r.timestamp <= s.timestamp
    ensures forall i, j :: 0 <= i < j < |records| ==>
              && records[i].uuid != records[j].uuid
              && records[i].priority >= records[j].priority
              && (records[i].priority == records[j].priority ==> records[i].created <= records[j].created)
  {
    var rows := RecordsOf(table, cluster, offset);
    ListedAreThere(rows, UuidOf(), RecordedAt(), records);
    forall s | s in records
      ensures s in table && (cluster == "" || s.cluster == cluster) && (offset.Some? ==> s.created >= offset.value)
    {
      RecordsOfIn(table, cluster, offset, s);
    }
    forall r | r in table && (cluster == "" || r.cluster == cluster) && (offset.Some? ==> r.created >= offset.value)
      ensures exists s :: s in records && s.uuid == r.uuid && r.timestamp <= s.timestamp
    {
      RecordsOfIn(table, cluster, offset, r);
      NoneIsNewer(rows, UuidOf(), RecordedAt(), records, r);
      var s :| s in records && UuidOf()(s) == UuidOf()(r) && RecordedAt()(r) <= RecordedAt()(s);
      assert s.uuid == r.uuid;
    }
    forall i, j | 0 <= i < j < |records| ensures records[i].uuid != records[j].uuid {
      assert UuidOf()(records[i]) != UuidOf()(records[j]);
    }
    assert forall i, j :: 0 <= i < j < |records| ==> !BestFirst(records[j], records[i]);
  }

  method GetServicesPolling(table: seq<ServiceRecord>, cluster: string, offset: Option<int>)
    returns (r: Result<seq<ServiceRecord>, string>)
    ensures r.Err? <==> cluster == "" && offset.None?
    ensures r.Ok? ==> AreCurrent(RecordsOf(table, cluster, offset), r.value)
    ensures r.Ok? ==> forall s :: s in r.value ==>
              && s in table && (cluster == "" || s.cluster == cluster)
              && (offset.Some? ==> s.created >= offset.value)
    ensures r.Ok? ==> forall s :: s in table && (cluster == "" || s.cluster == cluster)
                                  && (offset.Some? ==> s.created >= offset.value) ==>
              exists t :: t in r.value && t.uuid == s.uuid && s.timestamp <= t.timestamp
    ensures r.Ok? ==> forall i, j :: 0 <= i < j < |r.value| ==>
              && r.value[i].uuid != r.value[j].uuid
              && r.value[i].priority >= r.value[j].priority
              && (r.value[i].priority == r.value[j].priority ==> r.value[i].created <= r.value[j].created)
  {
    if cluster == "" && offset.None? {
      return Err("need more condition");
    }
    var rows := RecordsOf(table, cluster, offset);
    var found := ReduceLog(rows, UuidOf(), RecordedAt());
    ReduceKeepsKeys(rows, UuidOf(), RecordedAt());
    var list := Values(found, UuidOf());
    var records := SortSlice(list, BestFirst);
    ListedAreNewest(rows, UuidOf(), RecordedAt(), records);
    CurrentAreThoseOf(table, cluster, offset, records);
    return Ok(records);
  }
}
