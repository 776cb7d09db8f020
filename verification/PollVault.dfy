/** pkg/manager/control/vault/servicev4.go and the v4 part of pkg/manager/control/agent.go:
    what one v4 poll selects. Tables are sequences of rows; the order of a sequence is the order
    in which the database hands the rows out. */
module PollVault {
  import opened Wrappers
  import opened ServiceModel
  import opened Sorting

  datatype ServiceRow = ServiceRow(cluster: string, uuid: Uuid, priority: int, created: Time, stepMax: nat)

  datatype StatusRow = StatusRow(cluster: string, uuid: Uuid, created: Time,
                                 stepMax: nat, stepSeq: int, status: ManagerStatus)

  datatype ServicePolling = ServicePolling(service: ServiceRow, lastStatus: StatusRow)

  // ---------------------------------------------------------------- the query condition

  /** An absent cluster or offset drops its half of the condition. */
  predicate Matches(rowCluster: string, created: Time, cluster: string, offset: Option<int>) {
    && (cluster == "" || rowCluster == cluster)
    && (offset.Some? ==> created >= offset.value)
  }

  function QueryServices(table: seq<ServiceRow>, cluster: string, offset: Option<int>): seq<ServiceRow> {
    if table == [] then []
    else
      var n := |table| - 1;
      var rest := QueryServices(table[..n], cluster, offset);
      if Matches(table[n].cluster, table[n].created, cluster, offset) then rest + [table[n]] else rest
  }

  function QueryStatuses(table: seq<StatusRow>, cluster: string, offset: Option<int>): seq<StatusRow> {
    if table == [] then []
    else
      var n := |table| - 1;
      var rest := QueryStatuses(table[..n], cluster, offset);
      if Matches(table[n].cluster, table[n].created, cluster, offset) then rest + [table[n]] else rest
  }

  lemma {:induction false} QueryServicesIn(table: seq<ServiceRow>, cluster: string, offset: Option<int>,
                                           row: ServiceRow)
    ensures row in QueryServices(table, cluster, offset) <==>
            row in table && Matches(row.cluster, row.created, cluster, offset)
  {
    if table != [] {
      var n := |table| - 1;
      QueryServicesIn(table[..n], cluster, offset, row);
      assert table == table[..n] + [table[n]];
    }
  }

  ghost predicate DistinctRows(rows: seq<ServiceRow>) {
    forall i, j :: 0 <= i < j < |rows| ==> rows[i].uuid != rows[j].uuid
  }

  lemma {:induction false} QueryKeepsDistinct(table: seq<ServiceRow>, cluster: string, offset: Option<int>)
    requires DistinctRows(table)
    ensures DistinctRows(QueryServices(table, cluster, offset))
  {
    if table != [] {
      var n := |table| - 1;
      QueryKeepsDistinct(table[..n], cluster, offset);
      var rest := QueryServices(table[..n], cluster, offset);
      forall i | 0 <= i < |rest| ensures rest[i].uuid != table[n].uuid {
        QueryServicesIn(table[..n], cluster, offset, rest[i]);
      }
    }
  }

  // ---------------------------------------------------------------- latest status

  /** What a service counts as before anything is logged: `Regist`, dated at its creation. */
  function Default(row: ServiceRow): StatusRow {
    StatusRow(row.cluster, row.uuid, row.created, row.stepMax, 0, Regist)
  }

  function Newer(current: StatusRow, next: StatusRow): StatusRow {
    if next.uuid == current.uuid && current.created < next.created then next else current
  }

  /** Scanning a status log from a starting record. */
  function Latest(base: StatusRow, log: seq<StatusRow>): StatusRow
    ensures Latest(base, log).uuid == base.uuid
  {
    if log == [] then base else Newer(Latest(base, log[..|log| - 1]), log[|log| - 1])
  }

  /** The scan ends at the start or at a record of the same service dated after it, and nothing in
      the log about that service is dated later. */
  lemma {:induction false} LatestIsNewest(base: StatusRow, log: seq<StatusRow>)
    ensures var l := Latest(base, log);
      && (l == base || (l in log && l.uuid == base.uuid && base.created < l.created))
      && (forall r :: r in log && r.uuid == base.uuid ==> r.created <= l.created || r.created <= base.created)
      && base.created <= l.created
  {
    if log != [] {
      var init, last := log[..|log| - 1], log[|log| - 1];
      LatestIsNewest(base, init);
      assert log == init + [last];
    }
  }

  /** The offset condition is applied to the status table as well. For a service that itself
      satisfies it this loses nothing, because no status is older than its service. */
  lemma {:induction false} FilteredLogEqualsFullLog(row: ServiceRow, table: seq<StatusRow>,
                                                    cluster: string, offset: Option<int>)
    requires Matches(row.cluster, row.created, cluster, offset)
    requires forall r :: r in table && r.uuid == row.uuid ==> r.cluster == row.cluster && r.created >= row.created
    ensures Latest(Default(row), QueryStatuses(table, cluster, offset)) == Latest(Default(row), table)
  {
    if table != [] {
      var init, last := table[..|table| - 1], table[|table| - 1];
      assert table == init + [last];
      assert last in table;
      FilteredLogEqualsFullLog(row, init, cluster, offset);
      var rest := QueryStatuses(init, cluster, offset);
      if Matches(last.cluster, last.created, cluster, offset) {
        assert (rest + [last])[..|rest|] == rest;
      }
    }
  }

  // ---------------------------------------------------------------- the poll query

  predicate Before(a: ServicePolling, b: ServicePolling) {
    if a.service.priority != b.service.priority then a.service.priority > b.service.priority
    else a.service.created < b.service.created
  }

  function Attach(rows: seq<ServiceRow>, log: seq<StatusRow>): (r: seq<ServicePolling>)
    ensures |r| == |rows|
  {
    seq(|rows|, i requires 0 <= i < |rows| => ServicePolling(rows[i], Latest(Default(rows[i]), log)))
  }

  /** `polled` lists exactly the given services, each with its latest status, best first. */
  ghost predicate IsPolling(rows: seq<ServiceRow>, log: seq<StatusRow>, polled: seq<ServicePolling>) {
    multiset(polled) == multiset(Attach(rows, log)) && Sorted(polled, Before)
  }

  lemma BeforeIsStrictWeakOrder()
    ensures StrictWeakOrder(Before)
  {
  }

  lemma PollingMembers(rows: seq<ServiceRow>, log: seq<StatusRow>, polled: seq<ServicePolling>)
    requires IsPolling(rows, log, polled)
    ensures |polled| == |rows|
    ensures forall p :: p in polled <==> p.service in rows && p.lastStatus == Latest(Default(p.service), log)
  {
    var attached := Attach(rows, log);
    SameMembers(polled, attached);
    forall p: ServicePolling | p.service in rows && p.lastStatus == Latest(Default(p.service), log)
      ensures p in attached
    {
      var i :| 0 <= i < |rows| && rows[i] == p.service;
      assert attached[i] == p;
    }
  }

  /** For a log no older than its services, the two-table query sees each selected service with the
      latest record of its whole log. */
  lemma PollingSeesFullLog(table: seq<ServiceRow>, statuses: seq<StatusRow>, cluster: string, offset: Option<int>,
                           polled: seq<ServicePolling>)
    requires forall s, r :: s in table && r in statuses && r.uuid == s.uuid ==>
               r.cluster == s.cluster && r.created >= s.created
    requires IsPolling(QueryServices(table, cluster, offset), QueryStatuses(statuses, cluster, offset), polled)
    ensures IsPolling(QueryServices(table, cluster, offset), statuses, polled)
  {
    var rows := QueryServices(table, cluster, offset);
    forall i | 0 <= i < |rows|
      ensures Attach(rows, QueryStatuses(statuses, cluster, offset))[i] == Attach(rows, statuses)[i]
    {
      QueryServicesIn(table, cluster, offset, rows[i]);
      FilteredLogEqualsFullLog(rows[i], statuses, cluster, offset);
    }
    assert Attach(rows, QueryStatuses(statuses, cluster, offset)) == Attach(rows, statuses);
  }

  lemma PolledInOrder(rows: seq<ServiceRow>, log: seq<StatusRow>, polled: seq<ServicePolling>)
    requires IsPolling(rows, log, polled)
    ensures forall i, j :: 0 <= i < j < |polled| ==>
              && polled[i].service.priority >= polled[j].service.priority
              && (polled[i].service.priority == polled[j].service.priority ==>
                    polled[i].service.created <= polled[j].service.created)
  {
    forall i, j | 0 <= i < j < |polled| ensures !Before(polled[j], polled[i]) {
      assert Sorted(polled, Before);
    }
  }

  /** The query on the tables themselves: each service of the cluster from the offset on, with a record that no
      other is newer than, or with the default if no record was dated after the service. */
  lemma PolledAreThoseOf(table: seq<ServiceRow>, statuses: seq<StatusRow>, cluster: string, offset: Option<int>,
                         polled: seq<ServicePolling>, p: ServicePolling)
    requires IsPolling(QueryServices(table, cluster, offset), QueryStatuses(statuses, cluster, offset), polled)
    ensures p in polled ==>
              && p.service in table && (cluster == "" || p.service.cluster == cluster)
              && (offset.Some? ==> p.service.created >= offset.value)
    ensures p in polled && p.lastStatus !in statuses ==>
              var row := p.service;
              p.lastStatus == StatusRow(row.cluster, row.uuid, row.created, row.stepMax, 0, Regist)
    ensures p in polled ==> p.lastStatus.uuid == p.service.uuid
    ensures p in polled ==>
              forall r :: r in statuses && r.uuid == p.service.uuid && (cluster == "" || r.cluster == cluster) ==>
                r.created <= p.lastStatus.created || r.created <= p.service.created
    ensures (p.service in table && (cluster == "" || p.service.cluster == cluster)
             && (offset.Some? ==> p.service.created >= offset.value)) ==>
              exists q :: q in polled && q.service == p.service
  {
    var rows, log := QueryServices(table, cluster, offset), QueryStatuses(statuses, cluster, offset);
    PollingMembers(rows, log, polled);
    QueryServicesIn(table, cluster, offset, p.service);
    LatestIsNewest(Default(p.service), log);
    var q := ServicePolling(p.service, Latest(Default(p.service), log));
    assert q in polled <==> q.service in rows;
    forall r ensures r in log <==> r in statuses && Matches(r.cluster, r.created, cluster, offset) {
      QueryStatusesIn(statuses, cluster, offset, r);
    }
  }

  lemma {:induction false} QueryStatusesIn(table: seq<StatusRow>, cluster: string, offset: Option<int>, row: StatusRow)
    ensures row in QueryStatuses(table, cluster, offset) <==>
            row in table && Matches(row.cluster, row.created, cluster, offset)
  {
    if table != [] {
      var n := |table| - 1;
      QueryStatusesIn(table[..n], cluster, offset, row);
      assert table == table[..n] + [table[n]];
    }
  }

  method GetServicesPollingV4(table: seq<ServiceRow>, statuses: seq<StatusRow>, cluster: string, offset: Option<int>)
    returns (r: Result<seq<ServicePolling>, string>)
    requires DistinctRows(table)
    ensures r.Err? <==> cluster == "" && offset.None?
    ensures r.Ok? ==>
              IsPolling(QueryServices(table, cluster, offset), QueryStatuses(statuses, cluster, offset), r.value)
    ensures r.Ok? ==> forall p :: p in r.value ==>
              && p.service in table && (cluster == "" || p.service.cluster == cluster)
              && (offset.Some? ==> p.service.created >= offset.value)
    ensures r.Ok? ==> forall row :: row in table && (cluster == "" || row.cluster == cluster)
                                    && (offset.Some? ==> row.created >= offset.value) ==>
              exists p :: p in r.value && p.service == row
    ensures r.Ok? ==> forall i, j :: 0 <= i < j < |r.value| ==>
              && r.value[i].service.priority >= r.value[j].service.priority
              && (r.value[i].service.priority == r.value[j].service.priority ==>
                    r.value[i].service.created <= r.value[j].service.created)
  {
    if cluster == "" && offset.None? {
      return Err("need more condition");
    }
    var rows := QueryServices(table, cluster, offset);
    QueryKeepsDistinct(table, cluster, offset);

    var records: seq<ServicePolling> := [];
    var recordSet: map<Uuid, nat> := map[];
    for i := 0 to |rows|
      invariant |records| == i
      invariant forall k :: 0 <= k < i ==> records[k] == ServicePolling(rows[k], Default(rows[k]))
      invariant forall u :: u in recordSet ==> recordSet[u] < i && rows[recordSet[u]].uuid == u
      invariant forall k :: 0 <= k < i ==> rows[k].uuid in recordSet && recordSet[rows[k].uuid] == k
    {
      records := records + [ServicePolling(rows[i], Default(rows[i]))];
      recordSet := recordSet[rows[i].uuid := i];
    }

    var log := QueryStatuses(statuses, cluster, offset);
    for m := 0 to |log|
      invariant |records| == |rows|
      invariant forall k :: 0 <= k < |rows| ==>
                  records[k] == ServicePolling(rows[k], Latest(Default(rows[k]), log[..m]))
    {
      assert log[..m + 1][..m] == log[..m];
      var status := log[m];
      if status.uuid in recordSet {
        var i := recordSet[status.uuid];
        if records[i].lastStatus.created < status.created {
          records := records[i := records[i].(lastStatus := status)];
        }
      }
    }
    assert log[..|log|] == log;
    assert records == Attach(rows, log);

    BeforeIsStrictWeakOrder();
    records := SortSlice(records, Before);
    r := Ok(records);
    PolledInOrder(rows, log, records);
    forall p | p in records
      ensures && p.service in table && (cluster == "" || p.service.cluster == cluster)
              && (offset.Some? ==> p.service.created >= offset.value)
    {
      PolledAreThoseOf(table, statuses, cluster, offset, records, p);
    }
    forall row | row in table && (cluster == "" || row.cluster == cluster)
                 && (offset.Some? ==> row.created >= offset.value)
      ensures exists p :: p in records && p.service == row
    {
      PolledAreThoseOf(table, statuses, cluster, offset, records, ServicePolling(row, Default(row)));
    }
  }

  // ---------------------------------------------------------------- the counting filter

  predicate Eligible(p: ServicePolling, timelimit: int, ltime: int) {
    && Unfinished(p.lastStatus.status)
    && (p.service.created > ltime || timelimit <= 0)
  }

  /** How many services one poll may hand out: one more than the configured limit, and 128 when
      no limit is configured. */
  function Cap(limit: int): int {
    (if limit == 0 then 127 else limit) + 1
  }

  function Eligibles(polled: seq<ServicePolling>, timelimit: int, ltime: int): seq<ServicePolling> {
    if polled == [] then []
    else
      var n := |polled| - 1;
      var rest := Eligibles(polled[..n], timelimit, ltime);
      if Eligible(polled[n], timelimit, ltime) then rest + [polled[n]] else rest
  }

  function FirstUpTo<T>(list: seq<T>, n: int): seq<T> {
    if n <= 0 then [] else if |list| <= n then list else list[..n]
  }

  /** The services one poll hands out: the first `Cap(limit)` eligible ones, in order. */
  function Selection(polled: seq<ServicePolling>, limit: int, timelimit: int, ltime: int): seq<ServicePolling> {
    FirstUpTo(Eligibles(polled, timelimit, ltime), Cap(limit))
  }

  lemma {:induction false} EligiblesIn(polled: seq<ServicePolling>, timelimit: int, ltime: int, p: ServicePolling)
    ensures p in Eligibles(polled, timelimit, ltime) <==> p in polled && Eligible(p, timelimit, ltime)
  {
    if polled != [] {
      var n := |polled| - 1;
      EligiblesIn(polled[..n], timelimit, ltime, p);
      assert polled == polled[..n] + [polled[n]];
    }
  }

  /** Nothing ineligible is handed out, and an eligible service is left out only when the poll is full. */
  lemma SelectionMembers(polled: seq<ServicePolling>, limit: int, timelimit: int, ltime: int, p: ServicePolling)
    ensures var s := Selection(polled, limit, timelimit, ltime);
      && (p in s ==> p in polled && Eligible(p, timelimit, ltime))
      && (p in polled && Eligible(p, timelimit, ltime) && p !in s ==> |s| >= Cap(limit))
  {
    EligiblesIn(polled, timelimit, ltime, p);
    var e, s := Eligibles(polled, timelimit, ltime), Selection(polled, limit, timelimit, ltime);
    if p in s {
      var i :| 0 <= i < |s| && s[i] == p;
      assert e[i] == p;
    }
  }

  /** The selection is a best-first prefix: no eligible service left out strictly precedes one handed out. */
  lemma {:induction false} EligiblesSorted(polled: seq<ServicePolling>, timelimit: int, ltime: int)
    requires Sorted(polled, Before)
    ensures Sorted(Eligibles(polled, timelimit, ltime), Before)
  {
    if polled != [] {
      var n := |polled| - 1;
      EligiblesSorted(polled[..n], timelimit, ltime);
      var rest := Eligibles(polled[..n], timelimit, ltime);
      forall i | 0 <= i < |rest| ensures !Before(polled[n], rest[i]) {
        EligiblesIn(polled[..n], timelimit, ltime, rest[i]);
        var k :| 0 <= k < n && polled[..n][k] == rest[i];
      }
    }
  }

  lemma SelectionIsBestFirst(polled: seq<ServicePolling>, limit: int, timelimit: int, ltime: int,
                             inside: ServicePolling, outside: ServicePolling)
    requires Sorted(polled, Before)
    requires inside in Selection(polled, limit, timelimit, ltime)
    requires outside in polled && Eligible(outside, timelimit, ltime)
    requires outside !in Selection(polled, limit, timelimit, ltime)
    ensures !Before(outside, inside)
  {
    EligiblesSorted(polled, timelimit, ltime);
    EligiblesIn(polled, timelimit, ltime, outside);
    var e, s := Eligibles(polled, timelimit, ltime), Selection(polled, limit, timelimit, ltime);
    var i :| 0 <= i < |s| && s[i] == inside;
    var j :| 0 <= j < |e| && e[j] == outside;
    assert e[i] == inside;
    forall k | 0 <= k < |s| ensures e[k] in s {
      assert s[k] == e[k];
    }
  }

  /** The closure returned by `newPollingFilter_v2`, with its captured counter. */
  class PollingFilter {
    var limit: int
    const timelimit: int
    const ltime: int

    constructor (limit: int, timelimit: int, ltime: int)
      ensures this.limit == Cap(limit) && this.timelimit == timelimit && this.ltime == ltime
    {
      this.limit := (if limit == 0 then 127 else limit) + 1;
      this.timelimit := timelimit;
      this.ltime := ltime;
    }

    method Accept(p: ServicePolling) returns (ok: bool)
      modifies this`limit
      ensures ok <==> 0 < old(limit) && Eligible(p, timelimit, ltime)
      ensures ok <==>
                && 0 < old(limit)
                && p.lastStatus.status != Succeeded && p.lastStatus.status != ManagerFailed
                && (ltime < p.service.created || timelimit <= 0)
      ensures limit == if ok then old(limit) - 1 else old(limit)
    {
      if !(0 < limit) {
        return false;
      }
      if !Unfinished(p.lastStatus.status) {
        return false;
      }
      if !(p.service.created > ltime) && 0 < timelimit {
        return false;
      }
      limit := limit - 1;
      return true;
    }
  }

  /** What is handed out, in numbers: 128 services if no limit is configured and else one more than the limit
      at most, none of them finished, each younger than the window's start if there is a window; and all such
      services if they are fewer. */
  lemma SelectionIs(polled: seq<ServicePolling>, limit: int, timelimit: int, ltime: int, p: ServicePolling)
    ensures var s, most := Selection(polled, limit, timelimit, ltime), if limit == 0 then 128 else limit + 1;
      && (|s| <= most || s == [])
      && (p in s ==>
            && p in polled && p.lastStatus.status != Succeeded && p.lastStatus.status != ManagerFailed
            && (timelimit > 0 ==> p.service.created > ltime))
      && ((p in polled && p.lastStatus.status != Succeeded && p.lastStatus.status != ManagerFailed
           && (timelimit > 0 ==> p.service.created > ltime) && |s| < most) ==> p in s)
  {
    SelectionMembers(polled, limit, timelimit, ltime, p);
  }

  function Services(list: seq<ServicePolling>): (r: seq<ServiceRow>)
    ensures |r| == |list|
  {
    seq(|list|, i requires 0 <= i < |list| => list[i].service)
  }

  function LastStatuses(list: seq<ServicePolling>): (r: seq<StatusRow>)
    ensures |r| == |list|
  {
    seq(|list|, i requires 0 <= i < |list| => list[i].lastStatus)
  }

  lemma SelectedParts(polled: seq<ServicePolling>, limit: int, timelimit: int, ltime: int)
    ensures var selected := Selection(polled, limit, timelimit, ltime);
      var servs, stats, most := Services(selected), LastStatuses(selected), if limit == 0 then 128 else limit + 1;
      && (|servs| <= most || servs == [])
      && (forall k :: 0 <= k < |servs| ==>
            && ServicePolling(servs[k], stats[k]) in polled
            && stats[k].status != Succeeded && stats[k].status != ManagerFailed
            && (timelimit > 0 ==> servs[k].created > ltime))
      && (|servs| < most ==>
            forall p :: (p in polled && p.lastStatus.status != Succeeded && p.lastStatus.status != ManagerFailed
                         && (timelimit > 0 ==> p.service.created > ltime)) ==> p.service in servs)
  {
    var selected := Selection(polled, limit, timelimit, ltime);
    var servs, stats, most := Services(selected), LastStatuses(selected), if limit == 0 then 128 else limit + 1;
    forall k | 0 <= k < |servs|
      ensures ServicePolling(servs[k], stats[k]) == selected[k]
      ensures selected[k] in polled && Eligible(selected[k], timelimit, ltime)
    {
      SelectionIs(polled, limit, timelimit, ltime, selected[k]);
    }
    forall p | p in polled && Eligible(p, timelimit, ltime) && |servs| < most ensures p.service in servs {
      SelectionIs(polled, limit, timelimit, ltime, p);
      var k :| 0 <= k < |selected| && selected[k] == p;
      assert servs[k] == p.service;
    }
  }

  /** The filtering loop of `pollingService_v2`: both result lists, index for index, are those of
      the first `Cap(limit)` eligible services. */
  method FilterPolling(polled: seq<ServicePolling>, limit: int, timelimit: int, ltime: int)
    returns (servs: seq<ServiceRow>, stats: seq<StatusRow>)
    ensures servs == Services(Selection(polled, limit, timelimit, ltime))
    ensures stats == LastStatuses(Selection(polled, limit, timelimit, ltime))
    ensures |servs| == |stats| && (|servs| <= (if limit == 0 then 128 else limit + 1) || servs == [])
    ensures forall k :: 0 <= k < |servs| ==>
              && ServicePolling(servs[k], stats[k]) in polled
              && stats[k].status != Succeeded && stats[k].status != ManagerFailed
              && (timelimit > 0 ==> servs[k].created > ltime)
    ensures |servs| < (if limit == 0 then 128 else limit + 1) ==>
              forall p :: (p in polled && p.lastStatus.status != Succeeded && p.lastStatus.status != ManagerFailed
                           && (timelimit > 0 ==> p.service.created > ltime)) ==> p.service in servs
  {
    var filter := new PollingFilter(limit, timelimit, ltime);
    servs, stats := [], [];
    ghost var kept: seq<ServicePolling> := [];
    for i := 0 to |polled|
      invariant kept == FirstUpTo(Eligibles(polled[..i], timelimit, ltime), Cap(limit))
      invariant filter.timelimit == timelimit && filter.ltime == ltime
      invariant filter.limit == Cap(limit) - |kept|
      invariant servs == Services(kept) && stats == LastStatuses(kept)
    {
      assert polled[..i + 1][..i] == polled[..i];
      ghost var e := Eligibles(polled[..i], timelimit, ltime);
      var ok := filter.Accept(polled[i]);
      if ok {
        assert kept == e;
        kept := kept + [polled[i]];
        servs := servs + [polled[i].service];
        stats := stats + [polled[i].lastStatus];
      }
    }
    assert polled[..|polled|] == polled;
    SelectedParts(polled, limit, timelimit, ltime);
  }

  // ---------------------------------------------------------------- the polling offset

  const SECOND := 1_000_000

  const MINUTE := 60 * SECOND

  /** Start of the validity window: now, cut to the second, minus the limit in minutes. */
  function WindowStart(now: Time, timelimit: int): int {
    now / SECOND * SECOND - timelimit * MINUTE
  }

  /** The offset a poll really uses: a missing one, or one before the window, is moved to its start. */
  function EffectiveOffset(saved: Option<int>, ltime: int): int {
    if saved.None? || ltime > saved.value then ltime else saved.value
  }

  /** The least creation time, and the zero time when nothing was handed out. */
  function Oldest(created: seq<Time>): Time {
    if created == [] then 0
    else if |created| == 1 then created[0]
    else
      var rest := Oldest(created[..|created| - 1]);
      var last := created[|created| - 1];
      if last < rest then last else rest
  }

  lemma {:induction false} OldestIsLeast(created: seq<Time>)
    ensures forall i :: 0 <= i < |created| ==> Oldest(created) <= created[i]
    ensures created != [] ==> Oldest(created) in created
  {
    if |created| > 1 {
      var n := |created| - 1;
      var init := created[..n];
      OldestIsLeast(init);
      forall i | 0 <= i < |created| ensures Oldest(created) <= created[i] {
        if i < n {
          assert init[i] == created[i];
        }
      }
      var rest := Oldest(init);
      if created[n] >= rest {
        var i :| 0 <= i < n && init[i] == rest;
        assert created[i] == rest;
      }
    }
  }

  /** The running minimum of a poll; a zero time counts as "not set yet". */
  method PollingOffset(created: seq<Time>) returns (offset: Time)
    ensures (forall t :: t in created ==> t > 0) ==> offset == Oldest(created)
  {
    offset := 0;
    for i := 0 to |created|
      invariant (forall t :: t in created ==> t > 0) ==> offset == Oldest(created[..i]) && (i > 0 ==> offset > 0)
    {
      assert created[..i + 1][..i] == created[..i];
      assert created[i] in created;
      if offset == 0 {
        offset := created[i];
      }
      if offset > created[i] {
        offset := created[i];
      }
    }
    assert created[..|created|] == created;
  }
}
