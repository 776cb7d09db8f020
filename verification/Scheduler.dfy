/** pkg/agent/scheduler/scheduler.go: the capacity-limited status map. */
module Scheduling {
  import opened Wrappers
  import opened ServiceModel
  import opened Sorting

  type Statuses = map<Uuid, ServiceStatus>

  // ---------------------------------------------------------------- best-first order

  /** The comparator of the start list: higher priority first, then older first. */
  predicate Precedes(a: Service, b: Service) {
    a.priority > b.priority || (a.priority == b.priority && a.created < b.created)
  }

  /** The comparator is a strict weak order, so any library sort may be used with it. */
  lemma PrecedesIsStrictWeakOrder()
    ensures StrictWeakOrder(Precedes)
  {
  }

  ghost predicate BestFirst(list: seq<Service>) {
    Sorted(list, Precedes)
  }

  // ---------------------------------------------------------------- registration

  /** Entries that survive registration: everything not yet finished. */
  function Kept(statuses: Statuses): Statuses {
    map k | k in statuses && !Terminal(statuses[k]) :: statuses[k]
  }

  function Ids(list: seq<Service>): set<Uuid> {
    set s | s in list :: s.id
  }

  function AsPreparing(list: seq<Service>): Statuses {
    map k | k in Ids(list) :: Preparing
  }

  function Distinct(list: seq<Service>): bool {
    forall i, j :: 0 <= i < j < |list| ==> list[i].id != list[j].id
  }

  function Min(a: int, b: int): int {
    if a < b then a else b
  }

  /** Slots left once finished entries are gone. */
  function Free(statuses: Statuses, limit: nat): nat {
    if limit <= |Kept(statuses)| then 0 else limit - |Kept(statuses)|
  }

  /** The services of a batch the map does not know yet. */
  function Unknown(statuses: Statuses, batch: map<Uuid, Service>): set<Uuid> {
    set k | k in batch && k !in statuses
  }

  /** What one registration does, whatever sort the library uses: known services are dropped
      *before* finished entries are deleted; exactly as many unknown services start as there are
      free slots (or all of them); no service left out strictly precedes one that started. */
  ghost predicate Registers(statuses: Statuses, batch: map<Uuid, Service>, limit: nat,
                            launched: seq<Service>, statuses': Statuses)
  {
    && Distinct(launched)
    && BestFirst(launched)
    && (forall s :: s in launched ==> s.id in Unknown(statuses, batch) && batch[s.id] == s)
    && |launched| == Min(Free(statuses, limit), |Unknown(statuses, batch)|)
    && (forall k, s :: k in Unknown(statuses, batch) && k !in Ids(launched) && s in launched
          ==> !Precedes(batch[k], s))
    && statuses' == Kept(statuses) + AsPreparing(launched)
  }

  /** Raises the entry of the update's service, if it has one and if that is a rise. */
  function Marked(statuses: Statuses, u: Update): Statuses {
    if u.id in statuses && Rank(statuses[u.id]) < Rank(LocalStatus(u))
    then statuses[u.id := LocalStatus(u)] else statuses
  }

  lemma DistinctIds(list: seq<Service>)
    requires Distinct(list)
    ensures |Ids(list)| == |list|
  {
    if list != [] {
      var init := list[..|list| - 1];
      DistinctIds(init);
      assert list == init + [list[|list| - 1]];
      assert Ids(list) == Ids(init) + {list[|list| - 1].id};
    }
  }

  lemma IdsDistinct(list: seq<Service>)
    requires |Ids(list)| == |list|
    ensures Distinct(list)
  {
    if list != [] {
      var init, last := list[..|list| - 1], list[|list| - 1];
      assert list == init + [last];
      assert Ids(list) == Ids(init) + {last.id};
      IdsBound(init);
      IdsDistinct(init);
    }
  }

  lemma IdsBound(list: seq<Service>)
    ensures |Ids(list)| <= |list|
  {
    if list != [] {
      var init := list[..|list| - 1];
      IdsBound(init);
      assert list == init + [list[|list| - 1]];
      assert Ids(list) == Ids(init) + {list[|list| - 1].id};
    }
  }

  /** A sort moves elements around and nothing else. */
  lemma Permuted(list: seq<Service>, order: seq<Service>)
    requires multiset(order) == multiset(list)
    requires Distinct(list)
    ensures |order| == |list| && Distinct(order)
    ensures forall s :: s in order <==> s in list
  {
    SameMembers(order, list);
    DistinctIds(list);
    assert Ids(order) == Ids(list);
    IdsDistinct(order);
  }

  /** Registration never overfills the map. */
  lemma RegistersKeepsBound(statuses: Statuses, batch: map<Uuid, Service>, limit: nat,
                            launched: seq<Service>, statuses': Statuses)
    requires Registers(statuses, batch, limit, launched, statuses')
    requires |statuses| <= limit
    ensures |statuses'| == |Kept(statuses)| + |launched| <= limit
  {
    DistinctIds(launched);
    assert Kept(statuses).Keys <= statuses.Keys;
    Subset(Kept(statuses).Keys, statuses.Keys);
    assert AsPreparing(launched).Keys == Ids(launched);
    assert Kept(statuses).Keys !! Ids(launched);
    assert statuses'.Keys == Kept(statuses).Keys + Ids(launched);
    assert |statuses'.Keys| == |statuses'|;
  }

  lemma Subset<T>(a: set<T>, b: set<T>)
    requires a <= b
    ensures |a| <= |b|
  {
    if a != {} {
      var x :| x in a;
      Subset(a - {x}, b - {x});
    }
  }

  lemma StartOne(base: Statuses, list: seq<Service>, x: Service)
    ensures base + AsPreparing(list + [x]) == (base + AsPreparing(list))[x.id := Preparing]
  {
    assert Ids(list + [x]) == Ids(list) + {x.id};
  }

  lemma TakeNext<T>(base: seq<T>, list: seq<T>, n: nat)
    requires n < |list|
    ensures list[..n + 1] == list[..n] + [list[n]]
    ensures base + list[..n] + [list[n]] == base + (list[..n] + [list[n]])
  {
  }

  /** In a best-first order nothing behind the front strictly precedes anything in it. */
  lemma FrontIsBest(order: seq<Service>, n: nat, l: Service, s: Service)
    requires BestFirst(order) && n <= |order|
    requires l in order && l.id !in Ids(order[..n]) && s in order[..n]
    ensures !Precedes(l, s)
  {
    forall m | 0 <= m < n ensures order[m].id in Ids(order[..n]) {
      assert order[m] == order[..n][m];
    }
    var j :| 0 <= j < |order| && order[j] == l;
    var i :| 0 <= i < n && order[i] == s;
  }

  lemma FrontMembers(order: seq<Service>, n: nat)
    requires n <= |order| && Distinct(order) && BestFirst(order)
    ensures Distinct(order[..n]) && BestFirst(order[..n]) && |order[..n]| == n
    ensures forall s :: s in order[..n] ==> s in order
  {
  }

  /** Taking the front of any best-first order of the unknown services is a registration. */
  lemma Admission(statuses: Statuses, batch: map<Uuid, Service>, limit: nat,
                  list: seq<Service>, order: seq<Service>, n: nat)
    requires forall k :: k in batch ==> batch[k].id == k
    requires Distinct(list)
    requires forall s :: s in list <==> s.id in Unknown(statuses, batch) && batch[s.id] == s
    requires |list| == |Unknown(statuses, batch)|
    requires multiset(order) == multiset(list) && BestFirst(order)
    requires n == Min(Free(statuses, limit), |list|)
    ensures n <= |order|
    ensures Registers(statuses, batch, limit, order[..n], Kept(statuses) + AsPreparing(order[..n]))
  {
    Permuted(list, order);
    FrontMembers(order, n);
    SameMembers(order, list);
    forall k, s | k in Unknown(statuses, batch) && k !in Ids(order[..n]) && s in order[..n]
      ensures !Precedes(batch[k], s)
    {
      assert batch[k] in list;
      FrontIsBest(order, n, batch[k], s);
    }
  }

  /** What a registration starts, on the fields of the services: new ones only, each once, higher priorities
      first and older ones first within a priority, and nothing left out belongs before anything started. */
  lemma StartedAreBest(statuses: Statuses, batch: map<Uuid, Service>, limit: nat, launched: seq<Service>,
                       statuses': Statuses)
    requires Registers(statuses, batch, limit, launched, statuses')
    ensures forall l :: l in launched ==> l.id in batch && batch[l.id] == l && l.id !in statuses
    ensures forall i, j :: 0 <= i < j < |launched| ==>
              && launched[i].id != launched[j].id
              && launched[i].priority >= launched[j].priority
              && (launched[i].priority == launched[j].priority ==> launched[i].created <= launched[j].created)
    ensures forall k, l :: k in batch && k !in statuses && (forall s :: s in launched ==> s.id != k)
                           && l in launched ==>
              && batch[k].priority <= l.priority
              && (batch[k].priority == l.priority ==> l.created <= batch[k].created)
  {
    forall i, j | 0 <= i < j < |launched| ensures !Precedes(launched[j], launched[i]) {
      assert BestFirst(launched);
    }
    forall k, l | k in batch && k !in statuses && (forall s :: s in launched ==> s.id != k) && l in launched
      ensures !Precedes(batch[k], l)
    {
      assert k in Unknown(statuses, batch) && k !in Ids(launched);
    }
  }

  lemma RunningAreKept(statuses: Statuses)
    ensures |set k | k in statuses && statuses[k] != Success && statuses[k] != Failed| == |Kept(statuses)|
  {
    assert (set k | k in statuses && statuses[k] != Success && statuses[k] != Failed) == Kept(statuses).Keys;
    assert |Kept(statuses).Keys| == |Kept(statuses)|;
  }

  /** How many it starts: all new ones, or as many as the unfinished entries leave room for. */
  lemma StartedAreCounted(statuses: Statuses, batch: map<Uuid, Service>, limit: nat, launched: seq<Service>)
    requires |launched| == Min(Free(statuses, limit), |Unknown(statuses, batch)|)
    ensures var running := |set k | k in statuses && statuses[k] != Success && statuses[k] != Failed|;
      var unknown := |set k | k in batch && k !in statuses|;
      |launched| == if limit <= running then 0 else if limit - running <= unknown then limit - running else unknown
  {
    RunningAreKept(statuses);
    assert Unknown(statuses, batch) == set k | k in batch && k !in statuses;
  }

  class Scheduler {
    var statuses: Statuses
    var launched: seq<Service>  // executor goroutines, in launch order
    const maxProcessLimit: nat

    constructor (limit: nat)
      ensures statuses == map[] && launched == [] && maxProcessLimit == limit
    {
      statuses := map[];
      launched := [];
      maxProcessLimit := limit;
    }

    method RegisterServices(services: map<Uuid, Service>)
      requires forall k :: k in services ==> services[k].id == k
      modifies this
      ensures old(launched) <= launched
      ensures Registers(old(statuses), services, maxProcessLimit, launched[|old(launched)|..], statuses)
      ensures var started := launched[|old(launched)|..];
        && (forall l :: l in started ==> l.id in services && services[l.id] == l && l.id !in old(statuses))
        && (forall i, j :: 0 <= i < j < |started| ==>
              && started[i].id != started[j].id
              && started[i].priority >= started[j].priority
              && (started[i].priority == started[j].priority ==> started[i].created <= started[j].created))
        && (forall k, l :: k in services && k !in old(statuses) && (forall s :: s in started ==> s.id != k)
                           && l in started ==>
              && services[k].priority <= l.priority
              && (services[k].priority == l.priority ==> l.created <= services[k].created))
      ensures var was, room := old(statuses), maxProcessLimit;
        var running := |set k | k in was && was[k] != Success && was[k] != Failed|;
        var unknown := |set k | k in services && k !in was|;
        |launched| - |old(launched)|
        == if room <= running then 0 else if room - running <= unknown then room - running else unknown
    {
      ghost var before := statuses;
      var list := CollectUnknown(services);
      PrecedesIsStrictWeakOrder();
      var startingList := SortSlice(list, Precedes);
      DeleteFinished();
      var n := StartFirst(startingList);
      assert launched[|old(launched)|..] == startingList[..n];
      Admission(before, services, maxProcessLimit, list, startingList, n);
      StartedAreBest(before, services, maxProcessLimit, startingList[..n], statuses);
      StartedAreCounted(before, services, maxProcessLimit, startingList[..n]);
    }

    /** Starts services from the front of the list until the free slots are used up. */
    method StartFirst(startingList: seq<Service>) returns (n: nat)
      modifies this
      ensures n == Min(if maxProcessLimit <= |old(statuses)| then 0 else maxProcessLimit - |old(statuses)|,
                       |startingList|)
      ensures launched == old(launched) + startingList[..n]
      ensures statuses == old(statuses) + AsPreparing(startingList[..n])
    {
      ghost var was, launchedBefore := statuses, launched;
      ghost var begun: seq<Service> := [];
      var remain := maxProcessLimit - |statuses|;
      n := 0;
      while n < |startingList| && remain > 0
        invariant 0 <= n <= |startingList|
        invariant begun == startingList[..n]
        invariant launched == launchedBefore + begun
        invariant statuses == was + AsPreparing(begun)
        invariant remain == maxProcessLimit - |was| - n
        invariant n > 0 ==> 0 <= remain
      {
        StartOne(was, begun, startingList[n]);
        TakeNext(launchedBefore, startingList, n);
        Launch(startingList[n]);
        begun := begun + [startingList[n]];
        remain := remain - 1;
        n := n + 1;
      }
    }

    /** Reserves the entry, then hands the service to its own executor. */
    method Launch(serv: Service)
      modifies this
      ensures statuses == old(statuses)[serv.id := Preparing]
      ensures launched == old(launched) + [serv]
    {
      statuses := statuses[serv.id := Preparing];
      launched := launched + [serv];
    }

    method CollectUnknown(services: map<Uuid, Service>) returns (list: seq<Service>)
      requires forall k :: k in services ==> services[k].id == k
      ensures Distinct(list)
      ensures forall s :: s in list <==> s.id in Unknown(statuses, services) && services[s.id] == s
      ensures |list| == |Unknown(statuses, services)|
    {
      list := [];
      var todo := services.Keys;
      while todo != {}
        invariant todo <= services.Keys
        invariant Distinct(list)
        invariant forall s :: s in list <==>
                    s.id in Unknown(statuses, services) && s.id !in todo && services[s.id] == s
      {
        var k :| k in todo;
        if services[k].id !in statuses {
          list := list + [services[k]];
        }
        todo := todo - {k};
      }
      DistinctIds(list);
      forall k | k in Unknown(statuses, services) ensures k in Ids(list) {
        assert services[k] in list;
      }
      assert Ids(list) == Unknown(statuses, services);
    }

    method DeleteFinished()
      modifies this`statuses
      ensures statuses == Kept(old(statuses))
    {
      var todo := statuses.Keys;
      ghost var was := statuses;
      while todo != {}
        invariant todo <= was.Keys
        invariant statuses == map k | k in was && (k in todo || !Terminal(was[k])) :: was[k]
      {
        var uuid :| uuid in todo;
        var status := statuses[uuid];
        if status == Success || status == Failed {
          statuses := statuses - {uuid};
        }
        todo := todo - {uuid};
      }
    }

    method UpdateServiceStatus(update: Update)
      modifies this`statuses
      ensures statuses == Marked(old(statuses), update)
      ensures update.id !in old(statuses) ==> statuses == old(statuses)
      ensures update.id in old(statuses) ==>
                var was := old(statuses)[update.id];
                statuses == old(statuses)[update.id :=
                  if was == Failed || update.status == StepFail then Failed
                  else if was == Success || (update.status == StepSuccess && update.stepCount == update.sequence + 1)
                  then Success
                  else Processing]
    {
      var serviceStatus := Processing;
      if update.status == StepFail {
        serviceStatus := Failed;
      } else if update.stepCount == update.sequence + 1 {
        if update.status == StepSuccess {
          serviceStatus := Success;
        }
      }
      if update.id in statuses {
        if Rank(statuses[update.id]) < Rank(serviceStatus) {
          statuses := statuses[update.id := serviceStatus];
        }
      }
    }

    /** Drops finished entries and reports the others; nothing at all for an empty map. */
    method CleanupRemainingServices() returns (services: Option<Statuses>)
      modifies this`statuses
      ensures statuses == Kept(old(statuses))
      ensures services == if old(statuses) == map[] then None else Some(statuses)
    {
      if |statuses| == 0 {
        return None;
      }
      DeleteFinished();
      services := Some(statuses);
    }
  }

  // ---------------------------------------------------------------- delivery order

  /** The status of one service after a sequence of its updates, delivered one by one. */
  function Delivered(start: ServiceStatus, updates: seq<Update>): ServiceStatus {
    if updates == [] then start
    else
      var before := Delivered(start, updates[..|updates| - 1]);
      var next := LocalStatus(updates[|updates| - 1]);
      if Rank(before) < Rank(next) then next else before
  }

  /** Delivering to the map is delivering to the one entry the updates are about. */
  lemma {:induction false} MarkedAll(statuses: Statuses, id: Uuid, updates: seq<Update>)
    requires id in statuses
    requires forall u :: u in updates ==> u.id == id
    ensures MarkAll(statuses, updates) == statuses[id := Delivered(statuses[id], updates)]
  {
    if updates != [] {
      MarkedAll(statuses, id, updates[..|updates| - 1]);
      assert updates[|updates| - 1] in updates;
    }
  }

  /** The map after `UpdateServiceStatus` has been called for each update in turn. */
  function MarkAll(statuses: Statuses, updates: seq<Update>): Statuses {
    if updates == [] then statuses
    else Marked(MarkAll(statuses, updates[..|updates| - 1]), updates[|updates| - 1])
  }

  /** The delivered status is the highest of the start and everything delivered. */
  lemma {:induction false} DeliveredIsHighest(start: ServiceStatus, updates: seq<Update>)
    ensures var r := Delivered(start, updates);
      && Rank(start) <= Rank(r)
      && (forall u :: u in updates ==> Rank(LocalStatus(u)) <= Rank(r))
      && (r == start || exists u :: u in updates && LocalStatus(u) == r)
  {
    if updates != [] {
      var init, last := updates[..|updates| - 1], updates[|updates| - 1];
      DeliveredIsHighest(start, init);
      assert updates == init + [last];
      assert last in updates;
      forall u | u in init ensures u in updates { }
    }
  }

  /** A prefix of the deliveries never shows a higher status than the whole. */
  lemma {:induction false} NeverDecreases(start: ServiceStatus, updates: seq<Update>, n: nat)
    requires n <= |updates|
    ensures Rank(start) <= Rank(Delivered(start, updates[..n])) <= Rank(Delivered(start, updates))
    decreases |updates|
  {
    DeliveredIsHighest(start, updates[..n]);
    if n < |updates| {
      var init := updates[..|updates| - 1];
      NeverDecreases(start, init, n);
      assert init[..n] == updates[..n];
    } else {
      assert updates[..n] == updates;
    }
  }

  /** Whatever order one executor's messages arrive in, the entry ends at the executor's verdict. */
  lemma DeliveryOrderIndependent(id: Uuid, trace: seq<Update>, arrived: seq<Update>, start: ServiceStatus)
    requires LegalTrace(id, trace)
    requires multiset(arrived) == multiset(trace)
    requires !Terminal(start)
    ensures Delivered(start, arrived) == Verdict(trace)
  {
    DeliveredIsHighest(start, arrived);
    var r, last := Delivered(start, arrived), trace[|trace| - 1];
    assert last in multiset(arrived);
    assert last in arrived;
    assert Rank(LocalStatus(last)) >= 4;
    if r != start {
      var u :| u in arrived && LocalStatus(u) == r;
      assert u in multiset(trace);
      var j :| 0 <= j < |trace| && trace[j] == u;
      assert Terminal(LocalStatus(trace[j]));
    }
  }

  /** The same through the real map: all other entries keep their status. */
  lemma DeliveryOrderIndependentInMap(statuses: Statuses, id: Uuid, trace: seq<Update>, arrived: seq<Update>)
    requires LegalTrace(id, trace)
    requires multiset(arrived) == multiset(trace)
    requires id in statuses && !Terminal(statuses[id])
    ensures MarkAll(statuses, arrived) == statuses[id := Verdict(trace)]
  {
    forall u | u in arrived ensures u.id == id {
      assert u in multiset(trace);
    }
    MarkedAll(statuses, id, arrived);
    DeliveryOrderIndependent(id, trace, arrived, statuses[id]);
  }
}
