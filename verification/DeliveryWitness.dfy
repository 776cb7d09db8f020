/** Runs that show each exception of the two delivery theorems is really reachable, on its own. */
module DeliveryWitness {
  import opened Wrappers
  import opened ServiceModel
  import opened Scheduling
  import opened PollVault
  import opened Delivery
  import opened DeliveryOnce
  import opened DeliveryOffset

  ghost predicate Reachable(c: Config, s: State) {
    exists states, steps :: IsRun(c, states, steps) && states[|steps|] == s
  }

  /** A property of all initial states that steps keep: the runs below are followed through any such
      property, and reachability is one. */
  ghost predicate Closed(r: State -> bool) {
    && (forall s :: Initial(s) ==> r(s))
    && (forall s, step :: r(s) && Enabled(CONFIG, s, step) ==> r(Next(CONFIG, s, step)))
  }

  lemma Begin(c: Config, s: State)
    requires Initial(s)
    ensures Reachable(c, s)
  {
    var states, steps: seq<Step> := [s], [];
    assert IsRun(c, states, steps) && states[|steps|] == s;
  }

  lemma Advance(c: Config, s: State, step: Step)
    requires Reachable(c, s) && Enabled(c, s, step)
    ensures Reachable(c, Next(c, s, step))
  {
    var states, steps :| IsRun(c, states, steps) && states[|steps|] == s;
    var more := states + [Next(c, s, step)];
    assert IsRun(c, more, steps + [step]) && more[|steps + [step]|] == Next(c, s, step);
  }

  lemma ReachableIsClosed(r: State -> bool)
    requires forall s :: r(s) <==> Reachable(CONFIG, s)
    ensures Closed(r)
  {
    forall s | Initial(s) ensures r(s) {
      Begin(CONFIG, s);
    }
    forall s, step | r(s) && Enabled(CONFIG, s, step) ensures r(Next(CONFIG, s, step)) {
      Advance(CONFIG, s, step);
    }
  }

  /** What every closed property holds of is reachable. */
  lemma FollowedIsReachable(end: State)
    requires forall r :: Closed(r) ==> r(end)
    ensures Reachable(CONFIG, end)
  {
    var r := (s: State) => Reachable(CONFIG, s);
    ReachableIsClosed(r);
    assert r(end);
  }

  // ---------------------------------------------------------------- one v4 service, one step long

  const CONFIG := Config("cluster", 10, 0, 60)

  const ROW := ServiceRow("cluster", "a", 0, 1, 1)

  const STARTED := Update("a", 1, 0, StepProcessing)

  const DONE := Update("a", 1, 0, StepSuccess)

  function Record(t: Time, seq_: int, status: ManagerStatus): StatusRow {
    StatusRow("cluster", "a", t, 1, seq_, status)
  }

  /** The state of a world with that one service, while no request is under way. */
  function World(now: Time, log: seq<StatusRow>, offset: Option<int>, statuses: Statuses, execs: seq<Exec>): State {
    State(now, [ROW], [], log, offset, Idle, statuses, execs, {}, {}, {})
  }

  function Running(stages: seq<Stage>): Exec {
    Exec("a", V2, [STARTED, DONE], stages)
  }

  lemma TraceIsLegal()
    ensures LegalTrace("a", [STARTED, DONE]) && Agreeing([STARTED, DONE])
  {
  }

  /** What the two table reads make of the one service. */
  lemma SoloPolling(log: seq<StatusRow>, from: int, latest: StatusRow)
    requires from <= 1 && Latest(Default(ROW), log) == latest
    requires forall x :: x in log ==> x.cluster == "cluster" && x.created >= 1
    ensures QueryServices([ROW], "cluster", Some(from)) == [ROW]
    ensures IsPolling([ROW], QueryStatuses(log, "cluster", Some(from)), [ServicePolling(ROW, latest)])
  {
    var p := ServicePolling(ROW, latest);
    assert [ROW][..0] == [];
    FilteredLogEqualsFullLog(ROW, log, "cluster", Some(from));
    assert Attach([ROW], QueryStatuses(log, "cluster", Some(from))) == [p];
  }

  lemma SoloSelection(latest: StatusRow, ltime: int)
    requires Unfinished(latest.status) && ltime < 1
    ensures Selection([ServicePolling(ROW, latest)], 0, 60, ltime) == [ServicePolling(ROW, latest)]
    ensures BeyondCap([ServicePolling(ROW, latest)], CONFIG, ltime) == {}
  {
    var p := ServicePolling(ROW, latest);
    assert [p][..0] == [];
    assert Eligibles([p], 60, ltime) == [p];
  }

  /** A request that finds the service: its read of the two tables. */
  lemma Select(r: State -> bool, s: State, latest: StatusRow)
    requires Closed(r) && r(s) && s.phase == Idle && s.services == [ROW] && 1 <= s.now <= 100
    requires s.offset == None || s.offset == Some(1)
    requires Latest(Default(ROW), s.log) == latest && Unfinished(latest.status)
    requires forall x :: x in s.log ==> x.cluster == "cluster" && x.created >= 1
    ensures r(s.(phase := Selected([ServicePolling(ROW, latest)], 1)))
  {
    var ltime := WindowStart(s.now, 60);
    var from := EffectiveOffset(s.offset, ltime);
    var s1 := s.(phase := RowsRead(from, ltime, 1));
    assert Enabled(CONFIG, s, ReadServices) && Next(CONFIG, s, ReadServices) == s1;
    assert s1.services[..1] == [ROW];
    SoloPolling(s.log, from, latest);
    SoloSelection(latest, ltime);
    SelectStep(s1, latest);
  }

  lemma SelectStep(s: State, latest: StatusRow)
    requires s.phase.RowsRead? && s.phase.seen == 1 && s.services == [ROW]
    requires QueryServices([ROW], "cluster", Some(s.phase.from)) == [ROW]
    requires IsPolling([ROW], QueryStatuses(s.log, "cluster", Some(s.phase.from)), [ServicePolling(ROW, latest)])
    requires Selection([ServicePolling(ROW, latest)], 0, 60, s.phase.ltime) == [ServicePolling(ROW, latest)]
    requires BeyondCap([ServicePolling(ROW, latest)], CONFIG, s.phase.ltime) == {}
    ensures Enabled(CONFIG, s, ReadStatuses([ServicePolling(ROW, latest)]))
    ensures Next(CONFIG, s, ReadStatuses([ServicePolling(ROW, latest)]))
         == s.(phase := Selected([ServicePolling(ROW, latest)], 1))
  {
    assert s.services[..1] == [ROW];
    assert s.capped + {} == s.capped;
  }

  /** The rest of the request: the answer is saved and sent. */
  lemma Save(r: State -> bool, s: State, latest: StatusRow, t: Time, s': State)
    requires Closed(r) && r(s) && s.phase == Selected([ServicePolling(ROW, latest)], 1) && t > 1
    requires s' == s.(phase := Answered(map["a" := AsService(ROW)]), offset := Some(1), log := s'.log)
    requires s'.log == s.log + if latest.status == Regist then [latest.(status := Sent, created := t)] else []
    ensures r(s')
  {
    var p := ServicePolling(ROW, latest);
    assert [p][..0] == [];
    assert CreatedTimes([p]) == [1];
    assert Enabled(CONFIG, s, SaveSelection(t));
    assert PolledBatch([p]) == map["a" := AsService(ROW)];
    assert SentRecords([p], t) == if latest.status == Regist then [latest.(status := Sent, created := t)] else [];
    assert Next(CONFIG, s, SaveSelection(t)).log == s'.log;
  }

  /** The agent does not know the service: it starts an executor. */
  lemma Start(r: State -> bool, s: State)
    requires Closed(r) && r(s) && s.phase == Answered(map["a" := AsService(ROW)]) && s.statuses == map[]
    ensures r(s.(phase := Idle, statuses := map["a" := Preparing], execs := s.execs + [Running([])]))
  {
    var svc := AsService(ROW);
    var batch := map["a" := svc];
    var step := Register(batch, [svc], [[STARTED, DONE]]);
    TraceIsLegal();
    assert Unknown(s.statuses, batch) == {"a"};
    assert Ids([svc]) == {"a"};
    assert Kept(s.statuses) == map[];
    assert Registers(s.statuses, batch, 10, [svc], Kept(s.statuses) + AsPreparing([svc]));
    assert Enabled(CONFIG, s, step);
    assert NewExecs([svc], [[STARTED, DONE]]) == [Running([])];
    assert Kept(s.statuses) + AsPreparing([svc]) == map["a" := Preparing];
  }

  /** The agent still has a finished entry: the service is dropped and the entry deleted. */
  lemma DropKnown(r: State -> bool, s: State)
    requires Closed(r) && r(s) && s.phase == Answered(map["a" := AsService(ROW)]) && s.statuses == map["a" := Success]
    ensures r(s.(phase := Idle, statuses := map[]))
  {
    var batch := map["a" := AsService(ROW)];
    var step := Register(batch, [], []);
    assert Unknown(s.statuses, batch) == {};
    assert Kept(s.statuses) == map[];
    assert Ids([]) == {};
    assert AsPreparing([]) == map[];
    assert Registers(s.statuses, batch, 10, [], Kept(s.statuses) + AsPreparing([]));
    assert Enabled(CONFIG, s, step);
    assert s.execs + NewExecs([], []) == s.execs;
  }

  /** One message of the executor moves on. */
  lemma Move(r: State -> bool, s: State, before: seq<Stage>, step: Step, after: seq<Stage>, s': State)
    requires Closed(r) && r(s) && s.services == [ROW] && s.execs == [Running(before)] && s'.execs == [Running(after)]
    requires match step
      case Emit(k) => k == 0 && |before| < 2 && after == before + [Emitted]
      case Commit(k, j, t) =>
        && k == 0 && j < |before| <= 2 && before[j] == Emitted && t > 1
        && after == before[j := Committed]
      case LoseCommit(k, j) => k == 0 && j < |before| <= 2 && before[j] == Emitted && after == before[j := Lost]
      case Apply(k, j) =>
        && k == 0 && j < |before| <= 2 && (before[j] == Committed || before[j] == Lost)
        && after == before[j := Applied(if before[j] == Committed then InTime else Missing)]
      case _ => false
    requires s' == s.(execs := s'.execs, log := s'.log, statuses := s'.statuses)
    requires s'.log ==
      if step.Commit?
      then s.log + [ReportRow(CONFIG, s.services, Running(before), [STARTED, DONE][step.j], step.t)]
      else s.log
    requires s'.statuses == if step.Apply? then Marked(s.statuses, [STARTED, DONE][step.j]) else s.statuses
    ensures r(s')
  {
    if step.Commit? {
      assert ROW in s.services;
    }
    assert Enabled(CONFIG, s, step);
    assert s.execs[0 := Running(after)] == [Running(after)];
    assert Next(CONFIG, s, step) == s';
  }

  /** The service is created, polled and started. */
  lemma FirstStart(r: State -> bool)
    requires Closed(r)
    ensures r(World(1, [Record(2, 0, Sent)], Some(1), map["a" := Preparing], [Running([])]))
  {
    var s0 := State(0, [], [], [], None, Idle, map[], [], {}, {}, {});
    assert Enabled(CONFIG, s0, Create(ROW));
    var s1 := World(1, [], None, map[], []);
    assert Next(CONFIG, s0, Create(ROW)) == s1;
    Select(r, s1, Default(ROW));
    var s2 := s1.(phase := Answered(map["a" := AsService(ROW)]), offset := Some(1), log := [Record(2, 0, Sent)]);
    Save(r, s1.(phase := Selected([ServicePolling(ROW, Default(ROW))], 1)), Default(ROW), 2, s2);
    Start(r, s2);
    assert [] + [Running([])] == [Running([])];
  }

  /** Both messages are on their way. */
  function BothSent(): State {
    World(1, [Record(2, 0, Sent)], Some(1), map["a" := Preparing], [Running([Emitted, Emitted])])
  }

  lemma SendBoth(r: State -> bool)
    requires Closed(r)
    ensures r(BothSent())
  {
    FirstStart(r);
    var s := World(1, [Record(2, 0, Sent)], Some(1), map["a" := Preparing], [Running([])]);
    Move(r, s, [], Emit(0), [Emitted], s.(execs := [Running([Emitted])]));
    Move(r, s.(execs := [Running([Emitted])]), [Emitted], Emit(0), [Emitted, Emitted], BothSent());
  }

  ghost predicate RanTwice(s: State) {
    |s.execs| == 2 && s.execs[0].id == "a" && s.execs[1].id == "a" && HasRow(s, "a")
  }

  lemma LatestOfThree(a: StatusRow, b: StatusRow, c: StatusRow)
    requires a.uuid == b.uuid == c.uuid == "a" && 1 < a.created < b.created < c.created
    ensures Latest(Default(ROW), [a, b, c]) == c
  {
    assert [a, b, c][..2] == [a, b];
    assert [a, b][..1] == [a];
    assert [a][..0] == [];
    assert Latest(Default(ROW), [a]) == a;
    assert Latest(Default(ROW), [a, b]) == b;
  }

  lemma LatestOfTwo(a: StatusRow, b: StatusRow)
    requires a.uuid == b.uuid == "a" && 1 < a.created < b.created
    ensures Latest(Default(ROW), [a, b]) == b
  {
    assert [a, b][..1] == [a];
    assert [a][..0] == [];
    assert Latest(Default(ROW), [a]) == a;
  }

  /** Two full polls after the first executor ended: the first drops the known service and deletes
      its entry, the second starts it again. */
  lemma StartAgain(r: State -> bool, log: seq<StatusRow>, stages: seq<Stage>)
    requires Closed(r) && r(World(1, log, Some(1), map["a" := Success], [Running(stages)]))
    requires Latest(Default(ROW), log).status == InProgress
    requires forall x :: x in log ==> x.cluster == "cluster" && x.created >= 1
    ensures r(World(1, log, Some(1), map["a" := Preparing], [Running(stages), Running([])]))
  {
    var s := World(1, log, Some(1), map["a" := Success], [Running(stages)]);
    var latest := Latest(Default(ROW), log);
    var answer := Answered(map["a" := AsService(ROW)]);
    Select(r, s, latest);
    Save(r, s.(phase := Selected([ServicePolling(ROW, latest)], 1)), latest, 9, s.(phase := answer));
    DropKnown(r, s.(phase := answer));
    var s2 := s.(statuses := map[]);
    Select(r, s2, latest);
    Save(r, s2.(phase := Selected([ServicePolling(ROW, latest)], 1)), latest, 9, s2.(phase := answer));
    Start(r, s2.(phase := answer));
    assert [Running(stages)] + [Running([])] == [Running(stages), Running([])];
  }

  const REORDERED := [Record(2, 0, Sent), Record(3, 1, Succeeded), Record(4, 1, InProgress)]

  const REORDERED_END :=
    World(1, REORDERED, Some(1), map["a" := Preparing], [Running([Applied(InTime), Applied(InTime)]), Running([])])

  lemma Reordered(r: State -> bool)
    requires Closed(r)
    ensures r(REORDERED_END)
  {
    SendBoth(r);
    var s := BothSent();
    var s1 := s.(execs := [Running([Emitted, Committed])], log := [Record(2, 0, Sent), Record(3, 1, Succeeded)]);
    Move(r, s, [Emitted, Emitted], Commit(0, 1, 3), [Emitted, Committed], s1);
    var s2 := s.(execs := [Running([Committed, Committed])], log := REORDERED);
    Move(r, s1, [Emitted, Committed], Commit(0, 0, 4), [Committed, Committed], s2);
    var s3 := s2.(execs := [Running([Committed, Applied(InTime)])], statuses := map["a" := Success]);
    Move(r, s2, [Committed, Committed], Apply(0, 1), [Committed, Applied(InTime)], s3);
    var s4 := s3.(execs := [Running([Applied(InTime), Applied(InTime)])]);
    Move(r, s3, [Committed, Applied(InTime)], Apply(0, 0), [Applied(InTime), Applied(InTime)], s4);
    LatestOfThree(REORDERED[0], REORDERED[1], REORDERED[2]);
    StartAgain(r, REORDERED, [Applied(InTime), Applied(InTime)]);
  }

  lemma ReorderedReportsRunTwiceFacts()
    ensures RanTwice(REORDERED_END) && Regressed(REORDERED_END.log, "a")
                     && REORDERED_END.forgotten == {} && !MarkedFirst(REORDERED_END.execs, "a")
  {
    assert Supersedes(REORDERED[2], REORDERED[1]);
    assert ROW in REORDERED_END.services;
  }

  /** The manager handles the last message first: the service runs twice, by regression alone. */
  lemma ReorderedReportsRunTwice()
    ensures Reachable(CONFIG, REORDERED_END)
    ensures RanTwice(REORDERED_END) && Regressed(REORDERED_END.log, "a")
                     && REORDERED_END.forgotten == {} && !MarkedFirst(REORDERED_END.execs, "a")
  {
    forall r | Closed(r) ensures r(REORDERED_END) {
      Reordered(r);
    }
    FollowedIsReachable(REORDERED_END);
    ReorderedReportsRunTwiceFacts();
  }

  const UNREPORTED := [Record(2, 0, Sent), Record(3, 1, InProgress)]

  const UNREPORTED_END :=
    World(1, UNREPORTED, Some(1), map["a" := Preparing], [Running([Applied(InTime), Applied(Missing)]), Running([])])

  lemma Unreported(r: State -> bool)
    requires Closed(r)
    ensures r(UNREPORTED_END)
  {
    SendBoth(r);
    var s := BothSent();
    var s1 := s.(execs := [Running([Committed, Emitted])], log := UNREPORTED);
    Move(r, s, [Emitted, Emitted], Commit(0, 0, 3), [Committed, Emitted], s1);
    var s2 := s1.(execs := [Running([Committed, Lost])]);
    Move(r, s1, [Committed, Emitted], LoseCommit(0, 1), [Committed, Lost], s2);
    var s3 := s2.(execs := [Running([Committed, Applied(Missing)])], statuses := map["a" := Success]);
    Move(r, s2, [Committed, Lost], Apply(0, 1), [Committed, Applied(Missing)], s3);
    var s4 := s3.(execs := [Running([Applied(InTime), Applied(Missing)])]);
    Move(r, s3, [Committed, Applied(Missing)], Apply(0, 0), [Applied(InTime), Applied(Missing)], s4);
    LatestOfTwo(UNREPORTED[0], UNREPORTED[1]);
    StartAgain(r, UNREPORTED, [Applied(InTime), Applied(Missing)]);
  }

  lemma LostReportRunsTwiceFacts()
    ensures RanTwice(UNREPORTED_END) && MarkedFirst(UNREPORTED_END.execs, "a")
                     && UNREPORTED_END.forgotten == {} && !Regressed(UNREPORTED_END.log, "a")
  {
    assert MarkedFirstAt(UNREPORTED_END.execs[0], 1);
    assert ROW in UNREPORTED_END.services;
  }

  /** The last message never reaches the manager: the service runs twice, by that alone. */
  lemma LostReportRunsTwice()
    ensures Reachable(CONFIG, UNREPORTED_END)
    ensures RanTwice(UNREPORTED_END) && MarkedFirst(UNREPORTED_END.execs, "a")
                     && UNREPORTED_END.forgotten == {} && !Regressed(UNREPORTED_END.log, "a")
  {
    forall r | Closed(r) ensures r(UNREPORTED_END) {
      Unreported(r);
    }
    FollowedIsReachable(UNREPORTED_END);
    LostReportRunsTwiceFacts();
  }

  const LATE_END :=
    World(1, IN_ORDER, Some(1), map["a" := Preparing],
          [Running([Applied(InTime), Applied(Late)]), Running([])])

  lemma RecordedLate()
    ensures Enabled(CONFIG, UNREPORTED_END, LateCommit(0, 1, 4))
    ensures Next(CONFIG, UNREPORTED_END, LateCommit(0, 1, 4)) == LATE_END
  {
    var s, step := UNREPORTED_END, LateCommit(0, 1, 4);
    assert ROW in s.services;
    assert Enabled(CONFIG, s, step);
    assert s.execs[0].stages[1 := Applied(Late)] == [Applied(InTime), Applied(Late)];
    assert Next(CONFIG, s, step).execs == LATE_END.execs;
    assert StepMaxOf([ROW], "a") == 1;
    assert s.log + [Record(4, 1, Succeeded)] == LATE_END.log;
  }

  lemma LateReportRunsTwiceFacts()
    ensures RanTwice(LATE_END) && MarkedFirst(LATE_END.execs, "a") && Record(4, 1, Succeeded) in LATE_END.log
    ensures LATE_END.forgotten == {} && !Regressed(LATE_END.log, "a")
    ensures forall r :: r in LATE_END.log[..2] ==> Unfinished(r.status)
  {
    assert MarkedFirstAt(LATE_END.execs[0], 1);
    assert ROW in LATE_END.services;
    assert IN_ORDER[2] in LATE_END.log;
  }

  /** The last message does reach the manager, in its turn, but only after the agent has marked it and
      started the service again: the service runs twice, by that alone. */
  lemma LateReportRunsTwice()
    ensures Reachable(CONFIG, LATE_END)
    ensures RanTwice(LATE_END) && MarkedFirst(LATE_END.execs, "a") && Record(4, 1, Succeeded) in LATE_END.log
    ensures LATE_END.forgotten == {} && !Regressed(LATE_END.log, "a")
  {
    forall r | Closed(r) ensures r(LATE_END) {
      Unreported(r);
      RecordedLate();
    }
    FollowedIsReachable(LATE_END);
    LateReportRunsTwiceFacts();
  }

  const IN_ORDER := [Record(2, 0, Sent), Record(3, 1, InProgress), Record(4, 1, Succeeded)]

  const CLEANED_END :=
    World(1, IN_ORDER, Some(1), map["a" := Preparing], [Running([Committed, Applied(InTime)]), Running([])])
               .(forgotten := {"a"})

  /** A request has picked the service and its answer is on the way; both messages are recorded and the
      last one is applied. */
  function Doomed(): State {
    World(1, IN_ORDER, Some(1), map["a" := Success], [Running([Committed, Applied(InTime)])])
    .(phase := Answered(map["a" := AsService(ROW)]))
  }

  lemma AnswerOnTheWay(r: State -> bool)
    requires Closed(r)
    ensures r(BothSent().(execs := [Running([Committed, Emitted])], log := UNREPORTED,
                          phase := Answered(map["a" := AsService(ROW)])))
  {
    SendBoth(r);
    var s := BothSent();
    var s1 := s.(execs := [Running([Committed, Emitted])], log := UNREPORTED);
    Move(r, s, [Emitted, Emitted], Commit(0, 0, 3), [Committed, Emitted], s1);
    LatestOfTwo(UNREPORTED[0], UNREPORTED[1]);
    Select(r, s1, UNREPORTED[1]);
    Save(r, s1.(phase := Selected([ServicePolling(ROW, UNREPORTED[1])], 1)), UNREPORTED[1], 9,
         s1.(phase := Answered(map["a" := AsService(ROW)])));
  }

  lemma FinishedUnderAnswer(r: State -> bool)
    requires Closed(r)
    ensures r(Doomed())
  {
    AnswerOnTheWay(r);
    var s2 := BothSent().(execs := [Running([Committed, Emitted])], log := UNREPORTED,
                          phase := Answered(map["a" := AsService(ROW)]));
    var s3 := s2.(execs := [Running([Committed, Committed])], log := IN_ORDER);
    Move(r, s2, [Committed, Emitted], Commit(0, 1, 4), [Committed, Committed], s3);
    Move(r, s3, [Committed, Committed], Apply(0, 1), [Committed, Applied(InTime)], Doomed());
  }

  lemma CleanedUp(r: State -> bool)
    requires Closed(r)
    ensures r(CLEANED_END)
  {
    FinishedUnderAnswer(r);
    var s4 := Doomed();
    assert Enabled(CONFIG, s4, Cleanup);
    assert Kept(s4.statuses) == map[];
    assert Finished(s4.statuses) * Pending(s4.phase) == {"a"};
    var s5 := s4.(statuses := map[], forgotten := {"a"});
    assert Next(CONFIG, s4, Cleanup).forgotten == {"a"};
    assert Next(CONFIG, s4, Cleanup) == s5;
    Start(r, s5);
    assert s5.execs + [Running([])] == [Running([Committed, Applied(InTime)]), Running([])];
  }

  lemma CleanupUnderPendingBatchRunsTwiceFacts()
    ensures RanTwice(CLEANED_END) && "a" in CLEANED_END.forgotten
                     && !Regressed(CLEANED_END.log, "a") && !MarkedFirst(CLEANED_END.execs, "a")
  {
    assert ROW in CLEANED_END.services;
  }

  /** A cleanup runs while the answer that names the service is pending: it runs twice, by that alone. */
  lemma CleanupUnderPendingBatchRunsTwice()
    ensures Reachable(CONFIG, CLEANED_END)
    ensures RanTwice(CLEANED_END) && "a" in CLEANED_END.forgotten
                     && !Regressed(CLEANED_END.log, "a") && !MarkedFirst(CLEANED_END.execs, "a")
  {
    forall r | Closed(r) ensures r(CLEANED_END) {
      CleanedUp(r);
    }
    FollowedIsReachable(CLEANED_END);
    CleanupUnderPendingBatchRunsTwiceFacts();
  }

  // ---------------------------------------------------------------- the offset exception

  const V3SERVICE := Service("b", V1, 0, 2)

  /** The request finds no v4 service. */
  lemma EmptyHalf(r: State -> bool)
    requires Closed(r)
    ensures r(State(0, [], [], [], Some(0), BetweenHalves(0), map[], [], {}, {}, {}))
  {
    var s := State(0, [], [], [], None, Idle, map[], [], {}, {}, {});
    assert Enabled(CONFIG, s, ReadServices);
    var s1 := Next(CONFIG, s, ReadServices);
    assert s1.services[..0] == [] && Attach([], []) == [];
    assert Enabled(CONFIG, s1, ReadStatuses([]));
    var s2 := s.(phase := Selected([], 0));
    assert BeyondCap([], CONFIG, s1.phase.ltime) == {};
    assert Next(CONFIG, s1, ReadStatuses([])) == s2;
    assert Enabled(CONFIG, s2, SaveSelection(5));
    assert s2.log + SentRecords([], 5) == [];
    assert Next(CONFIG, s2, SaveSelection(5)) == s.(offset := Some(0), phase := BetweenHalves(0));
  }

  const HIDDEN := State(2, [ROW], [V3SERVICE], [], Some(2), Idle, map[], [], {}, {"a"}, {})

  const BETWEEN := State(2, [ROW], [V3SERVICE], [], Some(0), BetweenHalves(0), map[], [], {}, {}, {})

  /** A v4 service is created while the request is under way, and then a v3 one. */
  lemma CreatedBetweenHalves(r: State -> bool)
    requires Closed(r)
    ensures r(BETWEEN)
  {
    EmptyHalf(r);
    var s := State(0, [], [], [], Some(0), BetweenHalves(0), map[], [], {}, {}, {});
    assert Enabled(CONFIG, s, Create(ROW));
    var s1 := s.(services := [ROW], now := 1);
    assert Next(CONFIG, s, Create(ROW)) == s1;
    assert Enabled(CONFIG, s1, CreateV3(V3SERVICE)) by {
      assert forall x :: x in s1.services ==> x == ROW;
    }
    assert Next(CONFIG, s1, CreateV3(V3SERVICE)) == BETWEEN;
  }

  /** Its v3 half finds the service created after the v4 one. */
  lemma FullV3Half(r: State -> bool)
    requires Closed(r)
    ensures r(HIDDEN)
  {
    CreatedBetweenHalves(r);
    assert Enabled(CONFIG, BETWEEN, SelectV3([V3SERVICE]));
    OneOvertaken(BETWEEN);
    var s3 := BETWEEN.(phase := V3Selected([V3SERVICE]), overtaken := {"a"});
    assert Next(CONFIG, BETWEEN, SelectV3([V3SERVICE])) == s3;
    assert Enabled(CONFIG, s3, SaveV3);
    assert V3CreatedTimes([V3SERVICE]) == [2];
    var s4 := s3.(offset := Some(2), phase := Answered(V3Batch([V3SERVICE])));
    assert Next(CONFIG, s3, SaveV3) == s4;
    assert Enabled(CONFIG, s4, Abort);
    assert Next(CONFIG, s4, Abort) == HIDDEN;
  }

  lemma OneOvertaken(s: State)
    requires s.services == [ROW] && s.overtaken == {}
    ensures s.overtaken + Overtaken(s, 0, [V3SERVICE]) == {"a"}
  {
    assert V3CreatedTimes([V3SERVICE]) == [2];
    assert s.services[0..] == [ROW];
    assert ROW in s.services[0..];
  }

  /** What a request sees next. */
  const NEXT_READ := HIDDEN.(phase := RowsRead(2, WindowStart(2, 60), 1))

  lemma NextRead(r: State -> bool)
    requires Closed(r)
    ensures r(NEXT_READ)
  {
    FullV3Half(r);
    assert Enabled(CONFIG, HIDDEN, ReadServices);
    assert Next(CONFIG, HIDDEN, ReadServices) == NEXT_READ;
  }

  /** A v4 service created between the two halves of a request, just before a v3 service that the
      second half finds, is hidden from the following poll although the poll is far from full. */
  lemma OvertakenServiceIsMissed(polled: seq<ServicePolling>)
    ensures Reachable(CONFIG, NEXT_READ)
    ensures ROW in NEXT_READ.services[..NEXT_READ.phase.seen] && ROW.created > NEXT_READ.phase.ltime
    ensures !Concluded(NEXT_READ.log, ROW.uuid) && NEXT_READ.capped == {} && ROW.uuid in NEXT_READ.overtaken
    ensures Enabled(CONFIG, NEXT_READ, ReadStatuses(polled)) ==>
              !InBatch(Next(CONFIG, NEXT_READ, ReadStatuses(polled)).phase.batch, ROW)
  {
    forall r | Closed(r) ensures r(NEXT_READ) {
      NextRead(r);
    }
    FollowedIsReachable(NEXT_READ);
    assert NEXT_READ.services[..1] == [ROW];
    if Enabled(CONFIG, NEXT_READ, ReadStatuses(polled)) {
      HiddenByOffset(NEXT_READ, polled);
    }
  }

  lemma HiddenByOffset(s: State, polled: seq<ServicePolling>)
    requires s.phase.RowsRead? && s.phase.from > ROW.created && Enabled(CONFIG, s, ReadStatuses(polled))
    ensures !InBatch(Next(CONFIG, s, ReadStatuses(polled)).phase.batch, ROW)
  {
    var rows := QueryServices(s.services[..s.phase.seen], CONFIG.cluster, Some(s.phase.from));
    QueryServicesIn(s.services[..s.phase.seen], CONFIG.cluster, Some(s.phase.from), ROW);
    PollingMembers(rows, QueryStatuses(s.log, CONFIG.cluster, Some(s.phase.from)), polled);
    forall p | p in Selection(polled, CONFIG.pollLimit, CONFIG.timelimit, s.phase.ltime) ensures p.service != ROW {
      SelectionMembers(polled, CONFIG.pollLimit, CONFIG.timelimit, s.phase.ltime, p);
    }
  }
}
