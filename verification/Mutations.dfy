/** Concurrent mutations behind idempotency keys: any number of requests, interleaved at every
    suspension, with a store that may fail and requests that may vanish at any step. */
module Mutations {
  import opened Wrappers
  import opened Idempotency

  type RequestId = nat

  datatype Request = Request(scope: string, key: string, hash: Hash)
  datatype MutationResult = MutationResult(status: nat, body: Body, replayStatus: Option<nat>, replayBody: Option<Body>)

  /** What `errorBody` makes of an exception. */
  datatype ErrorReply = ErrorReply(status: nat, text: string)

  datatype Pc = Arrived | Ready | Executing | Completing(result: MutationResult) | Responding(result: MutationResult)
              | Erring(error: ErrorReply)
  datatype Task = Task(request: Request, pc: Pc)

  datatype Kind = Refused | Conflicting | StillRunning | Replayed | Own(recordedStatus: nat, recordedBody: Body)
  datatype Reply = Reply(request: Request, kind: Kind, status: nat, text: string)

  /** `executions` and `replies` are history. */
  datatype System = System(entries: Entries, tasks: map<RequestId, Task>, executions: seq<Request>, replies: seq<Reply>)

  datatype Action =
    | Arrive(id: RequestId, request: Request)
    | ReserveKey(id: RequestId)
    | Begin(id: RequestId)
    | Finish(id: RequestId, outcome: Result<MutationResult, ErrorReply>)
    | Complete(id: RequestId, stored: bool)
    | Respond(id: RequestId)
    | Fail(id: RequestId, stored: bool)
    | Vanish(id: RequestId)

  const INTERNAL_ERROR := ErrorReply(500, "INTERNAL_ERROR")

  function KeyOf(r: Request): string {
    MapKey(r.scope, r.key)
  }

  function OrElse<T>(o: Option<T>, otherwise: T): T {
    if o.Some? then o.value else otherwise
  }

  function ReplayStatus(m: MutationResult): nat {
    OrElse(m.replayStatus, m.status)
  }

  function ReplayBody(m: MutationResult): Body {
    OrElse(m.replayBody, m.body)
  }

  // ---------- The steps of `runMutation` ----------

  function Go(s: System, id: RequestId, pc: Pc): System
    requires id in s.tasks
  {
    s.(tasks := s.tasks[id := s.tasks[id].(pc := pc)])
  }

  function Leave(s: System, id: RequestId): System {
    s.(tasks := s.tasks - {id})
  }

  /** A body that does not render makes `response` throw. */
  function Send(s: System, id: RequestId, kind: Kind, status: nat, body: Body): System
    requires id in s.tasks
  {
    if body.Json? then Leave(s.(replies := s.replies + [Reply(s.tasks[id].request, kind, status, body.text)]), id)
    else Leave(s, id)
  }

  function Reserving(s: System, id: RequestId): System
    requires id in s.tasks && s.tasks[id].pc == Arrived
  {
    var r := s.tasks[id].request;
    match Answer(s.entries, KeyOf(r), r.hash)
    case Acquired => Go(s.(entries := Reserve(s.entries, KeyOf(r), r.hash)), id, Ready)
    case Conflict => Send(s, id, Conflicting, 409, Json("IDEMPOTENCY_CONFLICT"))
    case InProgress => Send(s, id, StillRunning, 409, Json("IDEMPOTENCY_IN_PROGRESS"))
    case Replay(statusCode, body) => Send(s, id, Replayed, OrElse(statusCode, 200), body)
  }

  function CompletedStep(s: System, id: RequestId, stored: bool): System
    requires id in s.tasks && s.tasks[id].pc.Completing?
  {
    var t := s.tasks[id];
    var r := Record(s.entries, KeyOf(t.request), Completed, ReplayStatus(t.pc.result), ReplayBody(t.pc.result));
    if stored && r.Ok? then Go(s.(entries := r.value), id, Responding(t.pc.result)) else Go(s, id, Erring(INTERNAL_ERROR))
  }

  /** Still inside the `try`: a response that cannot be rendered is an error like any other. */
  function Responded(s: System, id: RequestId): System
    requires id in s.tasks && s.tasks[id].pc.Responding?
  {
    var m := s.tasks[id].pc.result;
    if m.body.Json? then Send(s, id, Own(ReplayStatus(m), ReplayBody(m)), m.status, m.body)
    else Go(s, id, Erring(INTERNAL_ERROR))
  }

  /** An error of the store here escapes. */
  function FailedStep(s: System, id: RequestId, stored: bool): System
    requires id in s.tasks && s.tasks[id].pc.Erring?
  {
    var t := s.tasks[id];
    var e := t.pc.error;
    var r := Record(s.entries, KeyOf(t.request), EntryState.Failed, e.status, Json(e.text));
    if stored && r.Ok? then Send(s.(entries := r.value), id, Own(e.status, Json(e.text)), e.status, Json(e.text))
    else Leave(s, id)
  }

  function TaskStep(s: System, a: Action): System
    requires a.id in s.tasks
  {
    var t := s.tasks[a.id];
    match a
    case Arrive(_, _) => s
    case ReserveKey(id) => if t.pc == Arrived then Reserving(s, id) else s
    case Begin(id) => if t.pc == Ready then Go(s.(executions := s.executions + [t.request]), id, Executing) else s
    case Finish(id, outcome) =>
      if t.pc != Executing then s
      else if outcome.Ok? then Go(s, id, Completing(outcome.value)) else Go(s, id, Erring(outcome.error))
    case Complete(id, stored) => if t.pc.Completing? then CompletedStep(s, id, stored) else s
    case Respond(id) => if t.pc.Responding? then Responded(s, id) else s
    case Fail(id, stored) => if t.pc.Erring? then FailedStep(s, id, stored) else s
    case Vanish(id) => Leave(s, id)
  }

  function Next(s: System, a: Action): System {
    if a.id in s.tasks then TaskStep(s, a)
    else if !a.Arrive? then s
    else if |a.request.key| < 8 || |a.request.key| > 128
    then s.(replies := s.replies + [Reply(a.request, Refused, 400, "IDEMPOTENCY_KEY_REQUIRED")])
    else s.(tasks := s.tasks[a.id := Task(a.request, Arrived)])
  }

  function After(run: seq<Action>, n: nat): System
    requires n <= |run|
  {
    if n == 0 then System(map[], map[], [], []) else Next(After(run, n - 1), run[n - 1])
  }

  // ---------- At most one execution ----------

  /** A request holds the reservation of its key. */
  predicate Owns(t: Task) {
    t.pc != Arrived
  }

  ghost predicate OwnersOk(s: System) {
    && (forall id | id in s.tasks && Owns(s.tasks[id]) ::
          && KeyOf(s.tasks[id].request) in s.entries
          && s.entries[KeyOf(s.tasks[id].request)].requestHash == s.tasks[id].request.hash)
    && (forall i, j | i in s.tasks && j in s.tasks && Owns(s.tasks[i]) && Owns(s.tasks[j])
                      && KeyOf(s.tasks[i].request) == KeyOf(s.tasks[j].request) :: i == j)
  }

  ghost predicate ExecutionsOk(s: System) {
    && (forall k | 0 <= k < |s.executions| ::
          && KeyOf(s.executions[k]) in s.entries
          && s.entries[KeyOf(s.executions[k])].requestHash == s.executions[k].hash)
    && (forall k, l | 0 <= k < |s.executions| && 0 <= l < |s.executions|
                      && KeyOf(s.executions[k]) == KeyOf(s.executions[l]) :: k == l)
    && (forall k, id | 0 <= k < |s.executions| && id in s.tasks && s.tasks[id].pc == Ready ::
          KeyOf(s.executions[k]) != KeyOf(s.tasks[id].request))
  }

  ghost predicate Once(s: System) {
    OwnersOk(s) && ExecutionsOk(s)
  }

  lemma ReservingKeepsOnce(s: System, id: RequestId)
    requires Once(s) && id in s.tasks && s.tasks[id].pc == Arrived
    ensures Once(Reserving(s, id))
  {
    var r := s.tasks[id].request;
    if Answer(s.entries, KeyOf(r), r.hash) == Acquired {
      assert forall k | 0 <= k < |s.executions| :: KeyOf(s.executions[k]) != KeyOf(r);
    }
  }

  lemma BeginningKeepsOnce(s: System, id: RequestId)
    requires Once(s) && id in s.tasks && s.tasks[id].pc == Ready
    ensures Once(Next(s, Begin(id)))
  {
    var s' := Next(s, Begin(id));
    assert s'.executions[|s.executions|] == s.tasks[id].request;
    assert forall k | 0 <= k < |s.executions| :: s'.executions[k] == s.executions[k];
  }

  /** A step that neither reserves nor executes. */
  lemma MovingKeepsOnce(s: System, s': System, id: RequestId)
    requires Once(s) && id in s.tasks && s'.executions == s.executions
    requires forall i | i in s'.tasks && i != id :: i in s.tasks && s'.tasks[i] == s.tasks[i]
    requires id in s'.tasks ==> s'.tasks[id].request == s.tasks[id].request
    requires id in s'.tasks && Owns(s'.tasks[id]) ==> Owns(s.tasks[id])
    requires id in s'.tasks && s'.tasks[id].pc == Ready ==> s.tasks[id].pc == Ready
    requires forall k | k in s.entries :: k in s'.entries && s'.entries[k].requestHash == s.entries[k].requestHash
    ensures Once(s')
  {
  }

  lemma TaskStepKeepsOnce(s: System, a: Action)
    requires Once(s) && a.id in s.tasks
    ensures Once(Next(s, a))
  {
    hide Once;
    var t := s.tasks[a.id];
    if a.ReserveKey? && t.pc == Arrived {
      ReservingKeepsOnce(s, a.id);
      assert Next(s, a) == Reserving(s, a.id);
    } else if a.Begin? && t.pc == Ready {
      BeginningKeepsOnce(s, a.id);
    } else {
      MovingKeepsOnce(s, Next(s, a), a.id);
    }
  }

  lemma NextKeepsOnce(s: System, a: Action)
    requires Once(s)
    ensures Once(Next(s, a))
  {
    if a.id in s.tasks {
      TaskStepKeepsOnce(s, a);
    }
  }

  lemma {:induction false} RunsKeepOnce(run: seq<Action>, n: nat)
    requires n <= |run|
    ensures Once(After(run, n))
  {
    if n > 0 {
      hide Next, Once;
      RunsKeepOnce(run, n - 1);
      NextKeepsOnce(After(run, n - 1), run[n - 1]);
    }
  }

  /** Of the requests that share an entry, one executes, whatever their hashes. */
  lemma SharedEntryExecutesOnce(run: seq<Action>, k: nat, l: nat)
    requires k < |After(run, |run|).executions| && l < |After(run, |run|).executions|
    requires var e := After(run, |run|).executions; KeyOf(e[k]) == KeyOf(e[l])
    ensures k == l
  {
    RunsKeepOnce(run, |run|);
  }

  /** For one scope and key, `execute` runs at most once, whatever the hashes: a request with another
      hash under the same key never executes. */
  lemma ExecutesAtMostOnce(run: seq<Action>, k: nat, l: nat)
    requires k < |After(run, |run|).executions| && l < |After(run, |run|).executions|
    requires var e := After(run, |run|).executions; e[k].scope == e[l].scope && e[k].key == e[l].key
    ensures k == l
  {
    SharedEntryExecutesOnce(run, k, l);
  }

  // ---------- One record, one answer ----------

  /** Routes return JSON values, so every body renders. */
  ghost predicate Renders(a: Action) {
    a.Finish? && a.outcome.Ok? ==> a.outcome.value.body.Json? && ReplayBody(a.outcome.value).Json?
  }

  ghost predicate AllRender(run: seq<Action>) {
    forall i :: 0 <= i < |run| ==> Renders(run[i])
  }

  ghost predicate Final(s: System, mapKey: string, status: nat, body: Body) {
    && mapKey in s.entries && s.entries[mapKey].state != Processing
    && s.entries[mapKey].statusCode == Some(status) && s.entries[mapKey].body == body
  }

  ghost predicate OwnerWrites(s: System, t: Task) {
    match t.pc
    case Responding(m) => m.body.Json? && Final(s, KeyOf(t.request), ReplayStatus(m), ReplayBody(m))
    case Completing(m) => m.body.Json? && ReplayBody(m).Json? && Unwritten(s, t)
    case Arrived => true
    case _ => Unwritten(s, t)
  }

  ghost predicate Unwritten(s: System, t: Task) {
    KeyOf(t.request) in s.entries && s.entries[KeyOf(t.request)].state == Processing
  }

  ghost predicate ReplyOk(s: System, r: Reply) {
    match r.kind
    case Replayed => Final(s, KeyOf(r.request), r.status, Json(r.text))
    case Own(status, body) => Final(s, KeyOf(r.request), status, body)
    case _ => true
  }

  ghost predicate RecordsOk(s: System) {
    && (forall id | id in s.tasks :: OwnerWrites(s, s.tasks[id]))
    && (forall k | k in s.entries && s.entries[k].state != Processing :: s.entries[k].statusCode.Some?)
    && (forall i | 0 <= i < |s.replies| :: ReplyOk(s, s.replies[i]))
  }

  /** Entries that are final stay as they are. */
  ghost predicate Settled(s: System, s': System) {
    forall k | k in s.entries && s.entries[k].state != Processing :: k in s'.entries && s'.entries[k] == s.entries[k]
  }

  lemma RepliesStayOk(s: System, s': System)
    requires RecordsOk(s) && Settled(s, s')
    requires s.replies <= s'.replies && |s'.replies| <= |s.replies| + 1
    requires |s'.replies| > |s.replies| ==> ReplyOk(s', s'.replies[|s.replies|])
    ensures forall i | 0 <= i < |s'.replies| :: ReplyOk(s', s'.replies[i])
  {
    forall i | 0 <= i < |s'.replies| ensures ReplyOk(s', s'.replies[i]) {
      if i < |s.replies| {
        assert s'.replies[i] == s.replies[i] && ReplyOk(s, s.replies[i]);
      }
    }
  }

  /** A step of one request leaves the others' entries alone. */
  lemma OneRequestMoves(s: System, s': System, id: RequestId, mapKey: string)
    requires Once(s) && RecordsOk(s) && id in s.tasks && Settled(s, s')
    requires forall i | i in s'.tasks && i != id :: i in s.tasks && s'.tasks[i] == s.tasks[i]
    requires forall k | k in s.entries && k != mapKey :: k in s'.entries && s'.entries[k] == s.entries[k]
    requires forall k | k in s'.entries && k != mapKey :: k in s.entries
    requires s'.entries == s.entries
      || (forall i | i in s.tasks && i != id && Owns(s.tasks[i]) :: KeyOf(s.tasks[i].request) != mapKey)
    requires id in s'.tasks ==> OwnerWrites(s', s'.tasks[id])
    requires mapKey in s'.entries && s'.entries[mapKey].state != Processing ==> s'.entries[mapKey].statusCode.Some?
    requires s.replies <= s'.replies && |s'.replies| <= |s.replies| + 1
    requires |s'.replies| > |s.replies| ==> ReplyOk(s', s'.replies[|s.replies|])
    ensures RecordsOk(s')
  {
    RepliesStayOk(s, s');
    forall i | i in s'.tasks ensures OwnerWrites(s', s'.tasks[i]) {
      if i != id {
        assert OwnerWrites(s, s.tasks[i]);
      }
    }
  }

  lemma ReservingKeepsRecords(s: System, id: RequestId)
    requires Once(s) && RecordsOk(s) && id in s.tasks && s.tasks[id].pc == Arrived
    ensures RecordsOk(Reserving(s, id))
  {
    OneRequestMoves(s, Reserving(s, id), id, KeyOf(s.tasks[id].request));
  }

  lemma CompletingKeepsRecords(s: System, id: RequestId, stored: bool)
    requires Once(s) && RecordsOk(s) && id in s.tasks && s.tasks[id].pc.Completing?
    ensures RecordsOk(CompletedStep(s, id, stored))
  {
    assert OwnerWrites(s, s.tasks[id]);
    OneRequestMoves(s, CompletedStep(s, id, stored), id, KeyOf(s.tasks[id].request));
  }

  lemma RespondingKeepsRecords(s: System, id: RequestId)
    requires Once(s) && RecordsOk(s) && id in s.tasks && s.tasks[id].pc.Responding?
    ensures RecordsOk(Responded(s, id))
  {
    assert OwnerWrites(s, s.tasks[id]);
    OneRequestMoves(s, Responded(s, id), id, KeyOf(s.tasks[id].request));
  }

  lemma FailingKeepsRecords(s: System, id: RequestId, stored: bool)
    requires Once(s) && RecordsOk(s) && id in s.tasks && s.tasks[id].pc.Erring?
    ensures RecordsOk(FailedStep(s, id, stored))
  {
    assert OwnerWrites(s, s.tasks[id]);
    OneRequestMoves(s, FailedStep(s, id, stored), id, KeyOf(s.tasks[id].request));
  }

  lemma TaskStepKeepsRecords(s: System, a: Action)
    requires Once(s) && RecordsOk(s) && a.id in s.tasks && Renders(a)
    ensures RecordsOk(TaskStep(s, a))
  {
    var t := s.tasks[a.id];
    assert OwnerWrites(s, t);
    match a
    case Arrive(_, _) =>
    case ReserveKey(id) => if t.pc == Arrived { ReservingKeepsRecords(s, id); }
    case Begin(id) => OneRequestMoves(s, TaskStep(s, a), id, KeyOf(t.request));
    case Finish(id, outcome) => OneRequestMoves(s, TaskStep(s, a), id, KeyOf(t.request));
    case Complete(id, stored) => if t.pc.Completing? { CompletingKeepsRecords(s, id, stored); }
    case Respond(id) => if t.pc.Responding? { RespondingKeepsRecords(s, id); }
    case Fail(id, stored) => if t.pc.Erring? { FailingKeepsRecords(s, id, stored); }
    case Vanish(id) => OneRequestMoves(s, TaskStep(s, a), id, KeyOf(t.request));
  }

  lemma NextKeepsRecords(s: System, a: Action)
    requires Once(s) && RecordsOk(s) && Renders(a)
    ensures RecordsOk(Next(s, a))
  {
    if a.id in s.tasks {
      TaskStepKeepsRecords(s, a);
    } else {
      RepliesStayOk(s, Next(s, a));
      var s' := Next(s, a);
      forall i | i in s'.tasks ensures OwnerWrites(s', s'.tasks[i]) {
        if i != a.id {
          assert OwnerWrites(s, s.tasks[i]);
        }
      }
    }
  }

  lemma {:induction false} RunsKeepRecords(run: seq<Action>, n: nat)
    requires AllRender(run) && n <= |run|
    ensures RecordsOk(After(run, n))
  {
    if n > 0 {
      hide Next, Once, RecordsOk;
      RunsKeepRecords(run, n - 1);
      RunsKeepOnce(run, n - 1);
      NextKeepsRecords(After(run, n - 1), run[n - 1]);
    }
  }

  /** Whatever replay or own answer a key ever got agrees with one record: replays repeat it word for
      word, and the executing request's own reply was recorded as it. */
  lemma EveryReplyIsTheRecord(run: seq<Action>, i: nat, j: nat)
    requires AllRender(run) && i < |After(run, |run|).replies| && j < |After(run, |run|).replies|
    requires var r := After(run, |run|).replies; KeyOf(r[i].request) == KeyOf(r[j].request)
    ensures var r := After(run, |run|).replies;
      && (r[i].kind.Replayed? && r[j].kind.Replayed? ==> r[i].status == r[j].status && r[i].text == r[j].text)
      && (r[i].kind.Own? && r[j].kind.Replayed? ==>
            r[j].status == r[i].kind.recordedStatus && Json(r[j].text) == r[i].kind.recordedBody)
      && (r[i].kind.Own? && r[j].kind.Own? ==>
            r[i].kind.recordedStatus == r[j].kind.recordedStatus && r[i].kind.recordedBody == r[j].kind.recordedBody)
  {
    RunsKeepRecords(run, |run|);
    var s := After(run, |run|);
    assert ReplyOk(s, s.replies[i]) && ReplyOk(s, s.replies[j]);
  }

  /** The assumption is needed: once a result is recorded, the record survives the response exactly when
      the body renders; otherwise the error path writes over it. */
  lemma RecordSurvivesExactlyWhenBodyRenders(s: System, id: RequestId)
    requires id in s.tasks && s.tasks[id].pc.Responding?
    requires var k := KeyOf(s.tasks[id].request); k in s.entries && s.entries[k].state == Completed
    ensures Next(Next(s, Respond(id)), Fail(id, true)).entries == s.entries <==> s.tasks[id].pc.result.body.Json?
  {
    var k := KeyOf(s.tasks[id].request);
    var s' := Next(Next(s, Respond(id)), Fail(id, true));
    if !s.tasks[id].pc.result.body.Json? {
      assert s'.entries[k].state == EntryState.Failed;
    }
  }

  // ---------- Requests that share an entry ----------

  lemma AfterOne(run: seq<Action>, n: nat)
    requires n < |run|
    ensures After(run, n + 1) == Next(After(run, n), run[n])
  {
    hide Next;
  }

  lemma {:induction false} AfterIgnoresTheRest(run: seq<Action>, rest: seq<Action>, n: nat)
    requires n <= |run|
    ensures After(run + rest, n) == After(run, n)
  {
    if n > 0 {
      hide Next;
      AfterIgnoresTheRest(run, rest, n - 1);
    }
  }

  predicate Admissible(r: Request) {
    8 <= |r.key| <= 128
  }

  ghost predicate OutcomeRenders(outcome: Result<MutationResult, ErrorReply>) {
    outcome.Ok? ==> outcome.value.body.Json? && ReplayBody(outcome.value).Json?
  }

  /** What is kept of an outcome, for replays. */
  function Kept(outcome: Result<MutationResult, ErrorReply>): ErrorReply
    requires outcome.Ok? ==> ReplayBody(outcome.value).Json?
  {
    if outcome.Ok? then ErrorReply(ReplayStatus(outcome.value), ReplayBody(outcome.value).text) else outcome.error
  }

  /** A request that runs from its arrival to its response while nobody interferes. */
  function Served(r: Request, outcome: Result<MutationResult, ErrorReply>): seq<Action> {
    [Arrive(0, r), ReserveKey(0), Begin(0), Finish(0, outcome)]
    + if outcome.Ok? then [Complete(0, true), Respond(0)] else [Fail(0, true)]
  }

  /** The state it leaves. */
  ghost predicate Recorded(s: System, r: Request, outcome: Result<MutationResult, ErrorReply>)
    requires outcome.Ok? ==> ReplayBody(outcome.value).Json?
  {
    && s.tasks == map[] && s.executions == [r] && |s.replies| == 1 && s.replies[0].kind.Own?
    && s.entries.Keys == {KeyOf(r)} && s.entries[KeyOf(r)].requestHash == r.hash
    && Final(s, KeyOf(r), Kept(outcome).status, Json(Kept(outcome).text))
  }

  function Holding(r: Request): System {
    System(map[KeyOf(r) := Entry(r.hash, Processing, None, Absent)], map[0 := Task(r, Ready)], [], [])
  }

  lemma ReservesFirst(r: Request)
    requires Admissible(r)
    ensures After([Arrive(0, r), ReserveKey(0)], 2) == Holding(r)
  {
    hide MapKey;
    var run := [Arrive(0, r), ReserveKey(0)];
    AfterOne(run, 0);
    AfterOne(run, 1);
    assert After(run, 1) == System(map[], map[0 := Task(r, Arrived)], [], []);
  }

  lemma Executes(r: Request, outcome: Result<MutationResult, ErrorReply>)
    requires Admissible(r)
    ensures After(Served(r, outcome), 4) ==
      Holding(r).(tasks := map[0 := Task(r, if outcome.Ok? then Completing(outcome.value) else Erring(outcome.error))],
                  executions := [r])
  {
    hide MapKey;
    var run := Served(r, outcome);
    ReservesFirst(r);
    AfterIgnoresTheRest([Arrive(0, r), ReserveKey(0)], run[2..], 2);
    assert run == [Arrive(0, r), ReserveKey(0)] + run[2..];
    hide After;
    AfterOne(run, 2);
    AfterOne(run, 3);
    assert After(run, 3) == Holding(r).(tasks := map[0 := Task(r, Executing)], executions := [r]);
  }

  lemma ServingRecords(r: Request, outcome: Result<MutationResult, ErrorReply>)
    requires Admissible(r) && OutcomeRenders(outcome)
    ensures var run := Served(r, outcome); Recorded(After(run, |run|), r, outcome)
  {
    hide MapKey;
    var run := Served(r, outcome);
    Executes(r, outcome);
    hide After;
    AfterOne(run, 4);
    if outcome.Ok? {
      AfterOne(run, 5);
      assert After(run, 5).tasks == map[0 := Task(r, Responding(outcome.value))];
    }
    assert After(run, |run|).tasks == map[];
  }

  /** A second request that comes with the same hash after the first was served executes exactly when its
      entry is another one. Otherwise it gets what was recorded of the first, and never runs. */
  lemma SecondRunsExactlyWhenEntriesDiffer(first: Request, second: Request, outcome: Result<MutationResult, ErrorReply>)
    requires Admissible(first) && Admissible(second) && first.hash == second.hash && OutcomeRenders(outcome)
    ensures var run := Served(first, outcome) + [Arrive(1, second), ReserveKey(1)];
      var s := After(run, |run|);
      && (1 in s.tasks && s.tasks[1].pc == Ready <==> KeyOf(first) != KeyOf(second))
      && (KeyOf(first) == KeyOf(second) ==>
            && s.tasks == map[] && s.executions == [first] && |s.replies| == 2
            && s.replies[1] == Reply(second, Replayed, Kept(outcome).status, Kept(outcome).text))
  {
    hide MapKey;
    var front := Served(first, outcome);
    var run := front + [Arrive(1, second), ReserveKey(1)];
    ServingRecords(first, outcome);
    AfterIgnoresTheRest(front, [Arrive(1, second), ReserveKey(1)], |front|);
    hide After, Served;
    AfterOne(run, |front|);
    AfterOne(run, |front| + 1);
    assert After(run, |front| + 1).tasks == map[1 := Task(second, Arrived)];
  }

  /** While the first is still running, the second is told to wait. */
  lemma SecondWaitsForTheFirst(first: Request, second: Request)
    requires Admissible(first) && Admissible(second) && first.hash == second.hash && KeyOf(first) == KeyOf(second)
    ensures var run := [Arrive(0, first), ReserveKey(0), Arrive(1, second), ReserveKey(1)];
      && After(run, 4).replies == [Reply(second, StillRunning, 409, "IDEMPOTENCY_IN_PROGRESS")]
      && 1 !in After(run, 4).tasks && After(run, 4).entries == Holding(first).entries
  {
    hide MapKey;
    var front := [Arrive(0, first), ReserveKey(0)];
    var run := [Arrive(0, first), ReserveKey(0), Arrive(1, second), ReserveKey(1)];
    ReservesFirst(first);
    AfterIgnoresTheRest(front, [Arrive(1, second), ReserveKey(1)], 2);
    assert run == front + [Arrive(1, second), ReserveKey(1)];
    hide After;
    AfterOne(run, 2);
    AfterOne(run, 3);
    assert After(run, 3) == Holding(first).(tasks := map[0 := Task(first, Ready), 1 := Task(second, Arrived)]);
  }

  /** The route that processes a vault job takes no input, so all its requests have one hash. A request for
      one job that was served, with whatever result, answers one for another id, in either order: a job that
      exists, `a`, is not processed and gets what was found out about the id `a:b`, or the other way round. */
  lemma ProcessRequestsAnswerForEachOther(sponsor: string, empty: Hash, outcome: Result<MutationResult, ErrorReply>)
    requires OutcomeRenders(outcome)
    ensures var one := Request(ProcessScope(sponsor, "a"), "b:12345678", empty);
      var other := Request(ProcessScope(sponsor, "a:b"), "12345678", empty);
      && one.scope != other.scope && one.key != other.key
      && AnsweredFor(one, other, outcome) && AnsweredFor(other, one, outcome)
  {
    ProcessRequestsShareAnEntry(sponsor);
    hide MapKey, ProcessScope;
    var one := Request(ProcessScope(sponsor, "a"), "b:12345678", empty);
    var other := Request(ProcessScope(sponsor, "a:b"), "12345678", empty);
    assert |one.key| == 10 && |other.key| == 8;
    SecondRunsExactlyWhenEntriesDiffer(one, other, outcome);
    SecondRunsExactlyWhenEntriesDiffer(other, one, outcome);
    SecondWaitsForTheFirst(one, other);
    SecondWaitsForTheFirst(other, one);
  }

  /** The second is told to wait while the first is running, and is given the first's record afterwards. */
  ghost predicate AnsweredFor(first: Request, second: Request, outcome: Result<MutationResult, ErrorReply>)
    requires outcome.Ok? ==> ReplayBody(outcome.value).Json?
  {
    var early := [Arrive(0, first), ReserveKey(0), Arrive(1, second), ReserveKey(1)];
    var late := Served(first, outcome) + [Arrive(1, second), ReserveKey(1)];
    && After(early, |early|).replies == [Reply(second, StillRunning, 409, "IDEMPOTENCY_IN_PROGRESS")]
    && After(late, |late|).executions == [first] && |After(late, |late|).replies| == 2
    && After(late, |late|).replies[1] == Reply(second, Replayed, Kept(outcome).status, Kept(outcome).text)
    && After(late, |late|).tasks == map[]
  }
}
