/** `runMutation` as written: every call is a run of the protocol under any interference. `Await` stands
    for every suspension; what the handler returns and whether the store answers come in as parameters. */
module MutationRunner {
  import opened Wrappers
  import opened Idempotency
  import opened Mutations

  /** How an error is formatted when the handler, the store or the response fails. */
  function Caught(outcome: Result<MutationResult, ErrorReply>): ErrorReply {
    if outcome.Err? then outcome.error else INTERNAL_ERROR
  }

  /** The result was stored and can be rendered. */
  predicate Succeeds(outcome: Result<MutationResult, ErrorReply>, stored: bool) {
    outcome.Ok? && stored && outcome.value.body.Json?
  }

  /** The response of the request that executed, or none if its failure could not be stored. */
  function OwnReply(r: Request, outcome: Result<MutationResult, ErrorReply>, completeStored: bool, failStored: bool)
    : Option<Reply>
  {
    if Succeeds(outcome, completeStored)
    then var m := outcome.value; Some(Reply(r, Own(ReplayStatus(m), ReplayBody(m)), m.status, m.body.text))
    else if failStored
    then var e := Caught(outcome); Some(Reply(r, Own(e.status, Json(e.text)), e.status, e.text))
    else None
  }

  /** The response to a request that was not let in: what the entry says, or none if it holds no text. */
  function EntryReply(entries: Entries, r: Request): Option<Reply> {
    match Answer(entries, KeyOf(r), r.hash)
    case Acquired => None
    case Conflict => Some(Reply(r, Conflicting, 409, "IDEMPOTENCY_CONFLICT"))
    case InProgress => Some(Reply(r, StillRunning, 409, "IDEMPOTENCY_IN_PROGRESS"))
    case Replay(statusCode, body) =>
      if body.Json? then Some(Reply(r, Replayed, OrElse(statusCode, 200), body.text)) else None
  }

  /** Between the two runs the handler of this request came back. */
  ghost predicate Ran(run: seq<Action>, run': seq<Action>, id: RequestId, outcome: Result<MutationResult, ErrorReply>) {
    exists i :: |run| <= i < |run'| && run'[i] == Finish(id, outcome)
  }

  class MutationRunner {
    const store: IdempotencyStore
    ghost var run: seq<Action>

    ghost function Now(): System
      reads this
    {
      After(run, |run|)
    }

    ghost predicate Valid()
      reads this, store, store.idempotency.Values
    {
      store.Valid() && Now().entries == store.Contents()
    }

    ghost function Mine(id: RequestId): Option<Task>
      reads this
    {
      if id in Now().tasks then Some(Now().tasks[id]) else None
    }

    ghost function Newest(): Option<Reply>
      reads this
    {
      var r := Now().replies;
      if r == [] then None else Some(r[|r| - 1])
    }

    constructor ()
      ensures Valid() && fresh(store) && run == []
    {
      store := new IdempotencyStore();
      run := [];
    }

    ghost method Take(a: Action)
      modifies this`run
      ensures run == old(run) + [a] && Now() == Next(old(Now()), a)
    {
      hide Next;
      AfterIgnoresTheRest(run, [a], |run|);
      run := run + [a];
    }

    /** Nothing is known of what happens meanwhile, except that it is a run and leaves this request alone. */
    method Await(ghost id: RequestId)
      requires Valid()
      modifies this, store, store.idempotency.Values
      ensures Valid() && old(run) <= run && Mine(id) == old(Mine(id))
      ensures fresh(store.idempotency.Values - old(store.idempotency.Values))
    {
    }

    /** A request that was let in has its entry for as long as it runs. */
    lemma Reserved(id: RequestId)
      requires Valid() && Mine(id).Some? && Owns(Mine(id).value)
      ensures MapKey(Mine(id).value.request.scope, Mine(id).value.request.key) in store.idempotency
    {
      RunsKeepOnce(run, |run|);
      assert KeyOf(Mine(id).value.request) in store.Contents();
    }

    /** Reserves the key, and answers at once unless the reservation is this request's. */
    method ReserveOrReply(ghost id: RequestId, r: Request) returns (acquired: bool, reply: Option<Reply>)
      requires Valid() && Mine(id) == Some(Task(r, Arrived))
      modifies this`run, store
      ensures Valid() && old(run) <= run
      ensures fresh(store.idempotency.Values - old(store.idempotency.Values))
      ensures Mine(id) == if acquired then Some(Task(r, Ready)) else None
      ensures acquired ==> reply.None?
      ensures !acquired ==> reply == EntryReply(Now().entries, r) && KeyOf(r) in Now().entries
      ensures reply.Some? ==> Newest() == reply
    {
      var reservation := store.ReserveIdempotency(r.scope, r.key, r.hash);
      acquired, reply := false, None;
      match reservation {
        case Acquired => acquired := true;
        case Conflict => reply := Some(Reply(r, Conflicting, 409, "IDEMPOTENCY_CONFLICT"));
        case InProgress => reply := Some(Reply(r, StillRunning, 409, "IDEMPOTENCY_IN_PROGRESS"));
        case Replay(statusCode, body) =>
          if body.Json? {
            reply := Some(Reply(r, Replayed, OrElse(statusCode, 200), body.text));
          }
      }
      Take(ReserveKey(id));
    }

    /** The handler's effect, and what it came back with. */
    method Execute(ghost id: RequestId, r: Request, ghost outcome: Result<MutationResult, ErrorReply>)
      requires Valid() && Mine(id) == Some(Task(r, Ready))
      modifies this, store, store.idempotency.Values
      ensures Valid() && old(run) <= run
      ensures fresh(store.idempotency.Values - old(store.idempotency.Values))
      ensures Mine(id) == Some(Task(r, if outcome.Ok? then Completing(outcome.value) else Erring(outcome.error)))
      ensures Ran(old(run), run, id, outcome)
    {
      Take(Begin(id));
      Await(id);
      Take(Finish(id, outcome));
      assert run[|run| - 1] == Finish(id, outcome);
    }

    method CompleteKey(ghost id: RequestId, r: Request, m: MutationResult, stored: bool) returns (ok: bool)
      requires Valid() && Mine(id) == Some(Task(r, Completing(m)))
      modifies this`run, store.idempotency.Values
      ensures Valid() && old(run) <= run && store.idempotency == old(store.idempotency)
      ensures ok == stored
      ensures Mine(id) == Some(Task(r, if ok then Responding(m) else Erring(INTERNAL_ERROR)))
    {
      Reserved(id);
      ok := false;
      if stored {
        ok := store.RecordOutcome(r.scope, r.key, Completed, ReplayStatus(m), ReplayBody(m));
      }
      Take(Complete(id, stored));
    }

    method SendResult(ghost id: RequestId, r: Request, m: MutationResult) returns (reply: Option<Reply>)
      requires Valid() && Mine(id) == Some(Task(r, Responding(m)))
      modifies this`run
      ensures Valid() && old(run) <= run
      ensures reply == if m.body.Json? then Some(Reply(r, Own(ReplayStatus(m), ReplayBody(m)), m.status, m.body.text)) else None
      ensures reply.Some? ==> Newest() == reply
      ensures Mine(id) == if reply.Some? then None else Some(Task(r, Erring(INTERNAL_ERROR)))
    {
      reply := if m.body.Json? then Some(Reply(r, Own(ReplayStatus(m), ReplayBody(m)), m.status, m.body.text)) else None;
      Take(Respond(id));
    }

    method FailKey(ghost id: RequestId, r: Request, e: ErrorReply, stored: bool) returns (reply: Option<Reply>)
      requires Valid() && Mine(id) == Some(Task(r, Erring(e)))
      modifies this`run, store.idempotency.Values
      ensures Valid() && old(run) <= run && Mine(id).None?
      ensures reply == if stored then Some(Reply(r, Own(e.status, Json(e.text)), e.status, e.text)) else None
      ensures reply.Some? ==> Newest() == reply
    {
      Reserved(id);
      reply := None;
      if stored {
        var ok := store.RecordOutcome(r.scope, r.key, EntryState.Failed, e.status, Json(e.text));
        if ok {
          reply := Some(Reply(r, Own(e.status, Json(e.text)), e.status, e.text));
        }
      }
      Take(Fail(id, stored));
    }

    /** The `try`, from the handler's effect to the response; an error comes back to be recorded. */
    method TryMutation(ghost id: RequestId, r: Request, outcome: Result<MutationResult, ErrorReply>, stored: bool)
      returns (reply: Option<Reply>, error: ErrorReply)
      requires Valid() && Mine(id) == Some(Task(r, Ready))
      modifies this, store, store.idempotency.Values
      ensures Valid() && old(run) <= run
      ensures fresh(store.idempotency.Values - old(store.idempotency.Values))
      ensures Ran(old(run), run, id, outcome)
      ensures reply.Some? <==> Succeeds(outcome, stored)
      ensures reply.Some? ==> Mine(id).None? && Newest() == reply && reply == OwnReply(r, outcome, stored, false)
      ensures reply.None? ==> Mine(id) == Some(Task(r, Erring(error))) && error == Caught(outcome)
    {
      hide Valid, Mine, Newest;
      error := INTERNAL_ERROR;
      Execute(id, r, outcome);
      if outcome.Err? {
        return None, outcome.error;
      }
      Await(id);
      var ok := CompleteKey(id, r, outcome.value, stored);
      if !ok {
        return None, INTERNAL_ERROR;
      }
      Await(id);
      reply := SendResult(id, r, outcome.value);
    }

    /** A key of the wrong length is refused. Otherwise either the handler ran, and the reply is its result,
        or the error if it, the store or the response failed, and none only if the error could not be stored;
        or the handler did not run for this request, and the reply is what the entry of its key says. A reply is
        the newest entry of the run's history, and the request holds nothing afterwards. */
    method RunMutation(ghost id: RequestId, r: Request, outcome: Result<MutationResult, ErrorReply>,
                       completeStored: bool, failStored: bool) returns (reply: Option<Reply>)
      requires Valid() && Mine(id).None?
      modifies this, store, store.idempotency.Values
      ensures Valid() && old(run) <= run && Mine(id).None?
      ensures reply.Some? ==> Newest() == reply
      ensures !Admissible(r) ==> reply == Some(Reply(r, Refused, 400, "IDEMPOTENCY_KEY_REQUIRED"))
      ensures Admissible(r) ==>
        || (Ran(old(run), run, id, outcome) && reply == OwnReply(r, outcome, completeStored, failStored))
        || (KeyOf(r) in Now().entries && reply == EntryReply(Now().entries, r))
    {
      Take(Arrive(id, r));
      if |r.key| < 8 || |r.key| > 128 {
        return Some(Reply(r, Refused, 400, "IDEMPOTENCY_KEY_REQUIRED"));
      }
      reply := Admitted(id, r, outcome, completeStored, failStored);
    }

    method Admitted(ghost id: RequestId, r: Request, outcome: Result<MutationResult, ErrorReply>, completeStored: bool,
                    failStored: bool) returns (reply: Option<Reply>)
      requires Valid() && Mine(id) == Some(Task(r, Arrived))
      modifies this, store, store.idempotency.Values
      ensures Valid() && old(run) <= run && Mine(id).None?
      ensures reply.Some? ==> Newest() == reply
      ensures || (Ran(old(run), run, id, outcome) && reply == OwnReply(r, outcome, completeStored, failStored))
              || (KeyOf(r) in Now().entries && reply == EntryReply(Now().entries, r))
    {
      hide Valid, Mine, Newest, Now, EntryReply;
      Await(id);
      var acquired;
      acquired, reply := ReserveOrReply(id, r);
      if !acquired {
        return;
      }
      Await(id);
      var error;
      reply, error := TryMutation(id, r, outcome, completeStored);
      if reply.None? {
        Await(id);
        reply := FailKey(id, r, error, failStored);
      }
    }
  }
}
