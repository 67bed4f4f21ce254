/** Idempotency reservations in the control-plane store. */
module Idempotency {
  import opened Wrappers

  type Hash = nat

  /** A body that `JSON.stringify` turns into text, or one that it does not (`undefined`). */
  datatype Body = Json(text: string) | Absent

  datatype EntryState = Processing | Completed | Failed
  datatype Entry = Entry(requestHash: Hash, state: EntryState, statusCode: Option<nat>, body: Body)
  datatype Reservation = Acquired | Conflict | InProgress | Replay(statusCode: Option<nat>, body: Body)

  type Entries = map<string, Entry>

  function MapKey(scope: string, key: string): string {
    scope + ":" + key
  }

  function Answer(entries: Entries, mapKey: string, requestHash: Hash): Reservation {
    if mapKey !in entries then Acquired
    else if entries[mapKey].requestHash != requestHash then Conflict
    else if entries[mapKey].state == Processing then InProgress
    else Replay(entries[mapKey].statusCode, entries[mapKey].body)
  }

  function Reserve(entries: Entries, mapKey: string, requestHash: Hash): Entries {
    if mapKey in entries then entries else entries[mapKey := Entry(requestHash, Processing, None, Absent)]
  }

  /** Completing and failing alike write the outcome over the reservation. */
  function Record(entries: Entries, mapKey: string, state: EntryState, statusCode: nat, body: Body): Result<Entries, string> {
    if mapKey !in entries then Err("idempotency reservation missing")
    else Ok(entries[mapKey := entries[mapKey].(state := state, statusCode := Some(statusCode), body := body)])
  }

  // ---------- When two pairs share an entry ----------

  /** Two (scope, key) pairs share an entry exactly when one key is a colon-separated tail of the other
      and the scopes make up the difference. */
  lemma SharedEntryExactlyWhen(s1: string, k1: string, s2: string, k2: string)
    ensures MapKey(s1, k1) == MapKey(s2, k2) <==>
      ((s1 == s2 && k1 == k2) || Tail(s1, k1, s2, k2) || Tail(s2, k2, s1, k1))
  {
    if MapKey(s1, k1) == MapKey(s2, k2) {
      if |s1| == |s2| {
        SameLengthSamePair(s1, k1, s2, k2);
      } else if |s1| < |s2| {
        LongerScopeIsTail(s1, k1, s2, k2);
      } else {
        LongerScopeIsTail(s2, k2, s1, k1);
      }
    }
    if Tail(s1, k1, s2, k2) {
      TailShares(s1, k1, s2, k2);
    }
    if Tail(s2, k2, s1, k1) {
      TailShares(s2, k2, s1, k1);
    }
  }

  ghost predicate Tail(s1: string, k1: string, s2: string, k2: string) {
    exists t :: k1 == t + ":" + k2 && s2 == s1 + ":" + t
  }

  lemma TailShares(s1: string, k1: string, s2: string, k2: string)
    requires Tail(s1, k1, s2, k2)
    ensures MapKey(s1, k1) == MapKey(s2, k2) && ':' in k1
  {
    var t :| k1 == t + ":" + k2 && s2 == s1 + ":" + t;
    assert s1 + ":" + (t + ":" + k2) == (s1 + ":" + t) + ":" + k2;
    assert k1[|t|] == ':';
  }

  lemma SameLengthSamePair(s1: string, k1: string, s2: string, k2: string)
    requires MapKey(s1, k1) == MapKey(s2, k2) && |s1| == |s2|
    ensures s1 == s2 && k1 == k2
  {
    var m := MapKey(s1, k1);
    assert s1 == m[..|s1|] && s2 == m[..|s2|];
    assert k1 == m[|s1| + 1..] && k2 == m[|s2| + 1..];
  }

  lemma LongerScopeIsTail(s1: string, k1: string, s2: string, k2: string)
    requires MapKey(s1, k1) == MapKey(s2, k2) && |s1| < |s2|
    ensures Tail(s1, k1, s2, k2)
  {
    var m := MapKey(s1, k1);
    var t := m[|s1| + 1..|s2|];
    assert s2 == m[..|s2|] && m[|s1|] == ':';
    assert s1 == m[..|s1|];
    assert s2 == s1 + ":" + t;
    assert k1 == m[|s1| + 1..] && k2 == m[|s2| + 1..] && m[|s2|] == ':';
    assert k1 == t + ":" + k2;
  }

  /** With keys free of colons the pairs never mix. */
  lemma PlainKeysNeverMix(s1: string, k1: string, s2: string, k2: string)
    requires ':' !in k1 && ':' !in k2 && MapKey(s1, k1) == MapKey(s2, k2)
    ensures s1 == s2 && k1 == k2
  {
    SharedEntryExactlyWhen(s1, k1, s2, k2);
    if Tail(s1, k1, s2, k2) {
      TailShares(s1, k1, s2, k2);
    } else if Tail(s2, k2, s1, k1) {
      TailShares(s2, k2, s1, k1);
    }
  }

  /** The scope of the route that processes a vault job; the id is taken from the path as it is. */
  function ProcessScope(sponsor: string, jobId: string): string {
    "vault-process:" + sponsor + ":" + jobId
  }

  /** Two different requests of one sponsor to that route that share an entry. */
  lemma ProcessRequestsShareAnEntry(sponsor: string)
    ensures ProcessScope(sponsor, "a") != ProcessScope(sponsor, "a:b")
    ensures MapKey(ProcessScope(sponsor, "a"), "b:12345678") == MapKey(ProcessScope(sponsor, "a:b"), "12345678")
  {
    var s1, k2 := ProcessScope(sponsor, "a"), "12345678";
    assert ProcessScope(sponsor, "a:b") == s1 + ":" + "b" by {
      assert "a:b" == "a" + (":" + "b");
      assert ProcessScope(sponsor, "a:b") == "vault-process:" + sponsor + ":" + "a" + (":" + "b");
    }
    assert "b:12345678" == "b" + ":" + k2;
    assert |ProcessScope(sponsor, "a")| + 2 == |ProcessScope(sponsor, "a:b")|;
    assert Tail(s1, "b:12345678", ProcessScope(sponsor, "a:b"), k2);
    TailShares(s1, "b:12345678", ProcessScope(sponsor, "a:b"), k2);
  }

  // ---------- The store ----------

  class IdempotencyEntry {
    const requestHash: Hash
    var state: EntryState
    var statusCode: Option<nat>
    var body: Body

    constructor (requestHash: Hash)
      ensures Contents() == Entry(requestHash, Processing, None, Absent)
    {
      this.requestHash, state, statusCode, body := requestHash, Processing, None, Absent;
    }

    function Contents(): Entry
      reads this
    {
      Entry(requestHash, state, statusCode, body)
    }
  }

  class IdempotencyStore {
    var idempotency: map<string, IdempotencyEntry>

    ghost predicate Valid()
      reads this
    {
      forall k, l | k in idempotency && l in idempotency && k != l :: idempotency[k] != idempotency[l]
    }

    ghost function Contents(): Entries
      reads this, idempotency.Values
    {
      map k | k in idempotency :: idempotency[k].Contents()
    }

    constructor ()
      ensures Valid() && idempotency == map[] && Contents() == map[]
    {
      idempotency := map[];
    }

    method ReserveIdempotency(scope: string, key: string, requestHash: Hash) returns (r: Reservation)
      requires Valid()
      modifies this
      ensures Valid() && fresh(idempotency.Values - old(idempotency.Values))
      ensures r == Answer(old(Contents()), MapKey(scope, key), requestHash)
      ensures Contents() == Reserve(old(Contents()), MapKey(scope, key), requestHash)
    {
      var mapKey := scope + ":" + key;
      if mapKey !in idempotency {
        var entry := new IdempotencyEntry(requestHash);
        idempotency := idempotency[mapKey := entry];
        return Acquired;
      }
      var found := idempotency[mapKey];
      if found.requestHash != requestHash {
        return Conflict;
      }
      if found.state == Processing {
        return InProgress;
      }
      r := Replay(found.statusCode, found.body);
    }

    /** `completeIdempotency` and `failIdempotency`: the entry is written over in place. */
    method RecordOutcome(scope: string, key: string, state: EntryState, statusCode: nat, body: Body) returns (ok: bool)
      requires Valid()
      modifies idempotency.Values
      ensures Valid() && ok == Record(old(Contents()), MapKey(scope, key), state, statusCode, body).Ok?
      ensures Contents() == if ok then Record(old(Contents()), MapKey(scope, key), state, statusCode, body).value
                            else old(Contents())
    {
      var mapKey := scope + ":" + key;
      if mapKey !in idempotency {
        return false;
      }
      var found := idempotency[mapKey];
      found.state, found.statusCode, found.body := state, Some(statusCode), body;
      ok := true;
    }
  }
}
