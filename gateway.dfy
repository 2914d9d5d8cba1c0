/** The state gateway: the five `/states/...` handlers over a bucket of state
    blobs and a namespace of lock objects, one per resource key. */
module StateGateway {
  import opened Records
  import opened DurableLocks

  const StatusOk: int := 200
  const StatusNoContent: int := 204
  const StatusBadRequest: int := 400
  const StatusLocked: int := 423
  const StatusServerError: int := 500

  /** A response body: none, a state blob served as `application/json`, a lock
      record as JSON, or the framework's error page for an uncaught exception. */
  datatype Body = NoBody | StateJson(bytes: seq<byte>) | LockJson(record: LockInfo) | ServerError

  datatype Response = Response(status: int, body: Body)

  /** The resource key `USERNAME/projectName.tfstate`, shared by the blob and its lock. */
  function StateKey(username: string, project: string): (key: string)
    ensures |key| == |username| + |project| + 9
    ensures key[..|username| + 1] == username + "/"
    ensures key[|key| - 8..] == ".tfstate"
    ensures key[|username| + 1..|key| - 8] == project
  {
    username + "/" + project + ".tfstate"
  }

  /** For a fixed user, distinct projects never share a key. */
  lemma StateKeyInjective(username: string, p: string, q: string)
    ensures StateKey(username, p) == StateKey(username, q) <==> p == q
  {
  }

  /** The write check `!(lockInfo && lockInfo.ID !== lockID)`. A missing holder ID
      is `undefined` and a missing query ID is `null`; strict equality never
      equates the two, so an absent query ID matches no held lock. */
  function MayWrite(held: Option<LockInfo>, queryId: Option<string>): (ok: bool)
    ensures ok <==> held.None? || (queryId.Some? && held.value.id == queryId)
    ensures queryId.None? ==> (ok <==> held.None?)
  {
    !(held.Some? && !(held.value.id.Some? && queryId.Some? && held.value.id.value == queryId.value))
  }

  function ReadResponse(bucket: map<string, seq<byte>>, key: string, bucketUp: bool): (resp: Response)
    ensures resp.status == StatusOk <==> bucketUp && key in bucket
    ensures resp.status == StatusOk ==> resp.body == StateJson(bucket[key])
    ensures bucketUp && key !in bucket ==> resp == Response(StatusNoContent, NoBody)
    ensures !bucketUp ==> resp == Response(StatusServerError, ServerError)
  {
    if !bucketUp then Response(StatusServerError, ServerError)
    else if key !in bucket then Response(StatusNoContent, NoBody)
    else Response(StatusOk, StateJson(bucket[key]))
  }

  datatype Write = Write(resp: Response, bucket: map<string, seq<byte>>)

  function WriteState(bucket: map<string, seq<byte>>, held: Option<LockInfo>, key: string,
                      queryId: Option<string>, body: seq<byte>, bucketUp: bool): (w: Write)
    ensures w.resp.status == StatusNoContent <==> MayWrite(held, queryId) && bucketUp
    ensures w.resp.status == StatusNoContent ==> w.bucket == bucket[key := body] && w.resp.body == NoBody
    ensures w.resp.status != StatusNoContent ==> w.bucket == bucket
    ensures !MayWrite(held, queryId) ==> w.resp == Response(StatusLocked, LockJson(held.value))
    ensures MayWrite(held, queryId) && !bucketUp ==> w.resp == Response(StatusServerError, ServerError)
  {
    if !MayWrite(held, queryId) then Write(Response(StatusLocked, LockJson(held.value)), bucket)
    else if !bucketUp then Write(Response(StatusServerError, ServerError), bucket)
    else Write(Response(StatusNoContent, NoBody), bucket[key := body])
  }

  /** A write that is let through is read back byte for byte. */
  lemma WriteThenRead(bucket: map<string, seq<byte>>, held: Option<LockInfo>, key: string,
                      queryId: Option<string>, body: seq<byte>)
    requires MayWrite(held, queryId)
    ensures WriteState(bucket, held, key, queryId, body, true).resp == Response(StatusNoContent, NoBody)
    ensures ReadResponse(WriteState(bucket, held, key, queryId, body, true).bucket, key, true)
      == Response(StatusOk, StateJson(body))
  {
  }

  function LockResponse(o: Outcome): (resp: Response)
    ensures resp.status == StatusLocked <==> Reports(o, AlreadyLocked)
    ensures resp.status == StatusOk <==> o.Returned? && o.result.status != AlreadyLocked
    ensures o.Returned? ==> resp.body == LockJson(o.result.lockInfo)
    ensures o.StorageFailed? ==> resp == Response(StatusServerError, ServerError)
  {
    match o
    case StorageFailed => Response(StatusServerError, ServerError)
    case Returned(r) =>
      if r.status == AlreadyLocked then Response(StatusLocked, LockJson(r.lockInfo))
      else Response(StatusOk, LockJson(r.lockInfo))
  }

  function UnlockResponse(o: Outcome): (resp: Response)
    ensures resp.status == StatusBadRequest <==> Reports(o, Error)
    ensures resp.status == StatusLocked <==> Reports(o, WrongId)
    ensures resp.status == StatusOk <==> o.Returned? && o.result.status !in {Error, WrongId}
    ensures resp.status == StatusOk ==> resp.body == NoBody
    ensures Reports(o, Error) || Reports(o, WrongId) ==> resp.body == LockJson(o.result.lockInfo)
    ensures o.StorageFailed? ==> resp == Response(StatusServerError, ServerError)
  {
    match o
    case StorageFailed => Response(StatusServerError, ServerError)
    case Returned(r) =>
      if r.status == Error then Response(StatusBadRequest, LockJson(r.lockInfo))
      else if r.status == WrongId then Response(StatusLocked, LockJson(r.lockInfo))
      else Response(StatusOk, NoBody)
  }

  function InspectResponse(held: Option<LockInfo>): (resp: Response)
    ensures resp.status == StatusNoContent <==> held.None?
    ensures held.None? ==> resp.body == NoBody
    ensures held.Some? ==> resp == Response(StatusOk, LockJson(held.value))
  {
    if held.None? then Response(StatusNoContent, NoBody) else Response(StatusOk, LockJson(held.value))
  }

  /** The worker: its user name, the state bucket and the lock namespace. A key
      with no lock object yet stands for one with empty storage, that is, unlocked. */
  class Gateway {
    const username: string
    var bucket: map<string, seq<byte>>
    var locks: map<string, DurableLock>

    ghost function Objects(): set<DurableLock>
      reads this
    {
      set k | k in locks :: locks[k]
    }

    /** Every lock object keeps its cache equal to its storage, and each key has
        its own object. */
    ghost predicate Valid()
      reads this, Objects()
    {
      (forall k :: k in locks ==> locks[k].Valid()) &&
      (forall k, k' :: k in locks && k' in locks && k != k' ==> locks[k] != locks[k'])
    }

    /** The lock state of a resource key. */
    ghost function Held(key: string): Option<LockInfo>
      reads this, Objects()
    {
      if key in locks then locks[key].lockInfo else None
    }

    /** A worker over an existing bucket and the lock objects already started. */
    constructor (username: string, bucket: map<string, seq<byte>>, locks: map<string, DurableLock>)
      requires forall k :: k in locks ==> locks[k].Valid()
      requires forall k, k' :: k in locks && k' in locks && k != k' ==> locks[k] != locks[k']
      ensures Valid()
      ensures this.username == username && this.bucket == bucket && this.locks == locks
    {
      this.username := username;
      this.bucket := bucket;
      this.locks := locks;
    }

    /** The lock object addressed by a key, created with empty storage on first use. */
    method Locker(key: string) returns (l: DurableLock)
      requires Valid()
      modifies this`locks
      ensures Valid()
      ensures key in locks && l == locks[key]
      ensures l.lockInfo == old(Held(key))
      ensures forall k :: k != key ==> Held(k) == old(Held(k))
      ensures fresh(Objects() - old(Objects()))
      ensures forall k :: k in old(locks) ==> k in locks && locks[k] == old(locks[k])
    {
      if key in locks {
        l := locks[key];
      } else {
        l := new DurableLock(map[]);
        locks := locks[key := l];
      }
    }

    /** GET /states/:projectName. Reads never consult the lock. */
    method GetState(project: string, bucketUp: bool) returns (resp: Response)
      ensures resp == ReadResponse(bucket, StateKey(username, project), bucketUp)
    {
      var key := StateKey(username, project);
      if !bucketUp {
        // the bucket read rejects: the framework answers with its error page
        return Response(StatusServerError, ServerError);
      }
      if key !in bucket {
        return Response(StatusNoContent, NoBody);
      }
      resp := Response(StatusOk, StateJson(bucket[key]));
    }

    /** POST /states/:projectName?ID=... */
    method PostState(project: string, queryId: Option<string>, body: seq<byte>, bucketUp: bool)
      returns (resp: Response)
      requires Valid()
      modifies this`bucket
      ensures var key := StateKey(username, project);
              var w := WriteState(old(bucket), Held(key), key, queryId, body, bucketUp);
              resp == w.resp && bucket == w.bucket
    {
      var key := StateKey(username, project);
      var held: Option<LockInfo> := None;
      if key in locks {
        held := locks[key].Info();
      }
      if held.Some? && !(held.value.id.Some? && queryId.Some? && held.value.id.value == queryId.value) {
        return Response(StatusLocked, LockJson(held.value));
      }
      if !bucketUp {
        return Response(StatusServerError, ServerError);
      }
      bucket := bucket[key := body];
      resp := Response(StatusNoContent, NoBody);
    }

    /** LOCK or PUT /states/:projectName/lock */
    method PutLock(project: string, req: LockInfo, storageUp: bool) returns (resp: Response)
      requires Valid()
      modifies this`locks, Objects()
      ensures Valid() && fresh(Objects() - old(Objects()))
      ensures var key := StateKey(username, project);
              var s := LockStep(old(Held(key)), req, storageUp);
              resp == LockResponse(s.outcome) && Held(key) == s.next
      ensures forall k :: k != StateKey(username, project) ==> Held(k) == old(Held(k))
      ensures forall k :: k in old(locks) ==> k in locks && locks[k] == old(locks[k])
      ensures forall k :: k in old(locks) && k != StateKey(username, project) ==>
                locks[k].storage == old(locks[k].storage)
      ensures resp.status == StatusOk <==>
              old(Held(StateKey(username, project))).None? && Held(StateKey(username, project)) == Some(req)
    {
      var key := StateKey(username, project);
      var locker := Locker(key);
      var o := locker.Lock(req, storageUp);
      resp := LockResponse(o);
    }

    /** UNLOCK or DELETE /states/:projectName/lock */
    method DeleteLock(project: string, req: LockInfo, storageUp: bool) returns (resp: Response)
      requires Valid()
      modifies this`locks, Objects()
      ensures Valid() && fresh(Objects() - old(Objects()))
      ensures var key := StateKey(username, project);
              var s := UnlockStep(old(Held(key)), req, storageUp);
              resp == UnlockResponse(s.outcome) && Held(key) == s.next
      ensures forall k :: k != StateKey(username, project) ==> Held(k) == old(Held(k))
      ensures forall k :: k in old(locks) ==> k in locks && locks[k] == old(locks[k])
      ensures forall k :: k in old(locks) && k != StateKey(username, project) ==>
                locks[k].storage == old(locks[k].storage)
      ensures resp.status == StatusOk <==>
              old(Held(StateKey(username, project))).Some? && Held(StateKey(username, project)).None?
    {
      var key := StateKey(username, project);
      var locker := Locker(key);
      var o := locker.Unlock(req, storageUp);
      resp := UnlockResponse(o);
    }

    /** GET /states/:projectName/lock */
    method GetLock(project: string) returns (resp: Response)
      requires Valid()
      ensures resp == InspectResponse(Held(StateKey(username, project)))
    {
      var key := StateKey(username, project);
      var held: Option<LockInfo> := None;
      if key in locks {
        held := locks[key].Info();
      }
      if held.None? {
        return Response(StatusNoContent, NoBody);
      }
      resp := Response(StatusOk, LockJson(held.value));
    }
  }

  /** Two clients contend for one project: the second lock and an unlock by the
      second client are refused, the holder's unlock releases, and the lock then
      reads as free. */
  method LockScenario(username: string, project: string, bucket: map<string, seq<byte>>, a: LockInfo, b: LockInfo)
    returns (rs: seq<Response>)
    requires HasId(a) && HasId(b) && a.id != b.id
    ensures rs == [Response(StatusOk, LockJson(a)), Response(StatusLocked, LockJson(a)),
                   Response(StatusLocked, LockJson(b)), Response(StatusOk, NoBody),
                   Response(StatusNoContent, NoBody)]
  {
    var g := new Gateway(username, bucket, map[]);
    var r1 := g.PutLock(project, a, true);
    var r2 := g.PutLock(project, b, true);
    var r3 := g.DeleteLock(project, b, true);
    var r4 := g.DeleteLock(project, a, true);
    var r5 := g.GetLock(project);
    rs := [r1, r2, r3, r4, r5];
  }

  /** A write under someone else's lock (or with no ID) is refused and leaves the
      blob alone; the holder's write goes through and is read back. */
  method WriteScenario(username: string, project: string, bucket: map<string, seq<byte>>,
                       a: LockInfo, other: Option<string>, state: seq<byte>)
    returns (rs: seq<Response>)
    requires HasId(a) && other != a.id
    ensures rs == [Response(StatusOk, LockJson(a)), Response(StatusLocked, LockJson(a)),
                   Response(StatusNoContent, NoBody), Response(StatusOk, StateJson(state))]
  {
    var g := new Gateway(username, bucket, map[]);
    var r1 := g.PutLock(project, a, true);
    var r2 := g.PostState(project, other, state, true);
    var r3 := g.PostState(project, a.id, state, true);
    var r4 := g.GetState(project, true);
    rs := [r1, r2, r3, r4];
  }
}
