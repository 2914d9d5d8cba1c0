/** The per-key lock object: a two-state machine whose one field mirrors the
    persisted "_lock" entry of its durable storage. */
module DurableLocks {
  import opened Records

  /** The storage key under which the held lock record is persisted. */
  const LockKey: string := "_lock"

  /** The message of the `error` result of an unlock without an ID. */
  const IdRequired: string := "ID is required"

  datatype Status = Locked | Unlocked | AlreadyLocked | WrongId | Error

  datatype LockResult = LockResult(status: Status, lockInfo: LockInfo, error: Option<string>)

  /** What a call produces: a result, or the exception of a rejected storage call,
      which propagates to the caller. */
  datatype Outcome = Returned(result: LockResult) | StorageFailed

  /** An outcome together with the lock state after the call. */
  datatype Step = Step(outcome: Outcome, next: Option<LockInfo>)

  predicate Reports(o: Outcome, s: Status) {
    o.Returned? && o.result.status == s
  }

  /** The lock state that storage holds: the "_lock" entry, if any. */
  function Persisted(storage: map<string, LockInfo>): Option<LockInfo> {
    if LockKey in storage then Some(storage[LockKey]) else None
  }

  /** `this.lockInfo?.ID`: absent when no lock is held or the holder has no ID. */
  function HolderId(held: Option<LockInfo>): Option<string> {
    if held.Some? then held.value.id else None
  }

  /** `lock` as a transition of the lock state. `storageUp` says whether the
      storage write succeeds when it is attempted. */
  function LockStep(held: Option<LockInfo>, req: LockInfo, storageUp: bool): (s: Step)
    // a held lock is reported back and never replaced
    ensures held.Some? ==> s.next == held && s.outcome == Returned(LockResult(AlreadyLocked, held.value, None))
    // acquisition happens exactly from the unlocked state, when the write goes through
    ensures Reports(s.outcome, Locked) <==> held.None? && storageUp
    // a rejected write surfaces as the storage exception, never as a result
    ensures held.None? && !storageUp ==> s == Step(StorageFailed, held)
    ensures Reports(s.outcome, Locked) ==> s.next == Some(req) && s.outcome.result.lockInfo == req
    ensures !Reports(s.outcome, Locked) ==> s.next == held
    ensures s.outcome.Returned? ==> s.outcome.result.status in {Locked, AlreadyLocked}
  {
    if held.Some? then Step(Returned(LockResult(AlreadyLocked, held.value, None)), held)
    else if !storageUp then Step(StorageFailed, held)
    else Step(Returned(LockResult(Locked, req, None)), Some(req))
  }

  /** `unlock` as a transition of the lock state. */
  function UnlockStep(held: Option<LockInfo>, req: LockInfo, storageUp: bool): (s: Step)
    // a request without an ID is refused in every state
    ensures !HasId(req) ==> s == Step(Returned(LockResult(Error, req, Some(IdRequired))), held)
    // release happens exactly for the holder's own non-empty ID, when the delete goes through
    ensures Reports(s.outcome, Unlocked) <==> HasId(req) && held.Some? && held.value.id == req.id && storageUp
    ensures Reports(s.outcome, WrongId) <==> HasId(req) && (held.None? || held.value.id != req.id)
    // a rejected delete surfaces as the storage exception, never as a result
    ensures HasId(req) && held.Some? && held.value.id == req.id && !storageUp ==> s == Step(StorageFailed, held)
    ensures Reports(s.outcome, Unlocked) ==> s.next == None
    ensures !Reports(s.outcome, Unlocked) ==> s.next == held
    // every result echoes the caller's record, never the holder's
    ensures s.outcome.Returned? ==> s.outcome.result.lockInfo == req
    ensures s.outcome.Returned? ==> s.outcome.result.status in {Unlocked, WrongId, Error}
  {
    if !HasId(req) then Step(Returned(LockResult(Error, req, Some(IdRequired))), held)
    else if HolderId(held) != req.id then Step(Returned(LockResult(WrongId, req, None)), held)
    else if !storageUp then Step(StorageFailed, held)
    else Step(Returned(LockResult(Unlocked, req, None)), None)
  }

  /** The lock object of one resource key. `storage` is its durable storage;
      `lockInfo` is the in-memory copy of the "_lock" entry. */
  class DurableLock {
    var lockInfo: Option<LockInfo>
    var storage: map<string, LockInfo>

    /** The cache equals the persisted entry. */
    ghost predicate Valid()
      reads this
    {
      lockInfo == Persisted(storage)
    }

    /** Hydration: the field is read from storage once, when the object starts. */
    constructor (stored: map<string, LockInfo>)
      ensures Valid()
      ensures storage == stored
      ensures lockInfo == (if LockKey in stored then Some(stored[LockKey]) else None)
    {
      storage := stored;
      lockInfo := Persisted(stored);
    }

    /** Returns the cached record, which is the persisted one. */
    method Info() returns (r: Option<LockInfo>)
      requires Valid()
      ensures r == lockInfo
      ensures r.Some? <==> LockKey in storage
      ensures r.Some? ==> r.value == storage[LockKey]
    {
      r := lockInfo;
    }

    method Lock(req: LockInfo, storageUp: bool) returns (o: Outcome)
      requires Valid()
      modifies this
      ensures Valid()
      ensures Step(o, lockInfo) == LockStep(old(lockInfo), req, storageUp)
      ensures storage == if Reports(o, Locked) then old(storage)[LockKey := req] else old(storage)
    {
      if lockInfo.Some? {
        return Returned(LockResult(AlreadyLocked, lockInfo.value, None));
      }
      if !storageUp {
        // the write rejects: the exception leaves before the field is assigned
        return StorageFailed;
      }
      storage := storage[LockKey := req];
      lockInfo := Some(req);
      o := Returned(LockResult(Locked, req, None));
    }

    method Unlock(req: LockInfo, storageUp: bool) returns (o: Outcome)
      requires Valid()
      modifies this
      ensures Valid()
      ensures Step(o, lockInfo) == UnlockStep(old(lockInfo), req, storageUp)
      ensures storage == if Reports(o, Unlocked) then old(storage) - {LockKey} else old(storage)
    {
      if !HasId(req) {
        return Returned(LockResult(Error, req, Some(IdRequired)));
      }
      if HolderId(lockInfo) != req.id {
        return Returned(LockResult(WrongId, req, None));
      }
      if !storageUp {
        // the delete rejects: the exception leaves before the field is cleared
        return StorageFailed;
      }
      storage := storage - {LockKey};
      lockInfo := None;
      o := Returned(LockResult(Unlocked, req, None));
    }
  }
}
