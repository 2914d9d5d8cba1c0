/** Runs of `lock` and `unlock` calls against one lock object, applied one after
    another as the platform serialises them, and what such runs can report. */
module LockTraces {
  import opened Records
  import opened DurableLocks

  datatype Call = LockCall(req: LockInfo, storageUp: bool) | UnlockCall(req: LockInfo, storageUp: bool)

  function Apply(held: Option<LockInfo>, c: Call): Step {
    match c
    case LockCall(req, up) => LockStep(held, req, up)
    case UnlockCall(req, up) => UnlockStep(held, req, up)
  }

  /** The lock state after running `calls` from `held`. */
  function Final(held: Option<LockInfo>, calls: seq<Call>): Option<LockInfo>
    decreases |calls|
  {
    if calls == [] then held
    else Apply(Final(held, calls[..|calls| - 1]), calls[|calls| - 1]).next
  }

  /** The outcome of every call of the run, in order. */
  function Outcomes(held: Option<LockInfo>, calls: seq<Call>): (os: seq<Outcome>)
    decreases |calls|
    ensures |os| == |calls|
  {
    if calls == [] then []
    else
      var prefix := calls[..|calls| - 1];
      Outcomes(held, prefix) + [Apply(Final(held, prefix), calls[|calls| - 1]).outcome]
  }

  /** Call k sees the state left by the calls before it. */
  lemma {:induction false} OutcomeAt(held: Option<LockInfo>, calls: seq<Call>, k: nat)
    requires k < |calls|
    ensures Outcomes(held, calls)[k] == Apply(Final(held, calls[..k]), calls[k]).outcome
    decreases |calls|
  {
    var prefix := calls[..|calls| - 1];
    if k < |calls| - 1 {
      OutcomeAt(held, prefix, k);
      assert prefix[..k] == calls[..k];
      assert prefix[k] == calls[k];
    } else {
      assert calls[..k] == prefix;
    }
  }

  lemma FinalStep(held: Option<LockInfo>, calls: seq<Call>, m: nat)
    requires m < |calls|
    ensures Final(held, calls[..m + 1]) == Apply(Final(held, calls[..m]), calls[m]).next
  {
    assert calls[..m + 1][..m] == calls[..m];
  }

  /** A state change is always reported as a successful lock or unlock. */
  lemma ChangeIsReported(held: Option<LockInfo>, c: Call)
    ensures Apply(held, c).next != held ==>
      Reports(Apply(held, c).outcome, Locked) || Reports(Apply(held, c).outcome, Unlocked)
  {
  }

  /** If the state goes from held at position a to unlocked at position b, some
      call in between reported a successful unlock. */
  lemma {:induction false} ReleasedBetween(held: Option<LockInfo>, calls: seq<Call>, a: nat, b: nat) returns (k: nat)
    requires a < b <= |calls|
    requires Final(held, calls[..a]).Some? && Final(held, calls[..b]).None?
    ensures a <= k < b && Reports(Outcomes(held, calls)[k], Unlocked)
    decreases b
  {
    FinalStep(held, calls, b - 1);
    var before := Final(held, calls[..b - 1]);
    if before.Some? {
      ChangeIsReported(before, calls[b - 1]);
      OutcomeAt(held, calls, b - 1);
      k := b - 1;
    } else {
      k := ReleasedBetween(held, calls, a, b - 1);
    }
  }

  /** Mutual exclusion: between any two successful locks of a run there is a
      successful unlock, whatever the starting state and whatever storage failures
      happen along the way. */
  lemma {:induction false} MutualExclusion(held: Option<LockInfo>, calls: seq<Call>, i: nat, j: nat) returns (k: nat)
    requires i < j < |calls|
    requires Reports(Outcomes(held, calls)[i], Locked) && Reports(Outcomes(held, calls)[j], Locked)
    ensures i < k < j && Reports(Outcomes(held, calls)[k], Unlocked)
  {
    OutcomeAt(held, calls, i);
    OutcomeAt(held, calls, j);
    FinalStep(held, calls, i);
    k := ReleasedBetween(held, calls, i + 1, j);
  }

  /** A lock taken with a missing or empty ID is never released: no later call
      reports `unlocked` and the holder stays in place. */
  lemma {:induction false} EmptyIdLockIsPermanent(held: Option<LockInfo>, calls: seq<Call>)
    requires held.Some? && !HasId(held.value)
    ensures Final(held, calls) == held
    ensures forall k :: 0 <= k < |calls| ==> !Reports(Outcomes(held, calls)[k], Unlocked)
    decreases |calls|
  {
    if calls != [] {
      var prefix := calls[..|calls| - 1];
      EmptyIdLockIsPermanent(held, prefix);
      assert Outcomes(held, calls) == Outcomes(held, prefix) + [Apply(held, calls[|calls| - 1]).outcome];
    }
  }

  /** `lock(a)` then `unlock(a)` from the unlocked state gives it back, and both
      calls report success with the caller's record. */
  lemma LockThenUnlock(a: LockInfo)
    requires HasId(a)
    ensures Final(None, [LockCall(a, true), UnlockCall(a, true)]) == None
    ensures Outcomes(None, [LockCall(a, true), UnlockCall(a, true)])
      == [Returned(LockResult(Locked, a, None)), Returned(LockResult(Unlocked, a, None))]
  {
    var calls := [LockCall(a, true), UnlockCall(a, true)];
    assert calls[..1] == [LockCall(a, true)];
    assert [LockCall(a, true)][..0] == [];
    assert Final(None, calls[..1]) == Some(a);
    assert Outcomes(None, calls[..1]) == [Returned(LockResult(Locked, a, None))];
  }

  /** A second lock by anyone, and an unlock by a different ID, leave the first
      holder in place and report it (the second lock) or echo the caller (the unlock). */
  lemma ContendedLock(a: LockInfo, b: LockInfo)
    requires HasId(a) && HasId(b) && a.id != b.id
    ensures Final(None, [LockCall(a, true), LockCall(b, true), UnlockCall(b, true)]) == Some(a)
    ensures Outcomes(None, [LockCall(a, true), LockCall(b, true), UnlockCall(b, true)])
      == [Returned(LockResult(Locked, a, None)), Returned(LockResult(AlreadyLocked, a, None)),
          Returned(LockResult(WrongId, b, None))]
  {
    var calls := [LockCall(a, true), LockCall(b, true), UnlockCall(b, true)];
    var two := calls[..2];
    assert two == [LockCall(a, true), LockCall(b, true)];
    assert two[..1] == [LockCall(a, true)];
    assert [LockCall(a, true)][..0] == [];
    assert Final(None, two[..1]) == Some(a);
    assert Outcomes(None, two[..1]) == [Returned(LockResult(Locked, a, None))];
    assert Final(None, two) == Some(a);
    assert Outcomes(None, two) == [Returned(LockResult(Locked, a, None)), Returned(LockResult(AlreadyLocked, a, None))];
  }
}
