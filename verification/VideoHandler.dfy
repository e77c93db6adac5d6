/** The worker's handler as it runs: it updates the job row, the asset rows and the
    storage one await at a time, and each method is proved against the step machine. */
module VideoHandler {
  import opened Prelude
  import opened VideoJob

  // What an await does to the code after it.
  datatype Outcome = Went | Stopped(exit: Exit, at: nat) {
    predicate IsFailure() { Stopped? }

    function PropagateFailure(): Outcome { this }
  }

  /** From step `k` the machine takes the job `before` either to `after` at step `n`, or to
      the end that the outcome reports. */
  predicate Reaches(
    before: Job, upBefore: seq<nat>, k: nat, after: Job, upAfter: seq<nat>, n: nat, sc: Script, o: Outcome)
    requires k <= STEPS && n <= STEPS
  {
    match o
    case Went => Body(HANDLE, before, upBefore, k, sc) == Body(HANDLE, after, upAfter, n, sc)
    case Stopped(exit, at) => !exit.Finished? && Body(HANDLE, before, upBefore, k, sc) == End(after, upAfter, exit, at)
  }

  lemma AtTheEnd(j: Job, up: seq<nat>, sc: Script)
    ensures Body(HANDLE, j, up, STEPS, sc) == End(j, up, Finished, STEPS)
  {
  }

  class Handler {
    const cost: int
    var status: Status
    var refunds: seq<Reason>
    var rows: seq<Row>
    var storage: set<nat>
    var nextKey: nat
    var uploadedKeys: seq<nat>

    constructor (j: Job)
      ensures Current() == j
    {
      cost, status, refunds, rows, storage, nextKey := j.cost, j.status, j.refunds, j.rows, j.storage, j.nextKey;
      uploadedKeys := [];
    }

    function Current(): Job
      reads this
    {
      Job(status, cost, refunds, rows, storage, nextKey)
    }

    method RefundIfMissing(reason: Reason)
      modifies this`refunds
      ensures Current() == Refund(old(Current()), reason)
    {
      if cost <= 0 {
        return;
      }
      if reason in refunds {
        return;
      }
      refunds := refunds + [reason];
    }

    // Another request's cancel transaction, when it commits here.
    method LetCancelIn(k: nat, sc: Script)
      modifies this`status, this`refunds
      ensures Current() == Interrupt(old(Current()), k, sc)
    {
      if sc.cancels(k) {
        status := CANCELLED;
        RefundIfMissing(REFUND_CANCELED_JOB);
      }
    }

    method DeleteRowObjects(sc: Script)
      modifies this`storage
      ensures Current() == CleanObjects(old(Current()), sc)
    {
      for i := 0 to |rows|
        invariant storage == old(storage) - (Keys(rows[..i]) - Undeleted(Keys(rows[..i]), sc))
      {
        assert rows[..i + 1] == rows[..i] + [rows[i]];
        assert Keys(rows[..i + 1]) == Keys(rows[..i]) + if rows[i].key.Some? then {rows[i].key.value} else {} by {
          KeysOfAppend(rows[..i], rows[i]);
        }
        if rows[i].key.Some? && sc.deletes(rows[i].key.value) {
          storage := storage - {rows[i].key.value};
        }
      }
      assert rows[..|rows|] == rows;
    }

    method CleanupOutputArtifacts(sc: Script)
      modifies this`storage, this`rows
      ensures Current() == Clean(old(Current()), sc)
    {
      DeleteRowObjects(sc);
      if |rows| > 0 {
        rows := [];
      }
    }

    // A cleanup that throws, after its deletes or before them.
    method StopInCleanup(k: nat, sc: Script)
      modifies this`storage
      ensures Current() == HalfClean(old(Current()), k, sc)
    {
      if sc.cleanupStarted(k) {
        DeleteRowObjects(sc);
      }
    }

    method RollbackUploads(sc: Script)
      modifies this`storage
      ensures Current() == Rollback(old(Current()), uploadedKeys, sc)
    {
      for i := 0 to |uploadedKeys|
        invariant storage == old(storage) - (ToSet(uploadedKeys[..i]) - Undeleted(ToSet(uploadedKeys[..i]), sc))
      {
        assert uploadedKeys[..i + 1] == uploadedKeys[..i] + [uploadedKeys[i]];
        if sc.deletes(uploadedKeys[i]) {
          storage := storage - {uploadedKeys[i]};
        }
      }
      assert uploadedKeys[..|uploadedKeys|] == uploadedKeys;
    }

    method Perform(step: Step, sc: Script)
      modifies this
      ensures (Current(), uploadedKeys) == Effect(old(Current()), old(uploadedKeys), step, sc)
    {
      match step {
        case Cleanup =>
          CleanupOutputArtifacts(sc);
        case Progress(_) =>
          status := PROCESSING;
        case Upload =>
          storage, uploadedKeys := storage + {nextKey}, uploadedKeys + [nextKey];
          nextKey := nextKey + 1;
        case CreateAsset(role) =>
          rows := rows + [Row(role, None)];
        case CreateVersion =>
          if |rows| > 0 && |uploadedKeys| > 0 {
            rows := rows[|rows| - 1 := rows[|rows| - 1].(key := Some(uploadedKeys[|uploadedKeys| - 1]))];
          }
        case Complete =>
          status := COMPLETED;
        case _ =>
      }
    }

    /** One await of the try block: a cancellation may commit first, then the step takes
        effect, finds the job cancelled, or throws. */
    method Await(k: nat, step: Step, sc: Script) returns (o: Outcome)
      requires k < STEPS && HANDLE[k] == step
      modifies this
      ensures Reaches(old(Current()), old(uploadedKeys), k, Current(), uploadedKeys, k + 1, sc, o)
    {
      LetCancelIn(k, sc);
      if sc.fault(k) {
        if step.Cleanup? {
          StopInCleanup(k, sc);
        }
        return Stopped(Threw, k);
      }
      if step.Check? && status.CANCELLED? {
        return Stopped(Cancelled, k);
      }
      Perform(step, sc);
      return Went;
    }

    method StartProcessing(sc: Script) returns (o: Outcome)
      modifies this
      ensures Reaches(old(Current()), old(uploadedKeys), 0, Current(), uploadedKeys, 3, sc, o)
    {
      hide Body;
      :- Await(0, Check, sc);
      :- Await(1, Cleanup, sc);
      :- Await(2, Progress(5), sc);
      return Went;
    }

    method ResolveInputAsset(sc: Script) returns (o: Outcome)
      modifies this
      ensures Reaches(old(Current()), old(uploadedKeys), 3, Current(), uploadedKeys, 5, sc, o)
    {
      hide Body;
      :- Await(3, ResolveInput, sc);
      :- Await(4, Progress(15), sc);
      return Went;
    }

    method SignInputUrl(sc: Script) returns (o: Outcome)
      modifies this
      ensures Reaches(old(Current()), old(uploadedKeys), 5, Current(), uploadedKeys, 7, sc, o)
    {
      hide Body;
      :- Await(5, SignInput, sc);
      :- Await(6, Progress(30), sc);
      return Went;
    }

    // The provider request, between two looks at the status.
    method RequestVideo(sc: Script) returns (o: Outcome)
      modifies this
      ensures Reaches(old(Current()), old(uploadedKeys), 7, Current(), uploadedKeys, 11, sc, o)
    {
      hide Body;
      :- Await(7, Check, sc);
      :- Await(8, CallProvider, sc);
      :- Await(9, Progress(60), sc);
      :- Await(10, Check, sc);
      return Went;
    }

    method FetchVideo(sc: Script) returns (o: Outcome)
      modifies this
      ensures Reaches(old(Current()), old(uploadedKeys), 11, Current(), uploadedKeys, 15, sc, o)
    {
      hide Body;
      :- Await(11, ReadVideo, sc);
      :- Await(12, Progress(80), sc);
      :- Await(13, AddAudio, sc);
      :- Await(14, Check, sc);
      return Went;
    }

    method PublishVideo(sc: Script) returns (o: Outcome)
      modifies this
      ensures Reaches(old(Current()), old(uploadedKeys), 15, Current(), uploadedKeys, 20, sc, o)
    {
      hide Body;
      :- Await(15, Upload, sc);
      :- Await(16, Progress(90), sc);
      :- Await(17, CreateAsset(OUTPUT), sc);
      :- Await(18, Progress(95), sc);
      :- Await(19, CreateVersion, sc);
      return Went;
    }

    method PublishThumbnail(sc: Script) returns (o: Outcome)
      modifies this
      ensures Reaches(old(Current()), old(uploadedKeys), 20, Current(), uploadedKeys, 25, sc, o)
    {
      hide Body;
      :- Await(20, MakeThumbnail, sc);
      :- Await(21, Upload, sc);
      :- Await(22, CreateAsset(THUMBNAIL), sc);
      :- Await(23, CreateVersion, sc);
      :- Await(24, Complete, sc);
      return Went;
    }

    method TryBlock(sc: Script) returns (o: Outcome)
      modifies this
      ensures Reaches(old(Current()), old(uploadedKeys), 0, Current(), uploadedKeys, STEPS, sc, o)
    {
      hide Body;
      :- StartProcessing(sc);
      :- ResolveInputAsset(sc);
      :- SignInputUrl(sc);
      :- RequestVideo(sc);
      :- FetchVideo(sc);
      :- PublishVideo(sc);
      :- PublishThumbnail(sc);
      return Went;
    }

    // True when the handler throws.
    method HandleError(exit: Exit, ghost at: nat, attemptsMade: nat, maxAttempts: nat, sc: Script)
      returns (throws: bool)
      requires !exit.Finished?
      modifies this
      ensures
        (Current(), throws) == Catch(End(old(Current()), old(uploadedKeys), exit, at), attemptsMade, maxAttempts, sc)
    {
      RollbackUploads(sc);
      LetCancelIn(STEPS, sc);
      if exit.Cancelled? {
        if sc.handlerFault(0) {
          StopInCleanup(STEPS, sc);
          return true;
        }
        CleanupOutputArtifacts(sc);
        return false;
      }
      var isFinalAttempt := !sc.retryable || attemptsMade + 1 >= maxAttempts;
      if !isFinalAttempt {
        if sc.handlerFault(1) { return true; }
        status := QUEUED;
        return true;
      }
      if sc.handlerFault(0) {
        StopInCleanup(STEPS, sc);
        return true;
      }
      CleanupOutputArtifacts(sc);
      LetCancelIn(STEPS + 1, sc);
      throws := GiveUp(sc);
    }

    method GiveUp(sc: Script) returns (throws: bool)
      modifies this
      ensures (Current(), throws) == FailForGood(old(Current()), sc)
    {
      if sc.handlerFault(1) { return true; }
      status := FAILED;
      LetCancelIn(STEPS + 2, sc);
      if sc.handlerFault(2) { return true; }
      RefundIfMissing(REFUND_FAILED_JOB);
      return sc.retryable;
    }

    /** The whole handler: the job it leaves and whether the queue sees a throw are those
        of one machine attempt. */
    method Handle(attemptsMade: nat, maxAttempts: nat, sc: Script) returns (throws: bool)
      modifies this
      ensures (Current(), throws) == Attempt(old(Current()), attemptsMade, maxAttempts, sc)
    {
      if status.CANCELLED? || status.COMPLETED? {
        return false;
      }
      hide Body, Catch;
      uploadedKeys := [];
      var o := TryBlock(sc);
      if o.Stopped? {
        throws := HandleError(o.exit, o.at, attemptsMade, maxAttempts, sc);
      } else {
        AtTheEnd(Current(), uploadedKeys, sc);
        throws := false;
      }
    }
  }

  lemma KeysOfAppend(rows: seq<Row>, row: Row)
    ensures Keys(rows + [row]) == Keys(rows) + if row.key.Some? then {row.key.value} else {}
  {
    var all := rows + [row];
    assert all[|rows|] == row;
    assert forall i | 0 <= i < |rows| :: all[i] == rows[i];
  }
}
