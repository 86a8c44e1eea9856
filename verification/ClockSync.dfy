/** The objects that carry out the clock exchange: the offset clock, the two syncers and the two transactions
    (src/LoLaClock/ILoLaClockSource.h, src/Services/Link/LoLaLinkClockSyncer.h, ClockSyncTransaction.h). */
module ClockSync {
  import opened Common
  import opened Clock
  import LinkNodes

  /** What a clock of the given offset shows when the board's counter reads micros. */
  function Reading(micros: nat, offsetMicros: nat): nat {
    Wrap(micros + offsetMicros)
  }

  lemma ReadingMoves(micros: nat, offsetMicros: nat, offset: int)
    ensures Reading(micros, Wrap(offsetMicros + offset)) == Wrap(Reading(micros, offsetMicros) + offset)
  {
  }

  class ClockSource {
    var offsetMicros: nat

    constructor ()
      ensures offsetMicros == 0
    {
      offsetMicros := 0;
    }

    method SetRandom(random: nat)
      requires random < UINT32
      modifies this
      ensures offsetMicros == random
    {
      offsetMicros := random;
    }

    /** Whatever the board's counter reads, the synchronized reading moves by the offset, modulo 2^32. */
    method AddOffsetMicros(offset: int)
      modifies this
      ensures offsetMicros == Wrap(old(offsetMicros) + offset)
      ensures forall micros: nat :: Reading(micros, offsetMicros) == Wrap(Reading(micros, old(offsetMicros)) + offset)
    {
      offsetMicros := Wrap(offsetMicros + offset);
      forall micros: nat
        ensures Reading(micros, offsetMicros) == Wrap(Reading(micros, old(offsetMicros)) + offset)
      {
        ReadingMoves(micros, old(offsetMicros), offset);
      }
    }

    method GetSyncMicros(sourceMicros: nat) returns (sync: nat)
      ensures sync == Reading(sourceMicros, offsetMicros)
    {
      sync := (sourceMicros + offsetMicros) % UINT32;
    }
  }

  method Abs(x: int) returns (a: nat)
    ensures a < 100 <==> -100 < x < 100
    ensures a == x || a == -x
  {
    a := if x > 0 then x else -x;
  }

  class HostClockSyncer {
    const syncedClock: ClockSource
    var syncGoodCount: nat
    ghost var errors: seq<int>   // what was estimated since the last reset

    ghost predicate Valid()
      reads this
    {
      syncGoodCount == Count(errors)
    }

    constructor (clock: ClockSource)
      ensures Valid() && errors == [] && syncedClock == clock
    {
      syncedClock := clock;
      syncGoodCount := 0;
      errors := [];
    }

    /** The host starts every session from a random clock. */
    method Reset(random: nat)
      requires random < UINT32
      modifies this, syncedClock
      ensures Valid() && errors == [] && syncedClock.offsetMicros == random
    {
      syncGoodCount := 0;
      errors := [];
      syncedClock.SetRandom(random);
    }

    /** Synced just when three errors in a row were below 100 us. */
    method IsSynced() returns (synced: bool)
      requires Valid()
      ensures synced <==> exists i: nat :: ThreeGoodAt(errors, i)
    {
      SyncedIffThreeGood(errors);
      synced := syncGoodCount > MIN_CLOCK_SAMPLES;
    }

    method OnEstimationReceived(estimationErrorMicros: int) returns (good: bool)
      requires Valid()
      modifies this
      ensures Valid() && errors == old(errors) + [estimationErrorMicros]
      ensures good <==> -100 < estimationErrorMicros < 100
    {
      assert (errors + [estimationErrorMicros])[..|errors|] == errors;
      errors := errors + [estimationErrorMicros];
      var magnitude := Abs(estimationErrorMicros);
      if magnitude < MAX_TUNE_ERROR {
        if syncGoodCount < UINT8_MAX {
          syncGoodCount := syncGoodCount + 1;
        }
        return true;
      } else if !(syncGoodCount > MIN_CLOCK_SAMPLES) {
        syncGoodCount := 0;
      }
      return false;
    }
  }

  class RemoteClockSyncer {
    const syncedClock: ClockSource
    var syncGoodCount: nat
    var lastSynced: nat
    var hostSynced: bool

    constructor (clock: ClockSource)
      ensures syncGoodCount == 0 && !hostSynced && lastSynced == INVALID && syncedClock == clock
    {
      syncedClock := clock;
      syncGoodCount, lastSynced, hostSynced := 0, INVALID, false;
    }

    method Reset()
      modifies this
      ensures syncGoodCount == 0 && !hostSynced && lastSynced == INVALID
    {
      syncGoodCount, lastSynced, hostSynced := 0, INVALID, false;
    }

    method IsSynced() returns (synced: bool)
      ensures synced <==> syncGoodCount > 0 && hostSynced
    {
      synced := syncGoodCount > 0 && hostSynced;
    }

    method IsTimeToTune(millis: nat) returns (due: bool)
      ensures due <==> lastSynced == 0xFFFF_FFFF || (millis - lastSynced) % UINT32 > 10000
    {
      due := lastSynced == INVALID || (millis as int - lastSynced) % UINT32 > CLOCK_TUNE_PERIOD;
    }

    method SetReadyForEstimation(millis: nat)
      modifies this
      ensures lastSynced == if syncGoodCount > 0 && hostSynced then Wrap(millis - 10000) else old(lastSynced)
      ensures syncGoodCount == old(syncGoodCount) && hostSynced == old(hostSynced)
    {
      var synced := IsSynced();
      if synced {
        lastSynced := Wrap(millis - CLOCK_TUNE_PERIOD);
      }
    }

    method StampSynced(millis: nat)
      modifies this`lastSynced
      ensures lastSynced == millis
    {
      lastSynced := millis;
    }

    method SetSynced(millis: nat)
      modifies this
      ensures hostSynced && lastSynced == millis && syncGoodCount == old(syncGoodCount)
    {
      hostSynced := true;
      lastSynced := millis;
    }

    /** Every error moves the clock, good or not. */
    method OnEstimationErrorReceived(estimationErrorMicros: int)
      modifies this, syncedClock
      ensures syncedClock.offsetMicros == Wrap(old(syncedClock.offsetMicros) + estimationErrorMicros)
      ensures syncGoodCount == if -100 < estimationErrorMicros < 100 && old(syncGoodCount) < 255 then old(syncGoodCount) + 1 else old(syncGoodCount)
      ensures hostSynced == old(hostSynced) && lastSynced == old(lastSynced)
    {
      var magnitude := Abs(estimationErrorMicros);
      if magnitude < MAX_TUNE_ERROR {
        StampSyncGood();
      }
      syncedClock.AddOffsetMicros(estimationErrorMicros);
    }

    method StampSyncGood()
      modifies this`syncGoodCount
      ensures syncGoodCount == if old(syncGoodCount) < 255 then old(syncGoodCount) + 1 else old(syncGoodCount)
    {
      if syncGoodCount < UINT8_MAX {
        syncGoodCount := syncGoodCount + 1;
      }
    }

    method OnTuneErrorReceived(estimationErrorMicros: int, millis: nat) returns (good: bool)
      modifies this, syncedClock
      ensures syncedClock.offsetMicros == Wrap(old(syncedClock.offsetMicros) + estimationErrorMicros)
      ensures good <==> -100 < estimationErrorMicros < 100
      ensures syncGoodCount == if good && old(syncGoodCount) < 255 then old(syncGoodCount) + 1 else old(syncGoodCount)
      ensures lastSynced == (if good then millis else old(lastSynced)) && hostSynced == old(hostSynced)
    {
      syncedClock.AddOffsetMicros(estimationErrorMicros);
      var magnitude := Abs(estimationErrorMicros);
      if magnitude < MAX_TUNE_ERROR {
        StampSyncGood();
        lastSynced := millis;
        return true;
      }
      return false;
    }
  }

  // ---------------------------------------------------------------------------------------------
  // Transactions

  type RequestStage = LinkNodes.RequestStage

  /** The remote's side: one result is taken, for the request that is out. */
  class ClockSyncRequestTransaction {
    var stage: RequestStage
    var id: nat
    var result: int
    var lastRequested: nat

    constructor ()
      ensures stage == RequestStage.Clear && id == 0 && result == 0
    {
      stage, id, result, lastRequested := RequestStage.Clear, 0, 0, 0;
    }

    method Reset()
      modifies this
      ensures stage == RequestStage.Clear && id == 0 && result == 0
    {
      stage, id, result, lastRequested := RequestStage.Clear, 0, 0, 0;
    }

    method SetRequested(random: nat, millis: nat)
      modifies this
      ensures stage == RequestStage.Requested && id == random && lastRequested == millis && result == old(result)
    {
      stage, id, lastRequested := RequestStage.Requested, random, millis;
    }

    method SetResult(requestId: nat, resultError: int) returns (taken: bool)
      modifies this
      ensures taken <==> old(stage) == RequestStage.Requested && old(id) == requestId
      ensures if taken then stage == RequestStage.ResultIn && result == resultError else stage == old(stage) && result == old(result)
      ensures id == old(id) && lastRequested == old(lastRequested)
    {
      if stage == RequestStage.Requested && id == requestId {
        result := resultError;
        stage := RequestStage.ResultIn;
        return true;
      }
      return false;
    }

    method IsFresh(lifetimeMillis: nat, millis: nat) returns (inTime: bool)
      ensures inTime <==> (millis - lastRequested) % UINT32 < lifetimeMillis
    {
      inTime := (millis as int - lastRequested) % UINT32 < lifetimeMillis;
    }
  }

  /** The host's side: an error that waits to be answered. A reset forgets the request but not the error. */
  class ClockSyncResponseTransaction {
    var resultReady: bool
    var id: nat
    var result: int

    ghost function View(): LinkNodes.Transaction
      reads this
    {
      LinkNodes.Transaction(resultReady, id, result)
    }

    constructor ()
      ensures View() == LinkNodes.Transaction(false, 0, 0)
    {
      resultReady, id, result := false, 0, 0;
    }

    method Reset()
      modifies this
      ensures View() == old(View()).(ready := false, id := 0)
    {
      resultReady, id := false, 0;
    }

    method SetResult(requestId: nat, estimationError: int)
      modifies this
      ensures View() == LinkNodes.Transaction(true, requestId, estimationError)
    {
      resultReady, id, result := true, requestId, estimationError;
    }
  }
}
