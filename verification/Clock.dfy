/** The synchronized clock: 32 bit microsecond counters, the offset each end adds to its own, and the exchange
    by which the remote's offset follows the host's (src/LoLaClock/ILoLaClockSource.h, src/Services/Link). */
module Clock {
  import opened Common

  const INT32: int := 0x8000_0000
  const MAX_TUNE_ERROR: int := 100
  const MIN_CLOCK_SAMPLES: nat := 2
  const UINT8_MAX: nat := 255
  const CLOCK_TUNE_PERIOD: nat := 10000
  const INVALID: nat := 0xFFFF_FFFF

  function Wrap(x: int): nat {
    x % UINT32
  }

  /** The cast of an unsigned 32 bit value to a signed one. */
  function Signed(x: int): (r: int)
    ensures -INT32 <= r < INT32
    ensures (r - x) % UINT32 == 0
  {
    var u := Wrap(x);
    if u < INT32 then u else u - UINT32
  }

  /** One board: what its counter reads at time 0, and its offset. */
  datatype Board = Board(base: int, offset: nat) {
    function Micros(time: int): nat {
      Wrap(base + time)
    }

    /** GetSyncMicros, also for a reading taken earlier: both add the offset to a counter reading. */
    function SyncAt(micros: nat): nat {
      Wrap(micros + offset)
    }

    function AddOffset(d: int): Board {
      this.(offset := Wrap(offset + d))
    }
  }

  datatype Pair = Pair(host: Board, remote: Board) {
    /** By how much the host's clock is ahead of the remote's, which is the same at every time. */
    function Lead(): nat {
      Wrap(host.base + host.offset - remote.base - remote.offset)
    }
  }

  /** The request leaves at the given time carrying the remote's estimate of the host's clock on arrival (OnPreSend);
      it arrives after the given flight and the host reports by how much the estimate was off. */
  function EstimationError(p: Pair, time: int, flight: nat, ettm: nat): int {
    var estimate := Wrap(p.remote.SyncAt(p.remote.Micros(time)) + ettm);
    Signed(p.host.SyncAt(p.host.Micros(time + flight)) as int - estimate)
  }

  /** A completed exchange: the remote adds the reported error to its offset. */
  function Exchange(p: Pair, time: int, flight: nat, ettm: nat): Pair {
    p.(remote := p.remote.AddOffset(EstimationError(p, time, flight, ettm)))
  }

  lemma Congruent(a: int, b: int, k: int)
    requires a - b == k * UINT32
    ensures Wrap(a) == Wrap(b)
  {
  }

  lemma WrapIs(a: int) returns (k: int)
    ensures Wrap(a) as int == a + k * UINT32
  {
    k := -(a / UINT32);
  }

  lemma SignedIs(a: int) returns (k: int)
    ensures Signed(a) == a + k * UINT32
  {
    k := WrapIs(a);
    if Wrap(a) >= INT32 {
      k := k - 1;
    }
  }

  lemma LeadEverywhere(p: Pair, time: int)
    ensures Wrap(p.host.SyncAt(p.host.Micros(time)) as int - p.remote.SyncAt(p.remote.Micros(time))) == p.Lead()
  {
    var k1 := WrapIs(p.host.base + time);
    var k2 := WrapIs(p.host.Micros(time) + p.host.offset);
    var k3 := WrapIs(p.remote.base + time);
    var k4 := WrapIs(p.remote.Micros(time) + p.remote.offset);
    Congruent(p.host.SyncAt(p.host.Micros(time)) as int - p.remote.SyncAt(p.remote.Micros(time)),
              p.host.base + p.host.offset - p.remote.base - p.remote.offset, k1 + k2 - k3 - k4);
  }

  /** The reported error is the host's lead plus the flight, less the estimated transmission time. */
  lemma ErrorIs(p: Pair, time: int, flight: nat, ettm: nat) returns (k: int)
    ensures EstimationError(p, time, flight, ettm)
            == p.host.base + p.host.offset - p.remote.base - p.remote.offset + flight - ettm + k * UINT32
  {
    var k1 := WrapIs(p.host.base + time + flight);
    var k2 := WrapIs(p.host.Micros(time + flight) + p.host.offset);
    var k3 := WrapIs(p.remote.base + time);
    var k4 := WrapIs(p.remote.Micros(time) + p.remote.offset);
    var k5 := WrapIs(p.remote.SyncAt(p.remote.Micros(time)) + ettm);
    var estimate := Wrap(p.remote.SyncAt(p.remote.Micros(time)) + ettm);
    var k6 := SignedIs(p.host.SyncAt(p.host.Micros(time + flight)) as int - estimate);
    k := k1 + k2 - k3 - k4 - k5 + k6;
  }

  /** Whatever the two clocks read before, after one exchange the host is ahead by exactly the estimated transmission
      time less the real flight time, at every time. */
  lemma ExchangeLeavesFlightError(p: Pair, time: int, flight: nat, ettm: nat)
    ensures Exchange(p, time, flight, ettm).Lead() == Wrap(ettm - flight)
  {
    var k := ErrorIs(p, time, flight, ettm);
    var e := EstimationError(p, time, flight, ettm);
    var j := WrapIs(p.remote.offset + e);
    var q := Exchange(p, time, flight, ettm);
    Congruent(q.host.base + q.host.offset - q.remote.base - q.remote.offset, ettm - flight, -k - j);
  }

  /** From the second exchange on the error is the change of the flight time, whatever the offsets were at first. */
  lemma NextErrorIsJitter(p: Pair, time: int, flight: nat, time': int, flight': nat, ettm: nat)
    requires -INT32 <= flight' - flight < INT32
    ensures EstimationError(Exchange(p, time, flight, ettm), time', flight', ettm) == flight' - flight
  {
    var q := Exchange(p, time, flight, ettm);
    var k := ErrorIs(p, time, flight, ettm);
    var j := WrapIs(p.remote.offset + EstimationError(p, time, flight, ettm));
    var m := ErrorIs(q, time', flight', ettm);
    var e := EstimationError(q, time', flight', ettm);
    assert e == flight' - flight + (m - k - j) * UINT32;
  }

  // ---------------------------------------------------------------------------------------------
  // The host's sync counter

  predicate IsGood(error: int) {
    -MAX_TUNE_ERROR < error < MAX_TUNE_ERROR
  }

  predicate CountIsSynced(count: nat) {
    count > MIN_CLOCK_SAMPLES
  }

  /** OnEstimationReceived of the host: a bad error resets the count only while it is not synced. */
  function CountAfter(count: nat, error: int): nat {
    if IsGood(error) then (if count < UINT8_MAX then count + 1 else count)
    else if !CountIsSynced(count) then 0
    else count
  }

  function Count(errors: seq<int>): nat {
    if errors == [] then 0 else CountAfter(Count(errors[..|errors| - 1]), errors[|errors| - 1])
  }

  /** How many errors at the end of the sequence are good. */
  function TrailingGood(errors: seq<int>): nat {
    if errors == [] || !IsGood(errors[|errors| - 1]) then 0 else TrailingGood(errors[..|errors| - 1]) + 1
  }

  /** Three errors in a row of less than 100 us. */
  predicate ThreeGoodAt(errors: seq<int>, i: nat) {
    && i + 3 <= |errors|
    && -100 < errors[i] < 100 && -100 < errors[i + 1] < 100 && -100 < errors[i + 2] < 100
  }

  lemma {:induction false} TrailingIsGood(errors: seq<int>)
    ensures TrailingGood(errors) <= |errors|
    ensures forall k :: |errors| - TrailingGood(errors) <= k < |errors| ==> IsGood(errors[k])
    ensures TrailingGood(errors) < |errors| ==> !IsGood(errors[|errors| - 1 - TrailingGood(errors)])
  {
    if errors == [] {
    } else {
      TrailingIsGood(errors[..|errors| - 1]);
    }
  }

  /** Until the host is synced its counter is the length of the trailing run of good errors. */
  lemma {:induction false} CountIsTrailingRun(errors: seq<int>)
    ensures !CountIsSynced(Count(errors)) ==> Count(errors) == TrailingGood(errors)
  {
    if errors == [] {
    } else {
      CountIsTrailingRun(errors[..|errors| - 1]);
    }
  }

  /** The host is synced just when, at some point since the last reset, three consecutive errors were good. */
  lemma {:induction false} SyncedIffThreeGood(errors: seq<int>)
    ensures CountIsSynced(Count(errors)) <==> exists i: nat :: ThreeGoodAt(errors, i)
  {
    if errors == [] {
    } else {
      var n := |errors| - 1;
      var before := errors[..n];
      SyncedIffThreeGood(before);
      CountIsTrailingRun(before);
      TrailingIsGood(before);
      if CountIsSynced(Count(before)) {
        var i: nat :| ThreeGoodAt(before, i);
        assert ThreeGoodAt(errors, i);
      } else if IsGood(errors[n]) && Count(before) == 2 {
        assert ThreeGoodAt(errors, n - 2);
      }
      forall i: nat | ThreeGoodAt(errors, i) && !CountIsSynced(Count(before))
        ensures i == n - 2 && CountIsSynced(Count(errors))
      {
        assert i + 3 < |errors| ==> ThreeGoodAt(before, i);
        assert IsGood(before[n - 1]) && IsGood(before[n - 2]);
      }
    }
  }

  // ---------------------------------------------------------------------------------------------
  // A session of exchanges

  datatype Trip = Trip(time: int, flight: nat)

  /** The i-th exchange: its error as the host estimates it, and the clocks after it. */
  ghost predicate ExchangeAt(pairs: seq<Pair>, errors: seq<int>, trips: seq<Trip>, ettm: nat, i: nat)
    requires i < |trips| && |errors| == |trips| && |pairs| == |trips| + 1
  {
    && errors[i] == EstimationError(pairs[i], trips[i].time, trips[i].flight, ettm)
    && pairs[i + 1] == Exchange(pairs[i], trips[i].time, trips[i].flight, ettm)
  }

  ghost predicate IsSession(pairs: seq<Pair>, errors: seq<int>, trips: seq<Trip>, ettm: nat) {
    && |errors| == |trips| && |pairs| == |trips| + 1
    && forall i: nat :: i < |trips| ==> ExchangeAt(pairs, errors, trips, ettm, i)
  }

  predicate SteadyFlight(trips: seq<Trip>) {
    forall i :: 0 < i < |trips| ==> IsGood(trips[i].flight as int - trips[i - 1].flight)
  }

  /** In a session every error but the first is the change of the flight time. */
  lemma ErrorsAreJitter(pairs: seq<Pair>, errors: seq<int>, trips: seq<Trip>, ettm: nat, i: nat)
    requires IsSession(pairs, errors, trips, ettm) && 0 < i < |trips|
    requires -INT32 <= trips[i].flight as int - trips[i - 1].flight < INT32
    ensures errors[i] == trips[i].flight as int - trips[i - 1].flight
  {
    hide EstimationError, Exchange;
    assert ExchangeAt(pairs, errors, trips, ettm, i - 1) && ExchangeAt(pairs, errors, trips, ettm, i);
    NextErrorIsJitter(pairs[i - 1], trips[i - 1].time, trips[i - 1].flight, trips[i].time, trips[i].flight, ettm);
  }

  /** Four completed exchanges whose flight times differ by less than 100 us from one to the next synchronize the
      host, whatever the clocks read at first; the remote's clock is then off by the last flight error only. */
  lemma FourExchangesSync(pairs: seq<Pair>, errors: seq<int>, trips: seq<Trip>, ettm: nat)
    requires IsSession(pairs, errors, trips, ettm) && |trips| >= 4 && SteadyFlight(trips)
    ensures CountIsSynced(Count(errors))
    ensures pairs[|trips|].Lead() == Wrap(ettm - trips[|trips| - 1].flight)
  {
    hide EstimationError, Exchange, Count;
    forall i | 0 < i < |trips|
      ensures IsGood(errors[i])
    {
      ErrorsAreJitter(pairs, errors, trips, ettm, i);
    }
    assert ThreeGoodAt(errors, 1);
    SyncedIffThreeGood(errors);
    var n := |trips| - 1;
    assert ExchangeAt(pairs, errors, trips, ettm, n);
    ExchangeLeavesFlightError(pairs[n], trips[n].time, trips[n].flight, ettm);
  }
}
