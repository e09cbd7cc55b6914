/**
 * The horn driven by inbound signals: each signal read that returned bytes
 * gives one blocking pulse, HIGH, 250 ms, LOW.
 */
module Horn {

  /** A digitalWrite of the horn pin, or a delay. */
  datatype HornEvent = Drive(high: bool) | Hold(ms: nat)

  const PulseMs: nat := 250

  const Pulse: seq<HornEvent> := [Drive(true), Hold(PulseMs), Drive(false)]

  /** readBytesUntil into the 256-byte signal buffer returns at most 256. */
  type ReadCount = n: nat | n <= 256

  /** The horn activity for a run of reads, in order. */
  function Pulses(counts: seq<ReadCount>): (es: seq<HornEvent>)
    ensures |es| <= 3 * |counts|
    ensures es != [] ==> es[|es| - 1] == Drive(false)
    decreases |counts|
  {
    if counts == [] then []
    else Pulses(counts[..|counts| - 1]) + (if counts[|counts| - 1] != 0 then Pulse else [])
  }

  /** Number of counts that returned bytes. */
  function Nonzero(counts: seq<ReadCount>): (n: nat)
    decreases |counts|
  {
    if counts == [] then 0
    else Nonzero(counts[..|counts| - 1]) + (if counts[|counts| - 1] != 0 then 1 else 0)
  }

  /** Number of times the horn is driven HIGH. */
  function Rises(es: seq<HornEvent>): (n: nat)
    decreases |es|
  {
    if es == [] then 0
    else Rises(es[..|es| - 1]) + (if es[|es| - 1] == Drive(true) then 1 else 0)
  }

  lemma {:induction false} RisesAppend(a: seq<HornEvent>, b: seq<HornEvent>)
    ensures Rises(a + b) == Rises(a) + Rises(b)
    decreases |b|
  {
    if b != [] {
      assert (a + b)[..|a + b| - 1] == a + b[..|b| - 1];
      RisesAppend(a, b[..|b| - 1]);
    } else {
      assert a + b == a;
    }
  }

  /** Well-formed pulses: every rise is followed by the 250 ms hold and the fall. */
  predicate PulsesWellFormed(es: seq<HornEvent>)
  {
    |es| % 3 == 0 &&
    forall k :: 0 <= k < |es| / 3 ==> es[3 * k] == Drive(true) && es[3 * k + 1] == Hold(PulseMs) && es[3 * k + 2] == Drive(false)
  }

  /** One pulse per read that returned bytes and none for an empty read. */
  lemma {:induction false} PulsesPerSignal(counts: seq<ReadCount>)
    ensures Rises(Pulses(counts)) == Nonzero(counts)
    ensures |Pulses(counts)| == 3 * Nonzero(counts)
    ensures PulsesWellFormed(Pulses(counts))
    decreases |counts|
  {
    if counts != [] {
      var init := counts[..|counts| - 1];
      PulsesPerSignal(init);
      var tail := if counts[|counts| - 1] != 0 then Pulse else [];
      RisesAppend(Pulses(init), tail);
      assert Rises(Pulse) == 1 by {
        assert Pulse[..2] == [Drive(true), Hold(PulseMs)];
        assert [Drive(true), Hold(PulseMs)][..1] == [Drive(true)];
        assert [Drive(true)][..0] == [];
        assert Rises([Drive(true)]) == 1;
        assert Rises([Drive(true), Hold(PulseMs)]) == 1;
      }
      var es := Pulses(counts);
      var n := |Pulses(init)| / 3;
      forall k | 0 <= k < |es| / 3
        ensures es[3 * k] == Drive(true) && es[3 * k + 1] == Hold(PulseMs) && es[3 * k + 2] == Drive(false)
      {
        if k < n {
          assert es[3 * k] == Pulses(init)[3 * k];
          assert es[3 * k + 1] == Pulses(init)[3 * k + 1];
          assert es[3 * k + 2] == Pulses(init)[3 * k + 2];
        } else {
          assert k == n;
        }
      }
    }
  }

  /** An empty line (a zero-length read) sounds nothing. */
  lemma EmptyReadIsSilent(counts: seq<ReadCount>)
    ensures Pulses(counts + [0]) == Pulses(counts)
  {
  }
}
