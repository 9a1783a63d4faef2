/** Keyframe detection in H.264 RTP payloads (internal/media/fanout.go, startsKeyframe), against
    the packetization of sections 5.6 to 5.8 of RFC 6184. */
module Keyframe {

  type byte = b: int | 0 <= b < 256

  function NalType(header: byte): nat {
    header % 32
  }

  /** An IDR slice or an SPS. */
  predicate IsKey(header: byte) {
    NalType(header) == 5 || NalType(header) == 7
  }

  const STAP_A := 24
  const FU_A := 28

  /** Whether walking the units of an aggregation packet meets a key unit before its end or a
      malformed unit. */
  predicate StapStarts(units: seq<byte>)
    decreases |units|
  {
    if |units| <= 2 then false
    else
      var size: int := units[0] as int * 256 + units[1] as int;
      if size == 0 || 2 + size > |units| then false
      else IsKey(units[2]) || StapStarts(units[2 + size..])
  }

  predicate Starts(payload: seq<byte>) {
    if payload == [] then false
    else if NalType(payload[0]) == STAP_A then StapStarts(payload[1..])
    else if NalType(payload[0]) == FU_A then |payload| > 1 && payload[1] >= 128 && IsKey(payload[1])
    else IsKey(payload[0])
  }

  method StartsKeyframe(payload: seq<byte>) returns (key: bool)
    ensures key == Starts(payload)
  {
    if |payload| == 0 { return false; }
    if NalType(payload[0]) == STAP_A {
      var offset := 1;
      while offset + 2 < |payload|
        invariant 1 <= offset <= |payload|
        invariant Starts(payload) == StapStarts(payload[offset..])
      {
        var size: int := payload[offset] as int * 256 + payload[offset + 1] as int;
        assert payload[offset..][2] == payload[offset + 2];
        if size == 0 || offset + 2 + size > |payload| { return false; }
        if IsKey(payload[offset + 2]) { return true; }
        assert payload[offset..][2 + size..] == payload[offset + 2 + size..];
        offset := offset + 2 + size;
      }
      return false;
    }
    if NalType(payload[0]) == FU_A {
      return |payload| > 1 && payload[1] >= 128 && IsKey(payload[1]);
    }
    key := IsKey(payload[0]);
  }

  // ----- The packetization it reads -----

  /** A NAL unit that fits the 16-bit size of an aggregation packet. */
  type NalUnit = u: seq<byte> | 0 < |u| < 0x1_0000 witness [0]

  /** The aggregation units of a STAP-A, each behind its size. */
  function Aggregate(units: seq<NalUnit>): seq<byte> {
    if units == [] then []
    else [|units[0]| / 256, |units[0]| % 256] + units[0] + Aggregate(units[1..])
  }

  ghost predicate HasKeyUnit(units: seq<NalUnit>) {
    exists i | 0 <= i < |units| :: IsKey(units[i][0])
  }

  lemma {:induction false} AggregateStarts(units: seq<NalUnit>)
    ensures StapStarts(Aggregate(units)) <==> HasKeyUnit(units)
  {
    if units != [] {
      var first, rest := units[0], Aggregate(units[1..]);
      var all := Aggregate(units);
      assert all[0] as int * 256 + all[1] as int == |first|;
      assert all[2] == first[0];
      assert all[2 + |first|..] == rest;
      AggregateStarts(units[1..]);
      assert units == [first] + units[1..];
      assert HasKeyUnit(units) <==> IsKey(first[0]) || HasKeyUnit(units[1..]);
    }
  }

  /** A STAP-A packet starts a keyframe exactly when one of its units is an IDR slice or an SPS. */
  lemma StapStartsKeyframe(header: byte, units: seq<NalUnit>)
    requires NalType(header) == STAP_A
    ensures Starts([header] + Aggregate(units)) <==> HasKeyUnit(units)
  {
    assert ([header] + Aggregate(units))[1..] == Aggregate(units);
    AggregateStarts(units);
  }

  /** The FU-A payloads of one NAL unit cut into chunks: start bit on the first, end bit on the
      last, the unit's type in every FU header. */
  function Fragment(unit: seq<byte>, chunks: seq<seq<byte>>, j: nat): (payload: seq<byte>)
    requires unit != [] && j < |chunks| && 2 <= |chunks|
  {
    var indicator: byte := unit[0] - NalType(unit[0]) + FU_A;
    var start, end := if j == 0 then 128 else 0, if j == |chunks| - 1 then 64 else 0;
    [indicator, start + end + NalType(unit[0])] + chunks[j]
  }

  /** However a unit is fragmented, only its first fragment starts a keyframe, and only for a key unit. */
  lemma FragmentStartsKeyframe(unit: seq<byte>, chunks: seq<seq<byte>>, j: nat)
    requires unit != [] && j < |chunks| && 2 <= |chunks|
    ensures Starts(Fragment(unit, chunks, j)) <==> j == 0 && IsKey(unit[0])
  {
    var indicator := Fragment(unit, chunks, j)[0];
    assert indicator % 32 == FU_A by {
      assert unit[0] - NalType(unit[0]) == 32 * (unit[0] / 32);
    }
  }

  /** A unit sent alone starts a keyframe exactly when it is a key unit. */
  lemma SingleStartsKeyframe(unit: seq<byte>)
    requires unit != [] && NalType(unit[0]) < STAP_A
    ensures Starts(unit) <==> IsKey(unit[0])
  {
  }
}
