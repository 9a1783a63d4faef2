/** The ring clip's sample table (internal/media/ringclip.go, clipWriter). */
module RingClip {
  import opened Prelude
  import opened K = Keyframe

  type Nalu = seq<byte>

  const SPS := 7
  const PPS := 8
  const DELIMITER := 9
  const IDR := 5

  const WRAP: int := 0x1_0000_0000
  const TIMESCALE: int := 90000
  const MAX_TICKS: int := 15 * TIMESCALE
  const MAX_BYTES: nat := 8 * 1024 * 1024
  const DEFAULT_DURATION: int := 3000

  /** An RTP timestamp: an unsigned 32-bit counter. */
  type Timestamp = t: int | 0 <= t < WRAP

  datatype Sample = Sample(pts: int, payload: seq<byte>, idr: bool)

  datatype Writer = Writer(
    started: bool,
    sps: Option<Nalu>,
    pps: Option<Nalu>,
    firstTimestamp: Timestamp,
    samples: seq<Sample>,
    size: nat,
    dropped: nat)

  const INITIAL := Writer(false, None, None, 0, [], 0, 0)

  // ----- One access unit -----

  /** The last parameter set of a kind in an access unit. */
  function LastOf(unit: seq<Nalu>, kind: nat): Option<Nalu> {
    if unit == [] then None
    else
      var nalu := unit[|unit| - 1];
      if nalu != [] && NalType(nalu[0]) == kind then Some(nalu) else LastOf(unit[..|unit| - 1], kind)
  }

  /** What goes into a sample: everything but empty units, parameter sets and delimiters. */
  predicate IsMedia(nalu: Nalu) {
    nalu != [] && NalType(nalu[0]) != SPS && NalType(nalu[0]) != PPS && NalType(nalu[0]) != DELIMITER
  }

  function Media(unit: seq<Nalu>): seq<Nalu> {
    if unit == [] then []
    else Media(unit[..|unit| - 1]) + (if IsMedia(unit[|unit| - 1]) then [unit[|unit| - 1]] else [])
  }

  predicate HasIdr(unit: seq<Nalu>) {
    LastOf(unit, IDR).Some?
  }

  /** Length-prefixed units, each behind its length in four bytes. */
  function Avcc(nalus: seq<Nalu>): seq<byte> {
    if nalus == [] then []
    else
      var n, size := nalus[|nalus| - 1], |nalus[|nalus| - 1]|;
      Avcc(nalus[..|nalus| - 1])
      + [size / 0x100_0000 % 256, size / 0x1_0000 % 256, size / 0x100 % 256, size % 256] + n
  }

  /** The signed 32-bit difference of two timestamps. */
  function SignedDifference(t: Timestamp, first: Timestamp): int {
    var d := (t - first) % WRAP;
    if d >= WRAP / 2 then d - WRAP else d
  }

  datatype Outcome = Outcome(writer: Writer, complete: bool)

  /** Parameter sets are taken over until the recording starts. */
  function WithParameterSets(w: Writer, unit: seq<Nalu>): Writer {
    w.(sps := if LastOf(unit, SPS).Some? then LastOf(unit, SPS) else w.sps,
       pps := if LastOf(unit, PPS).Some? then LastOf(unit, PPS) else w.pps)
  }

  function Store(w: Writer, pts: int, payload: seq<byte>, idr: bool): Writer {
    var n := |w.samples|;
    if n > 0 && pts == w.samples[n - 1].pts then
      var last := w.samples[n - 1];
      w.(samples := w.samples[..n - 1] + [Sample(pts, last.payload + payload, last.idr || idr)],
         size := w.size + |payload|)
    else w.(samples := w.samples + [Sample(pts, payload, idr)], size := w.size + |payload|)
  }

  function AddMedia(w: Writer, t: Timestamp, unit: seq<Nalu>): Outcome {
    var pts, n := SignedDifference(t, w.firstTimestamp), |w.samples|;
    var payload := Avcc(Media(unit));
    if Media(unit) == [] then Outcome(w.(dropped := w.dropped + 1), false)
    else if pts >= MAX_TICKS then Outcome(w, true)
    else if n > 0 && pts < w.samples[n - 1].pts then Outcome(w.(dropped := w.dropped + 1), false)
    else if w.size + |payload| > MAX_BYTES then Outcome(w, true)
    else Outcome(Store(w, pts, payload, HasIdr(unit)), false)
  }

  function AccessUnit(w: Writer, t: Timestamp, unit: seq<Nalu>): Outcome {
    if !w.started then
      var ready := WithParameterSets(w, unit);
      if !HasIdr(unit) || ready.sps.None? || ready.pps.None? then Outcome(ready.(dropped := w.dropped + 1), false)
      else AddMedia(ready.(started := true, firstTimestamp := t), t, unit)
    else if LastOf(unit, SPS).Some? && LastOf(unit, SPS) != w.sps then Outcome(w, true)
    else AddMedia(w, t, unit)
  }

  /** Sorts the units of an access unit. */
  method Scan(unit: seq<Nalu>) returns (sps: Option<Nalu>, pps: Option<Nalu>, idr: bool, nalus: seq<Nalu>)
    ensures sps == LastOf(unit, SPS) && pps == LastOf(unit, PPS)
    ensures idr == HasIdr(unit) && nalus == Media(unit)
  {
    sps, pps, idr, nalus := None, None, false, [];
    for i := 0 to |unit|
      invariant sps == LastOf(unit[..i], SPS) && pps == LastOf(unit[..i], PPS)
      invariant idr == HasIdr(unit[..i]) && nalus == Media(unit[..i])
    {
      assert unit[..i + 1][..i] == unit[..i];
      if |unit[i]| == 0 { continue; }
      var kind := NalType(unit[i][0]);
      if kind == SPS {
        sps := Some(unit[i]);
      } else if kind == PPS {
        pps := Some(unit[i]);
      } else if kind == IDR {
        idr := true;
        nalus := nalus + [unit[i]];
      } else if kind != DELIMITER {
        nalus := nalus + [unit[i]];
      }
    }
    assert unit[..|unit|] == unit;
  }

  class ClipWriter {
    var started: bool
    var sps: Option<Nalu>
    var pps: Option<Nalu>
    var firstTimestamp: Timestamp
    var samples: seq<Sample>
    var size: nat
    var dropped: nat

    ghost function View(): Writer
      reads this
    {
      Writer(started, sps, pps, firstTimestamp, samples, size, dropped)
    }

    constructor ()
      ensures View() == INITIAL
    {
      started, sps, pps, firstTimestamp, samples, size, dropped := false, None, None, 0, [], 0, 0;
    }

    method AddAccessUnit(t: Timestamp, unit: seq<Nalu>) returns (complete: bool)
      modifies this
      ensures Outcome(View(), complete) == AccessUnit(old(View()), t, unit)
    {
      var unitSps, unitPps, idr, nalus := Scan(unit);
      if !started {
        if unitSps.Some? { sps := unitSps; }
        if unitPps.Some? { pps := unitPps; }
        if !idr || sps.None? || pps.None? {
          dropped := dropped + 1;
          return false;
        }
        started, firstTimestamp := true, t;
      } else if unitSps.Some? && unitSps != sps {
        return true;
      }

      complete := AddNalus(t, idr, nalus, unit);
    }

    method AddNalus(t: Timestamp, idr: bool, nalus: seq<Nalu>, ghost unit: seq<Nalu>) returns (complete: bool)
      requires nalus == Media(unit) && idr == HasIdr(unit)
      modifies this
      ensures Outcome(View(), complete) == AddMedia(old(View()), t, unit)
    {
      if |nalus| == 0 {
        dropped := dropped + 1;
        return false;
      }
      var pts := SignedDifference(t, firstTimestamp);
      if pts >= MAX_TICKS { return true; }
      var n := |samples|;
      if n > 0 && pts < samples[n - 1].pts {
        dropped := dropped + 1;
        return false;
      }
      var payload := Avcc(nalus);
      if size + |payload| > MAX_BYTES { return true; }
      StoreSample(pts, payload, idr);
      complete := false;
    }

    /** Two access units with one timestamp share a sample. */
    method StoreSample(pts: int, payload: seq<byte>, idr: bool)
      modifies this`samples, this`size
      ensures View() == Store(old(View()), pts, payload, idr)
    {
      var n := |samples|;
      if n > 0 && pts == samples[n - 1].pts {
        var last := samples[n - 1];
        samples := samples[..n - 1] + [Sample(pts, last.payload + payload, last.idr || idr)];
      } else {
        samples := samples + [Sample(pts, payload, idr)];
      }
      size := size + |payload|;
    }
  }

  // ----- Whole recordings -----

  function Bytes(samples: seq<Sample>): seq<byte> {
    if samples == [] then [] else Bytes(samples[..|samples| - 1]) + samples[|samples| - 1].payload
  }

  /** Presentation times that start at 0 with an IDR picture and strictly increase below the limit. */
  ghost predicate Ordered(samples: seq<Sample>) {
    && (forall i | 0 <= i < |samples| :: 0 <= samples[i].pts < MAX_TICKS)
    && (forall i, j | 0 <= i < j < |samples| :: samples[i].pts < samples[j].pts)
    && (samples != [] ==> samples[0].pts == 0 && samples[0].idr)
  }

  /** The sample table of a recording, complete or not. */
  ghost predicate Valid(w: Writer) {
    && (!w.started ==> w.samples == [])
    && w.size == |Bytes(w.samples)| && w.size <= MAX_BYTES
    && Ordered(w.samples)
  }

  /** While it is still recording, a clip that has started has its first sample. */
  ghost predicate Recording(w: Writer) {
    Valid(w) && (w.started ==> w.samples != [])
  }

  lemma IdrIsMedia(unit: seq<Nalu>)
    ensures HasIdr(unit) ==> Media(unit) != []
  {
  }

  lemma StoreAddsBytes(w: Writer, pts: int, payload: seq<byte>, idr: bool)
    ensures Bytes(Store(w, pts, payload, idr).samples) == Bytes(w.samples) + payload
  {
    var n, s := |w.samples|, Store(w, pts, payload, idr);
    if n > 0 && pts == w.samples[n - 1].pts {
      assert s.samples[..n - 1] == w.samples[..n - 1];
      assert Bytes(w.samples[..n - 1]) + w.samples[n - 1].payload + payload
          == Bytes(w.samples[..n - 1]) + (w.samples[n - 1].payload + payload);
    } else {
      assert s.samples[..n] == w.samples;
    }
  }

  lemma StoreKeepsOrder(w: Writer, pts: int, payload: seq<byte>, idr: bool)
    requires Ordered(w.samples) && pts < MAX_TICKS
    requires if w.samples == [] then pts == 0 && idr else w.samples[|w.samples| - 1].pts <= pts
    ensures Ordered(Store(w, pts, payload, idr).samples) && Store(w, pts, payload, idr).samples != []
  {
  }

  lemma StoreKeepsValid(w: Writer, pts: int, payload: seq<byte>, idr: bool)
    requires Valid(w) && w.started && w.size + |payload| <= MAX_BYTES && pts < MAX_TICKS
    requires if w.samples == [] then pts == 0 && idr else w.samples[|w.samples| - 1].pts <= pts
    ensures Valid(Store(w, pts, payload, idr)) && Store(w, pts, payload, idr).samples != []
    ensures Bytes(Store(w, pts, payload, idr).samples) == Bytes(w.samples) + payload
  {
    StoreAddsBytes(w, pts, payload, idr);
    StoreKeepsOrder(w, pts, payload, idr);
  }

  /** What became of an access unit: it completed the clip, was dropped and counted, or added exactly
      its media bytes. */
  ghost predicate Accounts(w: Writer, o: Outcome, unit: seq<Nalu>) {
    && Valid(o.writer) && (!o.complete ==> Recording(o.writer))
    && (if o.complete || o.writer.dropped != w.dropped
        then o.writer.samples == w.samples && o.writer.dropped == w.dropped + (if o.complete then 0 else 1)
        else Bytes(o.writer.samples) == Bytes(w.samples) + Avcc(Media(unit)))
  }

  lemma MediaAccounts(w: Writer, t: Timestamp, unit: seq<Nalu>)
    requires Valid(w) && w.started
    requires w.samples == [] ==> HasIdr(unit) && t == w.firstTimestamp && w.size == 0
    ensures Accounts(w, AddMedia(w, t, unit), unit)
  {
    IdrIsMedia(unit);
    var pts, payload := SignedDifference(t, w.firstTimestamp), Avcc(Media(unit));
    if Media(unit) != [] && pts < MAX_TICKS && w.size + |payload| <= MAX_BYTES
       && (w.samples != [] ==> w.samples[|w.samples| - 1].pts <= pts) {
      StoreKeepsValid(w, pts, payload, HasIdr(unit));
    }
  }

  /** An access unit completes the clip, is dropped and counted, or adds exactly its media bytes. */
  lemma AccessUnitKeepsValid(w: Writer, t: Timestamp, unit: seq<Nalu>)
    requires Recording(w)
    ensures Accounts(w, AccessUnit(w, t, unit), unit)
  {
    var from := if w.started then w else WithParameterSets(w, unit).(started := true, firstTimestamp := t);
    if w.started || HasIdr(unit) {
      MediaAccounts(from, t, unit);
    }
  }

  /** An access unit with the true, unwrapped time it was sampled at. */
  datatype TrueUnit = TrueUnit(time: int, unit: seq<Nalu>)

  function Wrapped(time: int): Timestamp {
    time % WRAP
  }

  function Record(units: seq<TrueUnit>): (o: Outcome)
    ensures Valid(o.writer) && (!o.complete ==> Recording(o.writer))
  {
    if units == [] then Outcome(INITIAL, false)
    else
      var o, last := Record(units[..|units| - 1]), units[|units| - 1];
      if o.complete then o
      else
        AccessUnitKeepsValid(o.writer, Wrapped(last.time), last.unit);
        AccessUnit(o.writer, Wrapped(last.time), last.unit)
  }

  /** The true time of the access unit that started the recording. */
  function FirstTime(units: seq<TrueUnit>): Option<int> {
    if units == [] then None
    else
      var before := units[..|units| - 1];
      if FirstTime(before).Some? || Record(before).complete then FirstTime(before)
      else if Record(units).writer.started then Some(units[|units| - 1].time) else None
  }

  predicate WithinHalfRange(time: int, first: int) {
    -(WRAP / 2) <= time - first < WRAP / 2
  }

  /** The signed difference of two wrapped timestamps is the true one exactly when that fits 32 signed
      bits. */
  lemma WrappedDifference(time: int, first: int)
    ensures SignedDifference(Wrapped(time), Wrapped(first)) == time - first
       <==> -(WRAP / 2) <= time - first < WRAP / 2
  {
    assert (Wrapped(time) - Wrapped(first)) % WRAP == (time - first) % WRAP by {
      assert time == Wrapped(time) + WRAP * (time / WRAP);
      assert first == Wrapped(first) + WRAP * (first / WRAP);
      ModShift(Wrapped(time) - Wrapped(first), time / WRAP - first / WRAP);
    }
  }

  lemma ModShift(d: int, k: int)
    ensures (d + WRAP * k) % WRAP == d % WRAP
  {
    var q := (d + WRAP * k) / WRAP;
    assert d == WRAP * (q - k) + (d + WRAP * k) % WRAP;
  }

  ghost predicate SampledAt(units: seq<TrueUnit>, time: int) {
    exists k | 0 <= k < |units| :: units[k].time == time
  }

  /** A table whose presentation times are true distances from `first` to recorded units. */
  ghost predicate Truthful(samples: seq<Sample>, units: seq<TrueUnit>, first: int) {
    forall i | 0 <= i < |samples| :: SampledAt(units, first + samples[i].pts)
  }

  /** A unit that is neither dropped nor the end of the clip is stored at its own true time. */
  lemma AccessUnitStoredAtTrueTime(w: Writer, u: TrueUnit, first: int)
    requires Recording(w) && -(WRAP / 2) <= u.time - first < WRAP / 2
    requires if w.started then w.firstTimestamp == Wrapped(first) else first == u.time
    ensures
      var o := AccessUnit(w, Wrapped(u.time), u.unit);
      !o.complete && o.writer.dropped == w.dropped ==>
        o.writer.samples != [] && o.writer.samples[|o.writer.samples| - 1].pts == u.time - first
  {
    WrappedDifference(u.time, first);
  }

  /** A stream that changes format completes its clip: one track cannot carry both. */
  predicate ChangesFormat(w: Writer, unit: seq<Nalu>) {
    LastOf(unit, SPS).Some? && LastOf(unit, SPS) != w.sps
  }

  predicate Dropped(w: Writer, o: Outcome) {
    o.writer.dropped != w.dropped
  }

  /** What becomes of an access unit of a running recording.  It is dropped exactly if it keeps the
      format and has no media or was sampled before the last sample; it completes the clip exactly if it
      changes the format, or has media and was sampled 15 s or more after the first or, no earlier than
      the last sample, does not fit any more; otherwise its media is stored at its true time. */
  lemma RunningUnit(w: Writer, u: TrueUnit, first: int)
    requires Recording(w) && w.started && w.firstTimestamp == Wrapped(first) && WithinHalfRange(u.time, first)
    ensures
      var o := AccessUnit(w, Wrapped(u.time), u.unit);
      var last := first + w.samples[|w.samples| - 1].pts;
      && (Dropped(w, o) <==> !ChangesFormat(w, u.unit) && (Media(u.unit) == [] || u.time < last))
      && (o.complete <==>
            || ChangesFormat(w, u.unit)
            || (Media(u.unit) != []
                && (u.time - first >= MAX_TICKS
                    || (u.time >= last && |Bytes(w.samples)| + |Avcc(Media(u.unit))| > MAX_BYTES))))
  {
    WrappedDifference(u.time, first);
  }

  /** A recording that waits for its first picture starts exactly at an access unit with an IDR picture
      when both parameter sets have come; it drops every unit before. */
  lemma WaitingUnit(w: Writer, t: Timestamp, unit: seq<Nalu>)
    requires Recording(w) && !w.started
    ensures
      var o := AccessUnit(w, t, unit);
      var starts := HasIdr(unit) && (w.sps.Some? || LastOf(unit, SPS).Some?) && (w.pps.Some? || LastOf(unit, PPS).Some?);
      && (o.writer.started <==> starts) && (Dropped(w, o) <==> !starts)
      && (o.complete <==> starts && |Avcc(Media(unit))| > MAX_BYTES)
  {
    IdrIsMedia(unit);
  }

  lemma TruthfulStays(samples: seq<Sample>, units: seq<TrueUnit>, last: TrueUnit, first: int)
    requires Truthful(samples, units, first)
    ensures Truthful(samples, units + [last], first)
  {
    forall i | 0 <= i < |samples|
      ensures SampledAt(units + [last], first + samples[i].pts)
    {
      var k :| 0 <= k < |units| && units[k].time == first + samples[i].pts;
      assert (units + [last])[k] == units[k];
    }
  }

  lemma AccessUnitStaysTruthful(w: Writer, u: TrueUnit, units: seq<TrueUnit>, first: int)
    requires Recording(w) && SampledAt(units, u.time) && Truthful(w.samples, units, first)
    requires w.started ==> w.firstTimestamp == Wrapped(first)
    requires !w.started && AccessUnit(w, Wrapped(u.time), u.unit).writer.started ==> first == u.time
    requires -(WRAP / 2) <= u.time - first < WRAP / 2
    ensures Truthful(AccessUnit(w, Wrapped(u.time), u.unit).writer.samples, units, first)
  {
    WrappedDifference(u.time, first);
    var n, samples := |w.samples|, AccessUnit(w, Wrapped(u.time), u.unit).writer.samples;
    forall i | 0 <= i < |samples|
      ensures SampledAt(units, first + samples[i].pts)
    {
      if i < n {
        assert samples[i].pts == w.samples[i].pts;
      } else {
        assert samples[i].pts == u.time - first;
      }
    }
  }

  ghost predicate Timeline(w: Writer, units: seq<TrueUnit>, first: Option<int>) {
    && (w.started <==> first.Some?)
    && (w.started ==> w.firstTimestamp == Wrapped(first.value) && Truthful(w.samples, units, first.value))
  }

  /** The units taken in from the start of the recording to its completion lie within half the range of
      its first; those before and after may lie anywhere. */
  ghost predicate NearWhileRecording(units: seq<TrueUnit>) {
    units == [] ||
    var before := units[..|units| - 1];
    && NearWhileRecording(before)
    && (Record(before).complete || FirstTime(units).None?
        || WithinHalfRange(units[|units| - 1].time, FirstTime(units).value))
  }

  lemma TimelineStep(w: Writer, units: seq<TrueUnit>, u: TrueUnit, first: Option<int>, next: Option<int>, n: Writer)
    requires Recording(w) && Timeline(w, units, first) && n == AccessUnit(w, Wrapped(u.time), u.unit).writer
    requires next == if first.Some? then first else if n.started then Some(u.time) else None
    requires next.Some? ==> WithinHalfRange(u.time, next.value)
    ensures Timeline(n, units + [u], next)
  {
    assert (units + [u])[|units|] == u;
    if next.Some? {
      TruthfulStays(w.samples, units, u, next.value);
      AccessUnitStaysTruthful(w, u, units + [u], next.value);
    }
  }

  /** Every sample's pts is the true distance of one of the access units from the one that started the
      clip, across a wrap of the 32-bit timestamps and whatever came before the start or comes after
      completion. */
  lemma {:induction false} TrueTimeline(units: seq<TrueUnit>)
    requires NearWhileRecording(units)
    ensures Timeline(Record(units).writer, units, FirstTime(units))
  {
    if units != [] {
      var before, u := units[..|units| - 1], units[|units| - 1];
      assert before + [u] == units;
      TrueTimeline(before);
      if !Record(before).complete {
        TimelineStep(Record(before).writer, before, u, FirstTime(before), FirstTime(units), Record(units).writer);
      } else if FirstTime(units).Some? {
        TruthfulStays(Record(before).writer.samples, before, u, FirstTime(units).value);
      }
    }
  }

  // ----- Durations -----

  /** The gap to the next sample; the last repeats the one before. */
  function SampleDuration(samples: seq<Sample>, i: nat): int
    requires i < |samples|
  {
    if i + 1 < |samples| then samples[i + 1].pts - samples[i].pts
    else if i > 0 then samples[i].pts - samples[i - 1].pts
    else DEFAULT_DURATION
  }

  function TotalTicks(samples: seq<Sample>): int
  {
    if samples == [] then 0
    else samples[|samples| - 1].pts + SampleDuration(samples, |samples| - 1)
  }

  /** The sum of the first `i` sample durations. */
  function Elapsed(samples: seq<Sample>, i: nat): int
    requires i <= |samples|
  {
    if i == 0 then 0 else Elapsed(samples, i - 1) + SampleDuration(samples, i - 1)
  }

  const NANOSECONDS: int := 1_000_000_000
  const MAX_INT64: int := 0x7fff_ffff_ffff_ffff

  lemma {:induction false} ElapsedIsPts(samples: seq<Sample>, i: nat)
    requires i < |samples| && samples[0].pts == 0
    ensures Elapsed(samples, i) == samples[i].pts
  {
    if i > 0 {
      ElapsedIsPts(samples, i - 1);
    }
  }

  lemma DurationsFit(samples: seq<Sample>, i: nat)
    requires Ordered(samples) && i < |samples|
    ensures 0 < SampleDuration(samples, i) < MAX_TICKS && TotalTicks(samples) < 2 * MAX_TICKS
  {
  }

  /** A recording plays back as it was sampled: durations are positive, fit the file's 32-bit field
      and add up to the presentation times, and the whole lasts less than 30 s without overflowing
      the conversion to nanoseconds. */
  lemma DurationsReproducePts(units: seq<TrueUnit>, i: nat)
    requires i < |Record(units).writer.samples|
    ensures
      var samples := Record(units).writer.samples;
      && 0 < SampleDuration(samples, i) < WRAP
      && Elapsed(samples, i) == samples[i].pts
      && Elapsed(samples, |samples|) == TotalTicks(samples) < 30 * TIMESCALE
      && TotalTicks(samples) * NANOSECONDS <= MAX_INT64
  {
    var samples := Record(units).writer.samples;
    ElapsedIsPts(samples, i);
    ElapsedIsPts(samples, |samples| - 1);
    DurationsFit(samples, i);
  }

  // ----- What a recording contains -----

  /** A unit goes into the picture data unless it is empty, a parameter set or a delimiter. */
  predicate Carries(nalu: Nalu) {
    nalu != [] && nalu[0] % 32 !in {7, 8, 9}
  }

  /** The media of an access unit are its units that carry picture data, in order. */
  lemma {:induction false} MediaConcat(a: seq<Nalu>, b: seq<Nalu>)
    ensures Media(a + b) == Media(a) + Media(b)
  {
    if b == [] {
      assert a + b == a;
    } else {
      assert (a + b)[..|a + b| - 1] == a + b[..|b| - 1];
      MediaConcat(a, b[..|b| - 1]);
    }
  }

  lemma MediaOfOne(nalu: Nalu)
    ensures Media([nalu]) == if Carries(nalu) then [nalu] else []
  {
    assert [nalu][..0] == [];
  }

  ghost predicate IdrIn(unit: seq<Nalu>) {
    exists i | 0 <= i < |unit| :: unit[i] != [] && unit[i][0] % 32 == 5
  }

  lemma {:induction false} IdrIsFound(unit: seq<Nalu>)
    ensures HasIdr(unit) <==> IdrIn(unit)
  {
    if unit != [] {
      var front, last := unit[..|unit| - 1], unit[|unit| - 1];
      IdrIsFound(front);
      IdrGrows(front, last, unit);
    }
  }

  lemma IdrGrows(front: seq<Nalu>, last: Nalu, unit: seq<Nalu>)
    requires unit == front + [last]
    ensures IdrIn(unit) <==> IdrIn(front) || (last != [] && last[0] % 32 == 5)
  {
    if last != [] && last[0] % 32 == 5 {
      assert unit[|front|] == last;
    }
    if IdrIn(front) {
      var i :| 0 <= i < |front| && front[i] != [] && front[i][0] % 32 == 5;
      assert unit[i] == front[i];
    }
  }

  /** The units of a length-prefixed payload; None when the lengths do not fit. */
  function Parse(bytes: seq<byte>): Option<seq<Nalu>>
    decreases |bytes|
  {
    if bytes == [] then Some([])
    else if |bytes| < 4 then None
    else
      var size: int := bytes[0] as int * 0x100_0000 + bytes[1] as int * 0x1_0000 + bytes[2] as int * 0x100 + bytes[3] as int;
      if |bytes| < 4 + size then None
      else
        var rest := Parse(bytes[4 + size..]);
        if rest.None? then None else Some([bytes[4..4 + size]] + rest.value)
  }

  lemma {:induction false} AvccConcat(a: seq<Nalu>, b: seq<Nalu>)
    ensures Avcc(a + b) == Avcc(a) + Avcc(b)
  {
    if b == [] {
      assert a + b == a;
    } else {
      assert (a + b)[..|a + b| - 1] == a + b[..|b| - 1];
      AvccConcat(a, b[..|b| - 1]);
    }
  }

  lemma BigEndian(size: nat)
    requires size < WRAP
    ensures (size / 0x100_0000 % 256) * 0x100_0000 + (size / 0x1_0000 % 256) * 0x1_0000
            + (size / 0x100 % 256) * 0x100 + size % 256 == size
  {
    var a, b, c := size / 0x100, size / 0x1_0000, size / 0x100_0000;
    assert a / 0x100 == b && b / 0x100 == c;
    assert size == 0x100 * a + size % 0x100 && a == 0x100 * b + a % 0x100 && b == 0x100 * c + b % 0x100;
    assert c < 256;
  }

  lemma ParseFirst(nalu: Nalu, rest: seq<byte>, bytes: seq<byte>)
    requires |nalu| < WRAP && bytes == Avcc([nalu]) + rest
    ensures Parse(bytes) == if Parse(rest).None? then None else Some([nalu] + Parse(rest).value)
  {
    assert [nalu][..0] == [];
    var size := |nalu|;
    BigEndian(size);
    assert Avcc([nalu]) == [size / 0x100_0000 % 256, size / 0x1_0000 % 256, size / 0x100 % 256, size % 256] + nalu;
    assert bytes[4..4 + size] == nalu && bytes[4 + size..] == rest;
  }

  /** A sample's payload can be taken apart into the very units it was made of. */
  lemma {:induction false} PayloadRoundTrip(nalus: seq<Nalu>)
    requires forall i | 0 <= i < |nalus| :: |nalus[i]| < WRAP
    ensures Parse(Avcc(nalus)) == Some(nalus)
  {
    if nalus != [] {
      assert nalus == [nalus[0]] + nalus[1..];
      AvccConcat([nalus[0]], nalus[1..]);
      PayloadRoundTrip(nalus[1..]);
      ParseFirst(nalus[0], Avcc(nalus[1..]), Avcc(nalus));
    }
  }

  /** An access unit that was stored, with its distance from the first. */
  datatype Entry = Entry(pts: int, unit: seq<Nalu>)

  /** The access units of a run that were stored. */
  function Stored(units: seq<TrueUnit>): seq<Entry> {
    if units == [] then []
    else
      var before, last := units[..|units| - 1], units[|units| - 1];
      var o, n := Record(before), Record(units);
      if o.complete || n.complete || n.writer.dropped != o.writer.dropped then Stored(before)
      else Stored(before) + [Entry(SignedDifference(Wrapped(last.time), n.writer.firstTimestamp), last.unit)]
  }

  function PayloadAt(entries: seq<Entry>, pts: int): seq<byte> {
    if entries == [] then []
    else
      var last := entries[|entries| - 1];
      PayloadAt(entries[..|entries| - 1], pts) + (if last.pts == pts then Avcc(Media(last.unit)) else [])
  }

  ghost predicate KeyAt(entries: seq<Entry>, pts: int) {
    entries != [] &&
    var last := entries[|entries| - 1];
    KeyAt(entries[..|entries| - 1], pts) || (last.pts == pts && IdrIn(last.unit))
  }

  lemma {:induction false} NothingLater(entries: seq<Entry>, pts: int)
    requires forall i | 0 <= i < |entries| :: entries[i].pts < pts
    ensures PayloadAt(entries, pts) == [] && !KeyAt(entries, pts)
  {
    if entries != [] {
      NothingLater(entries[..|entries| - 1], pts);
    }
  }

  /** A sample holds the media of the units stored at its time, and is a key sample exactly if one of them
      has an IDR picture. */
  ghost predicate Holds(sample: Sample, entries: seq<Entry>) {
    sample.payload == PayloadAt(entries, sample.pts) && (sample.idr <==> KeyAt(entries, sample.pts))
  }

  ghost predicate Covers(samples: seq<Sample>, entries: seq<Entry>) {
    forall k | 0 <= k < |entries| :: samples != [] && entries[k].pts <= samples[|samples| - 1].pts
  }

  ghost predicate Contains(samples: seq<Sample>, entries: seq<Entry>) {
    (forall i | 0 <= i < |samples| :: Holds(samples[i], entries)) && Covers(samples, entries)
  }

  lemma OneMoreStored(entries: seq<Entry>, e: Entry, more: seq<Entry>, pts: int)
    requires more == entries + [e]
    ensures PayloadAt(more, pts) == PayloadAt(entries, pts) + (if e.pts == pts then Avcc(Media(e.unit)) else [])
    ensures KeyAt(more, pts) <==> KeyAt(entries, pts) || (e.pts == pts && IdrIn(e.unit))
  {
    assert more[..|entries|] == entries;
  }

  lemma OtherSampleHolds(sample: Sample, entries: seq<Entry>, e: Entry, more: seq<Entry>)
    requires Holds(sample, entries) && sample.pts != e.pts && more == entries + [e]
    ensures Holds(sample, more)
  {
    OneMoreStored(entries, e, more, sample.pts);
  }

  lemma GrownSampleHolds(sample: Sample, entries: seq<Entry>, e: Entry, more: seq<Entry>)
    requires Holds(sample, entries) && sample.pts == e.pts && more == entries + [e]
    ensures Holds(Sample(e.pts, sample.payload + Avcc(Media(e.unit)), sample.idr || HasIdr(e.unit)), more)
  {
    OneMoreStored(entries, e, more, sample.pts);
    IdrIsFound(e.unit);
  }

  lemma NewSampleHolds(entries: seq<Entry>, e: Entry, more: seq<Entry>)
    requires (forall i | 0 <= i < |entries| :: entries[i].pts < e.pts) && more == entries + [e]
    ensures Holds(Sample(e.pts, Avcc(Media(e.unit)), HasIdr(e.unit)), more)
  {
    OneMoreStored(entries, e, more, e.pts);
    NothingLater(entries, e.pts);
    IdrIsFound(e.unit);
  }

  /** All samples but a new or grown last one stay what they were, and hold what they did. */
  lemma LastChanges(
      samples: seq<Sample>, front: seq<Sample>, last: Sample, e: Entry, entries: seq<Entry>, more: seq<Entry>)
    requires Contains(samples, entries) && more == entries + [e] && front <= samples && last.pts == e.pts
    requires forall i | 0 <= i < |front| :: front[i].pts < e.pts
    requires samples != [] ==> samples[|samples| - 1].pts <= e.pts
    requires Holds(last, more)
    ensures Contains(front + [last], more)
  {
    var next := front + [last];
    forall i | 0 <= i < |next|
      ensures Holds(next[i], more)
    {
      if i < |front| {
        assert next[i] == samples[i];
        OtherSampleHolds(samples[i], entries, e, more);
      }
    }
  }

  lemma StoreContains(w: Writer, e: Entry, entries: seq<Entry>, more: seq<Entry>, payload: seq<byte>, idr: bool)
    requires Contains(w.samples, entries) && Ordered(w.samples) && more == entries + [e]
    requires w.samples != [] ==> w.samples[|w.samples| - 1].pts <= e.pts
    requires payload == Avcc(Media(e.unit)) && idr == HasIdr(e.unit)
    ensures Contains(Store(w, e.pts, payload, idr).samples, more)
  {
    var n := |w.samples|;
    if n > 0 && w.samples[n - 1].pts == e.pts {
      GrownSampleHolds(w.samples[n - 1], entries, e, more);
      var grown := Sample(e.pts, w.samples[n - 1].payload + payload, w.samples[n - 1].idr || idr);
      LastChanges(w.samples, w.samples[..n - 1], grown, e, entries, more);
      assert Store(w, e.pts, payload, idr).samples == w.samples[..n - 1] + [grown];
    } else {
      NewSampleHolds(entries, e, more);
      LastChanges(w.samples, w.samples, Sample(e.pts, payload, idr), e, entries, more);
      assert Store(w, e.pts, payload, idr).samples == w.samples + [Sample(e.pts, payload, idr)];
    }
  }

  lemma UnitIsStored(w: Writer, t: Timestamp, unit: seq<Nalu>)
    requires Recording(w)
    ensures
      var o := AccessUnit(w, t, unit);
      var pts := SignedDifference(t, o.writer.firstTimestamp);
      if o.complete || o.writer.dropped != w.dropped then o.writer.samples == w.samples
      else o.writer.samples == Store(w, pts, Avcc(Media(unit)), HasIdr(unit)).samples
           && (w.samples != [] ==> w.samples[|w.samples| - 1].pts <= pts)
  {
  }

  /** The recording is exactly what was stored: every sample holds the media of the access units stored
      at its time, in order, and is marked as a key sample exactly if one of them has an IDR picture. */
  lemma {:induction false} RecordingContainsStored(units: seq<TrueUnit>)
    ensures Contains(Record(units).writer.samples, Stored(units))
  {
    if units == [] {
      NothingRecorded(units);
    } else {
      RecordingContainsStored(units[..|units| - 1]);
      RecordingGrows(units[..|units| - 1], units[|units| - 1], units);
    }
  }

  lemma NothingRecorded(units: seq<TrueUnit>)
    requires units == []
    ensures Contains(Record(units).writer.samples, Stored(units))
  {
  }

  lemma RecordingGrows(before: seq<TrueUnit>, last: TrueUnit, units: seq<TrueUnit>)
    requires units == before + [last] && Contains(Record(before).writer.samples, Stored(before))
    ensures Contains(Record(units).writer.samples, Stored(units))
  {
    if Record(before).complete { CompleteStays(before, last, units); } else { StoredOrNot(before, last, units); }
  }

  lemma CompleteStays(before: seq<TrueUnit>, last: TrueUnit, units: seq<TrueUnit>)
    requires units == before + [last] && Record(before).complete
    ensures Record(units) == Record(before) && Stored(units) == Stored(before)
  {
    assert units[..|units| - 1] == before;
  }

  lemma StoredOrNot(before: seq<TrueUnit>, last: TrueUnit, units: seq<TrueUnit>)
    requires units == before + [last] && !Record(before).complete
    requires Contains(Record(before).writer.samples, Stored(before))
    ensures Contains(Record(units).writer.samples, Stored(units))
  {
    var w, t := Record(before).writer, Wrapped(last.time);
    assert units[..|units| - 1] == before;
    UnitIsStored(w, t, last.unit);
    var n := AccessUnit(w, t, last.unit);
    if !n.complete && n.writer.dropped == w.dropped {
      var e := Entry(SignedDifference(t, n.writer.firstTimestamp), last.unit);
      assert Stored(units) == Stored(before) + [e];
      StoreContains(w, e, Stored(before), Stored(units), Avcc(Media(last.unit)), HasIdr(last.unit));
    }
  }

  /** The latest parameter set of a kind in a run. */
  function LatestOf(units: seq<TrueUnit>, kind: nat): Option<Nalu> {
    if units == [] then None
    else
      var unit := units[|units| - 1].unit;
      if LastOf(unit, kind).Some? then LastOf(unit, kind) else LatestOf(units[..|units| - 1], kind)
  }

  /** A recording that has not started yet knows the latest parameter sets, and one that starts keeps the
      ones known then. */
  lemma {:induction false} ParameterSetsAreLatest(units: seq<TrueUnit>)
    requires units != [] && !Record(units[..|units| - 1]).writer.started
    ensures Record(units).writer.sps == LatestOf(units, SPS) && Record(units).writer.pps == LatestOf(units, PPS)
  {
    var before, last := units[..|units| - 1], units[|units| - 1];
    if before != [] {
      NotStartedBefore(before);
      ParameterSetsAreLatest(before);
    }
    NotCompleteBefore(before);
    ParameterSetsTaken(Record(before).writer, Wrapped(last.time), last.unit);
  }

  lemma ParameterSetsTaken(w: Writer, t: Timestamp, unit: seq<Nalu>)
    requires !w.started
    ensures
      var n := AccessUnit(w, t, unit).writer;
      && n.sps == (if LastOf(unit, SPS).Some? then LastOf(unit, SPS) else w.sps)
      && n.pps == (if LastOf(unit, PPS).Some? then LastOf(unit, PPS) else w.pps)
  {
    AddMediaKeepsSets(WithParameterSets(w, unit).(started := true, firstTimestamp := t), t, unit);
  }

  lemma AddMediaKeepsSets(w: Writer, t: Timestamp, unit: seq<Nalu>)
    ensures AddMedia(w, t, unit).writer.sps == w.sps && AddMedia(w, t, unit).writer.pps == w.pps
  {
  }

  lemma NotStartedBefore(units: seq<TrueUnit>)
    requires units != [] && !Record(units).writer.started
    ensures !Record(units[..|units| - 1]).writer.started
  {
  }

  lemma {:induction false} NotCompleteBefore(units: seq<TrueUnit>)
    requires !Record(units).writer.started
    ensures !Record(units).complete
  {
    if units != [] {
      NotStartedBefore(units);
      NotCompleteBefore(units[..|units| - 1]);
    }
  }
}
