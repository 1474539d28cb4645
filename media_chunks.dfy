/** Framing decisions for outgoing media samples: which chunk header format a
    sample gets, and which integer timestamp it carries. The stream's sample
    emitters apply one step of each per sample; the run functions below
    iterate those steps so that properties of whole runs can be stated. */
module MediaChunks {
  import opened RtmpMessages

  /** The "already sent" table: a media kind is a key once a chunk of that
      kind has been written since the table was last emptied. */
  type ChunkTable = map<MediaType, bool>

  /** A sample gets a full (Type 0) header exactly when no chunk of its kind
      has been written since the table was emptied. */
  function FormatFor(table: ChunkTable, kind: MediaType): ChunkFormat
  {
    if kind in table then One else Zero
  }

  /** Accumulator values that the UInt32 conversion accepts. */
  predicate InWireRange(acc: real)
  {
    0.0 <= acc < Uint32Limit as real
  }

  /** Largest sample timestamp for which the next accumulator still converts. */
  const MaxSampleTimestamp: real := (Uint32Limit - 1) as real

  predicate SampleTimestamp(t: real)
  {
    0.0 <= t <= MaxSampleTimestamp
  }

  /** The wire timestamp of a chunk: the accumulator truncated to UInt32. */
  function WireTimestamp(acc: real): (n: nat)
    requires InWireRange(acc)
    ensures n < Uint32Limit
    ensures n as real <= acc < n as real + 1.0
  {
    acc.Floor
  }

  /** The accumulator after a sample with timestamp `t`: the sample's timestamp
      plus the fractional part the previous truncation dropped. Nothing is
      lost: what was written plus what is carried equals what came in. */
  function Carry(acc: real, t: real): (next: real)
    requires InWireRange(acc) && SampleTimestamp(t)
    ensures InWireRange(next)
    ensures t <= next < t + 1.0
    ensures WireTimestamp(acc) as real + next == acc + t
  {
    t + (acc - acc.Floor as real)
  }

  // ---------------------------------------------------------------------
  // Chunk formats over a run of samples

  /** Formats chosen for samples of the given kinds, in order, from `table`. */
  function FormatRun(table: ChunkTable, kinds: seq<MediaType>): (fs: seq<ChunkFormat>)
    ensures |fs| == |kinds|
    decreases |kinds|
  {
    if kinds == [] then []
    else [FormatFor(table, kinds[0])] + FormatRun(table[kinds[0] := true], kinds[1..])
  }

  /** A run of `n` samples, all of kind `kind`. */
  function Repeat(kind: MediaType, n: nat): (kinds: seq<MediaType>)
    ensures |kinds| == n
  {
    if n == 0 then [] else [kind] + Repeat(kind, n - 1)
  }

  /** The table after a run of samples of the given kinds. */
  function TableAfter(table: ChunkTable, kinds: seq<MediaType>): ChunkTable
    decreases |kinds|
  {
    if kinds == [] then table
    else TableAfter(table[kinds[0] := true], kinds[1..])
  }

  /** A sample gets a full header iff its kind was not in the table and no
      earlier sample of the run had that kind. */
  lemma {:induction false} FormatRunFirstOfKind(table: ChunkTable, kinds: seq<MediaType>, i: nat)
    requires i < |kinds|
    ensures FormatRun(table, kinds)[i] == Zero <==> kinds[i] !in table && kinds[i] !in kinds[..i]
    decreases i
  {
    if i > 0 {
      FormatRunFirstOfKind(table[kinds[0] := true], kinds[1..], i - 1);
      assert kinds[..i] == [kinds[0]] + kinds[1..][..i - 1];
    }
  }

  /** After the table is emptied, the first sample of each kind gets format
      Zero and every later sample of that kind gets format One. */
  lemma FormatRunAfterClear(kinds: seq<MediaType>, i: nat)
    requires i < |kinds|
    ensures FormatRun(map[], kinds)[i] == Zero <==> kinds[i] !in kinds[..i]
    ensures FormatRun(map[], kinds)[i] == One <==> kinds[i] in kinds[..i]
  {
    FormatRunFirstOfKind(map[], kinds, i);
  }

  /** The table after a run holds exactly the kinds it held plus those of the run. */
  lemma {:induction false} TableAfterKeys(table: ChunkTable, kinds: seq<MediaType>)
    ensures TableAfter(table, kinds).Keys == table.Keys + (set i | 0 <= i < |kinds| :: kinds[i])
    decreases |kinds|
  {
    if kinds != [] {
      TableAfterKeys(table[kinds[0] := true], kinds[1..]);
      assert (set i | 0 <= i < |kinds| :: kinds[i])
          == {kinds[0]} + (set i | 0 <= i < |kinds[1..]| :: kinds[1..][i]);
    }
  }

  /** The i-th format of a run is the one the table after the first i
      samples gives. */
  lemma {:induction false} FormatRunAt(table: ChunkTable, kinds: seq<MediaType>, i: nat)
    requires i < |kinds|
    ensures FormatRun(table, kinds)[i] == FormatFor(TableAfter(table, kinds[..i]), kinds[i])
    decreases i
  {
    if i > 0 {
      FormatRunAt(table[kinds[0] := true], kinds[1..], i - 1);
      assert kinds[..i][1..] == kinds[1..][..i - 1];
    }
  }

  // ---------------------------------------------------------------------
  // Timestamps over a run of samples of one kind

  predicate SampleTimestamps(ts: seq<real>)
  {
    forall i :: 0 <= i < |ts| ==> SampleTimestamp(ts[i])
  }

  /** The accumulator after a run of samples with timestamps `ts`. */
  function AccumulatorAfter(acc: real, ts: seq<real>): (r: real)
    requires InWireRange(acc) && SampleTimestamps(ts)
    ensures InWireRange(r)
    decreases |ts|
  {
    if ts == [] then acc else AccumulatorAfter(Carry(acc, ts[0]), ts[1..])
  }

  /** The wire timestamps written for a run of samples with timestamps `ts`. */
  function EmittedRun(acc: real, ts: seq<real>): (ws: seq<nat>)
    requires InWireRange(acc) && SampleTimestamps(ts)
    ensures |ws| == |ts|
    decreases |ts|
  {
    if ts == [] then [] else [WireTimestamp(acc)] + EmittedRun(Carry(acc, ts[0]), ts[1..])
  }

  /** The i-th chunk of a run carries the truncation of the accumulator as it
      stood after the first i samples: the first chunk carries the starting
      accumulator, and a sample's own timestamp reaches the wire with the
      next chunk of its kind. */
  lemma {:induction false} EmittedRunAt(acc: real, ts: seq<real>, i: nat)
    requires InWireRange(acc) && SampleTimestamps(ts) && i < |ts|
    ensures SampleTimestamps(ts[..i])
    ensures EmittedRun(acc, ts)[i] == WireTimestamp(AccumulatorAfter(acc, ts[..i]))
    decreases i
  {
    assert SampleTimestamps(ts[..i]) by {
      forall j | 0 <= j < i ensures SampleTimestamp(ts[..i][j]) {
        assert ts[..i][j] == ts[j];
      }
    }
    if i > 0 {
      EmittedRunAt(Carry(acc, ts[0]), ts[1..], i - 1);
      assert ts[..i][1..] == ts[1..][..i - 1];
    }
  }

  function SumNat(ws: seq<nat>): nat
  {
    if ws == [] then 0 else ws[0] + SumNat(ws[1..])
  }

  function SumReal(ts: seq<real>): real
  {
    if ts == [] then 0.0 else ts[0] + SumReal(ts[1..])
  }

  /** Timestamps are conserved over a run: the wire timestamps written plus the
      final accumulator equal the starting accumulator plus every sample's
      timestamp. The fractional remainders are carried, never dropped. */
  lemma {:induction false} RunConservesTime(acc: real, ts: seq<real>)
    requires InWireRange(acc) && SampleTimestamps(ts)
    ensures SumNat(EmittedRun(acc, ts)) as real + AccumulatorAfter(acc, ts) == acc + SumReal(ts)
    decreases |ts|
  {
    if ts != [] {
      RunConservesTime(Carry(acc, ts[0]), ts[1..]);
    }
  }

  /** After a non-empty run the accumulator lies within one unit above the
      last sample's timestamp. */
  lemma {:induction false} AccumulatorAfterTracksLast(acc: real, ts: seq<real>)
    requires InWireRange(acc) && SampleTimestamps(ts) && ts != []
    ensures ts[|ts| - 1] <= AccumulatorAfter(acc, ts) < ts[|ts| - 1] + 1.0
    decreases |ts|
  {
    if |ts| > 1 {
      AccumulatorAfterTracksLast(Carry(acc, ts[0]), ts[1..]);
    }
  }

  lemma {:induction false} SumRealSplitLast(ts: seq<real>)
    requires ts != []
    ensures SumReal(ts) == SumReal(ts[..|ts| - 1]) + ts[|ts| - 1]
  {
    if |ts| > 1 {
      SumRealSplitLast(ts[1..]);
      assert ts[1..][..|ts| - 2] == ts[..|ts| - 1][1..];
    }
  }

  /** No drift: the wire timestamps of a run add up to the starting
      accumulator plus every sample timestamp but the last, to within less
      than one unit. Each chunk carries the timestamp accumulated before its
      own sample is folded in. */
  lemma RunTracksElapsedTime(acc: real, ts: seq<real>)
    requires InWireRange(acc) && SampleTimestamps(ts) && ts != []
    ensures acc + SumReal(ts[..|ts| - 1]) - 1.0 < SumNat(EmittedRun(acc, ts)) as real
    ensures SumNat(EmittedRun(acc, ts)) as real <= acc + SumReal(ts[..|ts| - 1])
  {
    RunConservesTime(acc, ts);
    AccumulatorAfterTracksLast(acc, ts);
    SumRealSplitLast(ts);
  }
}
