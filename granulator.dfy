/**
 * The sample slicer and single-source player of `Granulator`
 * (src/lib/granulator.ts).
 *
 * Times are exact reals rather than IEEE doubles. A decoded buffer follows
 * the Web Audio definition: `duration` is `length / sampleRate` and every
 * channel holds `length` samples.
 */
module Granulator {
  import opened Options

  /**
   * `decodeAudioData` resamples to the context's rate, and `createBuffer`
   * accepts that rate. A well-formed buffer stands for such a buffer: its
   * rate is bounded to 3000 Hz to 768000 Hz, so every context running
   * inside that range is covered, and a decoded rate outside it is not.
   */
  const MinSampleRate: real := 3000.0
  const MaxSampleRate: real := 768000.0

  datatype AudioBuffer = AudioBuffer(sampleRate: real, length: nat, channels: seq<seq<real>>)
  {
    ghost predicate Valid()
    {
      && MinSampleRate <= sampleRate <= MaxSampleRate
      && |channels| > 0
      && forall c :: 0 <= c < |channels| ==> |channels[c]| == length
    }

    function NumberOfChannels(): nat
    {
      |channels|
    }

    function Duration(): real
      requires sampleRate > 0.0
    {
      length as real / sampleRate
    }
  }

  datatype AudioChunk = AudioChunk(start: real, duration: real, buffer: AudioBuffer)

  // ---------------------------------------------------------------------
  // What `sliceIntoChunks` computes, as functions of the buffer and the
  // number of chunks.
  // ---------------------------------------------------------------------

  ghost function ChunkDuration(b: AudioBuffer, n: int): real
    requires b.Valid() && n > 0
  {
    b.Duration() / n as real
  }

  ghost function StartTime(b: AudioBuffer, n: int, i: nat): real
    requires b.Valid() && n > 0
  {
    i as real * ChunkDuration(b, n)
  }

  /** `Math.floor(startTime * sampleRate)`. */
  ghost function StartSample(b: AudioBuffer, n: int, i: nat): (s: nat)
    requires b.Valid() && n > 0
    ensures s == (i * b.length) / n
  {
    ScaledTimeIsExact(b, n, i);
    (StartTime(b, n, i) * b.sampleRate).Floor
  }

  /** `Math.floor(chunkDuration * sampleRate)`. */
  ghost function ChunkSamples(b: AudioBuffer, n: int): (count: nat)
    requires b.Valid() && n > 0
    ensures count == b.length / n
  {
    ScaledTimeIsExact(b, n, 1);
    (ChunkDuration(b, n) * b.sampleRate).Floor
  }

  /**
   * One channel of a chunk: sample `j` is copied from `start + j` while that
   * index is inside the original, and stays at createBuffer's 0 otherwise.
   */
  ghost function ChunkChannel(original: seq<real>, start: nat, count: nat): seq<real>
  {
    seq(count, j requires 0 <= j < count =>
      if start + j < |original| then original[start + j] else 0.0)
  }

  ghost function ChunkBuffer(b: AudioBuffer, start: nat, count: nat): AudioBuffer
  {
    AudioBuffer(b.sampleRate, count,
      seq(|b.channels|, c requires 0 <= c < |b.channels| => ChunkChannel(b.channels[c], start, count)))
  }

  ghost function ChunkAt(b: AudioBuffer, n: int, i: nat): AudioChunk
    requires b.Valid() && n > 0
  {
    AudioChunk(StartTime(b, n, i), ChunkDuration(b, n),
      ChunkBuffer(b, StartSample(b, n, i), ChunkSamples(b, n)))
  }

  /** The chunk table a successful slice produces. */
  ghost function Chunks(b: AudioBuffer, n: int): seq<AudioChunk>
    requires b.Valid()
  {
    if n <= 0 then [] else seq(n, i requires 0 <= i < n => ChunkAt(b, n, i))
  }

  /**
   * `createBuffer` refuses a length of 0 (NotSupportedError), so slicing
   * into a positive number of chunks shorter than one sample throws.
   */
  ghost predicate SliceSucceeds(b: AudioBuffer, n: int)
    requires b.Valid()
  {
    n <= 0 || ChunkSamples(b, n) > 0
  }

  ghost function TotalDuration(chunks: seq<AudioChunk>): real
  {
    if chunks == [] then 0.0 else chunks[0].duration + TotalDuration(chunks[1..])
  }

  // ---------------------------------------------------------------------
  // The copy loops.
  // ---------------------------------------------------------------------

  /**
   * The innermost loop: writes `originalData[startSample + j]` into
   * `chunkData[j]` while the source index is in range; the other entries
   * keep what they held.
   */
  method CopyChannel(originalData: seq<real>, chunkData: array<real>, startSample: nat)
    modifies chunkData
    ensures forall j :: 0 <= j < chunkData.Length ==>
      chunkData[j] == if startSample + j < |originalData| then originalData[startSample + j] else old(chunkData[j])
  {
    for j := 0 to chunkData.Length
      invariant forall k :: 0 <= k < j ==>
        chunkData[k] == if startSample + k < |originalData| then originalData[startSample + k] else old(chunkData[k])
      invariant forall k :: j <= k < chunkData.Length ==> chunkData[k] == old(chunkData[k])
    {
      if startSample + j < |originalData| {
        chunkData[j] := originalData[startSample + j];
      }
    }
  }

  /**
   * The channel loop for one chunk: each channel of the new buffer starts
   * zero-filled, as `createBuffer` leaves it, and is filled by CopyChannel.
   */
  method CopyIntoChunk(original: AudioBuffer, startSample: nat, chunkSamples: nat) returns (chunkBuffer: AudioBuffer)
    ensures chunkBuffer.sampleRate == original.sampleRate
    ensures chunkBuffer.length == chunkSamples
    ensures |chunkBuffer.channels| == |original.channels|
    ensures forall c, j :: 0 <= c < |original.channels| && 0 <= j < chunkSamples ==>
      |chunkBuffer.channels[c]| == chunkSamples &&
      chunkBuffer.channels[c][j] ==
        if startSample + j < |original.channels[c]| then original.channels[c][startSample + j] else 0.0
    ensures chunkBuffer == ChunkBuffer(original, startSample, chunkSamples)
  {
    var channels: seq<seq<real>> := [];
    for channel := 0 to |original.channels|
      invariant |channels| == channel
      invariant forall c :: 0 <= c < channel ==> channels[c] == ChunkChannel(original.channels[c], startSample, chunkSamples)
    {
      var chunkData := new real[chunkSamples](_ => 0.0);
      CopyChannel(original.channels[channel], chunkData, startSample);
      assert chunkData[..] == ChunkChannel(original.channels[channel], startSample, chunkSamples);
      channels := channels + [chunkData[..]];
    }
    chunkBuffer := AudioBuffer(original.sampleRate, chunkSamples, channels);
  }

  // ---------------------------------------------------------------------
  // The player's buffer source nodes.
  // ---------------------------------------------------------------------

  /** An `AudioBufferSourceNode`, reduced to what `playChunk` does with it. */
  class BufferSource {
    var buffer: Option<AudioBuffer>
    var started: bool
    var stopped: bool
    /** Connected to the audio context's destination. */
    var connected: bool

    constructor ()
      ensures buffer == None && !started && !stopped && !connected
    {
      buffer := None;
      started, stopped, connected := false, false, false;
    }

    /** Started, not stopped and connected to the output. */
    predicate Sounding()
      reads this
    {
      started && !stopped && connected
    }
  }

  class Granulator {
    var buffer: Option<AudioBuffer>
    var chunks: seq<AudioChunk>
    var currentSource: BufferSource?
    /** Every source this player has created. */
    ghost var sources: set<BufferSource>

    /** A loaded buffer is well formed, and only the current source can sound. */
    ghost predicate Valid()
      reads this, sources
    {
      && (buffer.Some? ==> buffer.value.Valid())
      && (currentSource != null ==> currentSource in sources && currentSource.started)
      && forall s :: s in sources && s.Sounding() ==> s == currentSource
    }

    constructor ()
      ensures Valid()
      ensures buffer == None && chunks == [] && currentSource == null && sources == {}
    {
      buffer := None;
      chunks := [];
      currentSource := null;
      sources := {};
    }

    /**
     * `loadAudio` after the file has been read and decoded: `decoded` is
     * the decoder's result, `None` when it rejected. A decoding failure
     * changes nothing; otherwise the buffer is stored and sliced into 200
     * chunks. `ok` is false when the load throws.
     */
    method LoadAudio(decoded: Option<AudioBuffer>) returns (ok: bool)
      requires Valid()
      requires decoded.Some? ==> decoded.value.Valid()
      modifies this
      ensures Valid()
      ensures currentSource == old(currentSource) && sources == old(sources)
      ensures decoded == None ==> !ok && buffer == old(buffer) && chunks == old(chunks)
      ensures decoded.Some? ==> buffer == decoded
      ensures decoded.Some? ==> ok == SliceSucceeds(decoded.value, 200)
      ensures decoded.Some? ==> chunks == if ok then Chunks(decoded.value, 200) else []
    {
      if decoded == None {
        return false;
      }
      buffer := decoded;
      ok := SliceIntoChunks(200);
    }

    /**
     * Replaces the chunk table by `numChunks` chunks of equal duration.
     * Without a buffer nothing happens. `ok` is false when `createBuffer`
     * throws, in which case the table has already been emptied.
     */
    method SliceIntoChunks(numChunks: int) returns (ok: bool)
      requires Valid()
      modifies this
      ensures Valid()
      ensures buffer == old(buffer) && currentSource == old(currentSource) && sources == old(sources)
      ensures buffer == None ==> ok && chunks == old(chunks)
      ensures buffer.Some? ==> ok == SliceSucceeds(buffer.value, numChunks)
      ensures buffer.Some? ==> chunks == if ok then Chunks(buffer.value, numChunks) else []
    {
      if buffer == None {
        return true;
      }
      var b := buffer.value;
      var duration := b.Duration();
      // With no chunk to build, the loop below never reads this value.
      var chunkDuration := if numChunks > 0 then duration / numChunks as real else 0.0;
      var sampleRate := b.sampleRate;
      chunks := [];
      ok := true;
      for i := 0 to if numChunks > 0 then numChunks else 0
        invariant buffer == Some(b) && currentSource == old(currentSource) && sources == old(sources)
        invariant |chunks| == i
        invariant forall k :: 0 <= k < i ==> chunks[k] == ChunkAt(b, numChunks, k)
        invariant i > 0 ==> ChunkSamples(b, numChunks) > 0
      {
        var startTime := i as real * chunkDuration;
        var startSample := (startTime * sampleRate).Floor;
        var chunkSamples := (chunkDuration * sampleRate).Floor;
        assert startSample == StartSample(b, numChunks, i);
        assert chunkSamples == ChunkSamples(b, numChunks);
        if chunkSamples == 0 {
          // createBuffer(numChannels, 0, sampleRate) throws
          return false;
        }
        var chunkBuffer := CopyIntoChunk(b, startSample, chunkSamples);
        chunks := chunks + [AudioChunk(startTime, chunkDuration, chunkBuffer)];
      }
    }

    /** The current chunk table, as stored. */
    method GetChunks() returns (table: seq<AudioChunk>)
      ensures table == chunks
    {
      table := chunks;
    }

    /**
     * Stops and disconnects the current source, if any, then installs a
     * new source playing `chunk.buffer` through the destination. Afterwards
     * the new source is the only sounding source this player ever created.
     */
    method PlayChunk(chunk: AudioChunk)
      requires Valid()
      modifies this, currentSource
      ensures Valid()
      ensures fresh(currentSource)
      ensures currentSource.buffer == Some(chunk.buffer) && currentSource.Sounding()
      ensures sources == old(sources) + {currentSource}
      ensures forall s :: s in sources ==> (s.Sounding() <==> s == currentSource)
      ensures old(currentSource) != null ==> old(currentSource).stopped && !old(currentSource).connected
      ensures old(currentSource) != null ==>
        old(currentSource).buffer == old(currentSource.buffer) && old(currentSource).started == old(currentSource.started)
      ensures buffer == old(buffer) && chunks == old(chunks)
    {
      if currentSource != null {
        currentSource.stopped := true;
        currentSource.connected := false;
      }
      var source := new BufferSource();
      source.buffer := Some(chunk.buffer);
      source.connected := true;
      source.started := true;
      currentSource := source;
      sources := sources + {source};
    }
  }

  // ---------------------------------------------------------------------
  // Properties of the chunk table.
  // ---------------------------------------------------------------------

  lemma MulLeft(n: int, a: int, b: int)
    requires n >= 0 && a <= b
    ensures n * a <= n * b
  {
  }

  lemma FloorOfQuotient(a: int, d: int)
    requires a >= 0 && d > 0
    ensures (a as real / d as real).Floor == a / d
  {
    var q, r := a / d, a % d;
    assert a == q * d + r;
    assert (q as real) * (d as real) + r as real == a as real;
    assert a as real / d as real == q as real + r as real / d as real;
    assert 0.0 <= r as real / d as real < 1.0;
  }

  lemma DivLowerBound(m: int, q: int, n: int)
    requires n > 0 && q >= 0 && n * q <= m
    ensures q <= m / n
  {
    assert m == n * (m / n) + m % n;
    assert n * (m / n + 1) == n * (m / n) + n;
    if m / n < q {
      MulLeft(n, m / n + 1, q);
    }
  }

  lemma DivAdd(x: nat, y: nat, n: int)
    requires n > 0
    ensures x / n + y / n <= (x + y) / n
  {
    assert x == n * (x / n) + x % n;
    assert y == n * (y / n) + y % n;
    assert n * (x / n + y / n) == n * (x / n) + n * (y / n);
    DivLowerBound(x + y, x / n + y / n, n);
  }

  lemma DivMonotone(x: nat, y: nat, n: int)
    requires n > 0 && x <= y
    ensures x / n <= y / n
  {
    DivAdd(x, y - x, n);
  }

  /**
   * In exact arithmetic the sample position of time `i * chunkDuration`
   * is `i * length / n` rounded down.
   */
  lemma ScaledTimeIsExact(b: AudioBuffer, n: int, i: nat)
    requires b.Valid() && n > 0
    ensures StartTime(b, n, i) * b.sampleRate == (i * b.length) as real / n as real
    ensures (StartTime(b, n, i) * b.sampleRate).Floor == (i * b.length) / n
    ensures ChunkDuration(b, n) * b.sampleRate == b.length as real / n as real
  {
    var sr, len := b.sampleRate, b.length as real;
    assert StartTime(b, n, i) * sr == i as real * ((len / sr) / n as real) * sr;
    assert (i * b.length) as real == i as real * len;
    FloorOfQuotient(i * b.length, n);
  }

  /** Slicing the loaded buffer succeeds exactly when there are no more chunks than samples. */
  lemma SliceSucceedsIff(b: AudioBuffer, n: int)
    requires b.Valid() && n > 0
    ensures SliceSucceeds(b, n) <==> n <= b.length
  {
  }

  /**
   * The table has `max(n, 0)` chunks in index order; chunk `i` starts at
   * `i * (duration / n)`; all share the duration `duration / n`, the
   * source's sample rate and channel count, and one length.
   */
  lemma ChunkTableShape(b: AudioBuffer, n: int)
    requires b.Valid()
    ensures |Chunks(b, n)| == if n > 0 then n else 0
    ensures forall i :: 0 <= i < |Chunks(b, n)| ==>
      && Chunks(b, n)[i].start == i as real * (b.Duration() / n as real)
      && Chunks(b, n)[i].duration == b.Duration() / n as real
      && Chunks(b, n)[i].buffer.sampleRate == b.sampleRate
      && Chunks(b, n)[i].buffer.NumberOfChannels() == b.NumberOfChannels()
      && Chunks(b, n)[i].buffer.length == b.length / n
  {
  }

  /**
   * Every chunk buffer is well formed when the slice succeeds, and holds,
   * per channel, the samples the copy loop writes.
   */
  lemma ChunkContents(b: AudioBuffer, n: int, i: nat, c: nat, j: nat)
    requires b.Valid() && SliceSucceeds(b, n) && i < n && c < |b.channels|
    requires j < ChunkSamples(b, n)
    ensures Chunks(b, n)[i].buffer.Valid()
    ensures Chunks(b, n)[i].buffer.channels[c][j] ==
      var start := StartSample(b, n, i);
      if start + j < b.length then b.channels[c][start + j] else 0.0
  {
  }

  /**
   * Consecutive chunks tile the buffer without overlap, and the last one
   * ends inside it: `StartSample(i) + ChunkSamples <= StartSample(i + 1)`.
   */
  lemma {:induction false} ChunksTile(b: AudioBuffer, n: int, i: nat)
    requires b.Valid() && n > 0 && i < n
    ensures StartSample(b, n, i) + ChunkSamples(b, n) <= StartSample(b, n, i + 1)
    ensures StartSample(b, n, i) + ChunkSamples(b, n) <= b.length
  {
    DivAdd(i * b.length, b.length, n);
    assert i * b.length + b.length == (i + 1) * b.length;
    MulLeft(b.length, i + 1, n);
    DivMonotone((i + 1) * b.length, n * b.length, n);
    assert (n * b.length) / n == b.length by {
      DivLowerBound(n * b.length, b.length, n);
      MulLeft(n, (n * b.length) / n, b.length);
    }
  }

  /** Chunks `i < k` never share a sample of the source. */
  lemma {:induction false} ChunksDisjoint(b: AudioBuffer, n: int, i: nat, k: nat)
    requires b.Valid() && n > 0 && i < k < n
    ensures StartSample(b, n, i) + ChunkSamples(b, n) <= StartSample(b, n, k)
  {
    ChunksTile(b, n, i);
    ScaledStartsMonotone(b.length, n, i + 1, k);
  }

  /** `i * len / n` does not decrease with `i`. */
  lemma ScaledStartsMonotone(len: nat, n: int, i: nat, k: nat)
    requires n > 0 && i <= k
    ensures (i * len) / n <= (k * len) / n
  {
    MulLeft(len, i, k);
    assert len * i == i * len && len * k == k * len;
    DivMonotone(i * len, k * len, n);
  }

  /**
   * In exact arithmetic the zero fill is never needed: every channel of
   * chunk `i` is exactly the slice of the source it covers.
   */
  lemma {:induction false} ChunkIsExactSlice(b: AudioBuffer, n: int, i: nat, c: nat)
    requires b.Valid() && n > 0 && i < n && c < |b.channels|
    ensures
      var start, count := StartSample(b, n, i), ChunkSamples(b, n);
      start + count <= b.length &&
      Chunks(b, n)[i].buffer.channels[c] == b.channels[c][start .. start + count]
  {
    ChunksTile(b, n, i);
    assert Chunks(b, n)[i] == ChunkAt(b, n, i);
  }

  lemma {:induction false} UniformTotal(chunks: seq<AudioChunk>, d: real)
    requires forall k :: 0 <= k < |chunks| ==> chunks[k].duration == d
    ensures TotalDuration(chunks) == |chunks| as real * d
  {
    if chunks != [] {
      UniformTotal(chunks[1..], d);
      assert |chunks| as real * d == d + (|chunks| - 1) as real * d;
    }
  }

  /** The chunk durations add up to the buffer's duration. */
  lemma {:induction false} DurationsSumToWhole(b: AudioBuffer, n: int)
    requires b.Valid() && n > 0
    ensures TotalDuration(Chunks(b, n)) == b.Duration()
  {
    UniformTotal(Chunks(b, n), ChunkDuration(b, n));
    assert n as real * (b.Duration() / n as real) == b.Duration();
  }

  /**
   * A 4-second buffer sliced into 200 chunks: the slice succeeds, and gives
   * 200 chunks of 0.02 s, the last starting at 3.98 s.
   */
  lemma FourSecondsInto200(b: AudioBuffer)
    requires b.Valid() && b.Duration() == 4.0
    ensures SliceSucceeds(b, 200)
    ensures |Chunks(b, 200)| == 200
    ensures Chunks(b, 200)[0].start == 0.0 && Chunks(b, 200)[199].start == 3.98
    ensures forall i :: 0 <= i < 200 ==> Chunks(b, 200)[i].duration == 0.02
  {
    assert b.length as real == 4.0 * b.sampleRate;
    SliceSucceedsIff(b, 200);
  }
}
