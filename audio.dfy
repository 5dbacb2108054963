/**
 * The rolling audio buffer: recent sample chunks, oldest first, with a
 * running sample count; appending evicts the oldest chunks until the
 * count fits the capacity again.
 */
module Audio {

  /** Total number of samples in `chunks`. */
  function TotalOf(chunks: seq<seq<real>>): nat {
    if chunks == [] then 0 else |chunks[0]| + TotalOf(chunks[1..])
  }

  /** The chunks laid end to end. */
  function Concat(chunks: seq<seq<real>>): (r: seq<real>)
    ensures |r| == TotalOf(chunks)
  {
    if chunks == [] then [] else chunks[0] + Concat(chunks[1..])
  }

  /** The chunks left after dropping the oldest ones while the count exceeds
      `maxSamples`: the longest suffix that fits, reached by dropping as few
      chunks as possible. */
  function Evict(chunks: seq<seq<real>>, maxSamples: nat): (r: seq<seq<real>>)
    ensures |r| <= |chunks| && r == chunks[|chunks| - |r|..]
    ensures TotalOf(r) <= maxSamples
    ensures forall k :: 0 <= k < |chunks| - |r| ==> TotalOf(chunks[k..]) > maxSamples
  {
    if chunks != [] && TotalOf(chunks) > maxSamples then
      var r := Evict(chunks[1..], maxSamples);
      forall k | 0 <= k < |chunks| - |r|
        ensures TotalOf(chunks[k..]) > maxSamples
      {
        if k > 0 {
          assert chunks[k..] == chunks[1..][k - 1..];
        }
      }
      assert r == chunks[|chunks| - |r|..] by {
        assert chunks[1..][|chunks[1..]| - |r|..] == chunks[|chunks| - |r|..];
      }
      r
    else chunks
  }

  /** A chunk longer than the whole capacity empties the buffer. */
  lemma {:induction false} OversizedChunkEmpties(chunks: seq<seq<real>>, samples: seq<real>, maxSamples: nat)
    requires |samples| > maxSamples
    ensures Evict(chunks + [samples], maxSamples) == []
  {
    var all := chunks + [samples];
    var r := Evict(all, maxSamples);
    if r != [] {
      assert r[|r| - 1] == samples;
      SuffixTotalAtLeastLast(r);
    }
  }

  /** A nonempty run of chunks holds at least as many samples as its last chunk. */
  lemma {:induction false} SuffixTotalAtLeastLast(chunks: seq<seq<real>>)
    requires chunks != []
    ensures TotalOf(chunks) >= |chunks[|chunks| - 1]|
  {
    if |chunks| > 1 {
      SuffixTotalAtLeastLast(chunks[1..]);
    }
  }

  class RollingAudioBuffer {
    const sampleRate: int
    const maxSamples: nat
    var chunks: seq<seq<real>>
    var totalSamples: int

    /** The running count is the chunks' total and fits the capacity. */
    predicate Valid()
      reads this
    {
      maxSamples >= 1 && totalSamples == TotalOf(chunks) && totalSamples <= maxSamples
    }

    /** The capacity is `maxSeconds * sampleRate` samples, at least one. */
    constructor(maxSeconds: int, sampleRate: int)
      ensures Valid() && chunks == []
      ensures maxSamples >= 1
      ensures maxSeconds * sampleRate >= 1 ==> maxSamples == maxSeconds * sampleRate
      ensures this.sampleRate == sampleRate
    {
      this.sampleRate := sampleRate;
      var product := maxSeconds * sampleRate;
      maxSamples := if product < 1 then 1 else product;
      chunks := [];
      totalSamples := 0;
    }

    /** Push the chunk, then pop the oldest chunks while over capacity. */
    method Append(samples: seq<real>)
      requires Valid()
      modifies this
      ensures Valid()
      ensures chunks == Evict(old(chunks) + [samples], maxSamples)
    {
      ghost var all := chunks + [samples];
      chunks := chunks + [samples];
      TotalAppend(old(chunks), samples);
      totalSamples := totalSamples + |samples|;
      while totalSamples > maxSamples && chunks != []
        invariant totalSamples == TotalOf(chunks)
        invariant Evict(chunks, maxSamples) == Evict(all, maxSamples)
        decreases |chunks|
      {
        totalSamples := totalSamples - |chunks[0]|;
        chunks := chunks[1..];
      }
    }

    /** The newest `maxSamples` samples, oldest first. */
    function Snapshot(): (r: seq<real>)
      reads this
      ensures |r| <= maxSamples
      ensures |r| <= |Concat(chunks)| && r == Concat(chunks)[|Concat(chunks)| - |r|..]
      ensures chunks == [] ==> r == []
    {
      if chunks == [] then []
      else
        var merged := Concat(chunks);
        if |merged| > maxSamples then merged[|merged| - maxSamples..] else merged
    }

    /** While the buffer is valid nothing needs cutting: the snapshot is
        every buffered sample, `totalSamples` of them. */
    lemma SnapshotIsEverything()
      requires Valid()
      ensures Snapshot() == Concat(chunks)
      ensures |Snapshot()| == totalSamples
    {
    }
  }

  /** Appending a chunk adds its length to the total. */
  lemma {:induction false} TotalAppend(chunks: seq<seq<real>>, samples: seq<real>)
    ensures TotalOf(chunks + [samples]) == TotalOf(chunks) + |samples|
  {
    if chunks != [] {
      TotalAppend(chunks[1..], samples);
      assert (chunks + [samples])[1..] == chunks[1..] + [samples];
    }
  }
}
