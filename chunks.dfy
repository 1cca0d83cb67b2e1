/** Periodic emission of the audio recorded so far (src/audio/chunks.py). */
module Chunks {
  import opened Wrappers
  import opened Frames

  /** The updated `(last_time, last_index)` pair, and the chunk handed to the
      chunk callback, if one was. */
  datatype Emission = Emission(lastTime: real, lastIndex: nat, chunk: Option<seq<Sample>>)

  /** `emit_chunk_if_ready`: emit the whole recording so far once at least
      `chunkInterval` seconds have passed since the last emission and more than
      `sampleRate` samples have arrived since then. The callback is invoked at
      most once, and only on emission. */
  function EmitChunkIfReady(buffers: seq<Frame>, lastTime: real, lastIndex: nat,
                            currentTime: real, chunkInterval: real, sampleRate: nat): (r: Emission)
    ensures currentTime - lastTime < chunkInterval ==> r == Emission(lastTime, lastIndex, None)
    ensures TotalSamples(buffers) <= lastIndex + sampleRate ==> r == Emission(lastTime, lastIndex, None)
    ensures r.chunk.Some? <==>
              currentTime - lastTime >= chunkInterval && TotalSamples(buffers) > lastIndex + sampleRate
    ensures r.chunk.Some? ==>
              && r.chunk.value == Concat(buffers)
              && r.lastTime == currentTime
              && r.lastIndex == |r.chunk.value|
              && r.lastIndex > lastIndex + sampleRate
  {
    if currentTime - lastTime < chunkInterval then Emission(lastTime, lastIndex, None)
    else
      var total := TotalSamples(buffers);
      if total <= lastIndex + sampleRate then Emission(lastTime, lastIndex, None)
      else
        var all := Concat(buffers);
        Emission(currentTime, |all|, Some(all))
  }

  /** Chunks only grow: when the buffer list has only been appended to since
      an emission, a later emission extends the earlier chunk, and its index
      is larger. */
  lemma {:induction false} EmissionsGrow(buffers: seq<Frame>, more: seq<Frame>, lastTime: real, lastIndex: nat,
                                         t1: real, t2: real, chunkInterval: real, sampleRate: nat)
    requires EmitChunkIfReady(buffers, lastTime, lastIndex, t1, chunkInterval, sampleRate).chunk.Some?
    requires
      var e1 := EmitChunkIfReady(buffers, lastTime, lastIndex, t1, chunkInterval, sampleRate);
      EmitChunkIfReady(buffers + more, e1.lastTime, e1.lastIndex, t2, chunkInterval, sampleRate).chunk.Some?
    ensures
      var e1 := EmitChunkIfReady(buffers, lastTime, lastIndex, t1, chunkInterval, sampleRate);
      var e2 := EmitChunkIfReady(buffers + more, e1.lastTime, e1.lastIndex, t2, chunkInterval, sampleRate);
      && e1.chunk.value <= e2.chunk.value
      && e2.lastIndex > e1.lastIndex + sampleRate
      && e2.lastTime - e1.lastTime >= chunkInterval
  {
    ConcatAppend(buffers, more);
  }

  /** The scenario of two one-second frames checked at 2.5 s with a 1 s
      interval: all 32000 samples are emitted, the first frame's samples
      first; a check 0.1 s later emits nothing. */
  lemma TwoSecondExample()
    ensures
      var ones := seq(16000, _ => 1.0);
      var twos := seq(16000, _ => 2.0);
      var e := EmitChunkIfReady([ones, twos], 0.0, 0, 2.5, 1.0, 16000);
      && e.chunk.Some? && |e.chunk.value| == 32000
      && e.chunk.value[0] == 1.0 && e.chunk.value[16000] == 2.0
      && e.lastTime == 2.5 && e.lastIndex == 32000
      && EmitChunkIfReady([ones, twos], e.lastTime, e.lastIndex, 2.6, 1.0, 16000).chunk.None?
  {
    var ones := seq(16000, _ => 1.0);
    var twos := seq(16000, _ => 2.0);
    var none: seq<Frame> := [];
    assert [ones, twos][..1] == [ones];
    assert [ones][..0] == none;
    assert Concat([ones, twos]) == ones + twos;
  }
}
