/** The client-side noise suppressor: a fixed-size sample accumulator fed by
    the audio callback, cut into RNNoise frames, plus the lifecycle flags and
    the app-wide singleton. Sample values are opaque reals; the denoiser is a
    parameter that maps a frame to a frame of the same length. */
module NoiseSuppression {
  import opened Common

  /** The ScriptProcessorNode buffer size; the initial accumulator holds four of them. */
  const SCRIPT_PROCESSOR_BUFFER_SIZE: nat := 512
  /** RNNoise's frame size before the library reports its own. */
  const DEFAULT_FRAME_SIZE: nat := 480

  // ---------------------------------------------------------------------
  // Specification of accumulateSamples

  /** The samples kept before new ones are added: when `incoming` more would
      not fit in `capacity`, only the most recent 2*frameSize survive (all of
      them if there are fewer). */
  function Retained(window: seq<real>, incoming: nat, capacity: nat, frameSize: nat): (kept: seq<real>)
    ensures |kept| <= |window| && kept == window[|window| - |kept|..]
    ensures |window| + incoming > capacity ==> |kept| == Min(|window|, 2 * frameSize)
    ensures |window| + incoming <= capacity ==> kept == window
  {
    if |window| + incoming > capacity && |window| > 2 * frameSize then window[|window| - 2 * frameSize..]
    else window
  }

  /** With a buffer of four frames, adding `n` samples fails exactly when
      they overflow it and the trimmed buffer still has no room for them. */
  lemma AccumulateFitsIff(window: seq<real>, n: nat, frameSize: nat)
    ensures |Retained(window, n, 4 * frameSize, frameSize)| + n <= 4 * frameSize
        <==> |window| + n <= 4 * frameSize || (|window| > 2 * frameSize && n <= 2 * frameSize)
  {
  }

  /** A callback delivering at most two frames' worth of samples never
      overflows a four-frame buffer, whatever was accumulated before. */
  lemma SmallCallbacksAlwaysFit(window: seq<real>, n: nat, frameSize: nat)
    requires |window| <= 4 * frameSize && n <= 2 * frameSize
    ensures |Retained(window, n, 4 * frameSize, frameSize)| + n <= 4 * frameSize
  {
    AccumulateFitsIff(window, n, frameSize);
  }

  // ---------------------------------------------------------------------
  // Specification of the onaudioprocess frame loop

  /** processFrame: the frame-sized result of denoising one frame. The
      denoiser stands for RNNoise with its Int16 scaling and clamping; a
      position it does not supply reads 0, as in a fresh Float32Array. */
  function ProcessFrame(denoise: seq<real> -> seq<real>, frame: seq<real>): (r: seq<real>)
    ensures |r| == |frame|
  {
    var p := denoise(frame);
    seq(|frame|, i requires 0 <= i < |frame| => if i < |p| then p[i] else 0.0)
  }

  /** How many accumulated samples the frame loop consumes: one frame per
      round while a whole frame is buffered and the output has room left. */
  function Consumed(w: seq<real>, room: nat, frameSize: nat): (c: nat)
    requires frameSize > 0
    ensures c <= |w|
    decreases |w|
  {
    if |w| < frameSize || room == 0 then 0
    else frameSize + Consumed(w[frameSize..], room - Min(frameSize, room), frameSize)
  }

  /** How many frames the frame loop takes. */
  function FrameCount(w: seq<real>, room: nat, frameSize: nat): nat
    requires frameSize > 0
    decreases |w|
  {
    if |w| < frameSize || room == 0 then 0
    else 1 + FrameCount(w[frameSize..], room - Min(frameSize, room), frameSize)
  }

  /** What the frame loop writes to the output: each denoised frame, cut
      short when the output runs out. */
  function DenoisedOutput(w: seq<real>, room: nat, frameSize: nat, denoise: seq<real> -> seq<real>): (d: seq<real>)
    requires frameSize > 0
    ensures |d| <= room
    decreases |w|
  {
    if |w| < frameSize || room == 0 then []
    else ProcessFrame(denoise, w[..frameSize])[..Min(frameSize, room)]
         + DenoisedOutput(w[frameSize..], room - Min(frameSize, room), frameSize, denoise)
  }

  /** One round of the frame loop: the front frame is consumed and its
      denoised samples, as many as fit, come first. */
  lemma FrameStep(w: seq<real>, room: nat, frameSize: nat, denoise: seq<real> -> seq<real>)
    requires frameSize > 0 && |w| >= frameSize && room > 0
    ensures Consumed(w, room, frameSize)
            == frameSize + Consumed(w[frameSize..], room - Min(frameSize, room), frameSize)
    ensures DenoisedOutput(w, room, frameSize, denoise)
            == ProcessFrame(denoise, w[..frameSize])[..Min(frameSize, room)]
               + DenoisedOutput(w[frameSize..], room - Min(frameSize, room), frameSize, denoise)
  {
  }

  /** The frame loop's invariant after it consumed `consumed` samples of
      `w` and wrote `written` to an output of size `size`: what is left to
      consume and to write completes the whole loop's effect. */
  ghost predicate FrameLoopInvariant(w: seq<real>, consumed: nat, written: seq<real>, size: nat, frameSize: nat,
                                     denoise: seq<real> -> seq<real>)
    requires frameSize > 0
  {
    && consumed <= |w| && |written| <= size
    && consumed + Consumed(w[consumed..], size - |written|, frameSize) == Consumed(w, size, frameSize)
    && written + DenoisedOutput(w[consumed..], size - |written|, frameSize, denoise) == DenoisedOutput(w, size, frameSize, denoise)
  }

  /** The frame loop's invariant survives one round: the front frame of what
      is left is consumed and its denoised samples, as many as fit, are
      written. */
  lemma LoopStep(w: seq<real>, consumed: nat, written: seq<real>, consumed': nat, written': seq<real>,
                 size: nat, frameSize: nat, denoise: seq<real> -> seq<real>)
    requires frameSize > 0
    requires FrameLoopInvariant(w, consumed, written, size, frameSize, denoise)
    requires consumed + frameSize <= |w| && |written| < size
    requires consumed' == consumed + frameSize
    requires written' == written + ProcessFrame(denoise, w[consumed..][..frameSize])[..Min(frameSize, size - |written|)]
    ensures FrameLoopInvariant(w, consumed', written', size, frameSize, denoise)
    ensures w[consumed..][frameSize..] == w[consumed'..]
  {
    var room := size - |written|;
    var before := w[consumed..];
    assert before[frameSize..] == w[consumed + frameSize..];
    FrameStep(before, room, frameSize, denoise);
    var piece := ProcessFrame(denoise, before[..frameSize])[..Min(frameSize, room)];
    var rest := DenoisedOutput(before[frameSize..], room - Min(frameSize, room), frameSize, denoise);
    assert written + piece + rest == written + (piece + rest);
  }

  /** After the loop: nothing more would be consumed or written, so the
      invariant gives the whole loop's effect. */
  lemma LoopDone(w: seq<real>, consumed: nat, written: seq<real>, size: nat, frameSize: nat,
                 denoise: seq<real> -> seq<real>)
    requires frameSize > 0
    requires FrameLoopInvariant(w, consumed, written, size, frameSize, denoise)
    requires |w| - consumed < frameSize || |written| == size
    ensures consumed == Consumed(w, size, frameSize)
    ensures written == DenoisedOutput(w, size, frameSize, denoise)
  {
    assert DenoisedOutput(w[consumed..], size - |written|, frameSize, denoise) == [];
    assert written + [] == written;
  }

  /** The frame loop consumes whole frames only. */
  lemma {:induction false} ConsumesWholeFrames(w: seq<real>, room: nat, frameSize: nat)
    requires frameSize > 0
    ensures Consumed(w, room, frameSize) == FrameCount(w, room, frameSize) * frameSize
    decreases |w|
  {
    if |w| >= frameSize && room > 0 {
      var k := FrameCount(w[frameSize..], room - Min(frameSize, room), frameSize);
      ConsumesWholeFrames(w[frameSize..], room - Min(frameSize, room), frameSize);
      assert (1 + k) * frameSize == frameSize + k * frameSize;
    }
  }

  /** The frame loop writes exactly as many samples as it consumed, capped
      by the output's size. */
  lemma {:induction false} WritesWhatItConsumes(w: seq<real>, room: nat, frameSize: nat,
                                                 denoise: seq<real> -> seq<real>)
    requires frameSize > 0
    ensures |DenoisedOutput(w, room, frameSize, denoise)| == Min(Consumed(w, room, frameSize), room)
    decreases |w|
  {
    if |w| >= frameSize && room > 0 {
      FrameStep(w, room, frameSize, denoise);
      WritesWhatItConsumes(w[frameSize..], room - Min(frameSize, room), frameSize, denoise);
    }
  }

  /** When the output has room for more than one frame but less than two,
      and two frames are buffered, both frames are consumed but only the
      front part of the second one is written: its other
      `2 * frameSize - room` denoised samples are discarded. */
  lemma SecondFrameCutShort(w: seq<real>, room: nat, frameSize: nat, denoise: seq<real> -> seq<real>)
    requires 0 < frameSize < room < 2 * frameSize && |w| >= 2 * frameSize
    ensures Consumed(w, room, frameSize) == 2 * frameSize
    ensures DenoisedOutput(w, room, frameSize, denoise)
            == ProcessFrame(denoise, w[..frameSize])
               + ProcessFrame(denoise, w[frameSize..2 * frameSize])[..room - frameSize]
  {
    var rest := w[frameSize..];
    FrameStep(w, room, frameSize, denoise);
    FrameStep(rest, room - frameSize, frameSize, denoise);
    assert rest[..frameSize] == w[frameSize..2 * frameSize];
    assert ProcessFrame(denoise, w[..frameSize])[..frameSize] == ProcessFrame(denoise, w[..frameSize]);
  }

  /** The frame loop stops only when less than a frame is left or the
      output is full. */
  lemma {:induction false} StopsWhenFrameOrRoomRunsOut(w: seq<real>, room: nat, frameSize: nat)
    requires frameSize > 0
    ensures |w| - Consumed(w, room, frameSize) < frameSize || Consumed(w, room, frameSize) >= room
    decreases |w|
  {
    if |w| >= frameSize && room > 0 {
      StopsWhenFrameOrRoomRunsOut(w[frameSize..], room - Min(frameSize, room), frameSize);
    }
  }

  /** The output positions the frame loop did not reach: the input sample at
      the same position, or 0 past the end of the input. */
  function Filler(input: seq<real>, from: nat, to: nat): (f: seq<real>)
    requires from <= to
    ensures |f| == to - from
  {
    seq(to - from, k requires 0 <= k < to - from => if from + k < |input| then input[from + k] else 0.0)
  }

  /** Every output position is written: the denoised prefix followed by the
      filler, together exactly as long as the output. */
  lemma OutputFullyWritten(w: seq<real>, input: seq<real>, room: nat, frameSize: nat,
                           denoise: seq<real> -> seq<real>)
    requires frameSize > 0
    ensures |DenoisedOutput(w, room, frameSize, denoise)| <= room
    ensures |DenoisedOutput(w, room, frameSize, denoise)
             + Filler(input, |DenoisedOutput(w, room, frameSize, denoise)|, room)| == room
  {
    WritesWhatItConsumes(w, room, frameSize, denoise);
  }

  // ---------------------------------------------------------------------
  // Lifecycle

  /** The lifecycle part of a suppressor's state. */
  datatype Status = Status(frameSize: nat, count: nat, initialized: bool, processing: bool, denoising: bool)

  /** stopProcessing: nothing is processing, the denoise state is released
      and the accumulator is emptied. */
  function Stopped(st: Status): (r: Status)
    ensures !r.processing && !r.denoising && r.count == 0
    ensures r.frameSize == st.frameSize && r.initialized == st.initialized
  {
    st.(processing := false, denoising := false, count := 0)
  }

  /** destroy: stop, then forget the RNNoise module. */
  function Destroyed(st: Status): (r: Status)
    ensures !r.initialized && !r.processing && r.count == 0
  {
    Stopped(st).(initialized := false)
  }

  /** Stopping twice is stopping once. */
  lemma StopIdempotent(st: Status)
    ensures Stopped(Stopped(st)) == Stopped(st)
  {
  }

  /** Destroying twice is destroying once, and destroying a stopped
      suppressor is destroying it. */
  lemma DestroyIdempotent(st: Status)
    ensures Destroyed(Destroyed(st)) == Destroyed(st)
    ensures Destroyed(Stopped(st)) == Destroyed(st)
  {
  }

  datatype StreamOutcome = NotInitialized | GraphFailed | Denoising

  // ---------------------------------------------------------------------
  // In-place array helpers (Float32Array.copyWithin and .set)

  /** `a.copyWithin(0, from, to)`: the samples `a[from..to]` move to the
      front, in order; the rest of the array is untouched. */
  method CopyWithinFront(a: array<real>, from: nat, to: nat)
    requires from <= to <= a.Length
    modifies a
    ensures a[..to - from] == old(a[from..to])
    ensures a[to - from..] == old(a[to - from..])
  {
    var i := 0;
    while i < to - from
      invariant 0 <= i <= to - from
      invariant forall k :: 0 <= k < a.Length ==> a[k] == if k < i then old(a[from + k]) else old(a[k])
    {
      a[i] := a[from + i];
      i := i + 1;
    }
    assert forall k :: 0 <= k < to - from ==> a[..to - from][k] == old(a[from..to])[k];
  }

  /** `a.set(src, at)`: `src` is written at offset `at`; the rest of the
      array is untouched. */
  method SetAt(a: array<real>, src: seq<real>, at: nat)
    requires at + |src| <= a.Length
    modifies a
    ensures a[..] == old(a[..at]) + src + old(a[at + |src|..])
  {
    var i := 0;
    while i < |src|
      invariant 0 <= i <= |src|
      invariant forall k :: 0 <= k < a.Length ==> a[k] == if at <= k < at + i then src[k - at] else old(a[k])
    {
      a[at + i] := src[i];
      i := i + 1;
    }
    assert forall k :: 0 <= k < a.Length ==> a[..][k] == (old(a[..at]) + src + old(a[at + |src|..]))[k];
  }

  /** The fill loop of onaudioprocess: every output position from `from`
      on gets the input sample at that position, or 0 past the input. */
  method FillFrom(output: array<real>, input: seq<real>, from: nat)
    requires from <= output.Length
    modifies output
    ensures output[..] == old(output[..from]) + Filler(input, from, output.Length)
  {
    var outputIndex := from;
    while outputIndex < output.Length
      invariant from <= outputIndex <= output.Length
      invariant output[..outputIndex] == old(output[..from]) + Filler(input, from, outputIndex)
    {
      output[outputIndex] := if outputIndex < |input| then input[outputIndex] else 0.0;
      outputIndex := outputIndex + 1;
    }
  }

  /** The frame loop of onaudioprocess over a buffer holding `count`
      samples: while a whole frame is buffered and the output has room,
      denoise the front frame, write as much of it as fits, and shift the
      rest of the buffer down. Returns the new count and the next output
      index. */
  method FrameLoop(buffer: array<real>, count: nat, frameSize: nat, output: array<real>,
                   denoise: seq<real> -> seq<real>) returns (newCount: nat, outputIndex: nat)
    requires frameSize > 0 && count <= buffer.Length && buffer != output
    modifies buffer, output
    ensures var w := old(buffer[..count]);
      && newCount == count - Consumed(w, output.Length, frameSize)
      && buffer[..newCount] == w[Consumed(w, output.Length, frameSize)..]
      && outputIndex == |DenoisedOutput(w, output.Length, frameSize, denoise)|
      && output[..outputIndex] == DenoisedOutput(w, output.Length, frameSize, denoise)
  {
    ghost var w := buffer[..count];
    ghost var consumed := 0;
    ghost var written: seq<real> := [];
    newCount := count;
    outputIndex := 0;
    assert w[0..] == w;
    while newCount >= frameSize && outputIndex < output.Length
      invariant outputIndex <= output.Length && output[..outputIndex] == written
      invariant consumed <= |w| && newCount == |w| - consumed && buffer[..newCount] == w[consumed..]
      invariant FrameLoopInvariant(w, consumed, written, output.Length, frameSize, denoise)
      decreases newCount
    {
      ghost var consumedBefore, writtenBefore := consumed, written;
      ghost var pending := w[consumed..];
      newCount, outputIndex := TakeFrame(buffer, newCount, frameSize, output, outputIndex, denoise);
      written := written + ProcessFrame(denoise, pending[..frameSize])[..Min(frameSize, output.Length - |written|)];
      consumed := consumed + frameSize;
      LoopStep(w, consumedBefore, writtenBefore, consumed, written, output.Length, frameSize, denoise);
    }
    LoopDone(w, consumed, written, output.Length, frameSize, denoise);
  }

  /** One round of the frame loop: denoise the front frame of the `count`
      buffered samples, write as much of it as fits at `outputIndex`, and
      shift the rest of the buffer down. */
  method TakeFrame(buffer: array<real>, count: nat, frameSize: nat, output: array<real>, outputIndex: nat,
                   denoise: seq<real> -> seq<real>) returns (newCount: nat, next: nat)
    requires 0 < frameSize <= count <= buffer.Length && outputIndex < output.Length && buffer != output
    modifies buffer, output
    ensures newCount == count - frameSize
    ensures buffer[..newCount] == old(buffer[..count])[frameSize..]
    ensures next == outputIndex + Min(frameSize, output.Length - outputIndex)
    ensures output[..next] == old(output[..outputIndex])
                              + ProcessFrame(denoise, old(buffer[..count])[..frameSize])[..Min(frameSize, output.Length - outputIndex)]
  {
    ghost var before := buffer[..count];
    ghost var writtenBefore := output[..outputIndex];
    var frame := buffer[..frameSize];
    assert frame == before[..frameSize];
    var processedFrame := ProcessFrame(denoise, frame);
    var samplesToWrite := Min(frameSize, output.Length - outputIndex);
    SetAt(output, processedFrame[..samplesToWrite], outputIndex);
    next := outputIndex + samplesToWrite;
    assert output[..next] == writtenBefore + processedFrame[..samplesToWrite];
    CopyWithinFront(buffer, frameSize, count);
    newCount := count - frameSize;
    assert buffer[..newCount] == before[frameSize..];
  }

  // ---------------------------------------------------------------------
  // The suppressor

  class NoiseSuppressor {
    var frameSize: nat
    var accumulatedSamples: array<real>
    var accumulatedSamplesCount: nat
    /** Also stands for the loaded RNNoise module: the two are set and
        cleared together. */
    var isInitialized: bool
    var isProcessing: bool
    /** Whether an RNNoise denoise state exists. */
    var denoiseState: bool

    ghost function Lifecycle(): Status
      reads this
    {
      Status(frameSize, accumulatedSamplesCount, isInitialized, isProcessing, denoiseState)
    }

    /** The samples waiting to be cut into frames. */
    ghost function Window(): seq<real>
      reads this, accumulatedSamples
      requires accumulatedSamplesCount <= accumulatedSamples.Length
    {
      accumulatedSamples[..accumulatedSamplesCount]
    }

    ghost predicate Valid()
      reads this
    {
      && frameSize > 0
      && accumulatedSamplesCount <= accumulatedSamples.Length
      && (isInitialized ==> accumulatedSamples.Length == 4 * frameSize)
      && (isProcessing ==> isInitialized && denoiseState)
      && (!isProcessing ==> accumulatedSamplesCount == 0)
    }

    constructor ()
      ensures Valid() && fresh(accumulatedSamples)
      ensures Lifecycle() == Status(DEFAULT_FRAME_SIZE, 0, false, false, false)
      ensures accumulatedSamples.Length == SCRIPT_PROCESSOR_BUFFER_SIZE * 4
    {
      frameSize := DEFAULT_FRAME_SIZE;
      accumulatedSamples := new real[SCRIPT_PROCESSOR_BUFFER_SIZE * 4];
      accumulatedSamplesCount := 0;
      isInitialized := false;
      isProcessing := false;
      denoiseState := false;
    }

    /** init: `loadOk` says whether loading the RNNoise module succeeds and
        `loadedFrameSize` is the frame size it reports. A second call does
        nothing; a failed load changes nothing and reports failure. */
    method Init(loadOk: bool, loadedFrameSize: nat) returns (ok: bool)
      requires Valid() && loadedFrameSize > 0
      modifies this
      ensures Valid()
      ensures old(isInitialized) ==> ok && unchanged(this)
      ensures !old(isInitialized) && !loadOk ==> !ok && unchanged(this)
      ensures !old(isInitialized) && loadOk ==>
        && ok && fresh(accumulatedSamples)
        && Lifecycle() == old(Lifecycle()).(frameSize := loadedFrameSize, initialized := true)
        && accumulatedSamples.Length == loadedFrameSize * 4
    {
      if isInitialized {
        return true;
      }
      if !loadOk {
        return false;
      }
      frameSize := loadedFrameSize;
      accumulatedSamples := new real[frameSize * 4];
      isInitialized := true;
      return true;
    }

    /** createDenoisedStream: `graphOk` says whether building the audio
        graph succeeds. Refused when not initialized; a running pipeline is
        stopped first; on failure everything is stopped. */
    method CreateDenoisedStream(graphOk: bool) returns (r: StreamOutcome)
      requires Valid()
      modifies this
      ensures Valid() && accumulatedSamples == old(accumulatedSamples)
      ensures !old(isInitialized) ==> r == NotInitialized && unchanged(this)
      ensures old(isInitialized) && !graphOk ==> r == GraphFailed && Lifecycle() == Stopped(old(Lifecycle()))
      ensures old(isInitialized) && graphOk ==>
        r == Denoising && Lifecycle() == old(Lifecycle()).(count := 0, processing := true, denoising := true)
    {
      if !isInitialized {
        return NotInitialized;
      }
      if isProcessing {
        StopProcessing();
      }
      denoiseState := true;
      if !graphOk {
        StopProcessing();
        return GraphFailed;
      }
      accumulatedSamplesCount := 0;
      isProcessing := true;
      return Denoising;
    }

    /** accumulateSamples: trim to the most recent samples when the new ones
        would overflow, then append them. `ok` is false when they still do
        not fit (the typed-array write throws); the trimming has happened. */
    method AccumulateSamples(samples: seq<real>) returns (ok: bool)
      requires Valid() && isProcessing
      modifies this, accumulatedSamples
      ensures Valid() && isProcessing && Lifecycle() == old(Lifecycle()).(count := accumulatedSamplesCount)
      ensures accumulatedSamples == old(accumulatedSamples)
      ensures var kept := Retained(old(Window()), |samples|, accumulatedSamples.Length, frameSize);
        && ok == (|kept| + |samples| <= accumulatedSamples.Length)
        && Window() == if ok then kept + samples else kept
    {
      ghost var window := Window();
      ghost var kept := Retained(window, |samples|, accumulatedSamples.Length, frameSize);
      if accumulatedSamplesCount + |samples| > accumulatedSamples.Length {
        var keepCount := Min(accumulatedSamplesCount, frameSize * 2);
        var shiftAmount := accumulatedSamplesCount - keepCount;
        if shiftAmount > 0 {
          CopyWithinFront(accumulatedSamples, shiftAmount, accumulatedSamplesCount);
          accumulatedSamplesCount := keepCount;
          assert Window() == window[shiftAmount..];
        }
      }
      assert Window() == kept;
      if accumulatedSamplesCount + |samples| > accumulatedSamples.Length {
        return false;
      }
      SetAt(accumulatedSamples, samples, accumulatedSamplesCount);
      accumulatedSamplesCount := accumulatedSamplesCount + |samples|;
      assert Window() == kept + samples;
      return true;
    }

    /** The onaudioprocess callback. `input` is the callback's input channel,
        `output` its output channel and `denoise` stands for processFrame.
        When not processing it returns at once. Otherwise it accumulates the
        input; if that throws, the callback ends there. Else it cuts whole
        frames from the front while the output has room, writing their
        denoised samples in order, and fills the remaining output from the
        input. `completed` says whether the callback ran to its end. */
    method OnAudioProcess(input: seq<real>, output: array<real>, denoise: seq<real> -> seq<real>)
      returns (completed: bool)
      requires Valid() && output != accumulatedSamples
      modifies this, accumulatedSamples, output
      ensures Valid() && accumulatedSamples == old(accumulatedSamples)
      ensures Lifecycle() == old(Lifecycle()).(count := accumulatedSamplesCount)
      ensures !old(isProcessing) ==> !completed && unchanged(accumulatedSamples, output)
      ensures old(isProcessing) ==>
        var kept := Retained(old(Window()), |input|, accumulatedSamples.Length, frameSize);
        var w := kept + input;
        && completed == (|w| <= accumulatedSamples.Length)
        && (!completed ==> Window() == kept && unchanged(output))
        && (completed ==>
              && Window() == w[Consumed(w, output.Length, frameSize)..]
              && output[..] == DenoisedOutput(w, output.Length, frameSize, denoise)
                                + Filler(input, |DenoisedOutput(w, output.Length, frameSize, denoise)|, output.Length))
    {
      if !denoiseState || !isProcessing {
        return false;
      }
      var fits := AccumulateSamples(input);
      if !fits {
        return false;
      }
      var outputIndex := ProcessFrames(output, denoise);
      FillFrom(output, input, outputIndex);
      return true;
    }

    /** The frame loop of onaudioprocess on this suppressor's buffer. */
    method ProcessFrames(output: array<real>, denoise: seq<real> -> seq<real>) returns (outputIndex: nat)
      requires Valid() && isProcessing && output != accumulatedSamples
      modifies this, accumulatedSamples, output
      ensures Valid() && isProcessing && accumulatedSamples == old(accumulatedSamples)
      ensures Lifecycle() == old(Lifecycle()).(count := accumulatedSamplesCount)
      ensures var w := old(Window());
        && outputIndex == |DenoisedOutput(w, output.Length, frameSize, denoise)|
        && output[..outputIndex] == DenoisedOutput(w, output.Length, frameSize, denoise)
        && Window() == w[Consumed(w, output.Length, frameSize)..]
    {
      var count;
      count, outputIndex := FrameLoop(accumulatedSamples, accumulatedSamplesCount, frameSize, output, denoise);
      accumulatedSamplesCount := count;
    }

    /** stopProcessing: release the denoise state and the audio graph and
        empty the accumulator; the module stays loaded. */
    method StopProcessing()
      requires Valid()
      modifies this
      ensures Valid() && accumulatedSamples == old(accumulatedSamples)
      ensures Lifecycle() == Stopped(old(Lifecycle()))
    {
      isProcessing := false;
      denoiseState := false;
      accumulatedSamplesCount := 0;
    }

    /** destroy: stop, then drop the module, so the suppressor is no longer ready. */
    method Destroy()
      requires Valid()
      modifies this
      ensures Valid() && accumulatedSamples == old(accumulatedSamples)
      ensures Lifecycle() == Destroyed(old(Lifecycle()))
    {
      StopProcessing();
      isInitialized := false;
    }
  }

  // ---------------------------------------------------------------------
  // The app-wide singleton

  class SuppressorRegistry {
    var globalSuppressor: NoiseSuppressor?

    ghost predicate Valid()
      reads this, globalSuppressor
    {
      globalSuppressor != null ==> globalSuppressor.Valid()
    }

    constructor ()
      ensures Valid() && globalSuppressor == null
    {
      globalSuppressor := null;
    }

    /** getNoiseSuppressor: create and initialize the instance on first use,
        and return the registered one afterwards. A failed initialization
        (`ok` false) leaves the uninitialized instance registered. */
    method GetNoiseSuppressor(loadOk: bool, loadedFrameSize: nat) returns (s: NoiseSuppressor, ok: bool)
      requires Valid() && loadedFrameSize > 0
      modifies this
      ensures Valid() && globalSuppressor == s
      ensures old(globalSuppressor) != null ==> s == old(globalSuppressor) && ok
      ensures old(globalSuppressor) == null ==>
        fresh(s) && ok == loadOk && s.isInitialized == loadOk && !s.isProcessing
    {
      if globalSuppressor == null {
        s := new NoiseSuppressor();
        globalSuppressor := s;
        ok := s.Init(loadOk, loadedFrameSize);
      } else {
        s := globalSuppressor;
        ok := true;
      }
    }

    /** destroyNoiseSuppressor: destroy the registered instance, if any, and
        forget it, so the next request creates a new one. */
    method DestroyNoiseSuppressor()
      requires Valid()
      modifies this, globalSuppressor
      ensures Valid() && globalSuppressor == null
      ensures old(globalSuppressor) != null ==>
        old(globalSuppressor).Lifecycle() == Destroyed(old(globalSuppressor.Lifecycle()))
    {
      if globalSuppressor != null {
        globalSuppressor.Destroy();
        globalSuppressor := null;
      }
    }
  }
}
