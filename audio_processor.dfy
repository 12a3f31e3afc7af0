/** The audio worklet processor (app/public/audioProcessor.js): for every
    render quantum it encodes the first channel of its first input and posts
    the frame to the main thread through its port.

    The Web Audio API hands `process` one array of channels per input; an
    input with nothing actively connected to it has zero channels. */
module Worklet {
  import opened Pcm

  /** How a call of `process` ends: it returns its keep-alive flag to the
      rendering thread, or a TypeError escapes it. */
  datatype ProcessResult = Returned(keepAlive: bool) | ThrewTypeError

  /** What `process` as written does with inputs of this shape: with a
      first input of zero channels it reads `undefined.length` and throws. */
  function ResultAsWritten(inputs: seq<seq<array<Sample>>>): ProcessResult
  {
    if |inputs| > 0 && |inputs[0]| == 0 then ThrewTypeError else Returned(true)
  }

  /** Whether a frame is posted: there is a first input and it has a channel. */
  predicate HasFirstChannel(inputs: seq<seq<array<Sample>>>)
  {
    |inputs| > 0 && |inputs[0]| > 0
  }

  /** An input that nothing is connected to makes the processor throw. */
  lemma UnconnectedInputThrows()
    ensures ResultAsWritten([[]]) == ThrewTypeError
    ensures !HasFirstChannel([[]])
  {
  }

  class PcmWorkletProcessor {
    var posted: seq<seq<int16>>  // frames posted on this.port, in order

    constructor ()
      ensures posted == []
    {
      posted := [];
    }

    /** float32ToPCM16 of the worklet: the same encoding as the page's. */
    method Float32ToPcm16(audioData: array<Sample>) returns (pcm16: array<int16>)
      ensures fresh(pcm16)
      ensures pcm16.Length == audioData.Length
      ensures pcm16[..] == EncodeFrame(audioData[..])
      ensures forall i :: 0 <= i < pcm16.Length ==>
        pcm16[i] as int == Reference(audioData[i]) && -PCM_SCALE <= pcm16[i] as int <= PCM_SCALE
    {
      pcm16 := new int16[audioData.Length];
      for i := 0 to audioData.Length
        invariant forall j :: 0 <= j < i ==> pcm16[j] == EncodeSample(audioData[j])
      {
        pcm16[i] := ToInt16(Scale(MaxMinusOne(MinOne(audioData[i]))));
      }
      forall i | 0 <= i < pcm16.Length
        ensures pcm16[i] as int == Reference(audioData[i]) && -PCM_SCALE <= pcm16[i] as int <= PCM_SCALE
      {
        EncodeSampleIsReference(audioData[i]);
      }
    }

    /** process, as written: `if (input)` lets an input of zero channels
        through, and encoding its missing first channel throws before
        anything is posted. Otherwise it posts one frame when there is an
        input and none when there is not, and returns true. */
    method Process(inputs: seq<seq<array<Sample>>>) returns (r: ProcessResult)
      modifies this
      ensures r == ResultAsWritten(inputs)
      ensures r == ThrewTypeError <==> |inputs| > 0 && |inputs[0]| == 0
      ensures posted == if HasFirstChannel(inputs)
                        then old(posted) + [EncodeFrame(inputs[0][0][..])]
                        else old(posted)
    {
      if |inputs| == 0 {
        return Returned(true);
      }
      var input := inputs[0];
      if |input| == 0 {
        return ThrewTypeError;
      }
      var pcm16 := Float32ToPcm16(input[0]);
      posted := posted + [pcm16[..]];
      r := Returned(true);
    }

    /** process with the channel checked as well as the input: it never
        throws, always keeps the processor alive, and posts exactly one frame
        exactly when the first input has a channel. */
    method ProcessChecked(inputs: seq<seq<array<Sample>>>) returns (keepAlive: bool)
      modifies this
      ensures keepAlive
      ensures posted == if HasFirstChannel(inputs)
                        then old(posted) + [EncodeFrame(inputs[0][0][..])]
                        else old(posted)
    {
      if |inputs| > 0 && |inputs[0]| > 0 {
        var pcm16 := Float32ToPcm16(inputs[0][0]);
        posted := posted + [pcm16[..]];
      }
      keepAlive := true;
    }
  }
}
