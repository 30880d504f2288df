/**
 * The encoder: configuration (speed, tone, volume, digit style), the derived
 * timings, and the operations that turn text or procedural signals into
 * frames written to the wave.
 */
module Morse {
  import opened Wrappers
  import opened MorseExceptions
  import opened CodeTables
  import opened Timing
  import opened Signal
  import opened TextParser
  import opened WaveSink

  const DefaultWpm: real := 20.0
  const DefaultTone: real := 700.0
  const DefaultVolume: real := 1.0

  class MorseEncoder {
    const wave: Wave
    const sampleRate: nat
    const numberOfChannels: nat
    /** The channel indices that carry the tone. */
    const channels: set<int>
    /** The tone level of each frame; see Signal.Oscillator. */
    const oscillator: Oscillator

    /** Speed in words per minute. */
    var wpm: real
    /** Tone frequency in Hz. */
    var tone: real
    /** Dot length, and the gap between the symbols of one character, in seconds. */
    var dotTime: real
    /** Dash length, and the gap after a character, in seconds. */
    var dashTime: real
    /** Gap for a word space, in seconds. */
    var spaceTime: real
    var volume: real
    var shortNumbers: bool

    /** The derived timings agree with the speed. */
    ghost predicate Valid()
      reads this
    {
      wpm != 0.0 &&
      dotTime == DotTime(wpm) && dashTime == DashTime(wpm) && spaceTime == SpaceTime(wpm)
    }

    /** What the frames of a segment depend on, as configured now. */
    function CurrentVoice(): Voice
      reads this
    {
      Voice(sampleRate, numberOfChannels, channels, volume, tone, oscillator)
    }

    /** The frames the given units send with the current configuration. */
    function Emitted(units: seq<Unit>): seq<Frame>
      reads this
    {
      Render(UnitsSegments(units, dotTime, dashTime, spaceTime), CurrentVoice())
    }

    /** The frames one code sends with the current configuration. */
    function CodeFrames(code: string): seq<Frame>
      reads this
    {
      Render(CharCodeSegments(code, dotTime, dashTime), CurrentVoice())
    }

    /**
     * Binds the encoder to a writable wave. Creating one over a wave that is
     * not writable is refused by Create below.
     */
    constructor (wave: Wave, channels: set<int>, wpm: real, tone: real, volume: real, oscillator: Oscillator)
      requires wave.writable
      requires wpm != 0.0
      ensures Valid()
      ensures this.wave == wave
      ensures sampleRate == wave.sampleRate && numberOfChannels == wave.numberOfChannels
      ensures this.channels == channels && this.oscillator == oscillator
      ensures this.wpm == wpm && this.tone == tone && this.volume == volume && !shortNumbers
      ensures dotTime == 1.2 / wpm && dashTime == 3.6 / wpm && spaceTime == 12.0 / wpm
    {
      this.wave := wave;
      sampleRate := wave.sampleRate;
      numberOfChannels := wave.numberOfChannels;
      this.channels := channels;
      this.oscillator := oscillator;
      this.wpm := wpm;
      this.tone := tone;
      this.volume := volume;
      shortNumbers := false;
      new;
      RecalculateWpmTimes();
    }

    function GetWpm(): real
      reads this
    {
      wpm
    }

    method SetWpm(wpm: real)
      requires wpm != 0.0
      modifies this
      ensures Valid() && GetWpm() == wpm
      ensures dotTime == 1.2 / wpm && dashTime == 3.6 / wpm && spaceTime == 12.0 / wpm
      ensures tone == old(tone) && volume == old(volume) && shortNumbers == old(shortNumbers)
    {
      this.wpm := wpm;
      RecalculateWpmTimes();
    }

    function GetTone(): real
      reads this
    {
      tone
    }

    method SetTone(tone: real)
      modifies this
      ensures old(Valid()) ==> Valid()
      ensures GetTone() == tone
      ensures wpm == old(wpm) && volume == old(volume) && shortNumbers == old(shortNumbers)
      ensures dotTime == old(dotTime) && dashTime == old(dashTime) && spaceTime == old(spaceTime)
    {
      this.tone := tone;
    }

    function IsShortNumbers(): bool
      reads this
    {
      shortNumbers
    }

    method SetShortNumbers(shortNumbers: bool)
      modifies this
      ensures old(Valid()) ==> Valid()
      ensures IsShortNumbers() == shortNumbers
      ensures wpm == old(wpm) && tone == old(tone) && volume == old(volume)
      ensures dotTime == old(dotTime) && dashTime == old(dashTime) && spaceTime == old(spaceTime)
    {
      this.shortNumbers := shortNumbers;
    }

    function GetVolume(): real
      reads this
    {
      volume
    }

    method SetVolume(volume: real)
      modifies this
      ensures old(Valid()) ==> Valid()
      ensures GetVolume() == volume
      ensures wpm == old(wpm) && tone == old(tone) && shortNumbers == old(shortNumbers)
      ensures dotTime == old(dotTime) && dashTime == old(dashTime) && spaceTime == old(spaceTime)
    {
      this.volume := volume;
    }

    /**
     * Sends a text: upper-cased, then unit by unit, a `<NAME>` escape or one
     * character, until the text is used up or an error stops it. The frames of
     * the units before the error stay written.
     */
    method Text(s: string) returns (error: Option<MorseError>)
      modifies wave
      ensures error == ParseText(s, shortNumbers).error
      ensures wave.frames == old(wave.frames) + Emitted(ParseText(s, shortNumbers).units)
    {
      var text := Upper(s);
      ghost var read: seq<Unit> := [];
      ghost var whole := Parse(text, shortNumbers);
      while |text| > 0
        invariant whole == Prepend(read, Parse(text, shortNumbers))
        invariant wave.frames == old(wave.frames) + Emitted(read)
        decreases |text|
      {
        var step := FirstUnit(text, shortNumbers);
        if step.Stop? {
          error := Some(step.error);
          ParseStepStop(read, text, shortNumbers);
          return;
        }
        var unit, consumed := step.unit, step.consumed;
        if unit.WordSpace? {
          Space();
        } else {
          SendCharCode(unit.code);
        }
        SentUnit(old(wave.frames), read, unit);
        ParseStepRead(read, text, shortNumbers, unit, consumed);
        read := read + [unit];
        text := text[consumed..];
      }
      assert read + [] == read;
      return None;
    }

    /**
     * Two calls of Text in a row, the first without error, write the frames
     * one call with the joined text writes.
     */
    lemma TextAppendFrames(a: string, b: string)
      requires ParseText(a, shortNumbers).error.None?
      ensures ParseText(a + b, shortNumbers).error == ParseText(b, shortNumbers).error
      ensures Emitted(ParseText(a + b, shortNumbers).units)
           == Emitted(ParseText(a, shortNumbers).units) + Emitted(ParseText(b, shortNumbers).units)
    {
      var first, second := ParseText(a, shortNumbers).units, ParseText(b, shortNumbers).units;
      ParseTextAppend(a, b, shortNumbers);
      UnitsSegmentsAppend(first, second, dotTime, dashTime, spaceTime);
      RenderAppend(UnitsSegments(first, dotTime, dashTime, spaceTime), UnitsSegments(second, dotTime, dashTime, spaceTime), CurrentVoice());
    }

    /** Writing "<AR>" (or any known name, in any case) sends what the matching shortcut method sends. */
    lemma TextEscapeFrames(written: string)
      requires Upper(written) in ProceduralCharacters
      ensures ParseText("<" + written + ">", shortNumbers).error.None?
      ensures Emitted(ParseText("<" + written + ">", shortNumbers).units) == CodeFrames(ProceduralCharacters[Upper(written)])
    {
      var code := ProceduralCharacters[Upper(written)];
      TextEscapeIsShortcut(written, shortNumbers);
      SingleUnitSegments(Code(code), dotTime, dashTime, spaceTime);
    }

    /** Bookkeeping for Text: the frames of one more unit extend those of the units before it. */
    lemma SentUnit(start: seq<Frame>, read: seq<Unit>, unit: Unit)
      ensures (start + Emitted(read)) + Render(UnitSegments(unit, dotTime, dashTime, spaceTime), CurrentVoice())
           == start + Emitted(read + [unit])
    {
      RenderUnitsSnoc(read, unit, dotTime, dashTime, spaceTime, CurrentVoice());
      ConcatAssociative(start, Emitted(read), Render(UnitSegments(unit, dotTime, dashTime, spaceTime), CurrentVoice()));
    }

    /** Sends a word space. */
    method Space()
      modifies wave
      ensures wave.frames == old(wave.frames) + Render(UnitSegments(WordSpace, dotTime, dashTime, spaceTime), CurrentVoice())
      ensures wave.frames == old(wave.frames) + SegmentFrames(Silence(spaceTime), CurrentVoice())
    {
      SendSilence(spaceTime);
      assert Render([Silence(spaceTime)], CurrentVoice()) == SegmentFrames(Silence(spaceTime), CurrentVoice());
    }

    /** Sends AR, end of message. */
    method EndOfMessage()
      modifies wave
      ensures wave.frames == old(wave.frames) + CodeFrames(ProceduralCharacters["AR"])
    {
      SendCharCode(ProceduralCharacters["AR"]);
    }

    /** Sends AS, wait. */
    method Wait()
      modifies wave
      ensures wave.frames == old(wave.frames) + CodeFrames(ProceduralCharacters["AS"])
    {
      SendCharCode(ProceduralCharacters["AS"]);
    }

    /** Sends BK, break in. */
    method BreakIn()
      modifies wave
      ensures wave.frames == old(wave.frames) + CodeFrames(ProceduralCharacters["BK"])
    {
      SendCharCode(ProceduralCharacters["BK"]);
    }

    /** Sends EC, end copy. */
    method EndCopy()
      modifies wave
      ensures wave.frames == old(wave.frames) + CodeFrames(ProceduralCharacters["EC"])
    {
      SendCharCode(ProceduralCharacters["EC"]);
    }

    /** Sends HH, correction. */
    method Correction()
      modifies wave
      ensures wave.frames == old(wave.frames) + CodeFrames(ProceduralCharacters["HH"])
    {
      SendCharCode(ProceduralCharacters["HH"]);
    }

    /** Sends KA, attention. */
    method Attention()
      modifies wave
      ensures wave.frames == old(wave.frames) + CodeFrames(ProceduralCharacters["KA"])
    {
      SendCharCode(ProceduralCharacters["KA"]);
    }

    /** Sends KN, go ahead. */
    method GoAhead()
      modifies wave
      ensures wave.frames == old(wave.frames) + CodeFrames(ProceduralCharacters["KN"])
    {
      SendCharCode(ProceduralCharacters["KN"]);
    }

    /** Sends RT, new line. */
    method NewLine()
      modifies wave
      ensures wave.frames == old(wave.frames) + CodeFrames(ProceduralCharacters["RT"])
    {
      SendCharCode(ProceduralCharacters["RT"]);
    }

    /** Sends SK, end of contact. */
    method SilentKey()
      modifies wave
      ensures wave.frames == old(wave.frames) + CodeFrames(ProceduralCharacters["SK"])
    {
      SendCharCode(ProceduralCharacters["SK"]);
    }

    /** Sends SOS, the distress signal. */
    method Sos()
      modifies wave
      ensures wave.frames == old(wave.frames) + CodeFrames(ProceduralCharacters["SOS"])
    {
      SendCharCode(ProceduralCharacters["SOS"]);
    }

    /** Sends VE, verified. */
    method Verified()
      modifies wave
      ensures wave.frames == old(wave.frames) + CodeFrames(ProceduralCharacters["VE"])
    {
      SendCharCode(ProceduralCharacters["VE"]);
    }

    /**
     * Sends one code: per symbol a tone (a dot for '.', a dash for anything
     * else) and a silence (a dot, or a dash after the last symbol).
     */
    method SendCharCode(signals: string)
      modifies wave
      ensures wave.frames == old(wave.frames) + CodeFrames(signals)
    {
      var last := |signals| - 1;
      var i := 0;
      ghost var voice, dot, dash := CurrentVoice(), dotTime, dashTime;
      while i <= last
        invariant 0 <= i <= |signals|
        invariant voice == CurrentVoice() && dot == dotTime && dash == dashTime
        invariant wave.frames == old(wave.frames) + CodePrefixFrames(signals, i, dot, dash, voice)
      {
        ghost var sent := wave.frames;
        if signals[i] == '.' {
          SendTone(dotTime);
        } else {
          SendTone(dashTime);
        }
        SendSilence(if i == last then dashTime else dotTime);
        AppendPieces(old(wave.frames), CodePrefixFrames(signals, i, dot, dash, voice), sent,
          SegmentFrames(Tone(SymbolTime(signals[i], dot, dash)), voice),
          SegmentFrames(Silence(if i == |signals| - 1 then dash else dot), voice));
        i := i + 1;
      }
      assert i == |signals|;
      CodeSymbolBySymbol(signals, dot, dash, voice);
    }

    method SendTone(length: real)
      modifies wave
      ensures wave.frames == old(wave.frames) + SegmentFrames(Tone(length), CurrentVoice())
    {
      var generated := GenerateTone(length);
      wave.FromGenerator(generated);
    }

    method SendSilence(length: real)
      modifies wave
      ensures wave.frames == old(wave.frames) + SegmentFrames(Silence(length), CurrentVoice())
    {
      var generated := GenerateSilence(length);
      wave.FromGenerator(generated);
    }

    /** The frames of a silence: as many [0] as the rounded sample count. */
    method GenerateSilence(length: real) returns (generated: seq<Frame>)
      ensures |generated| == FrameCount(sampleRate, length)
      ensures forall i :: 0 <= i < |generated| ==> generated[i] == [0.0]
      ensures generated == SegmentFrames(Silence(length), CurrentVoice())
    {
      var lengthInSamples := Round(sampleRate as real * length);
      generated := [];
      var i := 0;
      while i < lengthInSamples
        invariant 0 <= i && (i <= lengthInSamples || i == 0)
        invariant |generated| == i
        invariant forall k :: 0 <= k < i ==> generated[k] == [0.0]
      {
        generated := generated + [[0.0]];
        i := i + 1;
      }
    }

    /** The frames of a tone: frame i carries the level of sample i on the listed channels. */
    method GenerateTone(length: real) returns (generated: seq<Frame>)
      ensures |generated| == FrameCount(sampleRate, length)
      ensures forall i :: 0 <= i < |generated| ==>
        generated[i] == Sample(oscillator(volume, tone, i, sampleRate), numberOfChannels, channels)
      ensures generated == SegmentFrames(Tone(length), CurrentVoice())
    {
      var lengthInSamples := Round(sampleRate as real * length);
      generated := [];
      var i := 0;
      while i < lengthInSamples
        invariant 0 <= i && (i <= lengthInSamples || i == 0)
        invariant |generated| == i
        invariant forall k :: 0 <= k < i ==>
          generated[k] == Sample(oscillator(volume, tone, k, sampleRate), numberOfChannels, channels)
      {
        var level := oscillator(volume, tone, i, sampleRate);
        var sample := CreateSample(level);
        generated := generated + [sample];
        i := i + 1;
      }
    }

    /** One tone frame: `level` on every listed channel, 0 on every other. */
    method CreateSample(level: real) returns (sample: Frame)
      ensures |sample| == numberOfChannels
      ensures forall c :: 0 <= c < numberOfChannels ==> sample[c] == (if c in channels then level else 0.0)
      ensures sample == Sample(level, numberOfChannels, channels)
    {
      sample := [];
      var i := 0;
      while i < numberOfChannels
        invariant 0 <= i <= numberOfChannels
        invariant |sample| == i
        invariant forall c :: 0 <= c < i ==> sample[c] == (if c in channels then level else 0.0)
      {
        sample := sample + [if i in channels then level else 0.0];
        i := i + 1;
      }
    }

    /** Derives the dot, dash and space lengths from the speed. */
    method RecalculateWpmTimes()
      requires wpm != 0.0
      modifies this
      ensures Valid()
      ensures dotTime == 1.2 / wpm && dashTime == 3.6 / wpm && spaceTime == 12.0 / wpm
      ensures wpm == old(wpm) && tone == old(tone) && volume == old(volume) && shortNumbers == old(shortNumbers)
    {
      dotTime := 1.2 / wpm;
      dashTime := 3.6 / wpm;
      spaceTime := 12.0 / wpm;
    }
  }

  /**
   * Creates an encoder, refusing a wave that is not writable before anything
   * is written.
   */
  method Create(wave: Wave, channels: set<int>, wpm: real, tone: real, volume: real, oscillator: Oscillator)
    returns (result: Result<MorseEncoder, MorseError>)
    requires wave.IsWritable() ==> wpm != 0.0
    ensures result.Failure? <==> !wave.IsWritable()
    ensures result.Failure? ==> result.error == FileIsNotWritable
    ensures result.Success? ==> fresh(result.value) && result.value.Valid() && result.value.wave == wave
    ensures result.Success? ==> result.value.wpm == wpm && result.value.tone == tone && result.value.volume == volume
    ensures result.Success? ==> result.value.channels == channels && !result.value.shortNumbers
    ensures result.Success? ==> result.value.sampleRate == wave.sampleRate && result.value.numberOfChannels == wave.numberOfChannels
    ensures result.Success? ==> result.value.oscillator == oscillator
    ensures wave.frames == old(wave.frames)
  {
    if !wave.IsWritable() {
      return Failure(FileIsNotWritable);
    }
    var encoder := new MorseEncoder(wave, channels, wpm, tone, volume, oscillator);
    return Success(encoder);
  }

  /** Create with the defaults: 20 words per minute, 700 Hz, volume 1. */
  method CreateWithDefaults(wave: Wave, channels: set<int>, oscillator: Oscillator)
    returns (result: Result<MorseEncoder, MorseError>)
    ensures result.Failure? <==> !wave.IsWritable()
    ensures result.Failure? ==> result.error == FileIsNotWritable
    ensures result.Success? ==> fresh(result.value) && result.value.Valid() && result.value.wave == wave
    ensures result.Success? ==> result.value.wpm == DefaultWpm && result.value.tone == DefaultTone && result.value.volume == DefaultVolume
    ensures result.Success? ==> result.value.channels == channels && !result.value.shortNumbers
    ensures result.Success? ==> result.value.sampleRate == wave.sampleRate && result.value.numberOfChannels == wave.numberOfChannels
    ensures result.Success? ==> result.value.oscillator == oscillator
    ensures wave.frames == old(wave.frames)
  {
    result := Create(wave, channels, DefaultWpm, DefaultTone, DefaultVolume, oscillator);
  }
}
