/**
 * The signal layer: a code becomes tone and silence segments, and a segment
 * becomes frames (one sample instant across the channels) at the sink's
 * sample rate.
 */
module Signal {

  /** A stretch of tone or of silence, `length` seconds long. */
  datatype Segment = Tone(length: real) | Silence(length: real)

  /** One sample instant: a value per channel (a silence frame has one entry). */
  type Frame = seq<real>

  /**
   * The tone level of frame `i`; it stands for volume * sin(2 * pi * tone * i / sampleRate),
   * which is outside the model.
   */
  type Oscillator = (real, real, int, int) -> real

  /** Everything the expansion of a segment into frames depends on. */
  datatype Voice = Voice(
    sampleRate: nat,
    numberOfChannels: nat,
    channels: set<int>,
    volume: real,
    tone: real,
    oscillator: Oscillator)

  /** Tone length of one symbol: a dot for '.', a dash for any other character. */
  function SymbolTime(symbol: char, dotTime: real, dashTime: real): real
  {
    if symbol == '.' then dotTime else dashTime
  }

  /**
   * The segments emitted for one code: per symbol a tone and then a silence,
   * the silence after the last symbol being a dash long.
   */
  function CharCodeSegments(code: string, dotTime: real, dashTime: real): seq<Segment>
    decreases |code|
  {
    if code == [] then []
    else [Tone(SymbolTime(code[0], dotTime, dashTime)), Silence(if |code| == 1 then dashTime else dotTime)]
         + CharCodeSegments(code[1..], dotTime, dashTime)
  }

  /** The code of length n gives 2n segments: tone i at 2i, its gap at 2i + 1. */
  lemma {:induction false} CharCodeSegmentsAt(code: string, dotTime: real, dashTime: real, i: nat)
    requires i < |code|
    ensures |CharCodeSegments(code, dotTime, dashTime)| == 2 * |code|
    ensures CharCodeSegments(code, dotTime, dashTime)[2 * i] == Tone(SymbolTime(code[i], dotTime, dashTime))
    ensures CharCodeSegments(code, dotTime, dashTime)[2 * i + 1] == Silence(if i == |code| - 1 then dashTime else dotTime)
    decreases |code|
  {
    if |code| > 1 {
      CharCodeSegmentsAt(code[1..], dotTime, dashTime, if i == 0 then 0 else i - 1);
    }
  }

  /** An empty code emits nothing; otherwise tones and silences alternate, starting with a tone. */
  lemma {:induction false} CharCodeSegmentsAlternate(code: string, dotTime: real, dashTime: real)
    ensures |CharCodeSegments(code, dotTime, dashTime)| == 2 * |code|
    ensures forall k :: 0 <= k < 2 * |code| ==>
      (CharCodeSegments(code, dotTime, dashTime)[k].Tone? <==> k % 2 == 0)
  {
    if code == [] {
    } else {
      CharCodeSegmentsAt(code, dotTime, dashTime, 0);
      forall k | 0 <= k < 2 * |code|
        ensures CharCodeSegments(code, dotTime, dashTime)[k].Tone? <==> k % 2 == 0
      {
        CharCodeSegmentsAt(code, dotTime, dashTime, k / 2);
      }
    }
  }

  /**
   * Only which positions hold a '.' matters: any other character is sent as a
   * dash, so "=..=" is sent exactly as "-..-".
   */
  lemma {:induction false} OnlyDotsMatter(a: string, b: string, dotTime: real, dashTime: real)
    requires |a| == |b|
    requires forall i :: 0 <= i < |a| ==> (a[i] == '.' <==> b[i] == '.')
    ensures CharCodeSegments(a, dotTime, dashTime) == CharCodeSegments(b, dotTime, dashTime)
    decreases |a|
  {
    if a != [] {
      assert a[0] == '.' <==> b[0] == '.';
      OnlyDotsMatter(a[1..], b[1..], dotTime, dashTime);
    }
  }

  /** The equals sign's table entry "=..=" is sent as dash, dot, dot, dash. */
  lemma EqualsSignSentAsDashDotDotDash(dotTime: real, dashTime: real)
    ensures CharCodeSegments("=..=", dotTime, dashTime) == CharCodeSegments("-..-", dotTime, dashTime)
    ensures CharCodeSegments("=..=", dotTime, dashTime) ==
      [Tone(dashTime), Silence(dotTime), Tone(dotTime), Silence(dotTime),
       Tone(dotTime), Silence(dotTime), Tone(dashTime), Silence(dashTime)]
  {
    OnlyDotsMatter("=..=", "-..-", dotTime, dashTime);
  }

  /** Rounding to the nearest integer, halves away from zero. */
  function Round(x: real): int
  {
    if x >= 0.0 then (x + 0.5).Floor else -((-x + 0.5).Floor)
  }

  /** Round gives the nearest integer; a tie goes to the one farther from zero. */
  lemma RoundNearest(x: real)
    ensures x >= 0.0 ==> x - 0.5 < Round(x) as real <= x + 0.5
    ensures x < 0.0 ==> x - 0.5 <= Round(x) as real < x + 0.5
  {
  }

  /**
   * Number of frames of a segment `length` seconds long: the rounded sample
   * count, or none when that count is not positive.
   */
  function FrameCount(sampleRate: nat, length: real): nat
  {
    var count := Round(sampleRate as real * length);
    if count > 0 then count else 0
  }

  /** A segment gets the sample count rounded to the nearest integer, and no frame when that is not positive. */
  lemma FrameCountNearest(sampleRate: nat, length: real)
    ensures var n := FrameCount(sampleRate, length);
      n > 0 ==> n as real - 0.5 <= sampleRate as real * length <= n as real + 0.5
    ensures FrameCount(sampleRate, length) > 0 ==> FrameCount(sampleRate, length) == Round(sampleRate as real * length)
    ensures FrameCount(sampleRate, length) == 0 <==> Round(sampleRate as real * length) <= 0
  {
    RoundNearest(sampleRate as real * length);
  }

  /** The frame for tone level `level`: the level on each listed channel, 0 on the others. */
  function Sample(level: real, numberOfChannels: nat, channels: set<int>): Frame
  {
    seq(numberOfChannels, c => if c in channels then level else 0.0)
  }

  /** The frames of one segment. */
  function SegmentFrames(segment: Segment, voice: Voice): seq<Frame>
  {
    match segment
    case Silence(length) =>
      seq(FrameCount(voice.sampleRate, length), _ => [0.0])
    case Tone(length) =>
      seq(FrameCount(voice.sampleRate, length),
          i => Sample(voice.oscillator(voice.volume, voice.tone, i, voice.sampleRate), voice.numberOfChannels, voice.channels))
  }

  /** The frames of a run of segments, in order. */
  function Render(segments: seq<Segment>, voice: Voice): seq<Frame>
    decreases |segments|
  {
    if segments == [] then []
    else Render(segments[..|segments| - 1], voice) + SegmentFrames(segments[|segments| - 1], voice)
  }

  lemma {:induction false} RenderAppend(a: seq<Segment>, b: seq<Segment>, voice: Voice)
    ensures Render(a + b, voice) == Render(a, voice) + Render(b, voice)
    decreases |b|
  {
    if b == [] {
      assert a + b == a;
    } else {
      var b' := b[..|b| - 1];
      assert (a + b)[..|a + b| - 1] == a + b';
      RenderAppend(a, b', voice);
    }
  }

  /**
   * Rendering the segments of a code symbol by symbol: the first i + 1
   * symbols render as the first i followed by the tone and the gap of symbol i.
   */
  lemma {:induction false} RenderCharCodeStep(code: string, dotTime: real, dashTime: real, voice: Voice, i: nat)
    requires i < |code|
    ensures 2 * i + 2 <= |CharCodeSegments(code, dotTime, dashTime)|
    ensures Render(CharCodeSegments(code, dotTime, dashTime)[..2 * i + 2], voice)
         == Render(CharCodeSegments(code, dotTime, dashTime)[..2 * i], voice)
          + SegmentFrames(Tone(SymbolTime(code[i], dotTime, dashTime)), voice)
          + SegmentFrames(Silence(if i == |code| - 1 then dashTime else dotTime), voice)
  {
    var segments := CharCodeSegments(code, dotTime, dashTime);
    CharCodeSegmentsAt(code, dotTime, dashTime, i);
    var tone := segments[2 * i];
    var gap := segments[2 * i + 1];
    var before := segments[..2 * i];
    assert segments[..2 * i + 1] == before + [tone];
    assert segments[..2 * i + 2] == segments[..2 * i + 1] + [gap];
    assert segments[..2 * i + 2][..2 * i + 1] == segments[..2 * i + 1];
    assert segments[..2 * i + 1][..2 * i] == before;
  }

  /** The frames of symbol i of a code: its tone, then its gap. */
  function SymbolFrames(code: string, i: nat, dotTime: real, dashTime: real, voice: Voice): seq<Frame>
    requires i < |code|
  {
    SegmentFrames(Tone(SymbolTime(code[i], dotTime, dashTime)), voice)
      + SegmentFrames(Silence(if i == |code| - 1 then dashTime else dotTime), voice)
  }

  /** The frames of the first n symbols of a code, symbol after symbol. */
  function CodePrefixFrames(code: string, n: nat, dotTime: real, dashTime: real, voice: Voice): seq<Frame>
    requires n <= |code|
    decreases n
  {
    if n == 0 then [] else CodePrefixFrames(code, n - 1, dotTime, dashTime, voice) + SymbolFrames(code, n - 1, dotTime, dashTime, voice)
  }

  /** A code of n symbols gives 2n segments. */
  lemma CharCodeSegmentsLength(code: string, dotTime: real, dashTime: real)
    ensures |CharCodeSegments(code, dotTime, dashTime)| == 2 * |code|
  {
    if code != [] {
      CharCodeSegmentsAt(code, dotTime, dashTime, 0);
    }
  }

  /** One more symbol sent extends the rendered prefix of the code's segments by that symbol's two segments. */
  lemma CodePrefixFramesStep(code: string, n: nat, dotTime: real, dashTime: real, voice: Voice)
    requires 0 < n <= |code|
    requires 2 * (n - 1) <= |CharCodeSegments(code, dotTime, dashTime)|
    requires CodePrefixFrames(code, n - 1, dotTime, dashTime, voice)
          == Render(CharCodeSegments(code, dotTime, dashTime)[..2 * (n - 1)], voice)
    ensures 2 * n <= |CharCodeSegments(code, dotTime, dashTime)|
    ensures CodePrefixFrames(code, n, dotTime, dashTime, voice)
         == Render(CharCodeSegments(code, dotTime, dashTime)[..2 * n], voice)
  {
    var i := n - 1;
    RenderCharCodeStep(code, dotTime, dashTime, voice, i);
    assert 2 * i + 2 == 2 * n;
    ConcatAssociative(CodePrefixFrames(code, i, dotTime, dashTime, voice),
      SegmentFrames(Tone(SymbolTime(code[i], dotTime, dashTime)), voice),
      SegmentFrames(Silence(if i == |code| - 1 then dashTime else dotTime), voice));
  }

  /** Sending the first n symbols one after the other renders the first 2n segments of the code. */
  lemma {:induction false} CodePrefixFramesRender(code: string, n: nat, dotTime: real, dashTime: real, voice: Voice)
    requires n <= |code|
    ensures 2 * n <= |CharCodeSegments(code, dotTime, dashTime)|
    ensures CodePrefixFrames(code, n, dotTime, dashTime, voice)
         == Render(CharCodeSegments(code, dotTime, dashTime)[..2 * n], voice)
    decreases n
  {
    if n == 0 {
      assert CharCodeSegments(code, dotTime, dashTime)[..0] == [];
    } else {
      CodePrefixFramesRender(code, n - 1, dotTime, dashTime, voice);
      CodePrefixFramesStep(code, n, dotTime, dashTime, voice);
    }
  }

  /** Sending every symbol of a code, one after the other, renders the code's segments. */
  lemma CodeSymbolBySymbol(code: string, dotTime: real, dashTime: real, voice: Voice)
    ensures CodePrefixFrames(code, |code|, dotTime, dashTime, voice)
         == Render(CharCodeSegments(code, dotTime, dashTime), voice)
  {
    CodePrefixFramesRender(code, |code|, dotTime, dashTime, voice);
    CharCodeSegmentsLength(code, dotTime, dashTime);
    assert CharCodeSegments(code, dotTime, dashTime)[..2 * |code|] == CharCodeSegments(code, dotTime, dashTime);
  }

  lemma ConcatAssociative<T>(x: seq<T>, y: seq<T>, z: seq<T>)
    ensures x + (y + z) == (x + y) + z
  {
  }

  /** Appending two pieces after what was already sent extends the prefix by both pieces. */
  lemma AppendPieces<T>(start: seq<T>, done: seq<T>, sent: seq<T>, first: seq<T>, second: seq<T>)
    requires sent == start + done
    ensures (sent + first) + second == start + (done + (first + second))
  {
    ConcatAssociative(sent, first, second);
    ConcatAssociative(start, done, first + second);
  }

  /** A tone frame has one entry per channel; it is the level on listed channels and 0 on the rest. */
  lemma SampleChannels(level: real, numberOfChannels: nat, channels: set<int>, c: int)
    requires 0 <= c < numberOfChannels
    ensures |Sample(level, numberOfChannels, channels)| == numberOfChannels
    ensures Sample(level, numberOfChannels, channels)[c] == (if c in channels then level else 0.0)
  {
  }

  /** Listing a channel index outside 0 .. numberOfChannels - 1 changes no frame. */
  lemma ChannelsOutOfRangeIgnored(level: real, numberOfChannels: nat, channels: set<int>, extra: set<int>)
    requires forall c :: c in extra ==> c < 0 || c >= numberOfChannels
    ensures Sample(level, numberOfChannels, channels + extra) == Sample(level, numberOfChannels, channels)
  {
  }

  /**
   * Every frame rendered from any segments is either a one-entry silence frame
   * [0] or a full-width tone frame, and every channel that is not listed is 0.
   */
  lemma {:induction false} UnlistedChannelsSilent(segments: seq<Segment>, voice: Voice, k: nat)
    requires k < |Render(segments, voice)|
    ensures Render(segments, voice)[k] == [0.0] || |Render(segments, voice)[k]| == voice.numberOfChannels
    ensures forall c :: 0 <= c < |Render(segments, voice)[k]| && c !in voice.channels ==> Render(segments, voice)[k][c] == 0.0
    decreases |segments|
  {
    var init := segments[..|segments| - 1];
    if k >= |Render(init, voice)| {
      var j := k - |Render(init, voice)|;
      assert Render(segments, voice)[k] == SegmentFrames(segments[|segments| - 1], voice)[j];
      if segments[|segments| - 1].Tone? {
        var level := voice.oscillator(voice.volume, voice.tone, j, voice.sampleRate);
        assert Render(segments, voice)[k] == Sample(level, voice.numberOfChannels, voice.channels);
      }
    } else {
      UnlistedChannelsSilent(init, voice, k);
      assert Render(segments, voice)[k] == Render(init, voice)[k];
    }
  }

  /** The number of frames rendered is the sum of the segments' frame counts. */
  function TotalFrames(segments: seq<Segment>, sampleRate: nat): nat
    decreases |segments|
  {
    if segments == [] then 0
    else TotalFrames(segments[..|segments| - 1], sampleRate) + FrameCount(sampleRate, segments[|segments| - 1].length)
  }

  lemma {:induction false} RenderLength(segments: seq<Segment>, voice: Voice)
    ensures |Render(segments, voice)| == TotalFrames(segments, voice.sampleRate)
    decreases |segments|
  {
    if segments != [] {
      RenderLength(segments[..|segments| - 1], voice);
    }
  }
}
