# Morse encoder model

A Dafny model of a PHP Morse-code encoder. The encoder turns text, or named
procedural signals (AR, SOS, …), into audio frames. It writes those frames to
a wave file at a configurable speed (words per minute), tone frequency and
volume, on a chosen set of channels.

Text is upper-cased and then read unit by unit:

- a `<NAME>` escape sends the procedural character NAME;
- a letter, digit or punctuation mark sends its code;
- a space sends a word gap.

An unterminated escape, an unknown escape name or an unknown character stops
the text with an error. Whatever was sent before the error stays written.

Each symbol of a code is a tone followed by a gap:

- a `.` is a dot-long tone; any other character is a dash-long tone;
- the gap is a dot long, or a dash long after the last symbol;
- a word space is a space-long silence.

The lengths are 1.2, 3.6 and 12 seconds divided by the speed. A tone of
`length` seconds is `round(sampleRate * length)` frames. Frame i carries the
level of sample i on every listed channel and 0 on the others. A silence frame
is `[0]`.

Modules, one per file:

- `Wrappers` (wrappers.dfy): `Option` and `Result`.
- `MorseExceptions` (exceptions.dfy): the four exceptions as values, their messages, and the message round trips.
- `CodeTables` (code_tables.dfy): the five constant tables, copied entry for entry, including their quirks. `'='` maps to `"=..="`, B and J share `.---`, and AR and EC share `.-.-.`.
- `Timing` (timing.dfy): dot, dash and space lengths from the speed.
- `Signal` (signal.dfy):
  - a code as tone and silence segments;
  - PHP `round`;
  - frames of a segment;
  - rendering a run of segments.
- `TextParser` (text_parser.dfy):
  - `strtoupper`, `strpos` and the per-character classification;
  - `Parse`, the specification of what `text()` reads and where it stops;
  - the units' segments.
- `WaveSink` (wave_sink.dfy): the wave file as an object with an append-only sequence of frames.
- `Morse` (morse_encoder.dfy): the class `MorseEncoder` with the source's fields and methods. Each method is proved against the specification functions above. `Create` performs the constructor's writability check.

`MorseEncoder.Text` runs the same loop as the source. It ends with the wave
holding the frames of the units `Parse` reads, and it returns the error
`Parse` stops at, if any. Separate lemmas state what `Parse` does:

- case-insensitivity;
- escapes;
- errors;
- splitting a text in two.

## Model

| member | source | states |
|---|---|---|
| MorseExceptions.UnknownCharacterException.GetMessage | src/Exception/UnknownCharacterException.php:13-17 | the message is `Unknown character "` then the character then `"`, and the character sits at positions 19 to length-1 |
| MorseExceptions.UnknownCharacterException.GetChar | src/Exception/UnknownCharacterException.php:22-25 | the character returned is exactly the one the message quotes |
| MorseExceptions.UnknownProceduralCharacterException.GetMessage | src/Exception/UnknownProceduralCharacterException.php:13-17 | the message is `Unknown procedural character "<` then the name then `>"`, and the name sits at positions 31 to length-2 |
| MorseExceptions.UnknownProceduralCharacterException.GetProceduralCharacter | src/Exception/UnknownProceduralCharacterException.php:22-25 | the name returned is exactly the one the message shows between the brackets |
| MorseExceptions.CharFromMessage | src/Exception/UnknownCharacterException.php:16 | reading the character back from a message gives a string 20 shorter than the message |
| MorseExceptions.NameFromMessage | src/Exception/UnknownProceduralCharacterException.php:16 | reading the name back from a message gives a string 33 shorter than the message |
| MorseExceptions.CharMessageRoundTrip | src/Exception/UnknownCharacterException.php:13-17 | the character can be read back from the message |
| MorseExceptions.ProceduralMessageRoundTrip | src/Exception/UnknownProceduralCharacterException.php:13-17 | the name can be read back from the message |
| MorseExceptions.MessagesAreInjective | src/Exception/UnknownCharacterException.php:16 | two exceptions of one kind with equal messages carry equal payloads |
| MorseExceptions.EmptyProceduralMessage | src/Exception/UnknownProceduralCharacterException.php:16 | the empty name `<>` gives the message `Unknown procedural character "<>"` |
| MorseExceptions.MessageShowsKind | src/Exception/FileIsNotWritableException.php:9-12 | the message alone tells which of the four exceptions it came from |
| MorseExceptions.MessagesAreDistinct | src/Exception/UnterminatedProceduralCharacterException.php:7-10 | no two different failures share a message |
| CodeTables.DigitTable | src/MorseEncoder.php:229-234 | the digit table read is the short one exactly when short numbers are on, and both have the same keys |
| CodeTables.LetterKeys | src/MorseEncoder.php:16-43 | the letter table's keys are exactly A to Z |
| CodeTables.DigitKeys | src/MorseEncoder.php:45-69 | both digit tables' keys are exactly 0 to 9 |
| CodeTables.PunctuationKeys | src/MorseEncoder.php:71-87 | no punctuation key is a letter, a digit, a space or `<` |
| CodeTables.CharacterTablesDisjoint | src/MorseEncoder.php:227-240 | the letter, digit and punctuation tables share no key and hold neither a space nor `<`, so the order of the lookups in `text()` never matters |
| CodeTables.LetterCode | src/MorseEncoder.php:16-43 | every letter code is a non-empty run of dots and dashes |
| CodeTables.NumberCodes | src/MorseEncoder.php:45-69 | every standard and short digit code is a non-empty run of dots and dashes |
| CodeTables.PunctuationCode | src/MorseEncoder.php:71-87 | every punctuation code except `=` is a non-empty run of dots and dashes |
| CodeTables.ProceduralCode | src/MorseEncoder.php:89-101 | every procedural code is a non-empty run of dots and dashes |
| CodeTables.TableQuirks | src/MorseEncoder.php:16-101 | `=` maps to `=..=` (not dots and dashes), B and J share `.---`, and AR and EC share `.-.-.` |
| CodeTables.ProceduralNames | src/MorseEncoder.php:89-101 | every procedural name is 1 to 3 upper-case letters and holds no `>` |
| Timing.DotTime | src/MorseEncoder.php:379 | dot length times speed is 1.2 |
| Timing.DashTime | src/MorseEncoder.php:380 | dash length times speed is 3.6, three dots |
| Timing.SpaceTime | src/MorseEncoder.php:381 | space length times speed is 12, ten dots |
| Timing.DoublingSpeedHalvesTimes | src/MorseEncoder.php:377-382 | doubling the speed halves all three lengths |
| Timing.PositiveSpeedOrdersTimes | src/MorseEncoder.php:377-382 | at a positive speed, 0 < dot < dash < space |
| Signal.SymbolTime | src/MorseEncoder.php:327-331 | no contract of its own: a dot's length for `.`, a dash's for any other symbol; see OnlyDotsMatter and CharCodeSegmentsAt |
| Signal.CharCodeSegments | src/MorseEncoder.php:323-334 | no contract of its own: per symbol a tone and a gap, the gap a dash long after the last symbol; see CharCodeSegmentsAt, CharCodeSegmentsAlternate and CharCodeSegmentsLength |
| Signal.Round | src/MorseEncoder.php:349 | no contract of its own: PHP `round`, halves away from zero; see RoundNearest |
| Signal.FrameCount | src/MorseEncoder.php:349-350 | no contract of its own: the rounded sample count when positive, else 0, the number of times the `$i <` loop runs; see FrameCountNearest |
| Signal.Sample | src/MorseEncoder.php:364-371 | no contract of its own: the level on each listed channel, 0 on the others; see SampleChannels and ChannelsOutOfRangeIgnored |
| Signal.SegmentFrames | src/MorseEncoder.php:347-362 | no contract of its own: FrameCount frames, `[0]` for a silence and the sample of level i for frame i of a tone; see GenerateSilence, GenerateTone and UnlistedChannelsSilent |
| TextParser.Classify | src/MorseEncoder.php:227-241 | no contract of its own: the letter, then digit (short or standard), then punctuation code, a word space for ' ', otherwise none; see ClassifyFails and CharacterTablesDisjoint |
| TextParser.Parse | src/MorseEncoder.php:212-243 | no contract of its own: the units read unit by unit up to the first error, and that error; see ParseAppend, Unterminated, UnknownProcedural, ProceduralEscape, UnknownCharacterStops |
| TextParser.ParseText | src/MorseEncoder.php:209-245 | no contract of its own: Parse of the upper-cased text; see TextIgnoresCase, ParseTextAppend, and Morse.MorseEncoder.Text |
| TextParser.UnitSegments | src/MorseEncoder.php:223-238 | no contract of its own: a code's segments for a code unit, one space-long silence for a word space; see SingleUnitSegments and Morse.MorseEncoder.Space |
| MorseExceptions.MorseError.Message | src/Exception/FileIsNotWritableException.php:9-12 | no contract of its own: the message of each of the four exceptions; see MessageShowsKind and MessagesAreDistinct |
| Signal.CharCodeSegmentsAt | src/MorseEncoder.php:323-334 | a code of n symbols gives 2n segments: segment 2i is symbol i's tone (a dot for `.`, else a dash) and 2i+1 its gap (a dash after the last symbol, else a dot) |
| Signal.CharCodeSegmentsAlternate | src/MorseEncoder.php:323-334 | tones and silences alternate, starting with a tone |
| Signal.CharCodeSegmentsLength | src/MorseEncoder.php:325-326 | a code of n symbols gives 2n segments |
| Signal.OnlyDotsMatter | src/MorseEncoder.php:327-331 | two codes with dots at the same positions send the same segments |
| Signal.EqualsSignSentAsDashDotDotDash | src/MorseEncoder.php:78 | the `=..=` entry is sent as dash, dot, dot, dash, with its gaps |
| Signal.RoundNearest | src/MorseEncoder.php:349 | rounding gives the nearest integer, halves away from zero |
| Signal.FrameCountNearest | src/MorseEncoder.php:347-353 | a segment has `round(sampleRate * length)` frames when that is positive and none otherwise |
| Signal.RenderAppend | src/MorseEncoder.php:337-345 | rendering two runs of segments is rendering each and concatenating |
| Signal.RenderCharCodeStep | src/MorseEncoder.php:326-333 | the first i+1 symbols render as the first i, then the tone and the gap of symbol i |
| Signal.CodePrefixFramesStep | src/MorseEncoder.php:326-333 | one more symbol extends the sent frames by its tone and gap |
| Signal.CodePrefixFramesRender | src/MorseEncoder.php:326-333 | the first n symbols, sent one after another, render the first 2n segments |
| Signal.CodeSymbolBySymbol | src/MorseEncoder.php:323-334 | all symbols sent one after another render the whole code |
| Signal.SampleChannels | src/MorseEncoder.php:364-371 | a tone frame has one entry per channel: the level on listed channels, 0 elsewhere |
| Signal.ChannelsOutOfRangeIgnored | src/MorseEncoder.php:366-368 | listing a channel index outside the channel count changes no frame |
| Signal.UnlistedChannelsSilent | src/MorseEncoder.php:347-371 | every rendered frame is `[0]` or channel-wide, and an unlisted channel is 0 in it |
| Signal.RenderLength | src/MorseEncoder.php:347-362 | the frame count is the sum of the segments' rounded sample counts |
| TextParser.UpperChar | src/MorseEncoder.php:211 | a-z map to A-Z and every other character is kept |
| TextParser.Upper | src/MorseEncoder.php:211 | upper-casing keeps the length and upper-cases each character |
| TextParser.UpperIdempotent | src/MorseEncoder.php:211 | upper-casing twice is upper-casing once |
| TextParser.UpperAppend | src/MorseEncoder.php:211 | upper-casing distributes over concatenation |
| TextParser.IndexOf | src/MorseEncoder.php:215 | the result is the first position of the character, and none exactly when it is absent |
| TextParser.FirstUnit | src/MorseEncoder.php:213-242 | one step of the loop consumes at least one character and at most the text, and exactly one unless at `<` |
| TextParser.ClassifyFails | src/MorseEncoder.php:227-241 | a character is refused exactly when no table holds it and it is not a space |
| TextParser.UnitsSegmentsAppend | src/MorseEncoder.php:212-244 | the segments of two runs of units are the segments of each, concatenated |
| TextParser.SingleUnitSegments | src/MorseEncoder.php:227-238 | a single unit sends just its own segments |
| TextParser.RenderUnitsSnoc | src/MorseEncoder.php:212-244 | one more unit appends its rendered segments |
| TextParser.TextIgnoresCase | src/MorseEncoder.php:211 | a text reads the same as its upper-cased form |
| TextParser.EmptyText | src/MorseEncoder.php:212 | the empty text sends nothing and succeeds |
| TextParser.Unterminated | src/MorseEncoder.php:214-218 | `<` with no later `>` stops at once with the unterminated error |
| TextParser.UnknownProcedural | src/MorseEncoder.php:219-222 | `<NAME>` with NAME not in the table stops at once, reporting NAME |
| TextParser.EmptyBrackets | src/MorseEncoder.php:219-222 | `<>` reports the empty name, with the message `Unknown procedural character "<>"` |
| TextParser.ProceduralEscape | src/MorseEncoder.php:219-225 | `<NAME>` with NAME in the table sends its code and reading resumes after the `>` |
| TextParser.UnknownCharacterStops | src/MorseEncoder.php:238-240 | a character no table knows stops reading, reporting that character |
| TextParser.IndexOfAppend | src/MorseEncoder.php:215 | the first `>` of a text is still the first after text is appended |
| TextParser.FirstUnitAppend | src/MorseEncoder.php:213-242 | a unit that reads from a text reads the same from the text with more appended |
| TextParser.ParseRead | src/MorseEncoder.php:212-242 | after a unit is read, the parse is that unit followed by the parse of the rest |
| TextParser.ParseAppendStep | src/MorseEncoder.php:212-242 | the first unit of a+b is the first unit of a, and the rest follows |
| TextParser.ParseAppendRead | src/MorseEncoder.php:212-242 | the inductive step of splitting a text in two |
| TextParser.ParseStepRead | src/MorseEncoder.php:224-241 | reading one unit moves it from the text still to read to the units read |
| TextParser.ParseStepStop | src/MorseEncoder.php:216-240 | a stopping step ends the parse with the units read so far and that error |
| TextParser.ParseAppend | src/MorseEncoder.php:212-243 | an error-free text followed by more text reads its units first and then those of the rest, with the rest's error |
| TextParser.ParseTextAppend | src/MorseEncoder.php:209-245 | the same for the upper-cased input of `text()` |
| TextParser.TextEscapeIsShortcut | src/MorseEncoder.php:219-225 | `<name>`, in any case, reads as the single procedural code of NAME |
| TextParser.OneCharacterText | src/MorseEncoder.php:227-242 | a one-character text reads as that character's single unit |
| TextParser.EqualsSignSoundsLikeX | src/MorseEncoder.php:78 | `=` reads the `=..=` entry and sends exactly the segments of `X` |
| TextParser.DigitOne | src/MorseEncoder.php:229-234 | `1` sends `.----`, or `.-` with short numbers |
| TextParser.UnknownNameXY | src/MorseEncoder.php:219-222 | `<XY>` reports the unknown name `XY` |
| TextParser.LetterThenUnterminated | src/MorseEncoder.php:212-218 | `A<AR` sends the A and then reports the unterminated escape |
| WaveSink.Wave.FromGenerator | src/MorseEncoder.php:337-345 | the generated frames are appended in order, none dropped |
| Morse.MorseEncoder.constructor | src/MorseEncoder.php:146-162 | the encoder takes the wave's sample rate and channel count, the given channels, speed, tone and volume, short numbers off, and the derived lengths 1.2, 3.6 and 12 over the speed |
| Morse.MorseEncoder.SetWpm | src/MorseEncoder.php:169-174 | the speed is set, the three lengths are recomputed from it, and nothing else changes |
| Morse.MorseEncoder.SetTone | src/MorseEncoder.php:181-185 | the tone is set and nothing else changes |
| Morse.MorseEncoder.SetShortNumbers | src/MorseEncoder.php:192-196 | the flag is set and nothing else changes |
| Morse.MorseEncoder.SetVolume | src/MorseEncoder.php:203-207 | the volume is set and nothing else changes |
| Morse.MorseEncoder.Text | src/MorseEncoder.php:209-245 | the wave gains exactly the frames of the units the text reads up to its first error, and that error is returned |
| Morse.MorseEncoder.TextAppendFrames | src/MorseEncoder.php:209-245 | sending a then b, a without error, writes what sending a+b writes, with b's error |
| Morse.MorseEncoder.TextEscapeFrames | src/MorseEncoder.php:219-225 | sending `<name>` writes what the shortcut for NAME writes |
| Morse.MorseEncoder.SentUnit | src/MorseEncoder.php:212-244 | the frames of one more unit extend those of the units before it |
| Morse.MorseEncoder.Space | src/MorseEncoder.php:247-251 | the wave gains one space-long silence |
| Morse.MorseEncoder.EndOfMessage | src/MorseEncoder.php:253-257 | the wave gains the frames of the AR code |
| Morse.MorseEncoder.Wait | src/MorseEncoder.php:259-263 | the wave gains the frames of the AS code |
| Morse.MorseEncoder.BreakIn | src/MorseEncoder.php:265-269 | the wave gains the frames of the BK code |
| Morse.MorseEncoder.EndCopy | src/MorseEncoder.php:271-275 | the wave gains the frames of the EC code |
| Morse.MorseEncoder.Correction | src/MorseEncoder.php:277-281 | the wave gains the frames of the HH code |
| Morse.MorseEncoder.Attention | src/MorseEncoder.php:283-287 | the wave gains the frames of the KA code |
| Morse.MorseEncoder.GoAhead | src/MorseEncoder.php:289-293 | the wave gains the frames of the KN code |
| Morse.MorseEncoder.NewLine | src/MorseEncoder.php:295-299 | the wave gains the frames of the RT code |
| Morse.MorseEncoder.SilentKey | src/MorseEncoder.php:301-305 | the wave gains the frames of the SK code |
| Morse.MorseEncoder.Sos | src/MorseEncoder.php:307-311 | the wave gains the frames of the SOS code |
| Morse.MorseEncoder.Verified | src/MorseEncoder.php:313-317 | the wave gains the frames of the VE code |
| Morse.MorseEncoder.SendCharCode | src/MorseEncoder.php:323-334 | the wave gains exactly the rendered segments of the code, symbol after symbol |
| Morse.MorseEncoder.SendTone | src/MorseEncoder.php:337-340 | the wave gains the frames of a tone of that length |
| Morse.MorseEncoder.SendSilence | src/MorseEncoder.php:342-345 | the wave gains the frames of a silence of that length |
| Morse.MorseEncoder.GenerateSilence | src/MorseEncoder.php:347-353 | the rounded sample count of `[0]` frames |
| Morse.MorseEncoder.GenerateTone | src/MorseEncoder.php:355-362 | the rounded sample count of frames, frame i being the sample of level i |
| Morse.MorseEncoder.CreateSample | src/MorseEncoder.php:364-371 | one entry per channel: the level on listed channels, 0 on the others |
| Morse.MorseEncoder.RecalculateWpmTimes | src/MorseEncoder.php:377-382 | the three lengths become 1.2, 3.6 and 12 over the speed, and the other settings are kept |
| Morse.Create | src/MorseEncoder.php:146-162 | needs a speed other than 0 only for a writable wave; fails with FileIsNotWritable exactly when the wave is not writable, writing nothing; otherwise returns a fresh, consistent encoder bound to the wave, with its sample rate and channel count, the given channels, speed, tone, volume and oscillator, and short numbers off |
| Morse.CreateWithDefaults | src/MorseEncoder.php:146-162 | every fact of Create, at 20 words per minute, 700 Hz and volume 1 |

## Left out

- The wave-file library (WaveInterface, AbstractFloatWave and their exceptions) is not part of this model. The wave is a writable flag, a sample rate, a channel count and an append-only sequence of frames. Decorating a non-float wave, and the exceptions that decoration can throw, are left out.
- `sin` and `pi`: the tone level `volume * sin(2 * pi * tone * i / sampleRate)` is an `oscillator` function given at creation. Floating point has no counterpart here, so the model fixes no particular waveform.
- Floats are modelled as Dafny reals, with exact arithmetic and no rounding error. Only PHP's `round` of the sample count is modelled, halves away from zero.
- Generators are lazy in PHP; the model builds the whole sequence of frames before appending it. The frames written, and their order, are the same.
- Exceptions become return values. `Text` returns the error instead of throwing. The frames written before the error stay written, as in PHP. The exception class hierarchy and the marker interface are not modelled.
- Morse.MorseEncoder.constructor: requires a writable wave instead of throwing. `Morse.Create` performs the check and returns `FileIsNotWritable`.
- Morse.MorseEncoder.constructor, Morse.MorseEncoder.SetWpm, Morse.MorseEncoder.RecalculateWpmTimes: require a speed other than 0, because 0 is a division by zero in PHP. A negative speed is allowed; it gives negative lengths and therefore no frames.
- `strtoupper` is modelled on single characters: a-z become A-Z and nothing else changes, as in PHP 8.2 and later, or under the C locale. Multibyte input is out of scope; the model works on characters, not bytes.
- `in_array` compares loosely in PHP. Channels are modelled as a set of integers, so string channel entries are left out.
- The setters, `text`, `space` and the eleven procedural shortcuts return `$this` for chaining; the model's methods return nothing (Text returns its error instead).
- The getters (`getWpm`, `getTone`, `isShortNumbers`, `getVolume`) are plain field reads and carry no contract of their own.
