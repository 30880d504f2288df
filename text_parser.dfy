/**
 * The text parser as a specification: the input is upper-cased and read left
 * to right, one unit at a time, into the codes (and word spaces) the encoder
 * sends, stopping at the first error.
 */
module TextParser {
  import opened Wrappers
  import opened MorseExceptions
  import opened CodeTables
  import opened Signal

  /** strtoupper on one ASCII character. */
  function UpperChar(c: char): (u: char)
    ensures !('a' <= u <= 'z')
    ensures 'a' <= c <= 'z' ==> u as int == c as int - 32
    ensures !('a' <= c <= 'z') ==> u == c
  {
    if 'a' <= c <= 'z' then (c as int - 32) as char else c
  }

  /** strtoupper: lower-case ASCII letters become upper case, everything else is kept. */
  function Upper(s: string): (u: string)
    ensures |u| == |s|
    ensures forall i :: 0 <= i < |s| ==> u[i] == UpperChar(s[i])
    decreases |s|
  {
    if s == [] then [] else [UpperChar(s[0])] + Upper(s[1..])
  }

  lemma {:induction false} UpperIdempotent(s: string)
    ensures Upper(Upper(s)) == Upper(s)
  {
    assert forall i :: 0 <= i < |s| ==> UpperChar(UpperChar(s[i])) == UpperChar(s[i]);
  }

  lemma UpperAppend(a: string, b: string)
    ensures Upper(a + b) == Upper(a) + Upper(b)
  {
    assert forall i :: 0 <= i < |a| ==> (a + b)[i] == a[i];
    assert forall i :: |a| <= i < |a + b| ==> (a + b)[i] == b[i - |a|];
  }

  /** strpos for one character: the first index holding `c`, if any. */
  function IndexOf(s: string, c: char): (r: Option<nat>)
    ensures r.Some? ==> r.value < |s| && s[r.value] == c
    ensures r.Some? ==> forall j :: 0 <= j < r.value ==> s[j] != c
    ensures r.None? <==> c !in s
    decreases |s|
  {
    if s == [] then None
    else if s[0] == c then Some(0)
    else match IndexOf(s[1..], c)
      case None => None
      case Some(k) => Some(k + 1)
  }

  /** What one unit of the input sends: a character code, or a word space. */
  datatype Unit = Code(code: string) | WordSpace

  /**
   * The unit of an ordinary (upper-case, non-'<') character, checking the
   * letters, then the digits, then punctuation, then the space.
   */
  function Classify(c: char, shortNumbers: bool): Option<Unit>
  {
    if c in Letters then Some(Code(Letters[c]))
    else if c in Numbers then Some(Code(DigitTable(shortNumbers)[c]))
    else if c in Punctuation then Some(Code(Punctuation[c]))
    else if c == ' ' then Some(WordSpace)
    else None
  }

  /** The first unit of a text: read it and skip `consumed` characters, or stop with an error. */
  datatype Step = Read(unit: Unit, consumed: nat) | Stop(error: MorseError)

  /**
   * The first unit of a non-empty upper-cased text. At '<' it is the name up
   * to the first '>', looked up in the procedural table; otherwise it is the
   * first character, classified.
   */
  function FirstUnit(t: string, shortNumbers: bool): (step: Step)
    requires t != []
    ensures step.Read? ==> 0 < step.consumed <= |t|
    ensures step.Read? && t[0] != '<' ==> step.consumed == 1
  {
    if t[0] == '<' then
      match IndexOf(t, '>')
      case None => Stop(UnterminatedProceduralCharacter)
      case Some(pos) =>
        var name := t[1..pos];
        if name in ProceduralCharacters then Read(Code(ProceduralCharacters[name]), pos + 1)
        else Stop(UnknownProceduralCharacter(UnknownProceduralCharacterException(name)))
    else
      match Classify(t[0], shortNumbers)
      case Some(unit) => Read(unit, 1)
      case None => Stop(UnknownCharacter(UnknownCharacterException([t[0]])))
  }

  /** The units read before the parse stopped, and the error that stopped it, if any. */
  datatype Parsed = Parsed(units: seq<Unit>, error: Option<MorseError>)

  function Prepend(units: seq<Unit>, p: Parsed): Parsed
  {
    Parsed(units + p.units, p.error)
  }

  /** The parse of an already upper-cased text, unit by unit up to the first error. */
  function Parse(t: string, shortNumbers: bool): Parsed
    decreases |t|
  {
    if t == [] then Parsed([], None)
    else
      match FirstUnit(t, shortNumbers)
      case Read(unit, consumed) => Prepend([unit], Parse(t[consumed..], shortNumbers))
      case Stop(error) => Parsed([], Some(error))
  }

  /** The parse `text` performs: of the upper-cased input. */
  function ParseText(s: string, shortNumbers: bool): Parsed
  {
    Parse(Upper(s), shortNumbers)
  }

  /** The segments one unit sends. */
  function UnitSegments(unit: Unit, dotTime: real, dashTime: real, spaceTime: real): seq<Segment>
  {
    match unit
    case Code(code) => CharCodeSegments(code, dotTime, dashTime)
    case WordSpace => [Silence(spaceTime)]
  }

  /** The segments a run of units sends, unit after unit. */
  function UnitsSegments(units: seq<Unit>, dotTime: real, dashTime: real, spaceTime: real): seq<Segment>
    decreases |units|
  {
    if units == [] then []
    else UnitsSegments(units[..|units| - 1], dotTime, dashTime, spaceTime)
         + UnitSegments(units[|units| - 1], dotTime, dashTime, spaceTime)
  }

  lemma {:induction false} UnitsSegmentsAppend(a: seq<Unit>, b: seq<Unit>, dotTime: real, dashTime: real, spaceTime: real)
    ensures UnitsSegments(a + b, dotTime, dashTime, spaceTime)
         == UnitsSegments(a, dotTime, dashTime, spaceTime) + UnitsSegments(b, dotTime, dashTime, spaceTime)
    decreases |b|
  {
    if b == [] {
      assert a + b == a;
    } else {
      var b' := b[..|b| - 1];
      assert (a + b)[..|a + b| - 1] == a + b';
      UnitsSegmentsAppend(a, b', dotTime, dashTime, spaceTime);
      ConcatAssociative(UnitsSegments(a, dotTime, dashTime, spaceTime), UnitsSegments(b', dotTime, dashTime, spaceTime),
        UnitSegments(b[|b| - 1], dotTime, dashTime, spaceTime));
    }
  }

  /** A single unit sends just its own segments. */
  lemma SingleUnitSegments(unit: Unit, dotTime: real, dashTime: real, spaceTime: real)
    ensures UnitsSegments([unit], dotTime, dashTime, spaceTime) == UnitSegments(unit, dotTime, dashTime, spaceTime)
  {
    assert [unit][..0] == [];
    assert [] + UnitSegments(unit, dotTime, dashTime, spaceTime) == UnitSegments(unit, dotTime, dashTime, spaceTime);
  }

  /** The segments of a run of units followed by one more unit, rendered. */
  lemma RenderUnitsSnoc(units: seq<Unit>, unit: Unit, dotTime: real, dashTime: real, spaceTime: real, voice: Voice)
    ensures Render(UnitsSegments(units + [unit], dotTime, dashTime, spaceTime), voice)
         == Render(UnitsSegments(units, dotTime, dashTime, spaceTime), voice)
          + Render(UnitSegments(unit, dotTime, dashTime, spaceTime), voice)
  {
    assert (units + [unit])[..|units|] == units;
    RenderAppend(UnitsSegments(units, dotTime, dashTime, spaceTime), UnitSegments(unit, dotTime, dashTime, spaceTime), voice);
  }

  /** Classification fails exactly for a character in no table that is not a space. */
  lemma ClassifyFails(c: char, shortNumbers: bool)
    ensures Classify(c, shortNumbers).None? <==>
      c !in Letters && c !in Numbers && c !in Punctuation && c != ' '
  {
  }

  /** text is case-insensitive: it reads the same units from a text and from its upper case. */
  lemma TextIgnoresCase(s: string, shortNumbers: bool)
    ensures ParseText(s, shortNumbers) == ParseText(Upper(s), shortNumbers)
  {
    UpperIdempotent(s);
  }

  /** The empty text sends nothing and succeeds. */
  lemma EmptyText(shortNumbers: bool)
    ensures ParseText("", shortNumbers) == Parsed([], None)
  {
  }

  /** A '<' with no '>' after it stops the parse with nothing read. */
  lemma {:induction false} Unterminated(t: string, shortNumbers: bool)
    requires t != [] && t[0] == '<' && '>' !in t
    ensures Parse(t, shortNumbers) == Parsed([], Some(UnterminatedProceduralCharacter))
  {
  }

  /** A bracketed name that the procedural table lacks stops the parse, reporting that name. */
  lemma {:induction false} UnknownProcedural(t: string, pos: nat, shortNumbers: bool)
    requires 0 < pos < |t| && t[0] == '<' && t[pos] == '>'
    requires forall j :: 0 <= j < pos ==> t[j] != '>'
    requires t[1..pos] !in ProceduralCharacters
    ensures Parse(t, shortNumbers) ==
      Parsed([], Some(UnknownProceduralCharacter(UnknownProceduralCharacterException(t[1..pos]))))
  {
    assert IndexOf(t, '>') == Some(pos);
  }

  /** "<>" names the empty procedural character, which is unknown. */
  lemma {:induction false} EmptyBrackets(rest: string, shortNumbers: bool)
    ensures Parse("<>" + rest, shortNumbers) ==
      Parsed([], Some(UnknownProceduralCharacter(UnknownProceduralCharacterException(""))))
    ensures Parse("<>" + rest, shortNumbers).error.value.Message() == "Unknown procedural character \"<>\""
  {
    var t := "<>" + rest;
    assert t[1..1] == "";
    UnknownProcedural(t, 1, shortNumbers);
  }

  /** A known bracketed name sends its procedural code, and the parse resumes after the '>'. */
  lemma {:induction false} ProceduralEscape(name: string, rest: string, shortNumbers: bool)
    requires name in ProceduralCharacters
    ensures Parse("<" + name + ">" + rest, shortNumbers) ==
      Prepend([Code(ProceduralCharacters[name])], Parse(rest, shortNumbers))
  {
    var t := "<" + name + ">" + rest;
    var pos := |name| + 1;
    ProceduralNames(name);
    assert t[pos] == '>';
    assert forall j :: 1 <= j < pos ==> t[j] == name[j - 1];
    assert IndexOf(t, '>') == Some(pos);
    assert t[1..pos] == name;
    assert t[pos + 1..] == rest;
  }

  /** Any other character stops the parse, reporting that character. */
  lemma {:induction false} UnknownCharacterStops(c: char, rest: string, shortNumbers: bool)
    requires c != '<' && Classify(c, shortNumbers).None?
    ensures Parse([c] + rest, shortNumbers) ==
      Parsed([], Some(UnknownCharacter(UnknownCharacterException([c]))))
  {
    assert ([c] + rest)[0] == c;
  }

  /** strpos finds in a + b the '>' it finds in a. */
  lemma {:induction false} IndexOfAppend(a: string, b: string, c: char)
    requires IndexOf(a, c).Some?
    ensures IndexOf(a + b, c) == IndexOf(a, c)
  {
    var k := IndexOf(a, c).value;
    assert (a + b)[k] == c;
    assert forall j :: 0 <= j < k ==> (a + b)[j] == a[j];
    var r := IndexOf(a + b, c);
    assert r.Some?;
    assert !(r.value < k);
    assert !(r.value > k);
  }

  /** A unit read from a is read the same from a followed by anything. */
  lemma {:induction false} FirstUnitAppend(a: string, b: string, shortNumbers: bool)
    requires a != [] && FirstUnit(a, shortNumbers).Read?
    ensures FirstUnit(a + b, shortNumbers) == FirstUnit(a, shortNumbers)
  {
    assert (a + b)[0] == a[0];
    if a[0] == '<' {
      var pos := IndexOf(a, '>').value;
      IndexOfAppend(a, b, '>');
      assert (a + b)[1..pos] == a[1..pos];
    }
  }

  /** One step of the parse: a unit read from the front is followed by the parse of what is left. */
  lemma ParseRead(t: string, shortNumbers: bool)
    requires t != [] && FirstUnit(t, shortNumbers).Read?
    ensures Parse(t, shortNumbers) ==
      Prepend([FirstUnit(t, shortNumbers).unit], Parse(t[FirstUnit(t, shortNumbers).consumed..], shortNumbers))
  {
  }

  /** A unit read from the front of a is read from the front of a + b, followed by the parse of the rest. */
  lemma ParseAppendStep(a: string, b: string, shortNumbers: bool)
    requires a != [] && FirstUnit(a, shortNumbers).Read?
    ensures Parse(a + b, shortNumbers) ==
      Prepend([FirstUnit(a, shortNumbers).unit], Parse(a[FirstUnit(a, shortNumbers).consumed..] + b, shortNumbers))
  {
    FirstUnitAppend(a, b, shortNumbers);
    ParseRead(a + b, shortNumbers);
    assert (a + b)[FirstUnit(a, shortNumbers).consumed..] == a[FirstUnit(a, shortNumbers).consumed..] + b;
  }

  /** The inductive step of ParseAppend: from the rest of a, to all of a. */
  lemma ParseAppendRead(a: string, b: string, shortNumbers: bool)
    requires a != [] && FirstUnit(a, shortNumbers).Read?
    requires Parse(a[FirstUnit(a, shortNumbers).consumed..] + b, shortNumbers) ==
      Prepend(Parse(a[FirstUnit(a, shortNumbers).consumed..], shortNumbers).units, Parse(b, shortNumbers))
    ensures Parse(a + b, shortNumbers) == Prepend(Parse(a, shortNumbers).units, Parse(b, shortNumbers))
  {
    var step := FirstUnit(a, shortNumbers);
    var rest := a[step.consumed..];
    ParseRead(a, shortNumbers);
    ParseAppendStep(a, b, shortNumbers);
    ConcatAssociative([step.unit], Parse(rest, shortNumbers).units, Parse(b, shortNumbers).units);
  }

  /** Reading a unit moves it from the parse of the remaining text to the units already read. */
  lemma ParseStepRead(read: seq<Unit>, t: string, shortNumbers: bool, unit: Unit, consumed: nat)
    requires t != [] && FirstUnit(t, shortNumbers) == Read(unit, consumed)
    ensures consumed <= |t|
    ensures Prepend(read, Parse(t, shortNumbers)) == Prepend(read + [unit], Parse(t[consumed..], shortNumbers))
  {
    ParseRead(t, shortNumbers);
    ConcatAssociative(read, [unit], Parse(t[consumed..], shortNumbers).units);
  }

  /** An error at the front of the remaining text ends the parse with the units already read. */
  lemma ParseStepStop(read: seq<Unit>, t: string, shortNumbers: bool)
    requires t != [] && FirstUnit(t, shortNumbers).Stop?
    ensures Prepend(read, Parse(t, shortNumbers)) == Parsed(read, Some(FirstUnit(t, shortNumbers).error))
  {
    assert read + [] == read;
  }

  /**
   * Parsing is compositional: once a text parses without error, parsing it
   * followed by more text reads its units first and then those of the rest.
   * In particular an error in the rest leaves the earlier units read.
   */
  lemma {:induction false} ParseAppend(a: string, b: string, shortNumbers: bool)
    requires Parse(a, shortNumbers).error.None?
    ensures Parse(a + b, shortNumbers) == Prepend(Parse(a, shortNumbers).units, Parse(b, shortNumbers))
    decreases |a|
  {
    if a == [] {
      assert a + b == b;
    } else if FirstUnit(a, shortNumbers).Read? {
      ParseAppend(a[FirstUnit(a, shortNumbers).consumed..], b, shortNumbers);
      ParseAppendRead(a, b, shortNumbers);
    }
  }

  /**
   * Sending a text in two pieces reads like sending it whole: once the first
   * piece reads without error, the units of the second follow its units.
   */
  lemma ParseTextAppend(a: string, b: string, shortNumbers: bool)
    requires ParseText(a, shortNumbers).error.None?
    ensures ParseText(a + b, shortNumbers) == Prepend(ParseText(a, shortNumbers).units, ParseText(b, shortNumbers))
  {
    UpperAppend(a, b);
    ParseAppend(Upper(a), Upper(b), shortNumbers);
  }

  /** The text "<name>" sends what the procedural shortcut for `name` sends, in any letter case. */
  lemma {:induction false} TextEscapeIsShortcut(written: string, shortNumbers: bool)
    requires Upper(written) in ProceduralCharacters
    ensures ParseText("<" + written + ">", shortNumbers) == Parsed([Code(ProceduralCharacters[Upper(written)])], None)
  {
    UpperAppend("<" + written, ">");
    UpperAppend("<", written);
    assert Upper("<") == "<";
    assert Upper(">") == ">";
    ProceduralEscape(Upper(written), "", shortNumbers);
    assert "<" + Upper(written) + ">" + "" == "<" + Upper(written) + ">";
  }

  /** One digit: the standard code, or the short one when short numbers are on. */
  lemma DigitOne(shortNumbers: bool)
    ensures ParseText("1", shortNumbers) == Parsed([Code(if shortNumbers then ".-" else ".----")], None)
  {
    assert Upper("1") == "1";
  }

  /** A text of one upper-case, classified character reads as that character's unit. */
  lemma OneCharacterText(c: char, shortNumbers: bool, unit: Unit)
    requires c != '<' && UpperChar(c) == c && Classify(c, shortNumbers) == Some(unit)
    ensures ParseText([c], shortNumbers) == Parsed([unit], None)
  {
    assert Upper([c]) == [c];
    assert FirstUnit([c], shortNumbers) == Read(unit, 1);
    assert [c][1..] == [];
    assert Parse([], shortNumbers) == Parsed([], None);
    assert [unit] + [] == [unit];
  }

  /** The text "=" reads the table entry "=..=", which sends exactly what "X" sends. */
  lemma EqualsSignSoundsLikeX(shortNumbers: bool, dotTime: real, dashTime: real, spaceTime: real)
    ensures ParseText("=", shortNumbers) == Parsed([Code("=..=")], None)
    ensures UnitsSegments(ParseText("=", shortNumbers).units, dotTime, dashTime, spaceTime)
         == UnitsSegments(ParseText("X", shortNumbers).units, dotTime, dashTime, spaceTime)
  {
    OneCharacterText('=', shortNumbers, Code("=..="));
    OneCharacterText('X', shortNumbers, Code("-..-"));
    EqualsSignSentAsDashDotDotDash(dotTime, dashTime);
    SingleUnitSegments(Code("=..="), dotTime, dashTime, spaceTime);
    SingleUnitSegments(Code("-..-"), dotTime, dashTime, spaceTime);
  }

  /** "<XY>" reports the unknown name "XY". */
  lemma UnknownNameXY(shortNumbers: bool)
    ensures ParseText("<XY>", shortNumbers) ==
      Parsed([], Some(UnknownProceduralCharacter(UnknownProceduralCharacterException("XY"))))
  {
    var t := "<XY>";
    assert Upper(t) == [UpperChar('<'), UpperChar('X'), UpperChar('Y'), UpperChar('>')] == t;
    assert t[1..3] == "XY";
    UnknownProcedural(t, 3, shortNumbers);
  }

  /** "A<AR" sends the A and then reports the unterminated bracket. */
  lemma LetterThenUnterminated(shortNumbers: bool)
    ensures ParseText("A<AR", shortNumbers) == Parsed([Code(".-")], Some(UnterminatedProceduralCharacter))
  {
    var t := "A<AR";
    assert Upper(t) == [UpperChar('A'), UpperChar('<'), UpperChar('A'), UpperChar('R')] == t;
    assert FirstUnit(t, shortNumbers) == Read(Code(".-"), 1);
    assert t[1..] == "<AR";
    Unterminated("<AR", shortNumbers);
  }
}
