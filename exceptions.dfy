/**
 * The four exceptions the encoder throws, as values.
 *
 * Two of them carry a payload and build their message from it by
 * concatenation; the other two have a constant message.
 */
module MorseExceptions {

  /** The fixed text around the character in an UnknownCharacterException message. */
  const UnknownCharacterPrefix: string := "Unknown character \""
  const UnknownCharacterSuffix: string := "\""

  /** The fixed text around the name in an UnknownProceduralCharacterException message. */
  const UnknownProceduralPrefix: string := "Unknown procedural character \"<"
  const UnknownProceduralSuffix: string := ">\""

  const FileIsNotWritableMessage: string := "Wave file is not writable"
  const UnterminatedMessage: string := "Unterminated procedural character"

  /** A character of the input that no table knows (reported in upper case). */
  datatype UnknownCharacterException = UnknownCharacterException(character: string)
  {
    /** The message the constructor hands to the base exception. */
    function GetMessage(): (m: string)
      ensures |m| == |UnknownCharacterPrefix| + |character| + |UnknownCharacterSuffix|
      ensures m[..19] == UnknownCharacterPrefix
      ensures m[19..|m| - 1] == character
      ensures m[|m| - 1] == '"'
    {
      UnknownCharacterPrefix + character + UnknownCharacterSuffix
    }

    /** The stored character: exactly the one the message quotes. */
    function GetChar(): (c: string)
      ensures GetMessage() == UnknownCharacterPrefix + c + UnknownCharacterSuffix
    {
      character
    }
  }

  /** A bracketed name `<NAME>` that the procedural table does not hold. */
  datatype UnknownProceduralCharacterException = UnknownProceduralCharacterException(proceduralCharacter: string)
  {
    function GetMessage(): (m: string)
      ensures |m| == |UnknownProceduralPrefix| + |proceduralCharacter| + |UnknownProceduralSuffix|
      ensures m[..31] == UnknownProceduralPrefix
      ensures m[31..|m| - 2] == proceduralCharacter
      ensures m[|m| - 2..] == ">\""
    {
      UnknownProceduralPrefix + proceduralCharacter + UnknownProceduralSuffix
    }

    /** The stored name: exactly the one the message shows between the brackets. */
    function GetProceduralCharacter(): (name: string)
      ensures GetMessage() == UnknownProceduralPrefix + name + UnknownProceduralSuffix
    {
      proceduralCharacter
    }
  }

  /** Every failure the encoder reports. */
  datatype MorseError =
    | FileIsNotWritable
    | UnknownCharacter(unknownCharacter: UnknownCharacterException)
    | UnknownProceduralCharacter(unknownProcedural: UnknownProceduralCharacterException)
    | UnterminatedProceduralCharacter
  {
    function Message(): string
    {
      match this
      case FileIsNotWritable => FileIsNotWritableMessage
      case UnknownCharacter(e) => e.GetMessage()
      case UnknownProceduralCharacter(e) => e.GetMessage()
      case UnterminatedProceduralCharacter => UnterminatedMessage
    }
  }

  /** Recovers the character from an UnknownCharacterException message. */
  function CharFromMessage(m: string): (c: string)
    requires |m| >= 20
    ensures |c| == |m| - 20
  {
    m[19..|m| - 1]
  }

  /** Recovers the name from an UnknownProceduralCharacterException message. */
  function NameFromMessage(m: string): (name: string)
    requires |m| >= 33
    ensures |name| == |m| - 33
  {
    m[31..|m| - 2]
  }

  lemma CharMessageRoundTrip(c: string)
    ensures CharFromMessage(UnknownCharacterException(c).GetMessage()) == c
  {
  }

  lemma ProceduralMessageRoundTrip(name: string)
    ensures NameFromMessage(UnknownProceduralCharacterException(name).GetMessage()) == name
  {
  }

  /** Distinct characters give distinct messages, and so do distinct names. */
  lemma {:induction false} MessagesAreInjective(a: string, b: string)
    ensures UnknownCharacterException(a).GetMessage() == UnknownCharacterException(b).GetMessage() ==> a == b
    ensures UnknownProceduralCharacterException(a).GetMessage() == UnknownProceduralCharacterException(b).GetMessage() ==> a == b
  {
    CharMessageRoundTrip(a);
    CharMessageRoundTrip(b);
    ProceduralMessageRoundTrip(a);
    ProceduralMessageRoundTrip(b);
  }

  /** The message of an unknown empty name, which `<>` in the input raises. */
  lemma EmptyProceduralMessage()
    ensures UnknownProceduralCharacterException("").GetMessage() == "Unknown procedural character \"<>\""
  {
  }

  /** Which of the four messages `m` is, read from its first nine characters. */
  function MessageKind(m: string): nat
  {
    if |m| < 9 then 4
    else if m[0] == 'W' then 0
    else if m[2] == 't' then 3
    else if m[8] == 'c' then 1
    else 2
  }

  function Kind(e: MorseError): nat
  {
    match e
    case FileIsNotWritable => 0
    case UnknownCharacter(_) => 1
    case UnknownProceduralCharacter(_) => 2
    case UnterminatedProceduralCharacter => 3
  }

  lemma {:induction false} MessageShowsKind(e: MorseError)
    ensures MessageKind(e.Message()) == Kind(e)
  {
    match e
    case UnknownCharacter(x) => assert e.Message()[..19] == UnknownCharacterPrefix;
    case UnknownProceduralCharacter(x) => assert e.Message()[..31] == UnknownProceduralPrefix;
    case FileIsNotWritable =>
    case UnterminatedProceduralCharacter =>
  }

  /** No two distinct failures share a message. */
  lemma {:induction false} MessagesAreDistinct(e: MorseError, f: MorseError)
    requires e.Message() == f.Message()
    ensures e == f
  {
    MessageShowsKind(e);
    MessageShowsKind(f);
    if e.UnknownCharacter? {
      MessagesAreInjective(e.unknownCharacter.character, f.unknownCharacter.character);
    } else if e.UnknownProceduralCharacter? {
      MessagesAreInjective(e.unknownProcedural.proceduralCharacter, f.unknownProcedural.proceduralCharacter);
    }
  }
}
