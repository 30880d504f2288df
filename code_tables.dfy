/**
 * The encoder's constant tables: letters, the standard and the short digits,
 * punctuation, and the procedural characters. Keys are upper case.
 */
module CodeTables {

  const Letters: map<char, string> := map[
    'A' := ".-",
    'B' := ".---",
    'C' := "-.-.",
    'D' := "-..",
    'E' := ".",
    'F' := "..-.",
    'G' := "--.",
    'H' := "....",
    'I' := "..",
    'J' := ".---",
    'K' := "-.-",
    'L' := ".-..",
    'M' := "--",
    'N' := "-.",
    'O' := "---",
    'P' := ".--.",
    'Q' := "--.-",
    'R' := ".-.",
    'S' := "...",
    'T' := "-",
    'U' := "..-",
    'V' := "...-",
    'W' := ".--",
    'X' := "-..-",
    'Y' := "-.--",
    'Z' := "--.."
  ]

  const Numbers: map<char, string> := map[
    '1' := ".----",
    '2' := "..---",
    '3' := "...--",
    '4' := "....-",
    '5' := ".....",
    '6' := "-....",
    '7' := "--...",
    '8' := "---..",
    '9' := "----.",
    '0' := "-----"
  ]

  const NumbersShort: map<char, string> := map[
    '1' := ".-",
    '2' := "..-",
    '3' := "...-",
    '4' := "....-",
    '5' := ".",
    '6' := "-....",
    '7' := "-...",
    '8' := "-..",
    '9' := "-.",
    '0' := "-"
  ]

  const Punctuation: map<char, string> := map[
    ',' := "--..--",
    '?' := "..--..",
    ':' := "---...",
    '-' := "-....-",
    '"' := ".-..-.",
    '(' := "-.--.",
    '=' := "=..=",
    '.' := ".-.-.-",
    ';' := "-.-.-.",
    '/' := "-..-.",
    '\'' := ".----.",
    '_' := "..--.-",
    ')' := "-.--.-",
    '+' := ".-.-.",
    '@' := ".--.-."
  ]

  const ProceduralCharacters: map<string, string> := map[
    "AR" := ".-.-.",      // end of message
    "AS" := ".-...",      // wait
    "BK" := "-...-.-",    // break in
    "EC" := ".-.-.",      // end copy, end of transmission
    "HH" := "........",   // correction
    "KA" := "-.-.-",      // attention
    "KN" := "-.--.",      // go ahead
    "RT" := ".-.-",       // return, new line
    "SK" := "...-.-",     // end of contact
    "SOS" := "...---...", // distress signal
    "VE" := "...-."       // verified
  ]

  /** A code made of dots and dashes only. */
  predicate IsDotDash(code: string)
  {
    forall i :: 0 <= i < |code| ==> code[i] == '.' || code[i] == '-'
  }

  /** The digit table the encoder reads, chosen by the short-numbers flag. */
  function DigitTable(shortNumbers: bool): (t: map<char, string>)
    ensures t.Keys == Numbers.Keys
    ensures shortNumbers ==> t == NumbersShort
    ensures !shortNumbers ==> t == Numbers
  {
    if shortNumbers then NumbersShort else Numbers
  }

  /** The letter keys are exactly 'A' to 'Z'. */
  lemma LetterKeys(c: char)
    ensures c in Letters <==> 'A' <= c <= 'Z'
  {
  }

  /** The digit keys are exactly '0' to '9', in both digit tables. */
  lemma DigitKeys(c: char)
    ensures c in Numbers <==> '0' <= c <= '9'
    ensures c in NumbersShort <==> '0' <= c <= '9'
  {
  }

  /** Punctuation keys are neither letters, digits, a space nor '<'. */
  lemma PunctuationKeys(c: char)
    requires c in Punctuation
    ensures !('A' <= c <= 'Z') && !('0' <= c <= '9') && c != ' ' && c != '<'
  {
  }

  /** The four character tables have pairwise disjoint keys, none of them a space or '<'. */
  lemma {:induction false} CharacterTablesDisjoint()
    ensures Letters.Keys !! Numbers.Keys
    ensures Letters.Keys !! Punctuation.Keys
    ensures Numbers.Keys !! Punctuation.Keys
    ensures ' ' !in Letters && ' ' !in Numbers && ' ' !in Punctuation
    ensures '<' !in Letters && '<' !in Numbers && '<' !in Punctuation
  {
    forall c | c in Punctuation
      ensures c !in Letters && c !in Numbers
    {
      PunctuationKeys(c);
      LetterKeys(c);
      DigitKeys(c);
    }
    forall c | c in Letters
      ensures c !in Numbers
    {
      LetterKeys(c);
      DigitKeys(c);
    }
    LetterKeys(' ');
    DigitKeys(' ');
    LetterKeys('<');
    DigitKeys('<');
  }

  lemma LetterCode(c: char)
    requires c in Letters
    ensures |Letters[c]| > 0 && IsDotDash(Letters[c])
  {
  }

  lemma NumberCodes(c: char)
    requires c in Numbers
    ensures |Numbers[c]| > 0 && IsDotDash(Numbers[c])
    ensures |NumbersShort[c]| > 0 && IsDotDash(NumbersShort[c])
  {
  }

  lemma PunctuationCode(c: char)
    requires c in Punctuation && c != '='
    ensures |Punctuation[c]| > 0 && IsDotDash(Punctuation[c])
  {
  }

  lemma ProceduralCode(name: string)
    requires name in ProceduralCharacters
    ensures |ProceduralCharacters[name]| > 0 && IsDotDash(ProceduralCharacters[name])
  {
  }

  /** The table quirks: '=' holds "=..=", B and J share a code, and so do AR and EC. */
  lemma TableQuirks()
    ensures Punctuation['='] == "=..=" && !IsDotDash(Punctuation['='])
    ensures Letters['B'] == Letters['J'] == ".---"
    ensures ProceduralCharacters["AR"] == ProceduralCharacters["EC"] == ".-.-."
  {
    assert Punctuation['='][0] == '=';
  }

  /** Procedural names are one to three upper-case letters, so none holds a '>'. */
  lemma ProceduralNames(name: string)
    requires name in ProceduralCharacters
    ensures 1 <= |name| <= 3
    ensures forall i :: 0 <= i < |name| ==> 'A' <= name[i] <= 'Z'
    ensures '>' !in name
  {
  }
}
