/** The fixed symbol strings a session is framed with, and what they spell. */
module Signals {
  import opened Settings
  import opened Actions
  import opened MorseCode
  import opened Encoder
  import opened Decoding

  /** `START_TEXT`: three V and a double dash (`=`), each followed by its gap. */
  const StartText: seq<char> := [
    '.', '*', '.', '*', '.', '*', '-', '$',
    '.', '*', '.', '*', '.', '*', '-', '$',
    '.', '*', '.', '*', '.', '*', '-', '/',
    '-', '*', '.', '*', '.', '*', '.', '*', '-', '/']

  /** `START_TEXT_COMPETITIONS_LETTERS`: five O. */
  const CompetitionsLettersText: seq<char> := [
    '-', '*', '-', '*', '-', '$',
    '-', '*', '-', '*', '-', '$',
    '-', '*', '-', '*', '-', '$',
    '-', '*', '-', '*', '-', '$',
    '-', '*', '-', '*', '-', '/']

  /** `START_TEXT_COMPETITIONS_DIGITS`: five zeros. */
  const CompetitionsDigitsText: seq<char> := [
    '-', '*', '-', '*', '-', '*', '-', '*', '-', '$',
    '-', '*', '-', '*', '-', '*', '-', '*', '-', '$',
    '-', '*', '-', '*', '-', '*', '-', '*', '-', '$',
    '-', '*', '-', '*', '-', '*', '-', '*', '-', '$',
    '-', '*', '-', '*', '-', '*', '-', '*', '-', '/']

  /** `END_TEXT`: a word gap and the end-of-message signal `.-.-.`. */
  const EndText: seq<char> := ['/', '.', '*', '-', '*', '.', '*', '-', '*', '.']

  /** The texts whose spellings the three start strings are. */
  const StartWords: string := "VVV = "
  const LettersWords: string := "OOOOO "
  const DigitsWords: string := "00000 "

  /** Regrouping the appends of a four-character spelling. */
  lemma Assemble(ga: seq<char>, gb: seq<char>, gc: seq<char>, gd: seq<char>, s1: seq<char>, s2: seq<char>, s3: seq<char>, s4: seq<char>)
    requires s4 == gd + (['/'] + []) && s3 == gc + (['/'] + s4) && s2 == gb + (['$'] + s3) && s1 == ga + (['$'] + s2)
    ensures s1 == ga + ['$'] + gb + ['$'] + gc + ['/'] + gd + ['/']
  {
  }

  /** The spelling of three characters, a space, a fourth and a space. */
  lemma Words(a: char, b: char, c: char, d: char)
    requires a != ' ' && b != ' ' && c != ' ' && d != ' '
    ensures Spelling([a, b, c, ' ', d, ' ']) == Glyph(a) + ['$'] + Glyph(b) + ['$'] + Glyph(c) + ['/'] + Glyph(d) + ['/']
  {
    var t1 := [a, b, c, ' ', d, ' '];
    var t2 := [b, c, ' ', d, ' '];
    var t3 := [c, ' ', d, ' '];
    var t4 := [d, ' '];
    assert DropSpaces(t1[1..]) == t2;
    assert DropSpaces(t2[1..]) == t3;
    assert t3[1..][1..] == t4;
    assert DropSpaces(t3[1..]) == t4;
    assert DropSpaces(t4[1..]) == [];
    SpellingCons(t1);
    SpellingCons(t2);
    SpellingCons(t3);
    SpellingCons(t4);
    assert Spelling(DropSpaces(t4[1..])) == [];
    Assemble(Glyph(a), Glyph(b), Glyph(c), Glyph(d), Spelling(t1), Spelling(t2), Spelling(t3), Spelling(t4));
  }

  /** Regrouping the appends of a five-character spelling. */
  lemma Assemble5(g: seq<char>, s1: seq<char>, s2: seq<char>, s3: seq<char>, s4: seq<char>, s5: seq<char>)
    requires s5 == g + (['/'] + []) && s4 == g + (['$'] + s5) && s3 == g + (['$'] + s4)
    requires s2 == g + (['$'] + s3) && s1 == g + (['$'] + s2)
    ensures s1 == g + ['$'] + g + ['$'] + g + ['$'] + g + ['$'] + g + ['/']
  {
  }

  /** The spelling of one character five times, then a space. */
  lemma FiveTimes(a: char)
    requires a != ' '
    ensures Spelling([a, a, a, a, a, ' ']) == Glyph(a) + ['$'] + Glyph(a) + ['$'] + Glyph(a) + ['$'] + Glyph(a) + ['$'] + Glyph(a) + ['/']
  {
    var t1 := [a, a, a, a, a, ' '];
    var t2 := [a, a, a, a, ' '];
    var t3 := [a, a, a, ' '];
    var t4 := [a, a, ' '];
    var t5 := [a, ' '];
    assert DropSpaces(t1[1..]) == t2;
    assert DropSpaces(t2[1..]) == t3;
    assert DropSpaces(t3[1..]) == t4;
    assert DropSpaces(t4[1..]) == t5;
    assert Spelling(DropSpaces(t5[1..])) == [];
    SpellingCons(t1);
    SpellingCons(t2);
    SpellingCons(t3);
    SpellingCons(t4);
    SpellingCons(t5);
    Assemble5(Glyph(a), Spelling(t1), Spelling(t2), Spelling(t3), Spelling(t4), Spelling(t5));
  }

  /** Laying out three, four or five tones with `*` between them. */
  lemma Inter5(a: char, b: char, c: char, d: char, e: char)
    ensures Interleave([a, b, c, d, e]) == [a, '*', b, '*', c, '*', d, '*', e]
  {
    assert [a, b, c, d, e][1..] == [b, c, d, e];
    assert [b, c, d, e][1..] == [c, d, e];
    assert [c, d, e][1..] == [d, e];
    assert [d, e][1..] == [e];
  }
  lemma Inter4(a: char, b: char, c: char, d: char)
    ensures Interleave([a, b, c, d]) == [a, '*', b, '*', c, '*', d]
  {
    assert [a, b, c, d][1..] == [b, c, d];
    assert [b, c, d][1..] == [c, d];
    assert [c, d][1..] == [d];
  }
  lemma Inter3(a: char, b: char, c: char)
    ensures Interleave([a, b, c]) == [a, '*', b, '*', c]
  {
    assert [a, b, c][1..] == [b, c];
    assert [b, c][1..] == [c];
  }

  lemma GlyphIs(c: char, code: string, g: string)
    requires Code(c) == code && Interleave(code) == g
    ensures Glyph(c) == g
  {
  }

  lemma GlyphV()
    ensures Glyph('V') == ['.', '*', '.', '*', '.', '*', '-']
  {
    assert Code('V') == "...-";
    Inter4('.', '.', '.', '-');
    GlyphIs('V', "...-", ['.', '*', '.', '*', '.', '*', '-']);
  }
  lemma GlyphEquals()
    ensures Glyph('=') == ['-', '*', '.', '*', '.', '*', '.', '*', '-']
  {
    assert Code('=') == "-...-";
    Inter5('-', '.', '.', '.', '-');
    GlyphIs('=', "-...-", ['-', '*', '.', '*', '.', '*', '.', '*', '-']);
  }
  lemma GlyphO()
    ensures Glyph('O') == ['-', '*', '-', '*', '-']
  {
    assert Code('O') == "---";
    Inter3('-', '-', '-');
    GlyphIs('O', "---", ['-', '*', '-', '*', '-']);
  }
  lemma GlyphZero()
    ensures Glyph('0') == ['-', '*', '-', '*', '-', '*', '-', '*', '-']
  {
    assert Code('0') == "-----";
    Inter5('-', '-', '-', '-', '-');
    GlyphIs('0', "-----", ['-', '*', '-', '*', '-', '*', '-', '*', '-']);
  }

  /** The constants regrouped glyph by glyph. */
  lemma StartTextLayout()
    ensures StartText == ['.', '*', '.', '*', '.', '*', '-'] + ['$'] + ['.', '*', '.', '*', '.', '*', '-'] + ['$']
      + ['.', '*', '.', '*', '.', '*', '-'] + ['/'] + ['-', '*', '.', '*', '.', '*', '.', '*', '-'] + ['/']
  {
  }
  lemma LettersLayout()
    ensures CompetitionsLettersText == ['-', '*', '-', '*', '-'] + ['$'] + ['-', '*', '-', '*', '-'] + ['$']
      + ['-', '*', '-', '*', '-'] + ['$'] + ['-', '*', '-', '*', '-'] + ['$'] + ['-', '*', '-', '*', '-'] + ['/']
  {
  }
  lemma DigitsLayout()
    ensures CompetitionsDigitsText == ['-', '*', '-', '*', '-', '*', '-', '*', '-'] + ['$'] + ['-', '*', '-', '*', '-', '*', '-', '*', '-'] + ['$']
      + ['-', '*', '-', '*', '-', '*', '-', '*', '-'] + ['$'] + ['-', '*', '-', '*', '-', '*', '-', '*', '-'] + ['$']
      + ['-', '*', '-', '*', '-', '*', '-', '*', '-'] + ['/']
  {
    var z := ['-', '*', '-', '*', '-', '*', '-', '*', '-'];
    assert z + ['$'] == ['-', '*', '-', '*', '-', '*', '-', '*', '-', '$'];
    assert ['-', '*', '-', '*', '-', '*', '-', '*', '-', '$'] + z + ['$'] == ['-', '*', '-', '*', '-', '*', '-', '*', '-', '$', '-', '*', '-', '*', '-', '*', '-', '*', '-', '$'];
    assert ['-', '*', '-', '*', '-', '*', '-', '*', '-', '$', '-', '*', '-', '*', '-', '*', '-', '*', '-', '$'] + z + ['$'] == ['-', '*', '-', '*', '-', '*', '-', '*', '-', '$', '-', '*', '-', '*', '-', '*', '-', '*', '-', '$', '-', '*', '-', '*', '-', '*', '-', '*', '-', '$'];
    assert ['-', '*', '-', '*', '-', '*', '-', '*', '-', '$', '-', '*', '-', '*', '-', '*', '-', '*', '-', '$', '-', '*', '-', '*', '-', '*', '-', '*', '-', '$'] + z + ['$'] == ['-', '*', '-', '*', '-', '*', '-', '*', '-', '$', '-', '*', '-', '*', '-', '*', '-', '*', '-', '$', '-', '*', '-', '*', '-', '*', '-', '*', '-', '$', '-', '*', '-', '*', '-', '*', '-', '*', '-', '$'];
    assert ['-', '*', '-', '*', '-', '*', '-', '*', '-', '$', '-', '*', '-', '*', '-', '*', '-', '*', '-', '$', '-', '*', '-', '*', '-', '*', '-', '*', '-', '$', '-', '*', '-', '*', '-', '*', '-', '*', '-', '$'] + z + ['/'] == ['-', '*', '-', '*', '-', '*', '-', '*', '-', '$', '-', '*', '-', '*', '-', '*', '-', '*', '-', '$', '-', '*', '-', '*', '-', '*', '-', '*', '-', '$', '-', '*', '-', '*', '-', '*', '-', '*', '-', '$', '-', '*', '-', '*', '-', '*', '-', '*', '-', '/'];
  }
  /** `START_TEXT` is the spelling of "VVV = ". */
  lemma StartTextSpelling()
    ensures StartText == Spelling(StartWords)
  {
    StartTextLayout();
    GlyphV();
    GlyphEquals();
    Words('V', 'V', 'V', '=');
    assert StartWords == ['V', 'V', 'V', ' ', '=', ' '];
  }
  /** The letters opening is the spelling of "OOOOO ". */
  lemma LettersSpelling()
    ensures CompetitionsLettersText == Spelling(LettersWords)
  {
    LettersLayout();
    GlyphO();
    FiveTimes('O');
    assert LettersWords == ['O', 'O', 'O', 'O', 'O', ' '];
  }
  /** The digits opening is the spelling of "00000 ". */
  lemma DigitsSpelling()
    ensures CompetitionsDigitsText == Spelling(DigitsWords)
  {
    DigitsLayout();
    GlyphZero();
    FiveTimes('0');
    assert DigitsWords == ['0', '0', '0', '0', '0', ' '];
  }

  /** The end signal is a word gap and the tones `.-.-.` laid out as one
      character, which the code table has no letter for. */
  lemma EndTextShape()
    ensures EndText == ['/'] + Interleave(".-.-.")
    ensures forall c :: Code(c) != ".-.-."
  {
    assert ".-.-."[1..] == "-.-.";
    Inter4('-', '.', '-', '.');
    assert "-.-." == ['-', '.', '-', '.'];
  }

  /** A symbol string without speed markers: every symbol a table key, no `|`. */
  predicate Unmarked(s: seq<char>) {
    AllSymbols(s) && Count(s, '|') == 0
  }

  lemma UnmarkedConcat(a: seq<char>, b: seq<char>)
    requires Unmarked(a) && Unmarked(b)
    ensures Unmarked(a + b)
  {
    assert multiset(a + b) == multiset(a) + multiset(b);
  }

  /** Three unmarked strings, the middle two joined by a word gap. */
  lemma UnmarkedJoin(a: seq<char>, b: seq<char>, d: seq<char>)
    requires Unmarked(a) && Unmarked(b) && Unmarked(d)
    ensures Unmarked(a + b + ['/'] + d)
  {
    assert multiset(a + b + ['/'] + d) == multiset(a) + multiset(b) + multiset(['/']) + multiset(d);
  }

  /** Framing a symbol string with unmarked strings keeps its symbols table
      keys and adds no speed marker. */
  lemma FramedCounts(a: seq<char>, b: seq<char>, c: seq<char>)
    requires Unmarked(a) && AllSymbols(b) && Unmarked(c)
    ensures AllSymbols(a + b + c) && Count(a + b + c, '|') == Count(b, '|')
  {
    assert multiset(a + b + c) == multiset(a) + multiset(b) + multiset(c);
  }

  /** What the encoder spells without a ramp has no speed marker. */
  lemma SpellingUnmarked(t: seq<char>)
    requires t == [] || t[0] != ' '
    ensures Unmarked(Spelling(t))
  {
    EncodeUnmodified(Params(100.0, 100.0, NoModification, 10), t);
  }

  /** None of the fixed strings holds a speed marker. */
  lemma StartTextUnmarked()
    ensures Unmarked(StartText)
  {
    StartTextSpelling();
    SpellingUnmarked(StartWords);
  }

  lemma LettersUnmarked()
    ensures Unmarked(CompetitionsLettersText)
  {
    LettersSpelling();
    SpellingUnmarked(LettersWords);
  }

  lemma DigitsUnmarked()
    ensures Unmarked(CompetitionsDigitsText)
  {
    DigitsSpelling();
    SpellingUnmarked(DigitsWords);
  }

  lemma EndTextUnmarked()
    ensures Unmarked(EndText)
  {
    assert '|' !in EndText;
  }
}
