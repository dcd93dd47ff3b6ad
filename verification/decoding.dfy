/** Reading a symbol string back into text: the partner of the encoder without
    a speed ramp. Characters are separated by `$`, words by `/`. */
module Decoding {
  import opened Results
  import opened MorseCode
  import opened Encoder

  /** Decodes `s`, where `g` holds the symbols of the character read so far. */
  function DecodeFrom(s: seq<char>, g: seq<char>): Option<seq<char>>
    decreases |s|
  {
    if s == [] then
      if g == [] then Some([])
      else match GlyphChar(g)
        case None => None
        case Some(c) => Some([c])
    else if s[0] == '$' || s[0] == '/' then
      match GlyphChar(g)
      case None => None
      case Some(c) =>
        match DecodeFrom(s[1..], [])
        case None => None
        case Some(r) => Some([c] + (if s[0] == '/' then [' '] else []) + r)
    else DecodeFrom(s[1..], g + [s[0]])
  }

  function Decode(s: seq<char>): Option<seq<char>> {
    DecodeFrom(s, [])
  }

  /** Text the encoder spells without loss: no leading space, no run of spaces,
      and every other character in the table. */
  predicate WellSpaced(t: seq<char>) {
    && (|t| > 0 ==> t[0] != ' ')
    && (forall i :: 0 <= i < |t| ==> t[i] == ' ' || InTable(t[i]))
    && (forall i :: 0 <= i < |t| - 1 ==> t[i] != ' ' || t[i + 1] != ' ')
  }

  lemma {:induction false} DecodeAcross(x: seq<char>, s: seq<char>, g: seq<char>)
    requires forall i :: 0 <= i < |x| ==> x[i] != '$' && x[i] != '/'
    ensures DecodeFrom(x + s, g) == DecodeFrom(s, g + x)
    decreases |x|
  {
    if x == [] {
      assert x + s == s && g + x == g;
    } else {
      assert (x + s)[1..] == x[1..] + s;
      DecodeAcross(x[1..], s, g + [x[0]]);
      assert g + [x[0]] + x[1..] == g + x;
    }
  }

  lemma GlyphHasNoGaps(c: char)
    ensures forall i :: 0 <= i < |Glyph(c)| ==> Glyph(c)[i] != '$' && Glyph(c)[i] != '/'
  {
    GlyphShape(c);
  }

  lemma WellSpacedSuffix(t: seq<char>, k: nat)
    requires WellSpaced(t) && k <= |t| && (k < |t| ==> t[k] != ' ')
    ensures WellSpaced(t[k..])
  {
    var u := t[k..];
    forall i | 0 <= i < |u| - 1
      ensures u[i] != ' ' || u[i + 1] != ' '
    {
      assert u[i] == t[k + i] && u[i + 1] == t[k + i + 1];
    }
  }

  /** A character's glyph followed by a gap decodes to the character, then a
      space for a word gap, then whatever follows decodes to. */
  lemma DecodeGlyphThenGap(c: char, gap: char, s: seq<char>)
    requires InTable(c) && (gap == '$' || gap == '/')
    ensures Decode(Glyph(c) + ([gap] + s))
         == match Decode(s)
            case None => None
            case Some(r) => Some([c] + (if gap == '/' then [' '] else []) + r)
  {
    GlyphHasNoGaps(c);
    GlyphRoundTrip(c);
    DecodeAcross(Glyph(c), [gap] + s, []);
    assert [] + Glyph(c) == Glyph(c);
    assert ([gap] + s)[1..] == s;
  }

  lemma DecodeOneGlyph(c: char)
    requires InTable(c)
    ensures Decode(Glyph(c)) == Some([c])
  {
    GlyphHasNoGaps(c);
    GlyphShape(c);
    GlyphRoundTrip(c);
    DecodeAcross(Glyph(c), [], []);
    assert Glyph(c) + [] == Glyph(c) && [] + Glyph(c) == Glyph(c);
  }

  /** After the first character of well-spaced text, the encoder skips at most
      one space, and what remains is again well spaced. */
  lemma NextWellSpaced(t: seq<char>)
    requires WellSpaced(t) && |t| > 1
    ensures WellSpaced(DropSpaces(t[1..]))
    ensures t == [t[0]] + (if t[1] == ' ' then [' '] else []) + DropSpaces(t[1..])
  {
    if t[1] == ' ' {
      if |t| > 2 {
        assert t[1] != ' ' || t[2] != ' ';
        assert DropSpaces(t[2..]) == t[2..];
      }
      assert DropSpaces(t[1..]) == t[2..];
      WellSpacedSuffix(t, 2);
    } else {
      assert DropSpaces(t[1..]) == t[1..];
      WellSpacedSuffix(t, 1);
    }
  }

  lemma SpellingCons(t: seq<char>)
    requires |t| > 1
    ensures Spelling(t) == Glyph(t[0]) + ([if t[1] == ' ' then '/' else '$'] + Spelling(DropSpaces(t[1..])))
  {
    var g, gap, rest := Glyph(t[0]), [if t[1] == ' ' then '/' else '$'], Spelling(DropSpaces(t[1..]));
    assert Spelling(t) == g + gap + rest;
    Associate(g, gap, rest);
  }

  lemma {:induction false} DecodeSpelling(t: seq<char>)
    requires WellSpaced(t)
    ensures Decode(Spelling(t)) == Some(t)
    decreases |t|
  {
    if t == [] {
      assert Spelling(t) == [];
    } else if |t| == 1 {
      DecodeOneGlyph(t[0]);
      assert Spelling(t) == Glyph(t[0]) && t == [t[0]];
    } else {
      var next := DropSpaces(t[1..]);
      NextWellSpaced(t);
      DecodeSpelling(next);
      SpellingCons(t);
      DecodeGlyphThenGap(t[0], if t[1] == ' ' then '/' else '$', Spelling(next));
    }
  }

  /** Without a speed ramp, decoding the encoder's symbols gives back the text,
      for every text without a leading space or a run of spaces whose other
      characters are all in the table. */
  lemma RoundTrip(p: Params, t: seq<char>)
    requires !Active(p) && WellSpaced(t)
    ensures Encode(p, t).Ok?
    ensures Decode(Encode(p, t).value.symbols) == Some(t)
  {
    EncodeUnmodified(p, t);
    DecodeSpelling(t);
  }
}
