/** The character table of the encoder (the codes of section 1 of
    ITU-R M.1677-1 for A-Z, 0-9 and `. , / ? =`), the way a code is laid out
    as symbols, and the reverse lookup a decoder needs. */
module MorseCode {
  import opened Results

  /** The code of `c` as dots and dashes; the empty code when `c` is not in the table. */
  function Code(c: char): string {
    match c
    case 'A' => ".-"     case 'B' => "-..."   case 'C' => "-.-."   case 'D' => "-.."
    case 'E' => "."      case 'F' => "..-."   case 'G' => "--."    case 'H' => "...."
    case 'I' => ".."     case 'J' => ".---"   case 'K' => "-.-"    case 'L' => ".-.."
    case 'M' => "--"     case 'N' => "-."     case 'O' => "---"    case 'P' => ".--."
    case 'Q' => "--.-"   case 'R' => ".-."    case 'S' => "..."    case 'T' => "-"
    case 'U' => "..-"    case 'V' => "...-"   case 'W' => ".--"    case 'X' => "-..-"
    case 'Y' => "-.--"   case 'Z' => "--.."
    case '0' => "-----"  case '1' => ".----"  case '2' => "..---"  case '3' => "...--"
    case '4' => "....-"  case '5' => "....."  case '6' => "-...."  case '7' => "--..."
    case '8' => "---.."  case '9' => "----."
    case '.' => ".-.-.-" case ',' => "--..--" case '/' => "-..-."  case '?' => "..--.."
    case '=' => "-...-"
    case _ => ""
  }

  predicate InTable(c: char) {
    Code(c) != ""
  }

  /** A sequence of dots and dashes. */
  predicate IsTones(s: string) {
    forall k :: 0 <= k < |s| ==> s[k] == '.' || s[k] == '-'
  }

  lemma CodeIsTones(c: char)
    ensures IsTones(Code(c))
    ensures InTable(c) ==> c != ' '
  {
  }

  /** The symbols of a code: its tones with an intra-character gap `*` between
      consecutive tones and none at either end. */
  function Interleave(tones: string): (g: string)
    ensures |g| == if tones == [] then 0 else 2 * |tones| - 1
    ensures forall i :: 0 <= i < |g| ==> g[i] == if i % 2 == 0 then tones[i / 2] else '*'
  {
    if |tones| <= 1 then tones
    else [tones[0], '*'] + Interleave(tones[1..])
  }

  /** What the encoder emits for one character before any gap. */
  function Glyph(c: char): string {
    Interleave(Code(c))
  }

  /** Made of tones and intra-character gaps only. */
  predicate GlyphLike(g: string) {
    forall i :: 0 <= i < |g| ==> g[i] == '.' || g[i] == '-' || g[i] == '*'
  }

  /** Glyphs hold only dots, dashes and intra-character gaps; a character of the
      table has a non-empty glyph that starts and ends with a tone. */
  lemma GlyphShape(c: char)
    ensures GlyphLike(Glyph(c))
    ensures c == ' ' ==> Glyph(c) == []
    ensures InTable(c) <==> Glyph(c) != []
    ensures InTable(c) ==> Glyph(c)[0] != '*' && Glyph(c)[|Glyph(c)| - 1] != '*'
  {
    CodeIsTones(c);
    var g := Glyph(c);
    if InTable(c) {
      assert (|g| - 1) % 2 == 0;
    }
  }

  /** The strict inverse of `Interleave`: tones alternating with `*`. */
  function Deinterleave(g: string): Option<string>
    decreases |g|
  {
    if |g| == 0 || (g[0] != '.' && g[0] != '-') then None
    else if |g| == 1 then Some(g)
    else if g[1] != '*' then None
    else match Deinterleave(g[2..])
      case None => None
      case Some(t) => Some([g[0]] + t)
  }

  lemma {:induction false} DeinterleaveInterleave(t: string)
    requires IsTones(t) && t != []
    ensures Deinterleave(Interleave(t)) == Some(t)
    decreases |t|
  {
    if |t| > 1 {
      var g := Interleave(t);
      assert g == [t[0], '*'] + Interleave(t[1..]);
      assert g[2..] == Interleave(t[1..]);
      DeinterleaveInterleave(t[1..]);
      assert [t[0]] + t[1..] == t;
    }
  }

  lemma {:induction false} InterleaveDeinterleave(g: string, t: string)
    requires Deinterleave(g) == Some(t)
    ensures IsTones(t) && t != [] && g == Interleave(t)
    decreases |g|
  {
    if |g| > 1 {
      var t' := Deinterleave(g[2..]).value;
      InterleaveDeinterleave(g[2..], t');
      assert t == [g[0]] + t';
      assert t[1..] == t';
      assert g == [g[0], g[1]] + g[2..];
    }
  }

  /** The position of a code in the dichotomic Morse tree, numbered as a heap:
      the root is 1, a dot leads from node `n` to `2n` and a dash to `2n + 1`.
      `TreeIndex(tones, i, node)` follows `tones[i..]` from `node`. */
  function TreeIndex(tones: string, i: nat, node: nat): nat
    requires i <= |tones|
    decreases |tones| - i
  {
    if i == |tones| then node
    else TreeIndex(tones, i + 1, 2 * node + if tones[i] == '-' then 1 else 0)
  }

  /** The character at each node of the tree. */
  function TreeChar(node: nat): Option<char> {
    match node
    case 2 => Some('E')  case 3 => Some('T')  case 4 => Some('I')  case 5 => Some('A')
    case 6 => Some('N')  case 7 => Some('M')  case 8 => Some('S')  case 9 => Some('U')
    case 10 => Some('R')  case 11 => Some('W')  case 12 => Some('D')  case 13 => Some('K')
    case 14 => Some('G')  case 15 => Some('O')  case 16 => Some('H')  case 17 => Some('V')
    case 18 => Some('F')  case 20 => Some('L')  case 22 => Some('P')  case 23 => Some('J')
    case 24 => Some('B')  case 25 => Some('X')  case 26 => Some('C')  case 27 => Some('Y')
    case 28 => Some('Z')  case 29 => Some('Q')  case 32 => Some('5')  case 33 => Some('4')
    case 35 => Some('3')  case 39 => Some('2')  case 47 => Some('1')  case 48 => Some('6')
    case 49 => Some('=')  case 50 => Some('/')  case 56 => Some('7')  case 60 => Some('8')
    case 62 => Some('9')  case 63 => Some('0')  case 76 => Some('?')  case 85 => Some('.')
    case 115 => Some(',')
    case _ => None
  }

  /** The reverse of `Code`: which character a code of the table belongs to. */
  function CharOf(tones: string): Option<char> {
    TreeChar(TreeIndex(tones, 0, 1))
  }

  // The tree holds every character of the table at the end of its code's path;
  // the facts are grouped by depth to keep each proof small.

  lemma TreeLevelsOneToThree()
    ensures CharOf(".") == Some('E')
    ensures CharOf("-") == Some('T')
    ensures CharOf("..") == Some('I')
    ensures CharOf(".-") == Some('A')
    ensures CharOf("-.") == Some('N')
    ensures CharOf("--") == Some('M')
    ensures CharOf("...") == Some('S')
    ensures CharOf("..-") == Some('U')
    ensures CharOf(".-.") == Some('R')
    ensures CharOf(".--") == Some('W')
    ensures CharOf("-..") == Some('D')
    ensures CharOf("-.-") == Some('K')
    ensures CharOf("--.") == Some('G')
    ensures CharOf("---") == Some('O')
  {
  }

  lemma TreeLevelFourDot()
    ensures CharOf("....") == Some('H')
    ensures CharOf("...-") == Some('V')
    ensures CharOf("..-.") == Some('F')
    ensures CharOf(".-..") == Some('L')
    ensures CharOf(".--.") == Some('P')
    ensures CharOf(".---") == Some('J')
  {
  }

  lemma TreeLevelFourDash()
    ensures CharOf("-...") == Some('B')
    ensures CharOf("-..-") == Some('X')
    ensures CharOf("-.-.") == Some('C')
    ensures CharOf("-.--") == Some('Y')
    ensures CharOf("--..") == Some('Z')
    ensures CharOf("--.-") == Some('Q')
  {
  }

  lemma TreeLevelFiveDot()
    ensures CharOf(".....") == Some('5')
    ensures CharOf("....-") == Some('4')
    ensures CharOf("...--") == Some('3')
    ensures CharOf("..---") == Some('2')
    ensures CharOf("-....") == Some('6')
  {
  }

  lemma TreeLevelFiveMixed()
    ensures CharOf(".----") == Some('1')
    ensures CharOf("-...-") == Some('=')
    ensures CharOf("-..-.") == Some('/')
    ensures CharOf("--...") == Some('7')
  {
  }

  lemma TreeLevelFiveDash()
    ensures CharOf("---..") == Some('8')
    ensures CharOf("----.") == Some('9')
    ensures CharOf("-----") == Some('0')
  {
  }

  lemma TreeLevelSix()
    ensures CharOf(".-.-.-") == Some('.')
    ensures CharOf("--..--") == Some(',')
    ensures CharOf("..--..") == Some('?')
  {
  }

  /** Every code of the table leads back to its character. */
  lemma CharOfCode(c: char)
    requires InTable(c)
    ensures CharOf(Code(c)) == Some(c)
  {
    match c
    case 'E' | 'T' | 'I' | 'A' | 'N' | 'M' | 'S' | 'U' | 'R' | 'W' | 'D' | 'K' | 'G' | 'O' => TreeLevelsOneToThree();
    case 'H' | 'V' | 'F' | 'L' | 'P' | 'J' => TreeLevelFourDot();
    case 'B' | 'X' | 'C' | 'Y' | 'Z' | 'Q' => TreeLevelFourDash();
    case '5' | '4' | '3' | '2' | '6' => TreeLevelFiveDot();
    case '1' | '=' | '/' | '7' => TreeLevelFiveMixed();
    case '8' | '9' | '0' => TreeLevelFiveDash();
    case '.' | ',' | '?' => TreeLevelSix();
  }

  /** No two characters of the table share a code. */
  lemma CodeInjective(a: char, b: char)
    requires InTable(a) && InTable(b) && Code(a) == Code(b)
    ensures a == b
  {
    CharOfCode(a);
    CharOfCode(b);
  }

  /** Reads one character back from its glyph. */
  function GlyphChar(g: string): Option<char> {
    match Deinterleave(g)
    case None => None
    case Some(t) => CharOf(t)
  }

  lemma GlyphRoundTrip(c: char)
    requires InTable(c)
    ensures GlyphChar(Glyph(c)) == Some(c)
  {
    CodeIsTones(c);
    DeinterleaveInterleave(Code(c));
    CharOfCode(c);
  }
}
