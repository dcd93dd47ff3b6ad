/** The symbol alphabet and the action table that prices each symbol: a
    category (0 tone, 1 silence, 2 speed change) and a duration in units. */
module Actions {
  import opened Settings

  const ToneCategory: int := 0
  const SilenceCategory: int := 1
  const SpeedChangeCategory: int := 2

  /** `.` dot, `-` dash, `*` gap inside a character, `$` gap between
      characters, `/` gap between words, `|` speed marker. */
  const Alphabet: set<char> := {'.', '-', '*', '$', '/', '|'}

  predicate AllSymbols(s: seq<char>) {
    forall k :: 0 <= k < |s| ==> s[k] in Alphabet
  }

  /** Number of occurrences of `x` in `s`. */
  function Count(s: seq<char>, x: char): nat {
    multiset(s)[x]
  }

  datatype Action = Action(category: int, units: int)

  type Table = map<char, Action>

  /** The table `AudioPlayer::new` installs. */
  const Defaults: Table := map[
    '.' := Action(ToneCategory, 1),
    '-' := Action(ToneCategory, 3),
    '*' := Action(SilenceCategory, 1),
    '$' := Action(SilenceCategory, 3),
    '/' := Action(SilenceCategory, 7),
    '|' := Action(SpeedChangeCategory, 0)]

  /** The word-gap units `set_delay` derives from a character-gap delay:
      `(delay as f64 * 2.33) as i32`, truncating toward zero and saturating. */
  function WordGapUnits(delay: i32): (w: i32)
  {
    SaturateI32(TruncToInt(delay as real * 2.33))
  }

  /** `set_delay`: overrides the character gap and the word gap, nothing else. */
  function SetDelay(t: Table, delay: i32): (r: Table)
    ensures r.Keys == t.Keys + {'$', '/'}
    ensures r['$'] == Action(SilenceCategory, delay)
    ensures r['/'] == Action(SilenceCategory, WordGapUnits(delay))
    ensures forall c :: c in t && c != '$' && c != '/' ==> r[c] == t[c]
  {
    t['$' := Action(SilenceCategory, delay)]['/' := Action(SilenceCategory, WordGapUnits(delay))]
  }

  /** The shape every table the player can hold has: the six symbols and no
      other, the fixed entries of the defaults, and silences for both gaps. */
  predicate WellFormed(t: Table) {
    && t.Keys == Alphabet
    && t['.'] == Action(ToneCategory, 1)
    && t['-'] == Action(ToneCategory, 3)
    && t['*'] == Action(SilenceCategory, 1)
    && t['|'] == Action(SpeedChangeCategory, 0)
    && t['$'].category == SilenceCategory
    && t['/'].category == SilenceCategory
  }

  /** The table after `AudioPlayer::new` and the given `set_delay` calls, in order. */
  function Configure(delays: seq<i32>): (t: Table)
    ensures WellFormed(t)
    ensures delays == [] ==> t == Defaults
    decreases |delays|
  {
    if delays == [] then Defaults
    else SetDelay(Configure(delays[..|delays| - 1]), delays[|delays| - 1])
  }

  /** Only the latest `set_delay` call matters. */
  lemma {:induction false} ConfigureLastWins(delays: seq<i32>)
    requires delays != []
    ensures Configure(delays) == SetDelay(Defaults, delays[|delays| - 1])
  {
    var d := delays[|delays| - 1];
    var before := Configure(delays[..|delays| - 1]);
    var r := Configure(delays);
    var e := SetDelay(Defaults, d);
    assert r.Keys == Alphabet == e.Keys;
    forall c | c in r
      ensures r[c] == e[c]
    {
      if c != '$' && c != '/' {
        assert c == '.' || c == '-' || c == '*' || c == '|';
      }
    }
  }

  /** In a table the player can hold, the speed-change category belongs to `|`
      alone, the tone category to `.` and `-`, and the silences to the three gaps. */
  lemma CategoriesOfWellFormed(t: Table, c: char)
    requires WellFormed(t) && c in t
    ensures t[c].category == SpeedChangeCategory <==> c == '|'
    ensures t[c].category == ToneCategory <==> c == '.' || c == '-'
    ensures t[c].category == SilenceCategory <==> c == '*' || c == '$' || c == '/'
  {
  }

  /** The word-gap units are the character-gap delay times 2.33, rounded toward zero
      and saturated at the `i32` bounds; for a delay of 3 this is 6, not the default 7. */
  lemma WordGapUnitsBounds(delay: i32)
    ensures 0 <= delay <= 921_500_000 ==> WordGapUnits(delay) * 100 <= delay * 233 < WordGapUnits(delay) * 100 + 100
    ensures 0 <= delay ==> 0 <= WordGapUnits(delay)
    ensures WordGapUnits(3) == 6
  {
    var x := delay as real * 2.33;
    if 0 <= delay <= 921_500_000 {
      assert x < 0x8000_0000 as real;
      assert TruncToInt(x) as real <= x < TruncToInt(x) as real + 1.0;
    }
    var y := 3 as real * 2.33;
    assert TruncToInt(y) == 6;
  }
}
