/** `gen_audio_prev_vec`: one pass over the text that emits the symbol string
    and, under a speed ramp, one speed marker and profile value per character. */
module Encoder {
  import opened Results
  import opened Settings
  import opened Actions
  import opened MorseCode
  import opened Ramp

  /** The arguments of the encoder besides the text. */
  datatype Params = Params(minSpeed: real, maxSpeed: real, modification: SpeedModification, modificationLen: i32)

  predicate Active(p: Params) {
    p.modification != NoModification
  }

  /** The loop state: the symbols so far, the speed profile so far and the ramp counter. */
  datatype EncState = EncState(symbols: seq<char>, profile: seq<real>, counter: int)

  /** The encoder's result: the speed profile and the symbol string. */
  datatype Encoded = Encoded(profile: seq<real>, symbols: seq<char>)

  const Initial := EncState([], [], 0)

  /** Under a ramp, a character other than a space first gets its profile value
      and a speed marker, and the counter moves on. */
  function Mark(p: Params, st: EncState, c: char): EncState {
    if c != ' ' && Active(p) then
      EncState(st.symbols + ['|'],
               st.profile + [SpeedAt(p.modification, st.counter, p.modificationLen, p.minSpeed, p.maxSpeed)],
               Advance(st.counter, Window(p.modificationLen)))
    else st
  }

  /** One iteration of the loop for character `c`, whose glyph is `g`. */
  function Emit(p: Params, st: EncState, c: char, g: seq<char>, isLast: bool): Result<EncState> {
    var marked := Mark(p, st, c);
    var out := marked.symbols + g;
    if c != ' ' && !isLast then Ok(marked.(symbols := out + ['$']))
    else if c == ' ' then
      if |out| == 0 then Err(GapOnEmptyOutput)
      else if marked.counter == 0 && Active(p) then
        Ok(EncState(out[..|out| - 1] + ['|', '/'], marked.profile + [p.minSpeed], marked.counter))
      else Ok(marked.(symbols := out[..|out| - 1] + ['/']))
    else Ok(marked.(symbols := out))
  }

  /** One iteration of the loop, for character `c`. */
  function Step(p: Params, st: EncState, c: char, isLast: bool): Result<EncState> {
    Emit(p, st, c, Glyph(c), isLast)
  }

  /** The loop over the characters still to come; the last one gets no gap. */
  function Run(p: Params, rest: seq<char>, st: EncState): Result<EncState>
    decreases |rest|
  {
    if rest == [] then Ok(st)
    else
      var next :- Step(p, st, rest[0], |rest| == 1);
      Run(p, rest[1..], next)
  }

  /** The output ends at a gap, as every character but the last leaves it. */
  predicate AtGap(s: seq<char>) {
    |s| > 0 && (s[|s| - 1] == '$' || s[|s| - 1] == '/')
  }

  /** Every symbol is a table key and every marker has its profile value. */
  predicate Aligned(st: EncState) {
    AllSymbols(st.symbols) && Count(st.symbols, '|') == |st.profile|
  }

  lemma MarkFacts(p: Params, st: EncState, c: char)
    requires Aligned(st)
    ensures Aligned(Mark(p, st, c))
    ensures !Active(p) ==> Mark(p, st, c) == st
  {
    if c != ' ' && Active(p) {
      assert multiset(st.symbols + ['|']) == multiset(st.symbols) + multiset{'|'};
    }
  }

  /** Appending symbols other than a marker keeps the symbols table keys and
      the marker count. */
  lemma AppendUnmarked(s: seq<char>, tail: seq<char>)
    requires AllSymbols(s) && AllSymbols(tail) && '|' !in tail
    ensures AllSymbols(s + tail) && Count(s + tail, '|') == Count(s, '|')
  {
    assert multiset(s + tail) == multiset(s) + multiset(tail);
  }

  /** Replacing the closing gap of `s` by `tail`. */
  lemma ReplaceGap(s: seq<char>, tail: seq<char>)
    requires AtGap(s) && AllSymbols(s) && AllSymbols(tail)
    ensures AllSymbols(s[..|s| - 1] + tail)
    ensures Count(s[..|s| - 1] + tail, '|') == Count(s, '|') + Count(tail, '|')
  {
    var keep := s[..|s| - 1];
    assert s == keep + [s[|s| - 1]];
    assert multiset(s) == multiset(keep) + multiset{s[|s| - 1]};
    assert multiset(keep + tail) == multiset(keep) + multiset(tail);
  }

  /** A space turns the closing character gap into a word gap (with a marker
      and the ramp's bottom speed when a ramp restarts). */
  lemma EmitSpace(p: Params, st: EncState, isLast: bool)
    requires Aligned(st) && AtGap(st.symbols)
    ensures Emit(p, st, ' ', [], isLast).Ok?
    ensures Aligned(Emit(p, st, ' ', [], isLast).value)
    ensures AtGap(Emit(p, st, ' ', [], isLast).value.symbols)
    ensures !Active(p) ==> Emit(p, st, ' ', [], isLast).value.profile == st.profile
  {
    var keep := st.symbols[..|st.symbols| - 1];
    assert Mark(p, st, ' ') == st && st.symbols + [] == st.symbols;
    if st.counter == 0 && Active(p) {
      RestartGap(st, p.minSpeed);
      assert Emit(p, st, ' ', [], isLast) == Ok(EncState(keep + ['|', '/'], st.profile + [p.minSpeed], st.counter));
    } else {
      PlainGap(st);
      assert Emit(p, st, ' ', [], isLast) == Ok(st.(symbols := keep + ['/']));
    }
  }

  lemma RestartGap(st: EncState, speed: real)
    requires Aligned(st) && AtGap(st.symbols)
    ensures
      var r := EncState(st.symbols[..|st.symbols| - 1] + ['|', '/'], st.profile + [speed], st.counter);
      Aligned(r) && AtGap(r.symbols)
  {
    assert multiset(['|', '/']) == multiset{'|', '/'};
    ReplaceGap(st.symbols, ['|', '/']);
  }

  lemma PlainGap(st: EncState)
    requires Aligned(st) && AtGap(st.symbols)
    ensures
      var r := st.(symbols := st.symbols[..|st.symbols| - 1] + ['/']);
      Aligned(r) && AtGap(r.symbols)
  {
    ReplaceGap(st.symbols, ['/']);
  }

  /** Any other character appends its marker, its glyph and, unless last, a
      character gap. */
  lemma EmitGlyph(p: Params, st: EncState, c: char, g: seq<char>, isLast: bool)
    requires c != ' ' && GlyphLike(g) && Aligned(st)
    ensures Emit(p, st, c, g, isLast).Ok?
    ensures Aligned(Emit(p, st, c, g, isLast).value)
    ensures !isLast ==> AtGap(Emit(p, st, c, g, isLast).value.symbols)
    ensures !Active(p) ==> Emit(p, st, c, g, isLast).value.profile == st.profile
  {
    MarkFacts(p, st, c);
    var marked := Mark(p, st, c);
    assert '|' !in g;
    AppendUnmarked(marked.symbols, g);
    if !isLast {
      AppendUnmarked(marked.symbols + g, ['$']);
    }
  }

  lemma EmitFacts(p: Params, st: EncState, c: char, g: seq<char>, isLast: bool)
    requires GlyphLike(g) && (c == ' ' ==> g == [])
    requires Aligned(st) && (st.symbols == [] || AtGap(st.symbols))
    ensures Emit(p, st, c, g, isLast).Err? <==> c == ' ' && st.symbols == []
    ensures Emit(p, st, c, g, isLast).Ok? ==>
      && Aligned(Emit(p, st, c, g, isLast).value)
      && (!isLast ==> AtGap(Emit(p, st, c, g, isLast).value.symbols))
      && (!Active(p) ==> Emit(p, st, c, g, isLast).value.profile == st.profile)
  {
    if c != ' ' {
      EmitGlyph(p, st, c, g, isLast);
    } else if st.symbols != [] {
      EmitSpace(p, st, isLast);
    }
  }

  lemma StepFacts(p: Params, st: EncState, c: char, isLast: bool)
    requires Aligned(st) && (st.symbols == [] || AtGap(st.symbols))
    ensures Step(p, st, c, isLast).Err? <==> c == ' ' && st.symbols == []
    ensures Step(p, st, c, isLast).Ok? ==>
      && Aligned(Step(p, st, c, isLast).value)
      && (!isLast ==> AtGap(Step(p, st, c, isLast).value.symbols))
      && (!Active(p) ==> Step(p, st, c, isLast).value.profile == st.profile)
  {
    GlyphShape(c);
    EmitFacts(p, st, c, Glyph(c), isLast);
  }

  lemma {:induction false} RunFacts(p: Params, rest: seq<char>, st: EncState)
    requires Aligned(st) && (st.symbols == [] || AtGap(st.symbols))
    ensures Run(p, rest, st).Err? <==> |rest| > 0 && rest[0] == ' ' && st.symbols == []
    ensures Run(p, rest, st).Ok? ==>
      && Aligned(Run(p, rest, st).value)
      && (!Active(p) ==> Run(p, rest, st).value.profile == st.profile)
    decreases |rest|
  {
    if rest != [] {
      StepFacts(p, st, rest[0], |rest| == 1);
      var s := Step(p, st, rest[0], |rest| == 1);
      if s.Ok? && |rest| == 1 {
        assert rest[1..] == [];
      } else if s.Ok? {
        RunFacts(p, rest[1..], s.value);
      }
    }
  }

  /** `gen_audio_prev_vec`. It fails exactly on text that starts with a space
      (the gap rewrite then indexes an empty output); otherwise every symbol is
      one of the six table keys and there are exactly as many speed markers as
      profile values, none of either without a ramp. */
  function Encode(p: Params, text: seq<char>): (r: Result<Encoded>)
    ensures r.Err? <==> |text| > 0 && text[0] == ' '
    ensures r.Ok? ==> AllSymbols(r.value.symbols) && Count(r.value.symbols, '|') == |r.value.profile|
    ensures r.Ok? && !Active(p) ==> r.value.profile == [] && Count(r.value.symbols, '|') == 0
  {
    RunFacts(p, text, Initial);
    var st :- Run(p, text, Initial);
    Ok(Encoded(st.profile, st.symbols))
  }

  /** A space rewrites the gap the previous character left (a character or word
      gap, never a tone or a marker) into a word gap; under a ramp whose counter
      has just wrapped to 0 it puts a marker there first, with the extra profile
      value `minSpeed`. Nothing before that gap changes. */
  lemma SpaceStep(p: Params, st: EncState, isLast: bool)
    requires AtGap(st.symbols)
    ensures Step(p, st, ' ', isLast).Ok?
    ensures
      var r := Step(p, st, ' ', isLast).value;
      var keep := st.symbols[..|st.symbols| - 1];
      && r.counter == st.counter
      && (st.counter == 0 && Active(p) ==> r.symbols == keep + ['|', '/'] && r.profile == st.profile + [p.minSpeed])
      && (!(st.counter == 0 && Active(p)) ==> r.symbols == keep + ['/'] && r.profile == st.profile)
  {
    GlyphShape(' ');
    assert st.symbols + Glyph(' ') == st.symbols;
  }

  /** A character that is neither in the table nor a space emits no tone, yet
      still takes its marker under a ramp and, unless it is last, a gap. */
  lemma UnknownCharacterStep(p: Params, st: EncState, c: char, isLast: bool)
    requires c != ' ' && !InTable(c)
    ensures Step(p, st, c, isLast).Ok?
    ensures Step(p, st, c, isLast).value.symbols
         == st.symbols + (if Active(p) then ['|'] else []) + (if isLast then [] else ['$'])
    ensures |Step(p, st, c, isLast).value.profile| == |st.profile| + if Active(p) then 1 else 0
  {
    GlyphShape(c);
  }

  /** Once the output holds two symbols, a step keeps its first symbol, keeps
      it at least two long, and only appends to the profile. */
  lemma EmitKeepsHead(p: Params, st: EncState, c: char, g: seq<char>, isLast: bool)
    requires |st.symbols| >= 2 && (c == ' ' ==> g == [])
    requires Emit(p, st, c, g, isLast).Ok?
    ensures
      var r := Emit(p, st, c, g, isLast).value;
      && |r.symbols| >= 2 && r.symbols[0] == st.symbols[0]
      && |st.profile| <= |r.profile| && r.profile[..|st.profile|] == st.profile
  {
    var marked := Mark(p, st, c);
    assert marked.symbols[0] == st.symbols[0];
    assert marked.profile[..|st.profile|] == st.profile;
    var out := marked.symbols + g;
    assert out[0] == st.symbols[0];
    var r := Emit(p, st, c, g, isLast).value;
    if c == ' ' {
      assert (r.profile == marked.profile) || (r.profile == marked.profile + [p.minSpeed]);
      assert (marked.profile + [p.minSpeed])[..|st.profile|] == st.profile;
    }
  }

  lemma {:induction false} RunKeepsHead(p: Params, rest: seq<char>, st: EncState)
    requires |st.symbols| >= 2
    requires Run(p, rest, st).Ok?
    ensures
      var r := Run(p, rest, st).value;
      && |r.symbols| >= 2 && r.symbols[0] == st.symbols[0]
      && |st.profile| <= |r.profile| && r.profile[..|st.profile|] == st.profile
    decreases |rest|
  {
    if rest != [] {
      GlyphShape(rest[0]);
      var s := Step(p, st, rest[0], |rest| == 1);
      assert s.Ok?;
      EmitKeepsHead(p, st, rest[0], Glyph(rest[0]), |rest| == 1);
      RunKeepsHead(p, rest[1..], s.value);
      var r := Run(p, rest, st).value;
      assert r.profile[..|st.profile|] == s.value.profile[..|s.value.profile|][..|st.profile|];
    }
  }

  /** Under a ramp, the first character that is not a space opens the output
      with a marker and the profile with the ramp's value at counter 0. */
  lemma FirstEmit(p: Params, c: char, g: seq<char>, isLast: bool)
    requires Active(p) && c != ' '
    ensures Emit(p, Initial, c, g, isLast).Ok?
    ensures Emit(p, Initial, c, g, isLast).value.symbols == ['|'] + g + (if isLast then [] else ['$'])
    ensures Emit(p, Initial, c, g, isLast).value.profile == [SpeedAt(p.modification, 0, p.modificationLen, p.minSpeed, p.maxSpeed)]
  {
    if isLast {
      assert ['|'] + g + [] == ['|'] + g;
    }
  }

  /** Under a ramp, text that does not start with a space begins with a speed
      marker, and the first profile value is the ramp's value at counter 0. */
  lemma EncodeFirstMarker(p: Params, text: seq<char>)
    requires Active(p) && |text| > 0 && text[0] != ' '
    ensures Encode(p, text).Ok?
    ensures |Encode(p, text).value.symbols| > 0 && Encode(p, text).value.symbols[0] == '|'
    ensures |Encode(p, text).value.profile| > 0
    ensures Encode(p, text).value.profile[0] == SpeedAt(p.modification, 0, p.modificationLen, p.minSpeed, p.maxSpeed)
  {
    var isLast := |text| == 1;
    FirstEmit(p, text[0], Glyph(text[0]), isLast);
    var s1 := Step(p, Initial, text[0], isLast).value;
    assert Run(p, text, Initial) == Run(p, text[1..], s1);
    if isLast {
      assert text[1..] == [];
    } else {
      assert Encode(p, text).Ok?;
      RunKeepsHead(p, text[1..], s1);
      var r := Run(p, text[1..], s1).value;
      assert r.profile[..1] == s1.profile;
      assert r.profile[0] == r.profile[..1][0];
      assert Encode(p, text).value == Encoded(r.profile, r.symbols);
    }
  }

  /** Without a ramp, a character other than a space appends its glyph and,
      unless it is last, a character gap; no marker and no profile value. */
  lemma StepUnmodified(p: Params, o: seq<char>, c: char, isLast: bool)
    requires !Active(p) && c != ' '
    ensures Step(p, EncState(o, [], 0), c, isLast)
         == Ok(EncState(o + Glyph(c) + (if isLast then [] else ['$']), [], 0))
  {
    if isLast {
      assert o + Glyph(c) + [] == o + Glyph(c);
    }
  }

  /** Without a ramp, one character encodes to its code: its tones in order with
      `*` between consecutive tones and none at either end. */
  lemma EncodeOneCharacter(p: Params, c: char)
    requires !Active(p) && InTable(c)
    ensures Encode(p, [c]).Ok?
    ensures Encode(p, [c]).value.profile == []
    ensures
      var s := Encode(p, [c]).value.symbols;
      && |s| == 2 * |Code(c)| - 1
      && forall i :: 0 <= i < |s| ==> s[i] == if i % 2 == 0 then Code(c)[i / 2] else '*'
  {
    GlyphShape(c);
    StepUnmodified(p, [], c, true);
    assert [c][1..] == [];
    assert [] + Glyph(c) + [] == Glyph(c);
    assert Run(p, [c], Initial) == Ok(EncState(Glyph(c), [], 0));
  }

  /** The counter stays in `[0, N)`, and with `minSpeed <= maxSpeed` every profile
      value lies in `[minSpeed, maxSpeed]` unless Zigzag runs over an odd window. */
  lemma {:induction false} RunProfileInRange(p: Params, rest: seq<char>, st: EncState)
    requires p.modificationLen >= 1 && p.minSpeed <= p.maxSpeed
    requires p.modification == Zigzag ==> p.modificationLen % 2 == 0
    requires 0 <= st.counter < Window(p.modificationLen)
    requires forall k :: 0 <= k < |st.profile| ==> p.minSpeed <= st.profile[k] <= p.maxSpeed
    ensures Run(p, rest, st).Ok? ==>
      && 0 <= Run(p, rest, st).value.counter < Window(p.modificationLen)
      && forall k :: 0 <= k < |Run(p, rest, st).value.profile| ==>
           p.minSpeed <= Run(p, rest, st).value.profile[k] <= p.maxSpeed
    decreases |rest|
  {
    if rest != [] {
      var c := rest[0];
      var len := p.modificationLen;
      if c != ' ' && Active(p) {
        AdvanceInWindow(st.counter, len);
        if p.modification == Zigzag {
          ZigzagEvenInRange(st.counter, len, p.minSpeed, p.maxSpeed);
        } else {
          LinearRamps(st.counter, len, p.minSpeed, p.maxSpeed);
        }
      }
      var s := Step(p, st, c, |rest| == 1);
      if s.Ok? {
        RunProfileInRange(p, rest[1..], s.value);
      }
    }
  }

  lemma EncodeProfileInRange(p: Params, text: seq<char>)
    requires p.modificationLen >= 1 && p.minSpeed <= p.maxSpeed
    requires p.modification == Zigzag ==> p.modificationLen % 2 == 0
    ensures Encode(p, text).Ok? ==>
      forall k :: 0 <= k < |Encode(p, text).value.profile| ==>
        p.minSpeed <= Encode(p, text).value.profile[k] <= p.maxSpeed
  {
    RunProfileInRange(p, text, Initial);
  }

  lemma {:induction false} RunWithoutSpaces(p: Params, rest: seq<char>, st: EncState, i: nat)
    requires Active(p) && p.modificationLen >= 1
    requires forall k :: 0 <= k < |rest| ==> rest[k] != ' '
    requires st.counter == i % Window(p.modificationLen) && |st.profile| == i
    requires forall k :: 0 <= k < i ==>
      st.profile[k] == SpeedAt(p.modification, k % Window(p.modificationLen), p.modificationLen, p.minSpeed, p.maxSpeed)
    ensures Run(p, rest, st).Ok?
    ensures |Run(p, rest, st).value.profile| == i + |rest|
    ensures forall k :: 0 <= k < i + |rest| ==>
      Run(p, rest, st).value.profile[k]
        == SpeedAt(p.modification, k % Window(p.modificationLen), p.modificationLen, p.minSpeed, p.maxSpeed)
    decreases |rest|
  {
    if rest != [] {
      AdvanceIsMod(i, p.modificationLen);
      var s := Step(p, st, rest[0], |rest| == 1);
      assert s.Ok?;
      RunWithoutSpaces(p, rest[1..], s.value, i + 1);
    }
  }

  /** On text without spaces under a ramp, character `k` gets the ramp value at
      counter position `k mod N`. */
  lemma EncodeWithoutSpaces(p: Params, text: seq<char>)
    requires Active(p) && p.modificationLen >= 1
    requires forall k :: 0 <= k < |text| ==> text[k] != ' '
    ensures Encode(p, text).Ok?
    ensures |Encode(p, text).value.profile| == |text|
    ensures forall k :: 0 <= k < |text| ==>
      Encode(p, text).value.profile[k]
        == SpeedAt(p.modification, k % Window(p.modificationLen), p.modificationLen, p.minSpeed, p.maxSpeed)
  {
    RunWithoutSpaces(p, text, Initial, 0);
  }

  /** A Speedup over a two-character window (N = 10) from 100 to 110: character 0
      is played at 100, character 9 at 110, and character 10 at 100 again. */
  lemma SpeedupExample()
    ensures
      var e := Encode(Params(100.0, 110.0, Speedup, 2), "ABCDEFGHIJK");
      && e.Ok? && |e.value.profile| == 11
      && e.value.profile[0] == 100.0 && e.value.profile[9] == 110.0 && e.value.profile[10] == 100.0
  {
    var p := Params(100.0, 110.0, Speedup, 2);
    EncodeWithoutSpaces(p, "ABCDEFGHIJK");
    LinearRamps(0, 2, 100.0, 110.0);
    LinearRamps(9, 2, 100.0, 110.0);
    assert 10 % Window(2) == 0;
  }

  /** `s` with its leading spaces removed. */
  function DropSpaces(s: seq<char>): (r: seq<char>)
    ensures |r| <= |s|
    ensures r == [] || r[0] != ' '
    decreases |s|
  {
    if |s| > 0 && s[0] == ' ' then DropSpaces(s[1..]) else s
  }

  /** What the encoder without a ramp makes of text, read off character by
      character: each glyph, then a word gap when a space follows and a
      character gap otherwise, with each run of spaces absorbed into that gap. */
  function Spelling(t: seq<char>): seq<char>
    decreases |t|
  {
    if |t| == 0 then []
    else if |t| == 1 then Glyph(t[0])
    else Glyph(t[0]) + [if t[1] == ' ' then '/' else '$'] + Spelling(DropSpaces(t[1..]))
  }

  lemma {:induction false} SkipSpaces(p: Params, r: seq<char>, o: seq<char>)
    requires !Active(p) && |r| > 0 && r[0] == ' ' && |o| > 0
    ensures Run(p, r, EncState(o, [], 0)) == Run(p, DropSpaces(r), EncState(o[..|o| - 1] + ['/'], [], 0))
    decreases |r|
  {
    GlyphShape(' ');
    var o' := o[..|o| - 1] + ['/'];
    assert o + Glyph(' ') == o;
    assert Step(p, EncState(o, [], 0), ' ', |r| == 1) == Ok(EncState(o', [], 0));
    if |r| > 1 && r[1] == ' ' {
      SkipSpaces(p, r[1..], o');
      assert o'[..|o'| - 1] + ['/'] == o';
    }
  }

  /** Appends regroup freely. */
  lemma Associate<T>(a: seq<T>, b: seq<T>, c: seq<T>)
    ensures a + b + c == a + (b + c)
  {
  }

  lemma {:induction false} RunUnmodified(p: Params, t: seq<char>, o: seq<char>)
    requires !Active(p) && (t == [] || t[0] != ' ')
    ensures Run(p, t, EncState(o, [], 0)) == Ok(EncState(o + Spelling(t), [], 0))
    decreases |t|
  {
    if t == [] {
      assert o + Spelling(t) == o;
    } else if |t| == 1 {
      StepUnmodified(p, o, t[0], true);
      assert t[1..] == [];
      assert o + Glyph(t[0]) + [] == o + Spelling(t);
    } else {
      StepUnmodified(p, o, t[0], false);
      var o1 := o + Glyph(t[0]) + ['$'];
      assert Run(p, t, EncState(o, [], 0)) == Run(p, t[1..], EncState(o1, [], 0));
      var o2 := o + Glyph(t[0]) + [if t[1] == ' ' then '/' else '$'];
      if t[1] == ' ' {
        SkipSpaces(p, t[1..], o1);
        assert o1[..|o1| - 1] + ['/'] == o2;
      } else {
        assert DropSpaces(t[1..]) == t[1..];
      }
      assert Run(p, t[1..], EncState(o1, [], 0)) == Run(p, DropSpaces(t[1..]), EncState(o2, [], 0));
      RunUnmodified(p, DropSpaces(t[1..]), o2);
      var g, gap := Glyph(t[0]), [if t[1] == ' ' then '/' else '$'];
      Associate(o, g, gap);
      Associate(o, g + gap, Spelling(DropSpaces(t[1..])));
    }
  }

  /** Without a ramp the encoder produces exactly the spelling of the text. */
  lemma EncodeUnmodified(p: Params, t: seq<char>)
    requires !Active(p) && (t == [] || t[0] != ' ')
    ensures Encode(p, t) == Ok(Encoded([], Spelling(t)))
  {
    RunUnmodified(p, t, []);
    assert [] + Spelling(t) == Spelling(t);
    assert Run(p, t, Initial) == Ok(EncState(Spelling(t), [], 0));
  }
}
