/** The pure skeleton of `play_audio`: which tone or silence each symbol
    sounds, at which unit, and where the signal is cut into the buffers handed
    to the audio sink. Samples are abstracted to pulses that record their kind
    and length. */
module Playback {
  import opened Results
  import opened Settings
  import opened Actions
  import opened Timing

  /** A tone or a silence of `units` units of `unit` seconds each. */
  datatype Pulse = Tone(unit: real, units: int) | Silence(unit: real, units: int)

  /** One buffer appended to the sink, with the symbols it sounds. */
  datatype Chunk = Chunk(symbols: seq<char>, pulses: seq<Pulse>)

  /** The loop state: current unit, profile speeds consumed, the signal under
      construction with the symbols it sounds, and the buffers already appended. */
  datatype Player = Player(unit: real, used: nat, pendingSymbols: seq<char>, pending: seq<Pulse>, chunks: seq<Chunk>)

  /** The five keys whose waves and silences `play_audio` prepares up front. */
  predicate HasWaves(table: Table) {
    '.' in table && '-' in table && '*' in table && '$' in table && '/' in table
  }

  /** The signal so far becomes one buffer. */
  function Flush(st: Player): (r: Player)
    ensures r.pendingSymbols == [] && r.pending == []
    ensures r.chunks == st.chunks + [Chunk(st.pendingSymbols, st.pending)]
    ensures r.unit == st.unit && r.used == st.used
  {
    st.(pendingSymbols := [], pending := [], chunks := st.chunks + [Chunk(st.pendingSymbols, st.pending)])
  }

  /** What one symbol does to the state before any flush: a tone plays the
      dot wave for `.` and the dash wave otherwise; a silence plays the short
      silence for `*`, the medium one for `$` and the long one otherwise; a
      speed change moves to the next profile speed; any other category does
      nothing. */
  function Sound(tt: TextType, table: Table, ps: seq<real>, st: Player, c: char): Result<Player>
    requires HasWaves(table)
  {
    if c !in table then Err(MissingAction(c))
    else if table[c].category == ToneCategory then
      var key := if c == '.' then '.' else '-';
      Ok(st.(pending := st.pending + [Tone(st.unit, table[key].units)]))
    else if table[c].category == SilenceCategory then
      var key := if c == '*' then '*' else if c == '$' then '$' else '/';
      Ok(st.(pending := st.pending + [Silence(st.unit, table[key].units)]))
    else if table[c].category == SpeedChangeCategory then
      if st.used >= |ps| then Err(ProfileExhausted)
      else if ps[st.used] == 0.0 then Err(ZeroSpeed)
      else Ok(st.(unit := UnitSeconds(tt, ps[st.used]), used := st.used + 1))
    else Ok(st)
  }

  /** One iteration: sound the symbol, then hand the signal to the sink after
      a word gap or after the last symbol. */
  function Step(tt: TextType, table: Table, ps: seq<real>, st: Player, c: char, isLast: bool): Result<Player>
    requires HasWaves(table)
  {
    var sounded :- Sound(tt, table, ps, st, c);
    var st' := sounded.(pendingSymbols := sounded.pendingSymbols + [c]);
    Ok(if c == '/' || isLast then Flush(st') else st')
  }

  /** The loop state after the first `n` symbols of `s`. */
  function PlayUpTo(tt: TextType, table: Table, ps: seq<real>, s: seq<char>, n: nat, init: Player): Result<Player>
    requires HasWaves(table) && n <= |s|
  {
    if n == 0 then Ok(init)
    else
      var st :- PlayUpTo(tt, table, ps, s, n - 1, init);
      Step(tt, table, ps, st, s[n - 1], n == |s|)
  }

  function Begin(tt: TextType, speed: real): Player
    requires speed != 0.0
  {
    Player(UnitSeconds(tt, speed), 0, [], [], [])
  }

  /** `play_audio`: the buffers appended to the sink, in order. */
  function Play(s: seq<char>, tt: TextType, speed: real, ps: seq<real>, table: Table): Result<seq<Chunk>> {
    if '.' !in table then Err(MissingAction('.'))
    else if '-' !in table then Err(MissingAction('-'))
    else if '*' !in table then Err(MissingAction('*'))
    else if '$' !in table then Err(MissingAction('$'))
    else if '/' !in table then Err(MissingAction('/'))
    else if speed == 0.0 then Err(ZeroSpeed)
    else
      var st :- PlayUpTo(tt, table, ps, s, |s|, Begin(tt, speed));
      Ok(st.chunks)
  }

  // ---- Reference definitions ----

  function Length(p: Pulse): real {
    Cost(p.unit, p.units)
  }

  /** Total length of a pulse sequence. */
  function Duration(ps: seq<Pulse>): real {
    if ps == [] then 0.0 else Duration(ps[..|ps| - 1]) + Length(ps[|ps| - 1])
  }

  /** Total length of all buffers. */
  function ChunksDuration(cs: seq<Chunk>): real {
    if cs == [] then 0.0 else ChunksDuration(cs[..|cs| - 1]) + Duration(cs[|cs| - 1].pulses)
  }

  /** The symbols of all buffers, in order. */
  function ChunksSymbols(cs: seq<Chunk>): seq<char> {
    if cs == [] then [] else ChunksSymbols(cs[..|cs| - 1]) + cs[|cs| - 1].symbols
  }

  predicate NoWordGap(x: seq<char>) {
    forall i :: 0 <= i < |x| ==> x[i] != '/'
  }

  /** A buffer's symbols: not empty, and a word gap at most at the end. */
  predicate Segment(x: seq<char>) {
    |x| > 0 && NoWordGap(x[..|x| - 1])
  }

  // ---- Lemmas ----

  lemma DurationSnoc(ps: seq<Pulse>, p: Pulse)
    ensures Duration(ps + [p]) == Duration(ps) + Length(p)
  {
    assert (ps + [p])[..|ps|] == ps;
  }

  lemma ChunksSnoc(cs: seq<Chunk>, c: Chunk)
    ensures ChunksDuration(cs + [c]) == ChunksDuration(cs) + Duration(c.pulses)
    ensures ChunksSymbols(cs + [c]) == ChunksSymbols(cs) + c.symbols
  {
    assert (cs + [c])[..|cs|] == cs;
  }

  /** Over a table with the five prepared keys, a playback step fails exactly
      when the timing step fails, with the same error, and otherwise moves to
      the same unit and profile position. */
  lemma StepAgrees(tt: TextType, table: Table, ps: seq<real>, st: Player, clk: Clock, c: char, isLast: bool)
    requires HasWaves(table) && st.unit == clk.unit && st.used == clk.used
    ensures
      var p := Step(tt, table, ps, st, c, isLast);
      var t := Tick(tt, table, Some(ps), clk, c);
      && p.Ok? == t.Ok?
      && (p.Err? ==> p.error == t.error)
      && (p.Ok? ==> p.value.unit == t.value.unit && p.value.used == t.value.used)
  {
  }

  /** Playback and timing run in lock step: the same failures, and on success
      the same unit and profile position. */
  lemma {:induction false} PlayAgrees(tt: TextType, table: Table, ps: seq<real>, s: seq<char>, n: nat, init: Player, clk: Clock)
    requires HasWaves(table) && n <= |s| && init.unit == clk.unit && init.used == clk.used
    ensures
      var p := PlayUpTo(tt, table, ps, s, n, init);
      var t := TimeUpTo(tt, table, Some(ps), s, n, clk);
      && p.Ok? == t.Ok?
      && (p.Err? ==> p.error == t.error)
      && (p.Ok? ==> p.value.unit == t.value.unit && p.value.used == t.value.used)
  {
    if n > 0 {
      PlayAgrees(tt, table, ps, s, n - 1, init, clk);
      var p := PlayUpTo(tt, table, ps, s, n - 1, init);
      if p.Ok? {
        StepAgrees(tt, table, ps, p.value, TimeUpTo(tt, table, Some(ps), s, n - 1, clk).value, s[n - 1], n == |s|);
      }
    }
  }

  /** Over a well-formed table each symbol sounds exactly its own duration at
      the unit in force, and a speed marker sounds nothing. */
  lemma StepDuration(tt: TextType, table: Table, ps: seq<real>, st: Player, c: char, isLast: bool)
    requires WellFormed(table)
    requires Step(tt, table, ps, st, c, isLast).Ok?
    ensures
      var r := Step(tt, table, ps, st, c, isLast).value;
      ChunksDuration(r.chunks) + Duration(r.pending)
        == ChunksDuration(st.chunks) + Duration(st.pending) + Cost(st.unit, UnitsOf(table, c))
  {
    CategoriesOfWellFormed(table, c);
    var sounded := Sound(tt, table, ps, st, c).value;
    var p := Tone(st.unit, UnitsOf(table, c));
    var q := Silence(st.unit, UnitsOf(table, c));
    if c == '.' || c == '-' {
      assert sounded.pending == st.pending + [p];
      DurationSnoc(st.pending, p);
    } else if c == '*' || c == '$' || c == '/' {
      assert sounded.pending == st.pending + [q];
      DurationSnoc(st.pending, q);
    } else {
      assert sounded.pending == st.pending;
    }
    assert sounded.chunks == st.chunks;
    var st' := sounded.(pendingSymbols := sounded.pendingSymbols + [c]);
    if c == '/' || isLast {
      ChunksSnoc(st'.chunks, Chunk(st'.pendingSymbols, st'.pending));
    }
  }

  /** Over a well-formed table, the pulses handed out so far last exactly as
      long as the timing loop's running total says. */
  lemma {:induction false} PlayDurationUpTo(tt: TextType, table: Table, ps: seq<real>, s: seq<char>, n: nat, init: Player, clk: Clock)
    requires WellFormed(table) && n <= |s| && init.unit == clk.unit && init.used == clk.used
    requires ChunksDuration(init.chunks) + Duration(init.pending) == clk.total
    requires PlayUpTo(tt, table, ps, s, n, init).Ok?
    ensures TimeUpTo(tt, table, Some(ps), s, n, clk).Ok?
    ensures
      var p := PlayUpTo(tt, table, ps, s, n, init).value;
      ChunksDuration(p.chunks) + Duration(p.pending) == TimeUpTo(tt, table, Some(ps), s, n, clk).value.total
  {
    PlayAgrees(tt, table, ps, s, n, init, clk);
    if n > 0 {
      var p := PlayUpTo(tt, table, ps, s, n - 1, init);
      assert p.Ok?;
      PlayDurationUpTo(tt, table, ps, s, n - 1, init, clk);
      PlayAgrees(tt, table, ps, s, n - 1, init, clk);
      var t := TimeUpTo(tt, table, Some(ps), s, n - 1, clk).value;
      StepDuration(tt, table, ps, p.value, s[n - 1], n == |s|);
      TickTotal(tt, table, Some(ps), t, s[n - 1]);
    }
  }

  /** How the loop cuts the signal after `prefix`: the buffers and the pending
      signal spell it; every buffer is a segment, and ends in a word gap unless
      it is the last one and the loop is `closed` (the final symbol was sounded). */
  predicate Cut(p: Player, prefix: seq<char>, closed: bool) {
    && ChunksSymbols(p.chunks) + p.pendingSymbols == prefix
    && NoWordGap(p.pendingSymbols)
    && (forall i :: 0 <= i < |p.chunks| ==> Segment(p.chunks[i].symbols))
    && (forall i :: 0 <= i < |p.chunks| && (!closed || i < |p.chunks| - 1) ==> p.chunks[i].symbols[|p.chunks[i].symbols| - 1] == '/')
  }

  /** One iteration keeps the cut, and the final one leaves nothing pending. */
  lemma CutStep(tt: TextType, table: Table, ps: seq<real>, q: Player, c: char, isLast: bool, prefix: seq<char>)
    requires HasWaves(table) && Cut(q, prefix, false)
    requires Step(tt, table, ps, q, c, isLast).Ok?
    ensures Cut(Step(tt, table, ps, q, c, isLast).value, prefix + [c], isLast)
    ensures isLast ==> Step(tt, table, ps, q, c, isLast).value.pendingSymbols == []
    ensures isLast ==> Step(tt, table, ps, q, c, isLast).value.pending == []
  {
    var sounded := Sound(tt, table, ps, q, c).value;
    assert sounded.chunks == q.chunks && sounded.pendingSymbols == q.pendingSymbols;
    var x := q.pendingSymbols + [c];
    var r := Step(tt, table, ps, q, c, isLast).value;
    if c == '/' || isLast {
      ChunksSnoc(q.chunks, Chunk(x, sounded.pending));
      assert x[..|x| - 1] == q.pendingSymbols;
      assert r.chunks == q.chunks + [Chunk(x, sounded.pending)];
      assert ChunksSymbols(r.chunks) + r.pendingSymbols == ChunksSymbols(q.chunks) + x;
    } else {
      assert r.chunks == q.chunks && r.pendingSymbols == x;
    }
  }

  /** Before the final symbol the loop keeps an open cut, and after it a closed
      one with nothing pending. */
  lemma {:induction false} PlayChunksUpTo(tt: TextType, table: Table, ps: seq<real>, s: seq<char>, n: nat, init: Player)
    requires HasWaves(table) && n <= |s|
    requires init.chunks == [] && init.pendingSymbols == []
    requires PlayUpTo(tt, table, ps, s, n, init).Ok?
    ensures Cut(PlayUpTo(tt, table, ps, s, n, init).value, s[..n], n == |s|)
    ensures n == |s| && n > 0 ==> PlayUpTo(tt, table, ps, s, n, init).value.pending == []
  {
    if n == 0 {
      assert s[..n] == [];
    } else {
      var prev := PlayUpTo(tt, table, ps, s, n - 1, init);
      assert prev.Ok?;
      assert PlayUpTo(tt, table, ps, s, n, init) == Step(tt, table, ps, prev.value, s[n - 1], n == |s|);
      PlayChunksUpTo(tt, table, ps, s, n - 1, init);
      assert s[..n] == s[..n - 1] + [s[n - 1]];
      CutStep(tt, table, ps, prev.value, s[n - 1], n == |s|, s[..n - 1]);
    }
  }

  /** `play_audio` fails exactly when `get_time_and_timings` fails for the same
      symbols, speed and profile, and with the same error; before that, it
      stops at the first of the five prepared keys the table lacks. */
  lemma PlayFailures(s: seq<char>, tt: TextType, speed: real, ps: seq<real>, table: Table)
    ensures !HasWaves(table) ==> Play(s, tt, speed, ps, table).Err? && Play(s, tt, speed, ps, table).error.MissingAction?
    ensures '.' !in table ==> Play(s, tt, speed, ps, table) == Err(MissingAction('.'))
    ensures HasWaves(table) ==>
      var p := Play(s, tt, speed, ps, table);
      var t := TimeAndTimings(s, tt, speed, Some(ps), table);
      p.Ok? == t.Ok? && (p.Err? ==> p.error == t.error)
  {
    if HasWaves(table) && speed != 0.0 {
      PlayAgrees(tt, table, ps, s, |s|, Begin(tt, speed), Start(tt, speed));
    }
  }

  /** On success, the buffers spell the played symbols in order; each is a
      non-empty run with a word gap at most at its end, and every buffer but
      the last ends in a word gap. */
  lemma PlayChunks(s: seq<char>, tt: TextType, speed: real, ps: seq<real>, table: Table)
    requires Play(s, tt, speed, ps, table).Ok?
    ensures
      var cs := Play(s, tt, speed, ps, table).value;
      && ChunksSymbols(cs) == s
      && (forall i :: 0 <= i < |cs| ==> Segment(cs[i].symbols))
      && (forall i :: 0 <= i < |cs| - 1 ==> cs[i].symbols[|cs[i].symbols| - 1] == '/')
  {
    PlayChunksUpTo(tt, table, ps, s, |s|, Begin(tt, speed));
    assert s[..|s|] == s;
    var cs := Play(s, tt, speed, ps, table).value;
    assert Cut(PlayUpTo(tt, table, ps, s, |s|, Begin(tt, speed)).value, s, true);
  }

  /** On success over a well-formed table, the buffers last exactly as long as
      `get_time_and_timings` reports for the same symbols, speed and profile. */
  lemma PlayDuration(s: seq<char>, tt: TextType, speed: real, ps: seq<real>, table: Table)
    requires WellFormed(table) && Play(s, tt, speed, ps, table).Ok?
    ensures TimeAndTimings(s, tt, speed, Some(ps), table).Ok?
    ensures ChunksDuration(Play(s, tt, speed, ps, table).value) == TimeAndTimings(s, tt, speed, Some(ps), table).value.total
  {
    PlayDurationUpTo(tt, table, ps, s, |s|, Begin(tt, speed), Start(tt, speed));
    PlayChunksUpTo(tt, table, ps, s, |s|, Begin(tt, speed));
    if s == [] {
      assert Play(s, tt, speed, ps, table).value == [];
    }
  }
}
