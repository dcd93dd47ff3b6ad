/** One playing session of `AudioPlayer`: the starting speed, the start part
    announced before the text, the symbol string the player is handed (start
    part, text, end signal) and the durations the player reports. */
module Session {
  import opened Results
  import opened Settings
  import opened Actions
  import opened MorseCode
  import opened Ramp
  import opened Encoder
  import opened Decoding
  import opened Timing
  import opened Playback
  import opened Signals

  /** The player's settings that a session reads. */
  datatype Config = Config(
    text: seq<char>,
    textType: TextType,
    speed: real,
    minSpeed: real,
    maxSpeed: real,
    modification: SpeedModification,
    modificationLen: i32,
    additions: TextAdditions,
    table: Table)

  /** The settings of a freshly created player. */
  const NewConfig := Config([], Letters, 100.0, 100.0, 110.0, NoModification, 10, Training, Defaults)

  /** The speed the session starts at: the ramp's first value for a Speedup or
      a Zigzag, its top for a Slowing, the set speed otherwise. */
  function StartSpeed(cfg: Config): real {
    if cfg.modification == Speedup || cfg.modification == Zigzag then cfg.minSpeed
    else if cfg.modification == Slowing then cfg.maxSpeed
    else cfg.speed
  }

  // ---- The spoken speed ----

  /** Rust's `round`: to the nearest integer, halves away from zero. */
  function RoundHalfAway(x: real): (n: int)
    ensures x >= 0.0 ==> n as real - 0.5 <= x < n as real + 0.5
    ensures x < 0.0 ==> n as real - 0.5 < x <= n as real + 0.5
  {
    if x >= 0.0 then (x + 0.5).Floor else -((0.5 - x).Floor)
  }

  function DigitChar(k: int): (c: char)
    requires 0 <= k < 10
  {
    (('0' as int) + k) as char
  }

  function DigitValue(c: char): int {
    c as int - '0' as int
  }

  predicate IsDigit(c: char) {
    '0' <= c <= '9'
  }

  /** The decimal digits of `n`, without leading zeros. */
  function NatDigits(n: nat): (d: string)
    ensures |d| > 0 && (forall i :: 0 <= i < |d| ==> IsDigit(d[i]))
    decreases n
  {
    if n < 10 then [DigitChar(n)] else NatDigits(n / 10) + [DigitChar(n % 10)]
  }

  /** `i32::to_string`: a minus sign before the digits of a negative number. */
  function Decimal(n: int): (d: string)
    ensures |d| > 0 && d[0] != ' '
  {
    if n < 0 then ['-'] + NatDigits(-n) else NatDigits(n)
  }

  /** The value a string of decimal digits denotes. */
  function DigitsValue(d: string): int {
    if d == [] then 0 else 10 * DigitsValue(d[..|d| - 1]) + DigitValue(d[|d| - 1])
  }

  /** `(speed.round() as i32).to_string()`. */
  function SpeedText(speed: real): string {
    Decimal(SaturateI32(RoundHalfAway(speed)))
  }

  /** The fixed encoder settings the start part announces the speed with. */
  const Announcer := Params(100.0, 100.0, NoModification, 10)

  /** The encoded speed of a competition start part. */
  function SpokenSpeed(speed: real): seq<char> {
    Encode(Announcer, SpeedText(speed)).value.symbols
  }

  // ---- The session ----

  /** `gen_start_part_prev_vec`. */
  function StartPart(additions: TextAdditions, tt: TextType, speed: real): seq<char> {
    match additions
    case NoAdditions => []
    case Training => StartText
    case Competitions =>
      (if tt == Digits then CompetitionsDigitsText else CompetitionsLettersText)
        + SpokenSpeed(speed) + ['/'] + StartText
  }

  /** The encoder settings of the text itself. */
  function BodyParams(cfg: Config): Params {
    Params(cfg.minSpeed, cfg.maxSpeed, cfg.modification, cfg.modificationLen)
  }

  /** What the playing thread hands to `play_audio`. */
  datatype Plan = Plan(speed: real, symbols: seq<char>, profile: seq<real>)

  function EndPart(additions: TextAdditions): seq<char> {
    if additions != NoAdditions then EndText else []
  }

  /** The session of `play`: start part, encoded text, and the end signal
      unless additions are off, played from the start speed with the text's
      speed profile. */
  function Compose(cfg: Config): Result<Plan> {
    var speed := StartSpeed(cfg);
    var body :- Encode(BodyParams(cfg), cfg.text);
    Ok(Plan(speed, StartPart(cfg.additions, cfg.textType, speed) + body.symbols + EndPart(cfg.additions), body.profile))
  }

  /** The buffers the playing thread appends to the sink. */
  function PlaySession(cfg: Config): Result<seq<Chunk>> {
    var plan :- Compose(cfg);
    Play(plan.symbols, cfg.textType, plan.speed, plan.profile, cfg.table)
  }

  /** `get_text_duration`: the text alone, timed from the set speed. */
  function TextDuration(cfg: Config): Result<real> {
    var body :- Encode(BodyParams(cfg), cfg.text);
    var t :- TimeAndTimings(body.symbols, cfg.textType, cfg.speed, Some(body.profile), cfg.table);
    Ok(t.total)
  }

  /** `get_char_timings`: the checkpoints of the text alone, timed from the set speed. */
  function CharTimings(cfg: Config): Result<seq<nat>> {
    var body :- Encode(BodyParams(cfg), cfg.text);
    var t :- TimeAndTimings(body.symbols, cfg.textType, cfg.speed, Some(body.profile), cfg.table);
    Ok(t.checkpoints)
  }

  /** `get_start_part_duration`: the start part timed from the start speed. */
  function StartPartDuration(cfg: Config): Result<real> {
    var speed := StartSpeed(cfg);
    var t :- TimeAndTimings(StartPart(cfg.additions, cfg.textType, speed), cfg.textType, speed, None, cfg.table);
    Ok(t.total)
  }

  // ---- Lemmas ----

  lemma {:induction false} NatDigitsValue(n: nat)
    ensures DigitsValue(NatDigits(n)) == n
    ensures |NatDigits(n)| > 1 ==> NatDigits(n)[0] != '0'
    decreases n
  {
    if n >= 10 {
      NatDigitsValue(n / 10);
      var d := NatDigits(n);
      assert d[..|d| - 1] == NatDigits(n / 10);
    }
  }

  /** `to_string` of an integer writes its value in decimal without leading
      zeros; a negative one gets a minus sign before the digits of its size. */
  lemma DecimalValue(n: int)
    ensures n >= 0 ==>
      var d := Decimal(n);
      && DigitsValue(d) == n && (forall i :: 0 <= i < |d| ==> IsDigit(d[i])) && (|d| > 1 ==> d[0] != '0')
    ensures n < 0 ==> Decimal(n)[0] == '-' && DigitsValue(Decimal(n)[1..]) == -n
  {
    if n >= 0 {
      NatDigitsValue(n);
    } else {
      NatDigitsValue(-n);
      assert Decimal(n)[1..] == NatDigits(-n);
    }
  }

  lemma DigitInTable(c: char)
    requires IsDigit(c)
    ensures InTable(c)
  {
    var k := c as int - '0' as int;
    assert 0 <= k < 10;
    if k < 5 {
      assert c == '0' || c == '1' || c == '2' || c == '3' || c == '4';
    } else {
      assert c == '5' || c == '6' || c == '7' || c == '8' || c == '9';
    }
  }

  /** The start part is empty exactly without additions; it uses only table
      keys and never a speed marker, so it takes nothing from the profile. */
  lemma StartPartUnmarked(additions: TextAdditions, tt: TextType, speed: real)
    ensures Unmarked(StartPart(additions, tt, speed))
    ensures StartPart(additions, tt, speed) == [] <==> additions == NoAdditions
  {
    if additions == Training {
      TrainingPartUnmarked(tt, speed);
    } else if additions == Competitions {
      CompetitionsPartUnmarked(tt, speed);
    }
  }

  lemma TrainingPartUnmarked(tt: TextType, speed: real)
    ensures Unmarked(StartPart(Training, tt, speed)) && StartPart(Training, tt, speed) != []
  {
    StartTextUnmarked();
  }

  /** With additions the start part ends with the spelling of "VVV = "; a
      competition start part first spells five O (five zeros for digits) and
      the rounded speed as text. */
  lemma StartPartSpelling(additions: TextAdditions, tt: TextType, speed: real)
    ensures additions == Training ==> StartPart(additions, tt, speed) == Spelling(StartWords)
    ensures additions == Competitions ==>
      StartPart(additions, tt, speed)
        == Spelling(if tt == Digits then DigitsWords else LettersWords) + Spelling(SpeedText(speed)) + ['/'] + Spelling(StartWords)
  {
    StartTextSpelling();
    if additions == Competitions {
      CompetitionsPart(tt, speed);
      if tt == Digits { DigitsSpelling(); } else { LettersSpelling(); }
      EncodeUnmodified(Announcer, SpeedText(speed));
    }
  }

  lemma CompetitionsPart(tt: TextType, speed: real)
    ensures StartPart(Competitions, tt, speed)
      == (if tt == Digits then CompetitionsDigitsText else CompetitionsLettersText) + SpokenSpeed(speed) + ['/'] + StartText
  {
  }

  lemma SpokenSpeedUnmarked(speed: real)
    ensures Unmarked(SpokenSpeed(speed))
  {
    SpellingUnmarked(SpeedText(speed));
    EncodeUnmodified(Announcer, SpeedText(speed));
  }

  lemma CompetitionsPartUnmarked(tt: TextType, speed: real)
    ensures Unmarked(StartPart(Competitions, tt, speed)) && StartPart(Competitions, tt, speed) != []
  {
    CompetitionsPart(tt, speed);
    if tt == Digits { DigitsUnmarked(); } else { LettersUnmarked(); }
    StartTextUnmarked();
    SpokenSpeedUnmarked(speed);
    UnmarkedJoin(if tt == Digits then CompetitionsDigitsText else CompetitionsLettersText, SpokenSpeed(speed), StartText);
  }

  /** For a speed that rounds to a non-negative number, the announced speed
      decodes back to its decimal digits. */
  lemma SpokenSpeedDecodes(speed: real)
    requires RoundHalfAway(speed) >= 0
    ensures Decode(SpokenSpeed(speed)) == Some(SpeedText(speed))
  {
    var d := SpeedText(speed);
    DecimalValue(SaturateI32(RoundHalfAway(speed)));
    forall i | 0 <= i < |d|
      ensures InTable(d[i])
    {
      DigitInTable(d[i]);
    }
    RoundTrip(Announcer, d);
  }

  /** A session can be composed exactly when the text does not start with a
      space; its symbols are then all table keys, with exactly one profile
      value per speed marker, and it is the start part, the encoded text and,
      with additions, the end signal. */
  lemma ComposeFacts(cfg: Config)
    ensures Compose(cfg).Err? <==> |cfg.text| > 0 && cfg.text[0] == ' '
    ensures Compose(cfg).Ok? ==>
      var plan := Compose(cfg).value;
      && AllSymbols(plan.symbols)
      && Count(plan.symbols, '|') == |plan.profile|
      && plan.speed == StartSpeed(cfg)
      && plan.symbols == StartPart(cfg.additions, cfg.textType, plan.speed)
           + Encode(BodyParams(cfg), cfg.text).value.symbols + EndPart(cfg.additions)
      && plan.profile == Encode(BodyParams(cfg), cfg.text).value.profile
  {
    if Compose(cfg).Ok? {
      var plan := Compose(cfg).value;
      var start := StartPart(cfg.additions, cfg.textType, plan.speed);
      var body := Encode(BodyParams(cfg), cfg.text).value;
      var end := EndPart(cfg.additions);
      StartPartUnmarked(cfg.additions, cfg.textType, plan.speed);
      EndTextUnmarked();
      assert Unmarked(end);
      FramedCounts(start, body.symbols, end);
    }
  }

  /** Without a ramp the player is handed plain Morse: the spelling of the
      announced words (none without additions), then of the text, then the end
      signal, and no speed profile. */
  lemma SessionSpelling(cfg: Config)
    requires cfg.modification == NoModification && (cfg.text == [] || cfg.text[0] != ' ')
    ensures Compose(cfg).Ok? && Compose(cfg).value.profile == [] && Compose(cfg).value.speed == cfg.speed
    ensures cfg.additions == NoAdditions ==> Compose(cfg).value.symbols == Spelling(cfg.text)
    ensures cfg.additions == Training ==>
      Compose(cfg).value.symbols == Spelling(StartWords) + Spelling(cfg.text) + EndText
    ensures cfg.additions == Competitions ==>
      Compose(cfg).value.symbols
        == Spelling(if cfg.textType == Digits then DigitsWords else LettersWords) + Spelling(SpeedText(cfg.speed))
           + ['/'] + Spelling(StartWords) + Spelling(cfg.text) + EndText
  {
    SessionParts(cfg);
    match cfg.additions
    case NoAdditions =>
      EmptyFrame(StartPart(cfg.additions, cfg.textType, cfg.speed), Spelling(cfg.text), EndPart(cfg.additions));
    case Training => TrainingSession(cfg);
    case Competitions => CompetitionsSession(cfg);
  }

  /** Without a ramp the session is the start part, the spelling of the text
      and the end part, with no profile. */
  lemma SessionParts(cfg: Config)
    requires cfg.modification == NoModification && (cfg.text == [] || cfg.text[0] != ' ')
    ensures Compose(cfg).Ok? && Compose(cfg).value.profile == [] && Compose(cfg).value.speed == cfg.speed
    ensures Compose(cfg).value.symbols
      == StartPart(cfg.additions, cfg.textType, cfg.speed) + Spelling(cfg.text) + EndPart(cfg.additions)
  {
    EncodeUnmodified(BodyParams(cfg), cfg.text);
  }

  lemma TrainingSession(cfg: Config)
    requires cfg.modification == NoModification && (cfg.text == [] || cfg.text[0] != ' ')
    requires cfg.additions == Training
    ensures Compose(cfg).Ok?
    ensures Compose(cfg).value.symbols == Spelling(StartWords) + Spelling(cfg.text) + EndText
  {
    SessionParts(cfg);
    StartPartSpelling(cfg.additions, cfg.textType, cfg.speed);
  }

  lemma CompetitionsSession(cfg: Config)
    requires cfg.modification == NoModification && (cfg.text == [] || cfg.text[0] != ' ')
    requires cfg.additions == Competitions
    ensures Compose(cfg).Ok?
    ensures Compose(cfg).value.symbols
      == Spelling(if cfg.textType == Digits then DigitsWords else LettersWords) + Spelling(SpeedText(cfg.speed))
         + ['/'] + Spelling(StartWords) + Spelling(cfg.text) + EndText
  {
    SessionParts(cfg);
    StartPartSpelling(cfg.additions, cfg.textType, cfg.speed);
  }

  lemma EmptyFrame<T>(a: seq<T>, b: seq<T>, c: seq<T>)
    requires a == [] && c == []
    ensures a + b + c == b
  {
  }

  /** A freshly created player (Letters, speed 100, no ramp, Training
      additions, the default table) plays any text that does not open with a
      space, and then spells "VVV = ", the text and the end signal. */
  lemma FreshPlayerPlays(text: seq<char>)
    ensures PlaySession(NewConfig.(text := text)).Ok? <==> !(|text| > 0 && text[0] == ' ')
    ensures !(|text| > 0 && text[0] == ' ') ==>
      Compose(NewConfig.(text := text)).value.symbols == Spelling(StartWords) + Spelling(text) + EndText
  {
    var cfg := NewConfig.(text := text);
    assert Configure([]) == Defaults;
    PlaySessionSucceeds(cfg);
    if !(|text| > 0 && text[0] == ' ') {
      TrainingSession(cfg);
    }
  }

  /** `get_text_duration` without a ramp: a higher set speed never gives a
      longer text, provided no gap has been set to a negative delay. */
  lemma TextDurationAntitone(cfg: Config, speed: real)
    requires WellFormed(cfg.table) && NonNegativeUnits(cfg.table) && cfg.modification == NoModification
    requires cfg.text == [] || cfg.text[0] != ' '
    requires 0.0 < cfg.speed <= speed
    ensures TextDuration(cfg).Ok? && TextDuration(cfg.(speed := speed)).Ok?
    ensures TextDuration(cfg.(speed := speed)).value <= TextDuration(cfg).value
  {
    var body := Encode(BodyParams(cfg), cfg.text).value;
    assert BodyParams(cfg.(speed := speed)) == BodyParams(cfg);
    TimeWithoutMarkers(cfg.textType, cfg.table, cfg.speed, Some(body.profile), body.symbols);
    TimeWithoutMarkers(cfg.textType, cfg.table, speed, Some(body.profile), body.symbols);
    FasterIsShorter(cfg.textType, cfg.table, body.symbols, cfg.speed, speed);
  }

  /** With a ramp, the session starts at the speed the first character is
      played at, so the first speed marker does not change the unit. */
  lemma StartSpeedIsFirstProfileValue(cfg: Config)
    requires cfg.modification != NoModification && |cfg.text| > 0 && cfg.text[0] != ' '
    requires cfg.modification == Zigzag ==> cfg.modificationLen >= 1
    ensures Compose(cfg).Ok?
    ensures |Compose(cfg).value.profile| > 0 && Compose(cfg).value.profile[0] == Compose(cfg).value.speed
  {
    EncodeFirstMarker(BodyParams(cfg), cfg.text);
    ComposeFacts(cfg);
    if cfg.modification == Zigzag {
      ZigzagTurns(cfg.modificationLen, cfg.minSpeed, cfg.maxSpeed);
    }
  }

  /** Over a well-formed table, a session with a non-zero start speed and ramp
      values in `[minSpeed, maxSpeed]` above zero plays exactly when the text
      does not start with a space; its buffers then spell the session and last
      as long as its timing says. */
  lemma PlaySessionSucceeds(cfg: Config)
    requires WellFormed(cfg.table) && StartSpeed(cfg) != 0.0
    requires cfg.modification != NoModification ==>
      && 0.0 < cfg.minSpeed <= cfg.maxSpeed && cfg.modificationLen >= 1
      && (cfg.modification == Zigzag ==> cfg.modificationLen % 2 == 0)
    ensures PlaySession(cfg).Ok? <==> !(|cfg.text| > 0 && cfg.text[0] == ' ')
    ensures PlaySession(cfg).Ok? ==>
      var plan := Compose(cfg).value;
      && ChunksSymbols(PlaySession(cfg).value) == plan.symbols
      && TimeAndTimings(plan.symbols, cfg.textType, plan.speed, Some(plan.profile), cfg.table).Ok?
      && ChunksDuration(PlaySession(cfg).value)
           == TimeAndTimings(plan.symbols, cfg.textType, plan.speed, Some(plan.profile), cfg.table).value.total
  {
    ComposeFacts(cfg);
    if Compose(cfg).Ok? {
      var plan := Compose(cfg).value;
      if cfg.modification != NoModification {
        EncodeProfileInRange(BodyParams(cfg), cfg.text);
      }
      assert NonZero(plan.profile);
      TimeAndTimingsFacts(cfg.textType, cfg.table, plan.speed, Some(plan.profile), plan.symbols);
      PlayFailures(plan.symbols, cfg.textType, plan.speed, plan.profile, cfg.table);
      assert PlaySession(cfg) == Play(plan.symbols, cfg.textType, plan.speed, plan.profile, cfg.table);
      PlayChunks(plan.symbols, cfg.textType, plan.speed, plan.profile, cfg.table);
      PlayDuration(plan.symbols, cfg.textType, plan.speed, plan.profile, cfg.table);
    }
  }

  /** The start callback's delay is measured right: `get_start_part_duration`
      equals the time the playing thread's timing reaches at the end of the
      start part, since the start part has no speed marker. */
  lemma StartCallbackAligned(cfg: Config)
    requires WellFormed(cfg.table) && StartSpeed(cfg) != 0.0 && Compose(cfg).Ok?
    ensures
      var plan := Compose(cfg).value;
      var k := |StartPart(cfg.additions, cfg.textType, plan.speed)|;
      var clk := TimeUpTo(cfg.textType, cfg.table, Some(plan.profile), plan.symbols, k, Start(cfg.textType, plan.speed));
      && clk.Ok?
      && StartPartDuration(cfg) == Ok(clk.value.total)
  {
    ComposeFacts(cfg);
    var plan := Compose(cfg).value;
    var start := StartPart(cfg.additions, cfg.textType, plan.speed);
    var body := Encode(BodyParams(cfg), cfg.text).value.symbols;
    var end := EndPart(cfg.additions);
    StartPartUnmarked(cfg.additions, cfg.textType, plan.speed);
    Associate(start, body, end);
    UnmarkedPrefixTime(cfg.textType, cfg.table, plan.speed, plan.profile, start, body + end);
  }

  /** Timing a string that opens with an unmarked part: the clock at the end
      of that part is the part timed alone without a profile. */
  lemma UnmarkedPrefixTime(tt: TextType, table: Table, speed: real, profile: seq<real>, start: seq<char>, rest: seq<char>)
    requires WellFormed(table) && speed != 0.0 && Unmarked(start)
    ensures
      var clk := TimeUpTo(tt, table, Some(profile), start + rest, |start|, Start(tt, speed));
      && clk.Ok?
      && TimeAndTimings(start, tt, speed, None, table).Ok?
      && TimeAndTimings(start, tt, speed, None, table).value.total == clk.value.total
  {
    var init := Start(tt, speed);
    TimePrefix(tt, table, Some(profile), start, rest, |start|, init);
    forall k | 0 <= k < |start|
      ensures start[k] !in table || table[start[k]].category != SpeedChangeCategory
    {
      assert start[k] in multiset(start);
      CategoriesOfWellFormed(table, start[k]);
    }
    ProfileIrrelevant(tt, table, Some(profile), None, start, |start|, init);
    TimeAndTimingsFacts(tt, table, speed, None, start);
  }

  /** With a ramp, the reported text duration and checkpoints do not depend on
      the set speed: the text opens with a speed marker, which lasts no time
      and replaces the unit. */
  lemma TextTimingIgnoresSetSpeed(cfg: Config, speed: real)
    requires WellFormed(cfg.table) && cfg.modification != NoModification
    requires |cfg.text| > 0 && cfg.text[0] != ' '
    requires cfg.speed != 0.0 && speed != 0.0
    ensures TextDuration(cfg) == TextDuration(cfg.(speed := speed))
    ensures CharTimings(cfg) == CharTimings(cfg.(speed := speed))
  {
    var cfg' := cfg.(speed := speed);
    assert BodyParams(cfg') == BodyParams(cfg);
    EncodeFirstMarker(BodyParams(cfg), cfg.text);
    var body := Encode(BodyParams(cfg), cfg.text).value;
    var tt, table, s := cfg.textType, cfg.table, body.symbols;
    var a, b := Start(tt, cfg.speed), Start(tt, speed);
    CategoriesOfWellFormed(table, '|');
    assert TimeUpTo(tt, table, Some(body.profile), s, 1, a) == Tick(tt, table, Some(body.profile), a, '|');
    assert TimeUpTo(tt, table, Some(body.profile), s, 1, b) == Tick(tt, table, Some(body.profile), b, '|');
    assert Cost(a.unit, 0) == 0.0 == Cost(b.unit, 0);
    TimeAgreement(tt, table, Some(body.profile), s, 1, |s|, a, b);
  }
}
