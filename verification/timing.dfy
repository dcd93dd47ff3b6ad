/** `get_speed_from_text_type` and `get_time_and_timings`: the length of a
    unit at a speed, and the running total and checkpoint list over a symbol
    string. */
module Timing {
  import opened Results
  import opened Settings
  import opened Actions

  /** Seconds per unit at the base pace (speed 100) of each text type. */
  function BaseUnit(tt: TextType): (u: real)
    ensures u > 0.0
  {
    match tt
    case Letters => 0.05
    case Digits => 0.034
    case Mixed => 0.042
  }

  /** `get_speed_from_text_type`: one unit lasts inversely proportionally to
      the speed, and exactly the base unit at speed 100. */
  function UnitSeconds(tt: TextType, speed: real): (u: real)
    requires speed != 0.0
    ensures u * speed == BaseUnit(tt) * 100.0
    ensures speed > 0.0 ==> u > 0.0
  {
    BaseUnit(tt) * 100.0 / speed
  }

  /** A faster speed never lengthens the unit; speed 100 gives the base unit. */
  lemma UnitSecondsAntitone(tt: TextType, s1: real, s2: real)
    requires 0.0 < s1 <= s2
    ensures UnitSeconds(tt, s2) <= UnitSeconds(tt, s1)
    ensures UnitSeconds(tt, 100.0) == BaseUnit(tt)
  {
    var u1, u2 := UnitSeconds(tt, s1), UnitSeconds(tt, s2);
    assert (u1 - u2) * s2 == u1 * (s2 - s1);
    assert u1 * (s2 - s1) >= 0.0;
  }

  /** `Duration::from_millis((seconds * 1000.0) as u64)`: whole milliseconds,
      rounded toward zero, with a time at or below zero saturating at 0. */
  function Millis(seconds: real): (ms: nat)
    ensures seconds > 0.0 ==> ms as real <= seconds * 1000.0 < ms as real + 1.0
    ensures seconds <= 0.0 ==> ms == 0
  {
    if seconds <= 0.0 then 0 else TruncToInt(seconds * 1000.0)
  }

  lemma MillisMonotone(a: real, b: real)
    requires a <= b
    ensures Millis(a) <= Millis(b)
  {
    if a > 0.0 {
      assert Millis(a) as real < Millis(b) as real + 1.0;
    }
  }

  /** The loop state: running total in seconds, current unit, markers consumed
      so far, and checkpoints in milliseconds. */
  datatype Clock = Clock(total: real, unit: real, used: nat, checkpoints: seq<nat>)

  /** One symbol of the timing loop: add its duration at the current unit;
      a speed-change symbol then switches to the next profile speed; a gap
      records a checkpoint. */
  function Tick(tt: TextType, table: Table, profile: Option<seq<real>>, clk: Clock, sym: char): Result<Clock> {
    if sym !in table then Err(MissingAction(sym))
    else
      var total := clk.total + Cost(clk.unit, table[sym].units);
      var cps := clk.checkpoints + (if sym == '$' || sym == '/' then [Millis(total)] else []);
      if table[sym].category != SpeedChangeCategory then Ok(Clock(total, clk.unit, clk.used, cps))
      else if profile.None? then Err(MissingProfile)
      else if clk.used >= |profile.value| then Err(ProfileExhausted)
      else if profile.value[clk.used] == 0.0 then Err(ZeroSpeed)
      else Ok(Clock(total, UnitSeconds(tt, profile.value[clk.used]), clk.used + 1, cps))
  }

  /** The loop state after the first `n` symbols of `s`. */
  function TimeUpTo(tt: TextType, table: Table, profile: Option<seq<real>>, s: seq<char>, n: nat, init: Clock): Result<Clock>
    requires n <= |s|
  {
    if n == 0 then Ok(init)
    else
      var clk :- TimeUpTo(tt, table, profile, s, n - 1, init);
      Tick(tt, table, profile, clk, s[n - 1])
  }

  /** The duration of `units` units of `unit` seconds each. */
  function Cost(unit: real, units: int): real {
    unit * units as real
  }

  /** A non-negative number of units never costs less at a longer unit, and
      never costs a negative time at a non-negative unit. */
  lemma CostMonotone(u1: real, u2: real, units: int)
    requires 0.0 <= u1 <= u2 && units >= 0
    ensures 0.0 <= Cost(u1, units) <= Cost(u2, units)
  {
    assert Cost(u2, units) - Cost(u1, units) == (u2 - u1) * units as real;
  }

  predicate Sorted(xs: seq<nat>) {
    forall i, j :: 0 <= i <= j < |xs| ==> xs[i] <= xs[j]
  }

  lemma AppendSorted(xs: seq<nat>, x: nat)
    requires Sorted(xs) && |xs| > 0 && xs[|xs| - 1] <= x
    ensures Sorted(xs + [x])
  {
  }

  /** The state before the first symbol: nothing elapsed, one checkpoint at 0. */
  function Start(tt: TextType, speed: real): Clock
    requires speed != 0.0
  {
    Clock(0.0, UnitSeconds(tt, speed), 0, [0])
  }

  datatype Timings = Timings(total: real, checkpoints: seq<nat>)

  /** `get_time_and_timings`. */
  function TimeAndTimings(s: seq<char>, tt: TextType, speed: real, profile: Option<seq<real>>, table: Table): Result<Timings> {
    if speed == 0.0 then Err(ZeroSpeed)
    else
      var clk :- TimeUpTo(tt, table, profile, s, |s|, Start(tt, speed));
      Ok(Timings(clk.total, clk.checkpoints))
  }

  // ---- Reference definitions ----

  function ProfileOf(profile: Option<seq<real>>): seq<real> {
    if profile.Some? then profile.value else []
  }

  predicate NonZero(ps: seq<real>) {
    forall i :: 0 <= i < |ps| ==> ps[i] != 0.0
  }

  predicate Positive(ps: seq<real>) {
    forall i :: 0 <= i < |ps| ==> ps[i] > 0.0
  }

  predicate NonNegativeUnits(table: Table) {
    forall c :: c in table ==> table[c].units >= 0
  }

  function UnitsOf(table: Table, c: char): int {
    if c in table then table[c].units else 0
  }

  function UnitFor(tt: TextType, v: real): real {
    if v == 0.0 then 0.0 else UnitSeconds(tt, v)
  }

  /** The unit in force after `j` markers: the initial speed's before any
      marker, then each profile speed's in turn. */
  function UnitsInForce(tt: TextType, speed: real, ps: seq<real>): (us: seq<real>)
    ensures |us| == |ps| + 1
    ensures us[0] == UnitFor(tt, speed)
    ensures forall j :: 0 < j < |us| ==> us[j] == UnitFor(tt, ps[j - 1])
  {
    [UnitFor(tt, speed)] + seq(|ps|, i requires 0 <= i < |ps| => UnitFor(tt, ps[i]))
  }

  function UnitAt(us: seq<real>, j: nat): real {
    if j < |us| then us[j] else 0.0
  }

  /** Occurrences of `x` among the first `k` symbols. */
  function CountUpTo(s: seq<char>, k: nat, x: char): nat
    requires k <= |s|
  {
    if k == 0 then 0 else CountUpTo(s, k - 1, x) + if s[k - 1] == x then 1 else 0
  }

  /** Character and word gaps among the first `k` symbols. */
  function GapsUpTo(s: seq<char>, k: nat): nat
    requires k <= |s|
  {
    CountUpTo(s, k, '$') + CountUpTo(s, k, '/')
  }

  /** The first `k` symbols, each priced at the unit in force after the
      markers before it. */
  function Priced(table: Table, us: seq<real>, s: seq<char>, k: nat): real
    requires k <= |s|
  {
    if k == 0 then 0.0
    else Priced(table, us, s, k - 1) + Cost(UnitAt(us, CountUpTo(s, k - 1, '|')), UnitsOf(table, s[k - 1]))
  }

  /** Sum of the units of the first `k` symbols. */
  function UnitsUpTo(table: Table, s: seq<char>, k: nat): int
    requires k <= |s|
  {
    if k == 0 then 0 else UnitsUpTo(table, s, k - 1) + UnitsOf(table, s[k - 1])
  }

  // ---- Lemmas ----

  lemma {:induction false} CountUpToIsCount(s: seq<char>, k: nat, x: char)
    requires k <= |s|
    ensures CountUpTo(s, k, x) == Count(s[..k], x)
  {
    if k == 0 {
      assert s[..k] == [];
    } else {
      CountUpToIsCount(s, k - 1, x);
      assert s[..k] == s[..k - 1] + [s[k - 1]];
    }
  }

  lemma CountUpToWhole(s: seq<char>, x: char)
    ensures CountUpTo(s, |s|, x) == Count(s, x)
  {
    CountUpToIsCount(s, |s|, x);
    assert s[..|s|] == s;
  }

  lemma {:induction false} CountUpToMonotone(s: seq<char>, j: nat, k: nat, x: char)
    requires j <= k <= |s|
    ensures CountUpTo(s, j, x) <= CountUpTo(s, k, x)
    decreases k
  {
    if j < k {
      CountUpToMonotone(s, j, k - 1, x);
    }
  }

  /** One symbol over a well-formed table: it fails exactly on a symbol outside
      the alphabet or a marker with no profile speed left; otherwise it adds
      the symbol's units at the current unit, a marker switches to the next
      profile speed, and a gap appends a checkpoint. */
  lemma TickFacts(tt: TextType, table: Table, profile: Option<seq<real>>, clk: Clock, c: char)
    requires WellFormed(table) && NonZero(ProfileOf(profile))
    ensures Tick(tt, table, profile, clk, c).Ok? <==> c in Alphabet && (c == '|' ==> clk.used < |ProfileOf(profile)|)
    ensures
      var r := Tick(tt, table, profile, clk, c);
      r.Ok? ==>
        && r.value.total == clk.total + Cost(clk.unit, UnitsOf(table, c))
        && r.value.used == clk.used + (if c == '|' then 1 else 0)
        && r.value.unit == (if c == '|' then UnitFor(tt, ProfileOf(profile)[clk.used]) else clk.unit)
        && r.value.checkpoints == clk.checkpoints + (if c == '$' || c == '/' then [Millis(r.value.total)] else [])
  {
    if c in table {
      CategoriesOfWellFormed(table, c);
    }
  }

  /** A successful step adds the symbol's units at the current unit, whatever
      the table and profile. */
  lemma TickTotal(tt: TextType, table: Table, profile: Option<seq<real>>, clk: Clock, c: char)
    requires Tick(tt, table, profile, clk, c).Ok?
    ensures Tick(tt, table, profile, clk, c).value.total == clk.total + Cost(clk.unit, UnitsOf(table, c))
  {
  }

  /** Over a well-formed table, the loop succeeds on a prefix exactly when every
      symbol is in the alphabet and the profile has a speed for every marker,
      and it has then used one profile speed per marker. */
  lemma {:induction false} TimeSucceeds(tt: TextType, table: Table, speed: real, profile: Option<seq<real>>, s: seq<char>, n: nat)
    requires WellFormed(table) && speed != 0.0 && NonZero(ProfileOf(profile)) && n <= |s|
    ensures TimeUpTo(tt, table, profile, s, n, Start(tt, speed)).Ok?
        <==> (forall k :: 0 <= k < n ==> s[k] in Alphabet) && CountUpTo(s, n, '|') <= |ProfileOf(profile)|
    ensures TimeUpTo(tt, table, profile, s, n, Start(tt, speed)).Ok? ==>
      TimeUpTo(tt, table, profile, s, n, Start(tt, speed)).value.used == CountUpTo(s, n, '|')
  {
    if n > 0 {
      TimeSucceeds(tt, table, speed, profile, s, n - 1);
      var prev := TimeUpTo(tt, table, profile, s, n - 1, Start(tt, speed));
      if prev.Ok? {
        TickFacts(tt, table, profile, prev.value, s[n - 1]);
      }
    }
  }

  /** A total that advances by the same amount as the priced sum stays equal to it. */
  /** On success, the loop's unit is the one in force after the markers so far. */
  lemma {:induction false} TimeUnit(tt: TextType, table: Table, speed: real, profile: Option<seq<real>>, s: seq<char>, n: nat)
    requires WellFormed(table) && speed != 0.0 && NonZero(ProfileOf(profile)) && n <= |s|
    requires TimeUpTo(tt, table, profile, s, n, Start(tt, speed)).Ok?
    ensures TimeUpTo(tt, table, profile, s, n, Start(tt, speed)).value.unit
         == UnitAt(UnitsInForce(tt, speed, ProfileOf(profile)), CountUpTo(s, n, '|'))
  {
    if n > 0 {
      var prev := TimeUpTo(tt, table, profile, s, n - 1, Start(tt, speed));
      assert prev.Ok?;
      TimeUnit(tt, table, speed, profile, s, n - 1);
      TimeSucceeds(tt, table, speed, profile, s, n - 1);
      TickFacts(tt, table, profile, prev.value, s[n - 1]);
    }
  }

  /** On success, the loop's total is the priced sum. */
  lemma {:induction false} TimeTotal(tt: TextType, table: Table, speed: real, profile: Option<seq<real>>, s: seq<char>, n: nat)
    requires WellFormed(table) && speed != 0.0 && NonZero(ProfileOf(profile)) && n <= |s|
    requires TimeUpTo(tt, table, profile, s, n, Start(tt, speed)).Ok?
    ensures TimeUpTo(tt, table, profile, s, n, Start(tt, speed)).value.total
         == Priced(table, UnitsInForce(tt, speed, ProfileOf(profile)), s, n)
  {
    if n > 0 {
      var us := UnitsInForce(tt, speed, ProfileOf(profile));
      var prev := TimeUpTo(tt, table, profile, s, n - 1, Start(tt, speed));
      assert prev.Ok?;
      TimeTotal(tt, table, speed, profile, s, n - 1);
      TimeUnit(tt, table, speed, profile, s, n - 1);
      var p := prev.value;
      var c := s[n - 1];
      TickFacts(tt, table, profile, p, c);
    }
  }

  /** On success, the loop holds one checkpoint per gap after the initial 0. */
  lemma {:induction false} TimeCheckpointCount(tt: TextType, table: Table, speed: real, profile: Option<seq<real>>, s: seq<char>, n: nat)
    requires WellFormed(table) && speed != 0.0 && NonZero(ProfileOf(profile)) && n <= |s|
    requires TimeUpTo(tt, table, profile, s, n, Start(tt, speed)).Ok?
    ensures |TimeUpTo(tt, table, profile, s, n, Start(tt, speed)).value.checkpoints| == 1 + GapsUpTo(s, n)
    ensures TimeUpTo(tt, table, profile, s, n, Start(tt, speed)).value.checkpoints[0] == 0
  {
    if n > 0 {
      var prev := TimeUpTo(tt, table, profile, s, n - 1, Start(tt, speed));
      assert prev.Ok?;
      TimeCheckpointCount(tt, table, speed, profile, s, n - 1);
      TickFacts(tt, table, profile, prev.value, s[n - 1]);
    }
  }

  /** Checkpoint `g + 1` is the priced time at the end of the `g`-th gap, in
      milliseconds. */
  lemma {:induction false} CheckpointsAreGapEnds(tt: TextType, table: Table, speed: real, profile: Option<seq<real>>, s: seq<char>, n: nat)
    requires WellFormed(table) && speed != 0.0 && NonZero(ProfileOf(profile)) && n <= |s|
    requires TimeUpTo(tt, table, profile, s, n, Start(tt, speed)).Ok?
    ensures
      var cps := TimeUpTo(tt, table, profile, s, n, Start(tt, speed)).value.checkpoints;
      var us := UnitsInForce(tt, speed, ProfileOf(profile));
      forall k :: 0 <= k < n && (s[k] == '$' || s[k] == '/') ==>
        GapsUpTo(s, k) + 1 < |cps| && cps[GapsUpTo(s, k) + 1] == Millis(Priced(table, us, s, k + 1))
  {
    if n > 0 {
      var prev := TimeUpTo(tt, table, profile, s, n - 1, Start(tt, speed));
      assert prev.Ok?;
      CheckpointsAreGapEnds(tt, table, speed, profile, s, n - 1);
      TimeTotal(tt, table, speed, profile, s, n);
      TimeCheckpointCount(tt, table, speed, profile, s, n - 1);
      TickFacts(tt, table, profile, prev.value, s[n - 1]);
      var cur := TimeUpTo(tt, table, profile, s, n, Start(tt, speed)).value;
      assert prev.value.checkpoints <= cur.checkpoints;
    }
  }

  /** A clock whose time has not run backwards: checkpoints in order, none
      past the total, and a positive unit. */
  predicate Orderly(clk: Clock) {
    && clk.total >= 0.0 && clk.unit > 0.0 && |clk.checkpoints| > 0
    && Sorted(clk.checkpoints)
    && clk.checkpoints[|clk.checkpoints| - 1] <= Millis(clk.total)
  }

  lemma TickOrderly(tt: TextType, table: Table, profile: Option<seq<real>>, clk: Clock, c: char)
    requires WellFormed(table) && NonNegativeUnits(table) && Positive(ProfileOf(profile))
    requires Orderly(clk) && Tick(tt, table, profile, clk, c).Ok?
    ensures Orderly(Tick(tt, table, profile, clk, c).value)
  {
    TickFacts(tt, table, profile, clk, c);
    var step := Cost(clk.unit, UnitsOf(table, c));
    CostMonotone(0.0, clk.unit, UnitsOf(table, c));
    MillisMonotone(clk.total, clk.total + step);
    if c == '$' || c == '/' {
      AppendSorted(clk.checkpoints, Millis(clk.total + step));
    }
  }

  /** At positive speeds over a table of non-negative durations, the total never
      falls and the checkpoints never decrease. */
  lemma {:induction false} CheckpointsSorted(tt: TextType, table: Table, speed: real, profile: Option<seq<real>>, s: seq<char>, n: nat)
    requires WellFormed(table) && NonNegativeUnits(table) && speed > 0.0 && Positive(ProfileOf(profile)) && n <= |s|
    requires TimeUpTo(tt, table, profile, s, n, Start(tt, speed)).Ok?
    ensures
      var r := TimeUpTo(tt, table, profile, s, n, Start(tt, speed)).value;
      && r.total >= 0.0 && r.unit > 0.0 && |r.checkpoints| > 0
      && Sorted(r.checkpoints)
      && r.checkpoints[|r.checkpoints| - 1] <= Millis(r.total)
  {
    if n > 0 {
      var prev := TimeUpTo(tt, table, profile, s, n - 1, Start(tt, speed));
      assert prev.Ok?;
      CheckpointsSorted(tt, table, speed, profile, s, n - 1);
      TickOrderly(tt, table, profile, prev.value, s[n - 1]);
    }
  }

  /** Before the first marker every symbol is priced at the initial unit. */
  lemma {:induction false} PricedWithoutMarkers(table: Table, us: seq<real>, s: seq<char>, n: nat)
    requires n <= |s| && CountUpTo(s, n, '|') == 0
    ensures Priced(table, us, s, n) == Cost(UnitAt(us, 0), UnitsUpTo(table, s, n))
  {
    if n > 0 {
      PricedWithoutMarkers(table, us, s, n - 1);
      Combine(Priced(table, us, s, n), Priced(table, us, s, n - 1), UnitAt(us, 0),
              UnitsUpTo(table, s, n - 1), UnitsOf(table, s[n - 1]), UnitsUpTo(table, s, n));
    }
  }

  /** One step of a running total at a fixed unit. */
  lemma Combine(total: real, before: real, u: real, a: int, b: int, sum: int)
    requires before == Cost(u, a) && total == before + Cost(u, b) && sum == a + b
    ensures total == Cost(u, sum)
  {
  }

  lemma {:induction false} UnitsUpToNonNegative(table: Table, s: seq<char>, n: nat)
    requires NonNegativeUnits(table) && n <= |s|
    ensures UnitsUpTo(table, s, n) >= 0
  {
    if n > 0 {
      UnitsUpToNonNegative(table, s, n - 1);
    }
  }

  /** Without speed markers the loop does not touch the profile at all. */
  lemma {:induction false} ProfileIrrelevant(tt: TextType, table: Table, p1: Option<seq<real>>, p2: Option<seq<real>>, s: seq<char>, n: nat, init: Clock)
    requires n <= |s|
    requires forall k :: 0 <= k < n ==> s[k] !in table || table[s[k]].category != SpeedChangeCategory
    ensures TimeUpTo(tt, table, p1, s, n, init) == TimeUpTo(tt, table, p2, s, n, init)
  {
    if n > 0 {
      ProfileIrrelevant(tt, table, p1, p2, s, n - 1, init);
    }
  }

  /** Over a well-formed table with non-zero profile speeds, `get_time_and_timings`
      succeeds exactly when every symbol is in the alphabet and the profile has a
      speed for every marker; the total is then the priced sum, and the
      checkpoints are 0 followed by one entry per gap. */
  lemma TimeAndTimingsFacts(tt: TextType, table: Table, speed: real, profile: Option<seq<real>>, s: seq<char>)
    requires WellFormed(table) && speed != 0.0 && NonZero(ProfileOf(profile))
    ensures TimeAndTimings(s, tt, speed, profile, table).Ok?
        <==> AllSymbols(s) && Count(s, '|') <= |ProfileOf(profile)|
    ensures
      var r := TimeAndTimings(s, tt, speed, profile, table);
      r.Ok? ==>
        && r.value.total == Priced(table, UnitsInForce(tt, speed, ProfileOf(profile)), s, |s|)
        && |r.value.checkpoints| == 1 + Count(s, '$') + Count(s, '/')
        && r.value.checkpoints[0] == 0
  {
    TimeSucceeds(tt, table, speed, profile, s, |s|);
    if TimeUpTo(tt, table, profile, s, |s|, Start(tt, speed)).Ok? {
      TimeTotal(tt, table, speed, profile, s, |s|);
      TimeCheckpointCount(tt, table, speed, profile, s, |s|);
    }
    CountUpToWhole(s, '|');
    CountUpToWhole(s, '$');
    CountUpToWhole(s, '/');
  }

  /** For a string without speed markers over a well-formed table the total is
      the unit at the given speed times the sum of the symbols' units, and the
      profile argument makes no difference. */
  lemma TimeWithoutMarkers(tt: TextType, table: Table, speed: real, profile: Option<seq<real>>, s: seq<char>)
    requires WellFormed(table) && speed != 0.0 && AllSymbols(s) && Count(s, '|') == 0
    ensures TimeAndTimings(s, tt, speed, profile, table).Ok?
    ensures TimeAndTimings(s, tt, speed, profile, table).value.total == Cost(UnitSeconds(tt, speed), UnitsUpTo(table, s, |s|))
    ensures TimeAndTimings(s, tt, speed, profile, table) == TimeAndTimings(s, tt, speed, None, table)
  {
    CountUpToWhole(s, '|');
    forall k | 0 <= k < |s|
      ensures s[k] !in table || table[s[k]].category != SpeedChangeCategory
    {
      CountUpToMonotone(s, k + 1, |s|, '|');
    }
    ProfileIrrelevant(tt, table, profile, None, s, |s|, Start(tt, speed));
    TimeSucceeds(tt, table, speed, None, s, |s|);
    TimeTotal(tt, table, speed, None, s, |s|);
    PricedWithoutMarkers(table, UnitsInForce(tt, speed, []), s, |s|);
  }

  /** Without speed markers and with non-negative durations, playing faster
      never takes longer. */
  lemma FasterIsShorter(tt: TextType, table: Table, s: seq<char>, s1: real, s2: real)
    requires WellFormed(table) && NonNegativeUnits(table) && AllSymbols(s) && Count(s, '|') == 0
    requires 0.0 < s1 <= s2
    ensures TimeAndTimings(s, tt, s1, None, table).Ok? && TimeAndTimings(s, tt, s2, None, table).Ok?
    ensures TimeAndTimings(s, tt, s2, None, table).value.total <= TimeAndTimings(s, tt, s1, None, table).value.total
  {
    TimeWithoutMarkers(tt, table, s1, None, s);
    TimeWithoutMarkers(tt, table, s2, None, s);
    UnitSecondsAntitone(tt, s1, s2);
    UnitsUpToNonNegative(table, s, |s|);
    CostMonotone(UnitSeconds(tt, s2), UnitSeconds(tt, s1), UnitsUpTo(table, s, |s|));
  }

  /** The state after `n` symbols depends on nothing past them. */
  lemma {:induction false} TimePrefix(tt: TextType, table: Table, profile: Option<seq<real>>, s: seq<char>, t: seq<char>, n: nat, init: Clock)
    requires n <= |s|
    ensures TimeUpTo(tt, table, profile, s + t, n, init) == TimeUpTo(tt, table, profile, s, n, init)
  {
    if n > 0 {
      TimePrefix(tt, table, profile, s, t, n - 1, init);
      assert (s + t)[n - 1] == s[n - 1];
    }
  }

  /** Two runs that agree after `m` symbols agree from then on. */
  lemma {:induction false} TimeAgreement(tt: TextType, table: Table, profile: Option<seq<real>>, s: seq<char>, m: nat, n: nat, a: Clock, b: Clock)
    requires m <= n <= |s|
    requires TimeUpTo(tt, table, profile, s, m, a) == TimeUpTo(tt, table, profile, s, m, b)
    ensures TimeUpTo(tt, table, profile, s, n, a) == TimeUpTo(tt, table, profile, s, n, b)
    decreases n
  {
    if n > m {
      TimeAgreement(tt, table, profile, s, m, n - 1, a, b);
    }
  }
}
