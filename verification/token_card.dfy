/** The two computations of a token card that are not display formatting:
    the age bucket of its creation time, and the deterministic "progress"
    percentage derived from a hash of its category id. */
module TokenCard {
  import opened JsArith
  import opened TokenStore

  const MinuteMs: int := 60_000
  const DayMs: int := 86_400_000

  /** The label `timeAgo` renders, without the text around the number. */
  datatype Age = JustNow | Minutes(n: int) | Hours(n: int) | Days(n: int)

  lemma FloorOfFloor(x: int)
    ensures (x / MinuteMs) / 60 == x / HourMs
    ensures ((x / MinuteMs) / 60) / 24 == x / DayMs
  {
  }

  /** `timeAgo(ts)` at the instant `now`. The milliseconds elapsed are
      floored to minutes, then hours, then days; a creation time in the
      future reads as just now. */
  function TimeAgo(ts: int, now: int): (r: Age)
    ensures r.JustNow? <==> now - ts < MinuteMs
    ensures r.Minutes? <==> MinuteMs <= now - ts < HourMs
    ensures r.Minutes? ==> 1 <= r.n <= 59 && r.n == (now - ts) / MinuteMs
    ensures r.Hours? <==> HourMs <= now - ts < DayMs
    ensures r.Hours? ==> 1 <= r.n <= 23 && r.n == (now - ts) / HourMs
    ensures r.Days? <==> DayMs <= now - ts
    ensures r.Days? ==> 1 <= r.n && r.n == (now - ts) / DayMs
  {
    var diff := now - ts;
    var mins := diff / MinuteMs;
    FloorOfFloor(diff);
    if mins < 1 then JustNow
    else if mins < 60 then Minutes(mins)
    else
      var hours := mins / 60;
      if hours < 24 then Hours(hours)
      else Days(hours / 24)
  }

  /** The UTF-16 code units of a string, the values `split("")` and
      `charCodeAt` yield: a character outside the Basic Multilingual Plane
      becomes a surrogate pair. */
  function CodeUnits(s: string): (u: seq<int>)
    ensures |u| >= |s|
    ensures forall i :: 0 <= i < |u| ==> 0 <= u[i] < 0x10000
    ensures (forall i :: 0 <= i < |s| ==> (s[i] as int) < 0x10000) ==>
              |u| == |s| && forall i :: 0 <= i < |s| ==> u[i] == s[i] as int
  {
    if |s| == 0 then []
    else
      var cp := s[0] as int;
      var head := if cp < 0x10000 then [cp]
                  else [0xD800 + (cp - 0x10000) / 0x400, 0xDC00 + (cp - 0x10000) % 0x400];
      head + CodeUnits(s[1..])
  }

  /** One step of the fold: `((a << 5) - a + c) | 0`. */
  function HashStep(a: int, c: int): int {
    ToInt32(ShiftLeft(a, 5) - a + c)
  }

  /** The fold over the code units, from the left, starting at 0. */
  function HashCode(units: seq<int>): (h: int)
    ensures -TwoPow31 <= h < TwoPow31
  {
    if |units| == 0 then 0
    else HashStep(HashCode(units[..|units| - 1]), units[|units| - 1])
  }

  /** Each fold step is `31 * a + c` wrapped to a signed 32-bit integer. */
  lemma HashStepIsTimes31Plus(a: int, c: int)
    ensures HashStep(a, c) == ToInt32(31 * a + c)
  {
    assert Pow2(5) == 32;
    ShiftLeftCongruent(a, 5);
    ToInt32Congruent(ShiftLeft(a, 5) - a + c, 31 * a + c);
  }

  /** If `h` is `p` wrapped, one more fold step from either gives the same
      int32. */
  lemma WrapTimes31Plus(h: int, p: int, c: int)
    requires h == ToInt32(p)
    ensures ToInt32(31 * h + c) == ToInt32(31 * p + c)
  {
    MultipleOfTwoPow32(p - h);
    var k := (p - h) / TwoPow32;
    assert (31 * h + c) - (31 * p + c) == TwoPow32 * (-31 * k);
    ProductIsMultipleOfTwoPow32(-31 * k);
    ToInt32Congruent(31 * h + c, 31 * p + c);
  }

  /** The polynomial hash `sum of units[i] * 31^(n-1-i)` over unbounded
      integers (the one Java's `String.hashCode` wraps). */
  function PolyHash(units: seq<int>): int {
    if |units| == 0 then 0 else 31 * PolyHash(units[..|units| - 1]) + units[|units| - 1]
  }

  /** The card's hash is the polynomial hash wrapped once to int32: the
      wrapping in every step does not change the result. */
  lemma {:induction false} HashCodeIsWrappedPolyHash(units: seq<int>)
    ensures HashCode(units) == ToInt32(PolyHash(units))
  {
    if |units| > 0 {
      var pre, c := units[..|units| - 1], units[|units| - 1];
      HashCodeIsWrappedPolyHash(pre);
      var h, p := HashCode(pre), PolyHash(pre);
      assert HashCode(units) == HashStep(h, c);
      assert PolyHash(units) == 31 * p + c;
      HashStepIsTimes31Plus(h, c);
      WrapTimes31Plus(h, p, c);
    }
  }

  /** The progress percentage shown on the card:
      `Math.abs(hashCode % 50) + 5` with a truncated remainder. */
  function Progress(categoryId: string): (p: int)
    ensures 5 <= p <= 54
  {
    Abs(TruncMod(HashCode(CodeUnits(categoryId)), 50)) + 5
  }
}
