/**
 * The host logic of client/src/pages/Game.tsx that is not rendering: the
 * clock text shown in the HUD, the counters the engine's event callbacks
 * update, and the game-over check of the animation loop.
 */
module GamePage {
  import opened EngineModel

  // ---------------------------------------------------------------- number text

  function DigitChar(d: int): char
    requires 0 <= d < 10
  {
    "0123456789"[d]
  }

  /** `Number.prototype.toString()` of a non-negative integer: decimal, no leading zeros. */
  function Digits(n: nat): (r: string)
    ensures |r| >= 1
    decreases n
  {
    if n < 10 then [DigitChar(n)] else Digits(n / 10) + [DigitChar(n % 10)]
  }

  /** `toString()` of any integer: a '-' before the digits of a negative one. */
  function IntText(n: int): string
  {
    if n < 0 then "-" + Digits(-n) else Digits(n)
  }

  /** `padStart(2, '0')`: zeros on the left up to two characters; longer text is kept whole. */
  function Pad2(s: string): (r: string)
    ensures |r| == if |s| >= 2 then |s| else 2
    ensures r[|r| - |s|..] == s
    ensures forall i :: 0 <= i < |r| - |s| ==> r[i] == '0'
  {
    if |s| >= 2 then s else if |s| == 1 then "0" + s else "00"
  }

  /** The quotient of JavaScript's `%`: `a / b` truncated toward zero. */
  function TruncDiv(a: int, b: int): int
    requires b > 0
  {
    if a >= 0 then a / b else -((-a) / b)
  }

  /** JavaScript's `%`: the remainder takes the sign of the dividend. */
  function JsRem(a: int, b: int): (r: int)
    requires b > 0
    ensures a >= 0 ==> 0 <= r < b
    ensures a < 0 ==> -b < r <= 0
    ensures a == TruncDiv(a, b) * b + r
  {
    if a >= 0 then a % b else -((-a) % b)
  }

  /** `Math.floor(a / b)` for a positive integer divisor (Dafny's `/` floors when `b > 0`). */
  function FloorDiv(a: int, b: int): int
    requires b > 0
  {
    a / b
  }

  /** `formatTime(seconds)`: minutes and seconds, each padded to two digits, joined by ':'. */
  function FormatTime(seconds: int): (r: string)
    ensures |r| >= 5
  {
    Pad2(IntText(FloorDiv(seconds, 60))) + ":" + Pad2(IntText(JsRem(seconds, 60)))
  }

  /** The value of a string of decimal digits (the reader's side of `Digits`). */
  function DigitsValue(s: string): int
  {
    if s == [] then 0 else DigitsValue(s[..|s| - 1]) * 10 + ((s[|s| - 1] as int) - ('0' as int))
  }

  /** Reading back the digits gives the number. */
  lemma {:induction false} DigitsRoundTrip(n: nat)
    decreases n
    ensures DigitsValue(Digits(n)) == n
  {
    if n >= 10 {
      DigitsRoundTrip(n / 10);
      var s := Digits(n);
      assert s[..|s| - 1] == Digits(n / 10);
    }
  }

  /** A number of one, two or three-plus digits. */
  lemma {:induction false} DigitsLength(n: nat)
    decreases n
    ensures n < 10 <==> |Digits(n)| == 1
    ensures n < 100 ==> |Digits(n)| <= 2
    ensures n >= 100 ==> |Digits(n)| >= 3
  {
    if n >= 10 {
      DigitsLength(n / 10);
    }
  }

  /** Leading zeros do not change the value. */
  lemma {:induction false} LeadingZero(s: string)
    decreases |s|
    ensures DigitsValue("0" + s) == DigitsValue(s)
  {
    if s != [] {
      LeadingZero(s[..|s| - 1]);
      assert ("0" + s)[..|"0" + s| - 1] == "0" + s[..|s| - 1];
    } else {
      assert ("0" + s)[..0] == [];
    }
  }

  /** A padded field of a non-negative number reads back as that number; under 100 it is exactly two characters. */
  lemma PaddedRoundTrip(n: nat)
    ensures |Pad2(IntText(n))| >= 2 && DigitsValue(Pad2(IntText(n))) == n
    ensures n < 100 ==> |Pad2(IntText(n))| == 2
  {
    DigitsLength(n);
    DigitsRoundTrip(n);
    if n < 10 {
      LeadingZero(Digits(n));
    }
  }

  /** Whole minutes and the seconds left over, for a non-negative time. */
  lemma MinutesAndSeconds(s: int)
    requires s >= 0
    ensures FloorDiv(s, 60) >= 0 && 0 <= JsRem(s, 60) < 60
    ensures FloorDiv(s, 60) * 60 + JsRem(s, 60) == s
  {
  }

  /**
   * For an elapsed time of `s >= 0` seconds the text is `m:ss`: the part
   * after the colon is exactly two characters, holds a value in 0..59, and
   * minutes times 60 plus seconds gives `s` back.
   */
  lemma FormatTimeReadsBack(s: int)
    requires s >= 0
    ensures var t := FormatTime(s);
            |t| >= 5 && t[|t| - 3] == ':' &&
            0 <= DigitsValue(t[|t| - 2..]) < 60 &&
            DigitsValue(t[..|t| - 3]) * 60 + DigitsValue(t[|t| - 2..]) == s
  {
    MinutesAndSeconds(s);
    ClockReadsBack(FormatTime(s), FloorDiv(s, 60), JsRem(s, 60));
  }

  /** The text `m:ss` of whole minutes and seconds below 60 reads back as both numbers. */
  lemma ClockReadsBack(t: string, m: nat, sec: nat)
    requires sec < 60 && t == Pad2(IntText(m)) + ":" + Pad2(IntText(sec))
    ensures |t| >= 5 && t[|t| - 3] == ':' && DigitsValue(t[|t| - 2..]) == sec && DigitsValue(t[..|t| - 3]) == m
  {
    PaddedRoundTrip(m);
    PaddedRoundTrip(sec);
    SplitAtColon(Pad2(IntText(m)), Pad2(IntText(sec)));
  }

  /** The two fields around the colon of `mm:ss` when the seconds field has two characters. */
  lemma SplitAtColon(mm: string, ss: string)
    requires |ss| == 2
    ensures var t := mm + ":" + ss;
            |t| == |mm| + 3 && t[..|t| - 3] == mm && t[|t| - 2..] == ss && t[|t| - 3] == ':'
  {
    var t := mm + ":" + ss;
    assert t[..|t| - 3] == mm;
    assert t[|t| - 2..] == ss;
  }

  /** Minutes are never cut to two digits: from 100 minutes on, the text has more than five characters. */
  lemma LongGamesWiden(s: int)
    requires s >= 6000
    ensures |FormatTime(s)| >= 6
  {
    DigitsLength(FloorDiv(s, 60));
    DigitsLength(JsRem(s, 60));
  }

  /**
   * A negative time (a clock set back) keeps its sign in both fields:
   * `-s` for `s` in 1..9 reads "-1:-s", not a padded "-1:0s" or "00:00".
   */
  lemma NegativeTimeText(s: int)
    requires -10 < s < 0
    ensures FormatTime(s) == "-1:-" + [DigitChar(-s)]
  {
    NegativeMinutesField(s);
    NegativeSecondsField(s);
    JoinedClock(FormatTime(s), Pad2(IntText(FloorDiv(s, 60))), Pad2(IntText(JsRem(s, 60))), DigitChar(-s));
  }

  /** Less than a minute before zero, the minutes field is "-1". */
  lemma NegativeMinutesField(s: int)
    requires -10 < s < 0
    ensures Pad2(IntText(FloorDiv(s, 60))) == "-1"
  {
    assert FloorDiv(s, 60) == -1;
    assert Digits(1) == "1";
  }

  /** The seconds field of a negative time is its own sign and digit, unpadded. */
  lemma NegativeSecondsField(s: int)
    requires -10 < s < 0
    ensures Pad2(IntText(JsRem(s, 60))) == "-" + [DigitChar(-s)]
  {
    assert JsRem(s, 60) == s by {
      assert -((-s) % 60) == s;
    }
    NegativeDigitText(s);
  }

  /** A one-digit negative number is written as '-' and its digit, which `padStart(2, '0')` keeps. */
  lemma NegativeDigitText(n: int)
    requires -10 < n < 0
    ensures Pad2(IntText(n)) == "-" + [DigitChar(-n)]
  {
    assert Digits(-n) == [DigitChar(-n)];
    assert |IntText(n)| == 2;
  }

  /** The clock text `-1:-c` assembled from its two fields. */
  lemma JoinedClock(t: string, mm: string, ss: string, c: char)
    requires t == mm + ":" + ss && mm == "-1" && ss == "-" + [c]
    ensures t == "-1:-" + [c]
  {
  }

  // ---------------------------------------------------------------- counters

  /** The page's HUD state that the callbacks and the loop update. */
  datatype Hud = Hud(score: real, coins: int, lives: int, levelCompleted: bool, completionTime: int, isGameOver: bool)

  /**
   * The four callbacks given to the engine: a coin adds one coin and its
   * value to the score, a hit takes a life, a power-up adds 50 points, and
   * reaching the goal marks the level complete with the whole seconds
   * elapsed (`elapsed`, from the page's clock).
   */
  function Reacted(h: Hud, e: Event, elapsed: int): (r: Hud)
    ensures e.CoinCollected? ==> r == h.(coins := h.coins + 1, score := h.score + e.value)
    ensures e.EnemyHit? ==> r == h.(lives := h.lives - 1)
    ensures e.PowerUpCollected? ==> r == h.(score := h.score + 50.0)
    ensures e.LevelComplete? ==> r == h.(levelCompleted := true, completionTime := elapsed)
    ensures r.isGameOver == h.isGameOver
  {
    match e
    case CoinCollected(value) => h.(coins := h.coins + 1, score := h.score + value)
    case EnemyHit => h.(lives := h.lives - 1)
    case PowerUpCollected => h.(score := h.score + 50.0)
    case LevelComplete => h.(levelCompleted := true, completionTime := elapsed)
  }

  /** The callbacks run once per event, in the order the engine raised them. */
  function ReactedAll(h: Hud, evs: seq<Event>, elapsed: int): Hud
  {
    if evs == [] then h else Reacted(ReactedAll(h, evs[..|evs| - 1], elapsed), evs[|evs| - 1], elapsed)
  }

  function HitCount(evs: seq<Event>): nat
  {
    if evs == [] then 0 else HitCount(evs[..|evs| - 1]) + (if evs[|evs| - 1].EnemyHit? then 1 else 0)
  }

  /** The HUD counts exactly the coins and hits the engine reported, and the callbacks never end the game. */
  lemma {:induction false} ReactedCounts(h: Hud, evs: seq<Event>, elapsed: int)
    decreases |evs|
    ensures var r := ReactedAll(h, evs, elapsed);
            r.coins == h.coins + CoinCount(evs) && r.lives == h.lives - HitCount(evs) &&
            r.isGameOver == h.isGameOver
  {
    if evs != [] {
      ReactedCounts(h, evs[..|evs| - 1], elapsed);
    }
  }

  /** After one engine tick the HUD's coins rise by exactly the number of coins that left the level. */
  lemma HudCoinsMatchLevel(h: Hud, w: World, dt: real, elapsed: int)
    ensures ReactedAll(h, Tick(w, dt).events, elapsed).coins + |Tick(w, dt).world.coins| == h.coins + |w.coins|
  {
    ReactedCounts(h, Tick(w, dt).events, elapsed);
    TickCollectsEachCoinOnce(w, dt);
  }

  /** The loop's check: a running, unpaused frame that sees no lives left flags game over. */
  function GameOverChecked(h: Hud, running: bool): (r: Hud)
    ensures r.isGameOver <==> h.isGameOver || (running && h.lives <= 0)
    ensures r.(isGameOver := h.isGameOver) == h
  {
    if running && h.lives <= 0 && !h.isGameOver then h.(isGameOver := true) else h
  }

  /** Game over is final, and enough hits to use up the lives end the game at the next running frame. */
  lemma HitsEndTheGame(h: Hud, evs: seq<Event>, elapsed: int)
    requires HitCount(evs) >= h.lives
    ensures GameOverChecked(ReactedAll(h, evs, elapsed), true).isGameOver
    ensures h.isGameOver ==> GameOverChecked(ReactedAll(h, evs, elapsed), false).isGameOver
  {
    ReactedCounts(h, evs, elapsed);
  }
}
