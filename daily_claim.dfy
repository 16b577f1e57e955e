/**
 * The daily chips widget: a claim button and a client-side 24-hour
 * countdown driven by a one-second interval. The player dashboard copy and
 * the stand-alone copy of the widget share this logic line for line.
 */
module DailyClaim {

  /** `24 * 60 * 60` */
  const DaySeconds: int := 24 * 60 * 60

  /** The widget's (`isClaimed`, `timeRemaining`) pair. */
  datatype Countdown = Countdown(claimed: bool, remaining: int)

  /** The state on mount: unclaimed, a full day on the clock. */
  const Initial: Countdown := Countdown(false, DaySeconds)

  /** `handleClaim`'s effect on the pair. */
  function Claim(c: Countdown): (r: Countdown)
    ensures r.claimed && r.remaining == c.remaining
  {
    c.(claimed := true)
  }

  /**
   * One firing of the interval. While unclaimed there is no interval, so
   * nothing changes; at zero (or below) the widget unclaims and resets.
   */
  function Tick(c: Countdown): (r: Countdown)
    ensures !c.claimed ==> r == c
    ensures c.claimed && c.remaining > 0 ==> r == Countdown(true, c.remaining - 1)
    ensures c.claimed && c.remaining <= 0 ==> r == Initial
  {
    if !c.claimed then c
    else if c.remaining <= 0 then Countdown(false, DaySeconds)
    else c.(remaining := c.remaining - 1)
  }

  /** The widget's invariant: the clock stays within a day and is full whenever unclaimed. */
  predicate Inv(c: Countdown) {
    && 0 <= c.remaining <= DaySeconds
    && (!c.claimed ==> c.remaining == DaySeconds)
  }

  lemma InvInitial()
    ensures Inv(Initial)
  {
  }

  lemma InvClaim(c: Countdown)
    requires Inv(c)
    ensures Inv(Claim(c))
  {
  }

  lemma InvTick(c: Countdown)
    requires Inv(c)
    ensures Inv(Tick(c))
  {
  }

  /** The state after `n` firings. */
  function Ticks(c: Countdown, n: nat): Countdown {
    if n == 0 then c else Tick(Ticks(c, n - 1))
  }

  /** The invariant survives any number of firings. */
  lemma {:induction false} InvTicks(c: Countdown, n: nat)
    requires Inv(c)
    ensures Inv(Ticks(c, n))
  {
    if n > 0 {
      InvTicks(c, n - 1);
      InvTick(Ticks(c, n - 1));
    }
  }

  /** A claimed clock at `r` counts down one per firing and stays claimed until it reaches zero. */
  lemma {:induction false} CountsDown(r: int, k: nat)
    requires k <= r
    ensures Ticks(Countdown(true, r), k) == Countdown(true, r - k)
  {
    if k > 0 {
      CountsDown(r, k - 1);
    }
  }

  /**
   * From a fresh claim, the first 86,400 firings keep the widget claimed and
   * the 86,401st returns it to its initial, claimable state.
   */
  lemma FullCycle()
    ensures forall k: nat :: k <= DaySeconds ==> Ticks(Claim(Initial), k).claimed
    ensures Ticks(Claim(Initial), DaySeconds + 1) == Initial
  {
    forall k: nat | k <= DaySeconds ensures Ticks(Claim(Initial), k).claimed {
      CountsDown(DaySeconds, k);
    }
    CountsDown(DaySeconds, DaySeconds);
  }

  /** The claim button is disabled exactly while claimed. */
  predicate ClaimDisabled(c: Countdown) {
    c.claimed
  }

  /** Claiming disables the button, and only the reset tick at zero enables it again. */
  lemma ClaimDisablesUntilReset(c: Countdown)
    requires Inv(c)
    ensures ClaimDisabled(Claim(c))
    ensures ClaimDisabled(c) && !ClaimDisabled(Tick(c)) ==> c.remaining == 0
  {
  }

  /** `Math.floor(a / b)` for a positive divisor: Dafny's `/` already floors then. */
  function FloorDiv(a: int, b: int): (q: int)
    requires b > 0
    ensures b * q <= a < b * q + b
  {
    a / b
  }

  /** `Math.trunc(a / b)` for a positive divisor: the quotient rounded toward zero. */
  function TruncDiv(a: int, b: int): (q: int)
    requires b > 0
    ensures a >= 0 ==> b * q <= a < b * q + b
    ensures a < 0 ==> b * q - b < a <= b * q
  {
    if a >= 0 then a / b else -((-a) / b)
  }

  /**
   * JavaScript's `a % b` for a positive divisor: what is left after taking
   * out the truncated quotient, so the remainder takes the sign of `a`.
   */
  function JsRem(a: int, b: int): (r: int)
    requires b > 0
    ensures a == b * TruncDiv(a, b) + r
    ensures a >= 0 ==> 0 <= r < b
    ensures a < 0 ==> -b < r <= 0
  {
    if a >= 0 then a % b else -((-a) % b)
  }

  /** The two numbers `formatTime` prints as `${hours}h ${minutes}m`. */
  datatype HoursMinutes = HoursMinutes(hours: int, minutes: int)

  /** `formatTime`: whole hours, and whole minutes within the hour. */
  function FormatTime(seconds: int): (r: HoursMinutes)
    ensures seconds >= 0 ==> 0 <= r.minutes < 60 && 0 <= r.hours
    ensures seconds >= 0 ==>
      3600 * r.hours + 60 * r.minutes <= seconds < 3600 * r.hours + 60 * r.minutes + 60
  {
    HoursMinutes(FloorDiv(seconds, 3600), FloorDiv(JsRem(seconds, 3600), 60))
  }

  /** Within the widget's invariant the display never exceeds `24h 0m`. */
  lemma FormatWithinDay(c: Countdown)
    requires Inv(c)
    ensures 0 <= FormatTime(c.remaining).hours <= 24
    ensures FormatTime(c.remaining).hours == 24 ==> FormatTime(c.remaining).minutes == 0
  {
  }

  /** The component's state. `showSuccess` is the "Chips Added" banner. */
  class Widget {
    var isClaimed: bool
    var timeRemaining: int
    var showSuccess: bool

    function State(): Countdown
      reads this
    {
      Countdown(isClaimed, timeRemaining)
    }

    ghost predicate Valid()
      reads this
    {
      Inv(State())
    }

    constructor ()
      ensures Valid() && State() == Initial && !showSuccess
    {
      isClaimed := false;
      timeRemaining := DaySeconds;
      showSuccess := false;
    }

    /** `handleClaim`: mark claimed and show the banner (its two-second hide is `HideSuccess`). */
    method HandleClaim()
      requires Valid()
      modifies this
      ensures Valid()
      ensures State() == Claim(old(State())) && showSuccess
    {
      isClaimed := true;
      showSuccess := true;
    }

    /** The `setTimeout` callback that hides the banner. */
    method HideSuccess()
      modifies this`showSuccess
      ensures !showSuccess
    {
      showSuccess := false;
    }

    /** One firing of the `setInterval` callback (none is scheduled while unclaimed). */
    method IntervalTick()
      requires Valid()
      modifies this`isClaimed, this`timeRemaining
      ensures Valid()
      ensures State() == Tick(old(State()))
    {
      if !isClaimed {
        return;
      }
      if timeRemaining <= 0 {
        isClaimed := false;
        timeRemaining := 24 * 60 * 60;
      } else {
        timeRemaining := timeRemaining - 1;
      }
    }
  }
}
