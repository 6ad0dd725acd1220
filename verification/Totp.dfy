/**
 Time-based one-time codes: which 30-second step a submitted code belongs to.
 The HOTP computation itself is an arbitrary function from steps to codes, so
 nothing here depends on two steps having different codes.
 */
module Totp {
  import opened Text
  import opened Units

  const VALID_WINDOW := 1
  const STEP_SECONDS := 30

  function CurrentStep(now: Time): int {
    now / SECOND / STEP_SECONDS
  }

  predicate InWindow(step: int, nowStep: int) {
    nowStep - VALID_WINDOW <= step <= nowStep + VALID_WINDOW
  }

  predicate Matches(hotp: int -> string, code: string, step: int) {
    IsAscii(Strip(code)) && hotp(step) == Strip(code)
  }

  /** The newest step of the window around `nowStep` whose code was submitted, if any. */
  function MatchedStep(hotp: int -> string, code: string, nowStep: int): (r: Option<int>)
    ensures r.Some? ==> InWindow(r.value, nowStep) && Matches(hotp, code, r.value)
    ensures r.Some? ==> forall step | InWindow(step, nowStep) && Matches(hotp, code, step) :: step <= r.value
    ensures r.None? ==> forall step | InWindow(step, nowStep) :: !Matches(hotp, code, step)
  {
    if Matches(hotp, code, nowStep + 1) then Some(nowStep + 1)
    else if Matches(hotp, code, nowStep) then Some(nowStep)
    else if Matches(hotp, code, nowStep - 1) then Some(nowStep - 1)
    else None
  }

  /**
   The window walk as the program runs it: oldest candidate first, never
   stopping early, each match replacing the one before it.
   */
  method VerifyCodeStep(hotp: int -> string, code: string, now: Time) returns (matched: Option<int>)
    ensures matched == MatchedStep(hotp, code, CurrentStep(now))
    ensures matched.Some? ==> Matches(hotp, code, matched.value) && InWindow(matched.value, CurrentStep(now))
    ensures forall step | InWindow(step, CurrentStep(now)) && Matches(hotp, code, step) ::
              matched.Some? && step <= matched.value
  {
    var submitted := Strip(code);
    var nowStep := CurrentStep(now);
    matched := None;
    if IsAscii(submitted) {
      for offset := -VALID_WINDOW to VALID_WINDOW + 1
        invariant matched.Some? ==> InWindow(matched.value, nowStep) && Matches(hotp, code, matched.value)
        invariant matched.Some? ==> matched.value < nowStep + offset
        invariant forall step | nowStep - VALID_WINDOW <= step < nowStep + offset && Matches(hotp, code, step) ::
            matched.Some? && step <= matched.value
      {
        var step := nowStep + offset;
        if hotp(step) == submitted {
          matched := Some(step);
        }
      }
    }
  }
}
