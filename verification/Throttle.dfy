/**
 Login throttling for one (email, IP) pair: a Redis counter of recorded failures
 that expires 900 seconds after the last of them. Policy is written in attempt
 numbers, one more than the failures already recorded. Requests come one at a
 time; between them any amount of time may pass.
 */
module Throttle {
  import opened Text
  import opened Units

  const FREE_ATTEMPTS := 3
  const MAX_DELAY_SECONDS := 8
  const LOCKOUT_AT_ATTEMPT := 10
  const LOCKOUT_SECONDS := 900

  /** Seconds to wait before the given attempt. */
  function DelayFor(attempt: nat): nat {
    if attempt <= FREE_ATTEMPTS then 0
    else if Power(attempt - FREE_ATTEMPTS - 1) < MAX_DELAY_SECONDS then Power(attempt - FREE_ATTEMPTS - 1)
    else MAX_DELAY_SECONDS
  }

  /** The delays before attempts 1 to n, added up. */
  function DelaysUpTo(n: nat): nat {
    if n == 0 then 0 else DelaysUpTo(n - 1) + DelayFor(n)
  }

  /** The documented schedule: attempt 4 waits 1 second, 5 waits 2, 6 waits 4, and every later one 8. */
  function Schedule(attempt: nat): nat {
    match attempt
    case 0 => 0
    case 1 => 0
    case 2 => 0
    case 3 => 0
    case 4 => 1
    case 5 => 2
    case 6 => 4
    case _ => 8
  }

  lemma DelaysFollowSchedule(attempt: nat)
    ensures DelayFor(attempt) == Schedule(attempt)
  {
    Powers();
    if attempt >= 7 {
      PowerGrows(attempt - 4);
    }
  }

  lemma {:induction false} PowerGrows(n: nat)
    requires n >= 3
    ensures Power(n) >= 8
  {
    Powers();
    if n > 3 {
      PowerGrows(n - 1);
    }
  }

  /** 1 + 2 + 4 + 8 + 8 + 8 = 31, and the first three attempts are free. */
  lemma DelaysTotal()
    ensures DelaysUpTo(3) == 0 && DelaysUpTo(9) == 31
  {
    forall n: nat ensures DelayFor(n) == Schedule(n) {
      DelaysFollowSchedule(n);
    }
    assert DelaysUpTo(9) == DelaysUpTo(8) + 8 && DelaysUpTo(8) == DelaysUpTo(7) + 8 && DelaysUpTo(7) == DelaysUpTo(6) + 8;
    assert DelaysUpTo(6) == DelaysUpTo(5) + 4 && DelaysUpTo(5) == DelaysUpTo(4) + 2 && DelaysUpTo(4) == DelaysUpTo(3) + 1;
    assert DelaysUpTo(3) == DelaysUpTo(2) == DelaysUpTo(1) == DelaysUpTo(0);
  }

  // ---- The counter ------------------------------------------------------------

  datatype Counter = Counter(failures: nat, expiresAt: Time)

  /** What a read of the key returns now. */
  function Failures(c: Option<Counter>, now: Time): nat {
    if c.None? || now >= c.value.expiresAt then 0 else c.value.failures
  }

  predicate Absent(c: Option<Counter>, now: Time) {
    c.None? || now >= c.value.expiresAt
  }

  predicate Locked(c: Option<Counter>, now: Time) {
    Failures(c, now) + 1 >= LOCKOUT_AT_ATTEMPT
  }

  datatype Verdict = Refuse(retryAfterSeconds: nat) | Proceed(delaySeconds: nat)

  class LoginThrottle {
    var counter: Option<Counter>

    constructor ()
      ensures counter == None
    {
      counter := None;
    }

    /** Reads only; a refused request leaves the counter and its expiry alone. */
    method Check(now: Time) returns (r: Verdict)
      ensures r.Refuse? <==> Failures(counter, now) >= 9
      ensures r.Refuse? ==> r.retryAfterSeconds == 900
      ensures r.Proceed? ==> r.delaySeconds == Schedule(Failures(counter, now) + 1) <= 8
      ensures forall s: State :: s.counter == counter && s.now == now ==>
        Step(s, CheckRequest) == if r.Refuse? then s else s.(waiting := Some(now + r.delaySeconds * SECOND))
    {
      DelaysFollowSchedule(Failures(counter, now) + 1);
      var failures := Failures(counter, now);
      var attempt := failures + 1;
      if attempt >= LOCKOUT_AT_ATTEMPT {
        return Refuse(LOCKOUT_SECONDS);
      }
      return Proceed(DelayFor(attempt));
    }

    /** INCR, then EXPIRE: the window slides with every failure. */
    method RecordFailure(now: Time)
      modifies this
      ensures counter == Some(Counter(Failures(old(counter), now) + 1, now + LOCKOUT_SECONDS * SECOND))
      ensures forall s: State :: s.counter == old(counter) && s.now == now ==> Step(s, WrongPassword).counter == counter
    {
      counter := Some(Counter(Failures(counter, now) + 1, if Absent(counter, now) then now else counter.value.expiresAt));
      counter := Some(counter.value.(expiresAt := now + LOCKOUT_SECONDS * SECOND));
    }

    method Reset()
      modifies this
      ensures counter == None
      ensures forall s: State :: Step(s, RightPassword).counter == counter
    {
      counter := None;
    }
  }

  // ---- Runs -------------------------------------------------------------------

  /** `since` is when the first failure of the present count was recorded, `last` when the latest was. */
  datatype State = State(counter: Option<Counter>, now: Time, waiting: Option<Time>, since: Time, last: Time)

  /** `AccountDisabled`: the password was right but the account may not sign in, which neither counts nor clears. */
  datatype Event = Tick(later: Time) | CheckRequest | WrongPassword | RightPassword | AccountDisabled

  const Fresh := State(None, 0, None, 0, 0)

  predicate Enabled(s: State, e: Event) {
    match e
    case Tick(later) => s.now <= later
    case CheckRequest => s.waiting.None?
    case WrongPassword => s.waiting.Some? && s.waiting.value <= s.now
    case RightPassword => s.waiting.Some? && s.waiting.value <= s.now
    case AccountDisabled => s.waiting.Some? && s.waiting.value <= s.now
  }

  function Step(s: State, e: Event): State {
    match e
    case Tick(later) => s.(now := later)
    case CheckRequest =>
      if Locked(s.counter, s.now) then s
      else s.(waiting := Some(s.now + DelayFor(Failures(s.counter, s.now) + 1) * SECOND))
    case WrongPassword =>
      State(Some(Counter(Failures(s.counter, s.now) + 1, s.now + LOCKOUT_SECONDS * SECOND)), s.now, None,
            if Absent(s.counter, s.now) then s.now else s.since, s.now)
    case RightPassword => s.(counter := None, waiting := None)
    case AccountDisabled => s.(waiting := None)
  }

  ghost predicate Run(ss: seq<State>, es: seq<Event>) {
    |ss| == |es| + 1 && ss[0] == Fresh && forall i :: 0 <= i < |es| ==> Enabled(ss[i], es[i]) && ss[i + 1] == Step(ss[i], es[i])
  }

  ghost predicate Inv(s: State) {
    && (s.counter.Some? ==>
          && 1 <= s.counter.value.failures <= LOCKOUT_AT_ATTEMPT - 1
          && s.counter.value.expiresAt == s.last + LOCKOUT_SECONDS * SECOND && s.since <= s.last <= s.now
          && s.last >= s.since + (DelaysUpTo(s.counter.value.failures) - DelayFor(1)) * SECOND)
    && (s.waiting.Some? && !Absent(s.counter, s.now) ==>
          && s.counter.value.failures < LOCKOUT_AT_ATTEMPT - 1
          && s.waiting.value >= s.last + DelayFor(s.counter.value.failures + 1) * SECOND)
  }

  lemma StepKeepsInv(s: State, e: Event)
    requires Inv(s) && Enabled(s, e)
    ensures Inv(Step(s, e))
  {
    if e.WrongPassword? {
      var n := Failures(s.counter, s.now);
      assert DelaysUpTo(n + 1) == DelaysUpTo(n) + DelayFor(n + 1);
      assert DelaysUpTo(1) == DelaysUpTo(0) + DelayFor(1);
    }
  }

  lemma {:induction false} RunInv(ss: seq<State>, es: seq<Event>, i: nat)
    requires Run(ss, es) && i < |ss|
    ensures Inv(ss[i])
  {
    if i > 0 {
      RunInv(ss, es, i - 1);
      StepKeepsInv(ss[i - 1], es[i - 1]);
    }
  }

  /** How many failures were recorded from state `i` to state `j`. */
  function Recorded(es: seq<Event>, i: nat, j: nat): nat
    requires i <= j <= |es|
  {
    if i == j then 0 else Recorded(es, i, j - 1) + if es[j - 1].WrongPassword? then 1 else 0
  }

  /** While the counter is never absent it counts exactly the recorded failures. */
  lemma {:induction false} CounterCounts(ss: seq<State>, es: seq<Event>, i: nat, j: nat)
    requires Run(ss, es) && i <= j < |ss| && forall n :: i <= n <= j ==> !Absent(ss[n].counter, ss[n].now)
    ensures Failures(ss[j].counter, ss[j].now) == Failures(ss[i].counter, ss[i].now) + Recorded(es, i, j)
  {
    if i < j {
      CounterCounts(ss, es, i, j - 1);
      assert Enabled(ss[j - 1], es[j - 1]) && ss[j] == Step(ss[j - 1], es[j - 1]);
    }
  }

  /** Between two moments at which the counter is absent, at most nine failures are recorded. */
  lemma NineFailuresAtMost(ss: seq<State>, es: seq<Event>, i: nat, j: nat)
    requires Run(ss, es) && i < j < |ss| && Absent(ss[i].counter, ss[i].now)
    requires forall n :: i < n <= j ==> !Absent(ss[n].counter, ss[n].now)
    ensures Recorded(es, i, j) <= 9 && Recorded(es, i, j) == Failures(ss[j].counter, ss[j].now)
  {
    assert Enabled(ss[i], es[i]) && ss[i + 1] == Step(ss[i], es[i]);
    CounterCounts(ss, es, i + 1, j);
    RecordedSplit(es, i, j);
    RunInv(ss, es, j);
  }

  lemma {:induction false} RecordedSplit(es: seq<Event>, i: nat, j: nat)
    requires i < j <= |es|
    ensures Recorded(es, i, j) == (if es[i].WrongPassword? then 1 else 0) + Recorded(es, i + 1, j)
  {
    if i + 1 < j {
      RecordedSplit(es, i, j - 1);
    } else {
      assert Recorded(es, i, i) == 0;
    }
  }

  /**
   A lockout ends exactly 900 seconds after the last recorded failure: until
   then every request is refused and nothing about the counter moves, however
   many are made; from then on the next request is a first attempt.
   */
  lemma {:induction false} LockoutLastsExactly(ss: seq<State>, es: seq<Event>, i: nat, j: nat)
    requires Run(ss, es) && i <= j < |ss| && Locked(ss[i].counter, ss[i].now) && ss[i].waiting.None?
    requires ss[j].now < ss[i].last + 900 * SECOND
    ensures ss[j] == ss[i].(now := ss[j].now) && Locked(ss[j].counter, ss[j].now) && Recorded(es, i, j) == 0
  {
    RunInv(ss, es, i);
    if i < j {
      assert Enabled(ss[j - 1], es[j - 1]) && ss[j] == Step(ss[j - 1], es[j - 1]);
      LockoutLastsExactly(ss, es, i, j - 1);
    }
  }

  lemma LockoutEnds(ss: seq<State>, es: seq<Event>, i: nat)
    requires Run(ss, es) && i < |ss| && ss[i].counter.Some? && ss[i].now >= ss[i].last + 900 * SECOND
    ensures Failures(ss[i].counter, ss[i].now) == 0 && !Locked(ss[i].counter, ss[i].now)
  {
    RunInv(ss, es, i);
  }

  /** Nine failures in one count take at least 31 seconds from the first to the last. */
  lemma NineFailuresTakeTime(ss: seq<State>, es: seq<Event>, i: nat)
    requires Run(ss, es) && i < |ss| && Failures(ss[i].counter, ss[i].now) == 9
    ensures ss[i].last >= ss[i].since + 31 * SECOND
  {
    RunInv(ss, es, i);
    DelaysTotal();
  }
}
