/** The lockout of the typed approval secret: one persisted counter for `verify` and `set_secret`.

    Every attempt runs in one immediate transaction, so attempts by any number of processes are one
    sequence. Key derivation is an injective function, so comparing digests is comparing secrets.
    A transaction that fails changes nothing and is not a step. */
module ApprovalSecret {

  import opened Options

  const MAX_FAILURES_BEFORE_LOCK: nat := 5
  const BASE_LOCK_SECONDS: real := 60.0
  const MAX_LOCK_SECONDS: real := 3600.0
  const MIN_SECRET_CHARS: nat := 8
  const MAX_SECRET_CHARS: nat := 256

  function Pow2(n: nat): nat {
    if n == 0 then 1 else 2 * Pow2(n - 1)
  }

  function Min(a: real, b: real): real { if a <= b then a else b }

  function LockSeconds(failures: nat): real {
    var extra := if failures > MAX_FAILURES_BEFORE_LOCK then failures - MAX_FAILURES_BEFORE_LOCK else 0;
    Min(MAX_LOCK_SECONDS, BASE_LOCK_SECONDS * Pow2(if extra < 16 then extra else 16) as real)
  }

  datatype Store = Store(secret: Option<string>, failures: nat, lockedUntil: real)
  datatype Answer = Right | Wrong | Locked | NotConfigured | Refused | Invalid

  /** The comparison and the count, inside the caller's transaction. */
  function Checked(s: Store, candidate: string, now: real): (Store, Answer)
    requires s.secret.Some?
  {
    if s.lockedUntil > now then (s, Locked)
    else if candidate == s.secret.value then (s.(failures := 0, lockedUntil := 0.0), Right)
    else
      var failures := s.failures + 1;
      (s.(failures := failures,
          lockedUntil := if failures >= MAX_FAILURES_BEFORE_LOCK then now + LockSeconds(failures) else 0.0), Wrong)
  }

  function Verified(s: Store, candidate: string, now: real): (Store, Answer) {
    if |candidate| > MAX_SECRET_CHARS then (s, Invalid)
    else if candidate == "" then (s, Wrong)
    else if s.secret.None? then (s, NotConfigured)
    else Checked(s, candidate, now)
  }

  /** `blank` and `public` are the text rules a proposed secret must not meet. */
  function Replaced(s: Store, proposed: string, blank: bool, public: bool, current: string, now: real)
    : (Store, Answer)
  {
    if |proposed| > MAX_SECRET_CHARS || |proposed| < MIN_SECRET_CHARS || blank || public then (s, Invalid)
    else if s.secret.None? then (s.(secret := Some(proposed)), Right)
    else if |current| > MAX_SECRET_CHARS then (s, Invalid)
    else if current == "" then (s, Refused)
    else
      var (checked, answer) := Checked(s, current, now);
      (if answer.Right? then checked.(secret := Some(proposed)) else checked, answer)
  }

  function Remaining(s: Store): nat {
    if s.failures + 1 < MAX_FAILURES_BEFORE_LOCK then MAX_FAILURES_BEFORE_LOCK - s.failures else 1
  }

  class ApprovalSecretStore {
    var secret: Option<string>
    var failures: nat
    var lockedUntil: real

    function State(): Store
      reads this
    {
      Store(secret, failures, lockedUntil)
    }

    constructor ()
      ensures State() == Store(None, 0, 0.0)
    {
      secret, failures, lockedUntil := None, 0, 0.0;
    }

    method Status(now: real) returns (configured: bool, until: real, remaining: nat)
      ensures configured == secret.Some?
      ensures until == if lockedUntil > now then lockedUntil else 0.0
      ensures remaining == if lockedUntil > now then 0 else Remaining(State())
    {
      configured := secret.Some?;
      if lockedUntil > now {
        until, remaining := lockedUntil, 0;
      } else {
        until := 0.0;
        remaining := if failures < MAX_FAILURES_BEFORE_LOCK then MAX_FAILURES_BEFORE_LOCK - failures else 0;
        if remaining < 1 {
          remaining := 1;
        }
      }
    }

    method Check(candidate: string, now: real) returns (answer: Answer)
      requires secret.Some?
      modifies this
      ensures (State(), answer) == Checked(old(State()), candidate, now)
    {
      if lockedUntil > now {
        return Locked;
      }
      if candidate == secret.value {
        failures, lockedUntil := 0, 0.0;
        return Right;
      }
      failures := failures + 1;
      lockedUntil := if failures >= MAX_FAILURES_BEFORE_LOCK then now + LockSeconds(failures) else 0.0;
      return Wrong;
    }

    method Verify(candidate: string, now: real) returns (answer: Answer)
      modifies this
      ensures (State(), answer) == Verified(old(State()), candidate, now)
    {
      if |candidate| > MAX_SECRET_CHARS {
        return Invalid;
      }
      if candidate == "" {
        return Wrong;
      }
      if secret.None? {
        return NotConfigured;
      }
      answer := Check(candidate, now);
    }

    method SetSecret(proposed: string, blank: bool, public: bool, current: string, now: real) returns (answer: Answer)
      modifies this
      ensures (State(), answer) == Replaced(old(State()), proposed, blank, public, current, now)
    {
      if |proposed| > MAX_SECRET_CHARS || |proposed| < MIN_SECRET_CHARS || blank || public {
        return Invalid;
      }
      if secret.Some? {
        if |current| > MAX_SECRET_CHARS {
          return Invalid;
        }
        if current == "" {
          return Refused;
        }
        answer := Check(current, now);
        if !answer.Right? {
          return answer;
        }
      }
      secret := Some(proposed);
      return Right;
    }
  }

  // ------------------------------------------------------------------- lock times

  lemma {:induction false} Pow2Grows(m: nat, n: nat)
    requires m <= n
    ensures 1 <= Pow2(m) <= Pow2(n)
  {
    if m < n {
      Pow2Grows(m, n - 1);
    } else if n > 0 {
      Pow2Grows(m - 1, n - 1);
    }
  }

  /** The exponent is capped at 16, but no lock time would differ without the cap. */
  lemma ExponentCapIsInvisible(failures: nat)
    ensures LockSeconds(failures) ==
              Min(MAX_LOCK_SECONDS, BASE_LOCK_SECONDS *
                Pow2(if failures > MAX_FAILURES_BEFORE_LOCK then failures - MAX_FAILURES_BEFORE_LOCK else 0) as real)
  {
    if failures > MAX_FAILURES_BEFORE_LOCK + 16 {
      assert Pow2(6) == 64;
      Pow2Grows(6, 16);
      Pow2Grows(6, failures - MAX_FAILURES_BEFORE_LOCK);
    }
  }

  /** The lock times by number of failures: doubling from a minute, an hour from the eleventh on. */
  lemma LockTimes(n: nat)
    ensures LockSeconds(5) == 60.0 && LockSeconds(6) == 120.0 && LockSeconds(7) == 240.0
    ensures LockSeconds(8) == 480.0 && LockSeconds(9) == 960.0 && LockSeconds(10) == 1920.0
    ensures n >= 11 ==> LockSeconds(n) == 3600.0
    ensures LockSeconds(n) > 0.0
  {
    assert Pow2(0) == 1 && Pow2(1) == 2 && Pow2(2) == 4 && Pow2(3) == 8;
    assert Pow2(4) == 16 && Pow2(5) == 32 && Pow2(6) == 64;
    var extra := if n > 5 then n - 5 else 0;
    Pow2Grows(0, if extra < 16 then extra else 16);
    if n >= 11 {
      Pow2Grows(6, if extra < 16 then extra else 16);
    }
  }

  // ---------------------------------------------------------------- runs of attempts

  datatype Attempt =
    | Verify(candidate: string, at: real)
    | Replace(proposed: string, blank: bool, public: bool, current: string, at: real)

  function After(s: Store, a: Attempt): (Store, Answer) {
    match a
    case Verify(candidate, at) => Verified(s, candidate, at)
    case Replace(proposed, blank, public, current, at) => Replaced(s, proposed, blank, public, current, at)
  }

  /** Whether the attempt was a wrong guess at the secret: compared, and found different. */
  predicate WrongGuess(s: Store, a: Attempt) {
    After(s, a).1.Wrong? && After(s, a).0.failures == s.failures + 1
  }

  predicate RightGuess(s: Store, a: Attempt) {
    s.secret.Some? && After(s, a).1.Right?
  }

  ghost predicate IsRun(ss: seq<Store>, attempts: seq<Attempt>) {
    && |ss| == |attempts| + 1 && ss[0] == Store(None, 0, 0.0)
    && (forall i | 0 <= i < |attempts| :: ss[i + 1] == After(ss[i], attempts[i]).0)
    && (forall i, j | 0 <= i <= j < |attempts| :: attempts[i].at <= attempts[j].at)
  }

  /** When the wrong guesses since the last success came, oldest first. */
  ghost function WrongTimes(ss: seq<Store>, attempts: seq<Attempt>, i: nat): seq<real>
    requires IsRun(ss, attempts) && i < |ss|
  {
    if i == 0 then []
    else if RightGuess(ss[i - 1], attempts[i - 1]) then []
    else if WrongGuess(ss[i - 1], attempts[i - 1]) then WrongTimes(ss, attempts, i - 1) + [attempts[i - 1].at]
    else WrongTimes(ss, attempts, i - 1)
  }

  /** Each wrong guess from the sixth on waited out the lock of the one before it. */
  ghost predicate Spaced(times: seq<real>) {
    forall k | 5 <= k < |times| :: times[k] >= times[k - 1] + LockSeconds(k)
  }

  ghost predicate CounterInv(s: Store, times: seq<real>) {
    && |times| == s.failures && Spaced(times)
    && s.lockedUntil == if s.failures >= 5 then times[|times| - 1] + LockSeconds(s.failures) else 0.0
  }

  lemma CounterStep(s: Store, a: Attempt, times: seq<real>)
    requires CounterInv(s, times)
    ensures RightGuess(s, a) ==> CounterInv(After(s, a).0, [])
    ensures WrongGuess(s, a) ==> CounterInv(After(s, a).0, times + [a.at])
    ensures !RightGuess(s, a) && !WrongGuess(s, a) ==> CounterInv(After(s, a).0, times)
  {
    hide LockSeconds;
  }

  lemma {:induction false} CounterRun(ss: seq<Store>, attempts: seq<Attempt>, i: nat)
    requires IsRun(ss, attempts) && i < |ss|
    ensures CounterInv(ss[i], WrongTimes(ss, attempts, i))
  {
    if i > 0 {
      CounterRun(ss, attempts, i - 1);
      CounterStep(ss[i - 1], attempts[i - 1], WrongTimes(ss, attempts, i - 1));
    }
  }

  lemma {:induction false} SpacedBound(times: seq<real>, n: nat)
    requires Spaced(times) && 11 <= n <= |times|
    ensures times[n - 1] >= times[4] + 3780.0 + 3600.0 * (n - 11) as real
  {
    LockTimes(n - 1);
    if n == 11 {
      assert times[5] >= times[4] + LockSeconds(5) && times[6] >= times[5] + LockSeconds(6);
      assert times[7] >= times[6] + LockSeconds(7) && times[8] >= times[7] + LockSeconds(8);
      assert times[9] >= times[8] + LockSeconds(9) && times[10] >= times[9] + LockSeconds(10);
    } else {
      SpacedBound(times, n - 1);
      assert times[n - 1] >= times[n - 2] + LockSeconds(n - 1);
    }
  }

  /** The guess rate: across `verify` and `set_secret`, by any processes on a clock that does not run
      backwards, the n-th wrong guess since the last success comes at least
      3780 + 3600 * (n - 11) seconds after the fifth. */
  lemma GuessRate(ss: seq<Store>, attempts: seq<Attempt>, i: nat, n: nat)
    requires IsRun(ss, attempts) && i < |ss|
    requires 11 <= n <= |WrongTimes(ss, attempts, i)|
    ensures var times := WrongTimes(ss, attempts, i);
            times[n - 1] >= times[4] + 3780.0 + 3600.0 * (n - 11) as real
  {
    CounterRun(ss, attempts, i);
    SpacedBound(WrongTimes(ss, attempts, i), n);
  }

  /** The first five wrong guesses come at once, each later one at the very end of a lock. */
  ghost predicate AtLockEnds(times: seq<real>) {
    && (forall k | 0 <= k < |times| && k < 5 :: times[k] == 0.0)
    && (forall k | 5 <= k < |times| :: times[k] == times[k - 1] + LockSeconds(k))
  }

  /** Nobody guesses faster than the bound, and somebody can guess as fast: each wrong guess made at
      the very moment the lock ends is counted. */
  lemma {:induction false} FastestGuessing(secret: string, wrong: string, n: nat)
    returns (ss: seq<Store>, attempts: seq<Attempt>)
    requires MIN_SECRET_CHARS <= |secret| <= MAX_SECRET_CHARS
    requires wrong != secret && 0 < |wrong| <= MAX_SECRET_CHARS
    ensures IsRun(ss, attempts) && |attempts| == n + 1 && ss[n + 1].secret == Some(secret)
    ensures var times := WrongTimes(ss, attempts, n + 1);
            |times| == n && ss[n + 1].failures == n && AtLockEnds(times)
    ensures attempts[n].at <= ss[n + 1].lockedUntil || (n < 5 && attempts[n].at == 0.0 == ss[n + 1].lockedUntil)
  {
    if n == 0 {
      attempts := [Replace(secret, false, false, "", 0.0)];
      ss := [Store(None, 0, 0.0), Store(Some(secret), 0, 0.0)];
      assert !RightGuess(ss[0], attempts[0]) && !WrongGuess(ss[0], attempts[0]);
    } else {
      hide LockSeconds, After, WrongGuess, RightGuess, WrongTimes, IsRun, CounterInv;
      var ss', attempts' := FastestGuessing(secret, wrong, n - 1);
      var times := WrongTimes(ss', attempts', n);
      var guess := Verify(wrong, ss'[n].lockedUntil);
      CounterRun(ss', attempts', n);
      WrongAtLockEnd(ss'[n], times, secret, wrong);
      ss, attempts := GuessAppended(ss', attempts', guess);
      AtLockEndsExtended(times, guess.at);
    }
  }

  lemma AtLockEndsExtended(times: seq<real>, at: real)
    requires AtLockEnds(times)
    requires at == if |times| < 5 then 0.0 else times[|times| - 1] + LockSeconds(|times|)
    ensures AtLockEnds(times + [at])
  {
    hide LockSeconds;
  }

  /** A wrong guess at the end of the lock is counted, and starts the next lock. */
  lemma WrongAtLockEnd(s: Store, times: seq<real>, secret: string, wrong: string)
    requires s.secret == Some(secret) && wrong != secret && 0 < |wrong| <= MAX_SECRET_CHARS
    requires CounterInv(s, times)
    ensures var guess := Verify(wrong, s.lockedUntil);
            WrongGuess(s, guess) && !RightGuess(s, guess) && After(s, guess).0.secret == s.secret
    ensures var after := After(s, Verify(wrong, s.lockedUntil)).0;
            after.failures == |times| + 1
            && after.lockedUntil == if |times| < 4 then 0.0 else s.lockedUntil + LockSeconds(|times| + 1)
    ensures s.lockedUntil == if |times| < 5 then 0.0 else times[|times| - 1] + LockSeconds(|times|)
    ensures LockSeconds(|times| + 1) >= 0.0
  {
    LockTimes(|times| + 1);
    hide LockSeconds;
  }

  lemma GuessAppended(ss: seq<Store>, attempts: seq<Attempt>, guess: Attempt)
    returns (tt: seq<Store>, more: seq<Attempt>)
    requires IsRun(ss, attempts) && attempts != [] && attempts[|attempts| - 1].at <= guess.at
    requires WrongGuess(ss[|attempts|], guess) && !RightGuess(ss[|attempts|], guess)
    ensures |ss| == |attempts| + 1 && tt == ss + [After(ss[|attempts|], guess).0] && more == attempts + [guess]
    ensures IsRun(tt, more) && |tt| == |ss| + 1
    ensures WrongTimes(tt, more, |more|) == WrongTimes(ss, attempts, |attempts|) + [guess.at]
  {
    hide After, WrongGuess, RightGuess;
    tt, more := ss + [After(ss[|attempts|], guess).0], attempts + [guess];
    IsRunExtended(ss, attempts, guess);
    WrongTimesPrefix(ss, attempts, tt, more, |attempts|);
    assert tt[|attempts|] == ss[|attempts|];
  }

  lemma IsRunExtended(ss: seq<Store>, attempts: seq<Attempt>, a: Attempt)
    requires IsRun(ss, attempts)
    requires attempts != [] ==> attempts[|attempts| - 1].at <= a.at
    ensures IsRun(ss + [After(ss[|attempts|], a).0], attempts + [a])
  {
    hide After;
  }

  /** So the bound of `GuessRate` is met with equality and cannot be raised. */
  lemma {:induction false} FastestMeetsTheBound(times: seq<real>, n: nat)
    requires 11 <= n <= |times| && forall k | 5 <= k < |times| :: times[k] == times[k - 1] + LockSeconds(k)
    ensures times[n - 1] == times[4] + 3780.0 + 3600.0 * (n - 11) as real
  {
    hide LockSeconds;
    LockTimes(n - 1);
    if n > 11 {
      FastestMeetsTheBound(times, n - 1);
    }
  }

  lemma {:induction false} WrongTimesPrefix(ss: seq<Store>, attempts: seq<Attempt>,
                                            tt: seq<Store>, more: seq<Attempt>, i: nat)
    requires IsRun(ss, attempts) && IsRun(tt, more) && ss <= tt && attempts <= more && i < |ss|
    ensures WrongTimes(ss, attempts, i) == WrongTimes(tt, more, i)
  {
    if i > 0 {
      WrongTimesPrefix(ss, attempts, tt, more, i - 1);
    }
  }

  // ------------------------------------------------------------ the secret in force

  function Typed(a: Attempt): string {
    match a
    case Verify(candidate, _) => candidate
    case Replace(_, _, _, current, _) => current
  }

  /** A proposal that may become the secret. */
  predicate Admissible(a: Attempt) {
    a.Replace? && MIN_SECRET_CHARS <= |a.proposed| <= MAX_SECRET_CHARS && !a.blank && !a.public
  }

  /** What was typed is compared with the stored secret. */
  predicate Compared(s: Store, a: Attempt) {
    && s.secret.Some? && 0 < |Typed(a)| <= MAX_SECRET_CHARS && (a.Replace? ==> Admissible(a))
    && s.lockedUntil <= a.at
  }

  /** An admissible proposal that sets the first secret, or brings the one in force while unlocked. */
  predicate Authorised(s: Store, a: Attempt) {
    Admissible(a) && (s.secret.None? || (Compared(s, a) && Typed(a) == s.secret.value))
  }

  /** One attempt: what was compared is right or wrong by what is stored, and counted accordingly; nothing
      else touches the counter; and the secret becomes the proposal exactly when that is authorised. */
  lemma AttemptExactly(s: Store, a: Attempt)
    ensures var (after, answer) := After(s, a);
            && (RightGuess(s, a) <==> Compared(s, a) && Typed(a) == s.secret.value)
            && (WrongGuess(s, a) <==> Compared(s, a) && Typed(a) != s.secret.value)
            && (!Compared(s, a) ==> after.failures == s.failures && after.lockedUntil == s.lockedUntil)
            && after.secret == (if Authorised(s, a) then Some(a.proposed) else s.secret)
            && (a.Replace? ==> (answer.Right? <==> Authorised(s, a)))
            && (answer.Locked? ==> s.lockedUntil > a.at && after == s)
  {
    hide LockSeconds;
  }

  /** Over every run, the stored secret is the proposal of the last authorised change, and there is none
      exactly if no change was authorised yet. */
  lemma {:induction false} SecretInForce(ss: seq<Store>, attempts: seq<Attempt>, i: nat)
    requires IsRun(ss, attempts) && i < |ss|
    ensures ss[i].secret.None? ==> forall k | 0 <= k < i :: !Authorised(ss[k], attempts[k])
    ensures ss[i].secret.Some? ==>
              && MIN_SECRET_CHARS <= |ss[i].secret.value| <= MAX_SECRET_CHARS
              && exists k :: 0 <= k < i && Authorised(ss[k], attempts[k]) && ss[i].secret == Some(attempts[k].proposed)
                             && forall m | k < m < i :: !Authorised(ss[m], attempts[m])
  {
    hide After, Compared;
    if i > 0 {
      SecretInForce(ss, attempts, i - 1);
      AttemptExactly(ss[i - 1], attempts[i - 1]);
      assert ss[i] == After(ss[i - 1], attempts[i - 1]).0;
      if ss[i - 1].secret.Some? && !Authorised(ss[i - 1], attempts[i - 1]) {
        var k :| 0 <= k < i - 1 && Authorised(ss[k], attempts[k]) && ss[i - 1].secret == Some(attempts[k].proposed)
                 && forall m | k < m < i - 1 :: !Authorised(ss[m], attempts[m]);
        assert 0 <= k < i && forall m | k < m < i :: !Authorised(ss[m], attempts[m]);
      }
    }
  }

  /** `verify` says right exactly for the secret in force while unlocked. */
  lemma VerifiesExactly(ss: seq<Store>, attempts: seq<Attempt>, i: nat, candidate: string, at: real)
    requires IsRun(ss, attempts) && i < |ss|
    ensures Verified(ss[i], candidate, at).1.Right? <==> ss[i].secret == Some(candidate) && ss[i].lockedUntil <= at
  {
    SecretInForce(ss, attempts, i);
    hide LockSeconds;
  }

  /** Who does not type the secret in force neither passes nor changes it, however many attempts by however
      many processes there are. */
  lemma {:induction false} StrangersChangeNothing(ss: seq<Store>, attempts: seq<Attempt>, i: nat, j: nat)
    requires IsRun(ss, attempts) && i <= j < |ss| && ss[i].secret.Some?
    requires forall k | i <= k < j :: Typed(attempts[k]) != ss[i].secret.value
    ensures ss[j].secret == ss[i].secret
    ensures forall k | i <= k < j :: !After(ss[k], attempts[k]).1.Right?
    decreases j
  {
    hide LockSeconds;
    if i < j {
      StrangersChangeNothing(ss, attempts, i, j - 1);
      AttemptExactly(ss[j - 1], attempts[j - 1]);
    }
  }

  // ------------------------------------------------------------ remaining attempts

  /** Further wrong guesses in a row, each found unlocked. */
  ghost predicate WrongRow(ss: seq<Store>, guesses: seq<Attempt>) {
    && |ss| == |guesses| + 1
    && forall i | 0 <= i < |guesses| :: WrongGuess(ss[i], guesses[i]) && ss[i + 1] == After(ss[i], guesses[i]).0
  }

  lemma WrongGuessLocks(s: Store, a: Attempt)
    requires WrongGuess(s, a)
    ensures After(s, a).0.failures == s.failures + 1
    ensures After(s, a).0.lockedUntil > a.at <==> s.failures + 1 >= 5 || (After(s, a).0.lockedUntil == 0.0 > a.at)
    ensures s.failures + 1 < 5 ==> After(s, a).0.lockedUntil == 0.0
  {
    hide LockSeconds;
    LockTimes(s.failures + 1);
  }

  lemma {:induction false} RowCounts(ss: seq<Store>, guesses: seq<Attempt>, i: nat)
    requires WrongRow(ss, guesses) && i <= |guesses|
    ensures ss[i].failures == ss[0].failures + i
  {
    if i > 0 {
      RowCounts(ss, guesses, i - 1);
      assert WrongGuess(ss[i - 1], guesses[i - 1]);
    }
  }

  /** `remaining_attempts`, shown while unlocked, is exactly how many more wrong guesses lock: that
      many lock the store at the moment of the last one, and fewer leave it open. */
  lemma RemainingIsExact(ss: seq<Store>, guesses: seq<Attempt>)
    requires WrongRow(ss, guesses) && guesses != [] && forall a | a in guesses :: a.at >= 0.0
    requires |guesses| <= Remaining(ss[0])
    ensures ss[|guesses|].lockedUntil > guesses[|guesses| - 1].at <==> |guesses| == Remaining(ss[0])
  {
    var last := |guesses| - 1;
    RowCounts(ss, guesses, last);
    assert WrongGuess(ss[last], guesses[last]) && guesses[last] in guesses;
    WrongGuessLocks(ss[last], guesses[last]);
  }
}
