/**
 The sign-in rate limiter, kept in the process's own memory: for each key a deque of recent attempts
 and one of recent failures, and a time until which the key is locked out. Times are the whole
 seconds of a clock that does not go back.
 */
module LoginLimiter {
  import opened Wrappers

  const WINDOW := 60
  const MAX_ATTEMPTS := 8
  const LOCKOUT := 900
  const THRESHOLD := 20

  type Key = string

  datatype State = State(attempts: map<Key, seq<nat>>, failures: map<Key, seq<nat>>, lockouts: map<Key, nat>)

  datatype Verdict = Allowed | Locked(retryAfter: nat) | SlowDown(retryAfter: nat)

  const EMPTY := State(map[], map[], map[])

  /** What the default dictionaries give for a key they do not hold. */
  function Deque(m: map<Key, seq<nat>>, key: Key): seq<nat> { if key in m then m[key] else [] }

  /** Drops what is older than the cutoff from the left. */
  function Prune(times: seq<nat>, cutoff: int): seq<nat> {
    if times != [] && times[0] < cutoff then Prune(times[1..], cutoff) else times
  }

  function VerdictOn(s: State, key: Key, now: nat): Verdict {
    if key in s.lockouts && s.lockouts[key] > now then Locked(s.lockouts[key] - now)
    else if |Prune(Deque(s.attempts, key), now - WINDOW)| >= MAX_ATTEMPTS then SlowDown(WINDOW)
    else Allowed
  }

  function AfterCheck(s: State, key: Key, now: nat): State {
    if key in s.lockouts && s.lockouts[key] > now then s
    else State(s.attempts[key := Prune(Deque(s.attempts, key), now - WINDOW)], s.failures, s.lockouts - {key})
  }

  function AfterFailure(s: State, key: Key, now: nat, applyLockout: bool): State {
    var attempts := s.attempts[key := Prune(Deque(s.attempts, key) + [now], now - WINDOW)];
    if !applyLockout then s.(attempts := attempts)
    else
      var failures := Prune(Deque(s.failures, key) + [now], now - LOCKOUT);
      State(attempts, s.failures[key := failures],
            if |failures| >= THRESHOLD then s.lockouts[key := now + LOCKOUT] else s.lockouts)
  }

  datatype Event =
    | Check(key: Key, now: nat)
    | Failure(key: Key, now: nat, applyLockout: bool)
    | Success(key: Key)
    | ClearWindow(key: Key)

  function Step(s: State, e: Event): State {
    match e
    case Check(key, now) => AfterCheck(s, key, now)
    case Failure(key, now, applyLockout) => AfterFailure(s, key, now, applyLockout)
    case Success(key) => State(s.attempts - {key}, s.failures - {key}, s.lockouts - {key})
    case ClearWindow(key) => s.(attempts := s.attempts - {key})
  }

  function Run(s: State, es: seq<Event>): State
    decreases |es|
  {
    if es == [] then s else Run(Step(s, es[0]), es[1..])
  }

  lemma {:induction false} RunAppends(s: State, es: seq<Event>, more: seq<Event>)
    ensures Run(s, es + more) == Run(Run(s, es), more)
    decreases |es|
  {
    if es == [] {
      assert es + more == more;
    } else {
      assert (es + more)[0] == es[0] && (es + more)[1..] == es[1..] + more;
      RunAppends(Step(s, es[0]), es[1..], more);
    }
  }

  // ---------------------------------------------------------------- the limiter itself

  class Limiter {
    var attempts: map<Key, seq<nat>>
    var failures: map<Key, seq<nat>>
    var lockouts: map<Key, nat>

    ghost function Abstract(): State
      reads this
    {
      State(attempts, failures, lockouts)
    }

    ghost predicate Valid()
      reads this
    {
      forall key :: key in lockouts ==> lockouts[key] > 0
    }

    constructor ()
      ensures Valid() && Abstract() == EMPTY
    {
      attempts, failures, lockouts := map[], map[], map[];
    }

    method EnforceRateLimit(key: Key, now: nat) returns (verdict: Verdict)
      requires Valid()
      modifies this
      ensures Valid()
      ensures Abstract() == Step(old(Abstract()), Check(key, now))
      ensures verdict == VerdictOn(old(Abstract()), key, now)
    {
      var lockedUntil := if key in lockouts then lockouts[key] else 0;
      if lockedUntil != 0 && lockedUntil > now {
        return Locked(lockedUntil - now);
      }
      if lockedUntil != 0 && lockedUntil <= now {
        lockouts := lockouts - {key};
      }
      if key !in attempts { attempts := attempts[key := []]; }
      while attempts[key] != [] && attempts[key][0] < now - WINDOW
        invariant key in attempts && failures == old(failures) && lockouts == old(lockouts) - {key}
        invariant attempts == old(attempts)[key := attempts[key]]
        invariant Prune(attempts[key], now - WINDOW) == Prune(Deque(old(attempts), key), now - WINDOW)
        decreases |attempts[key]|
      {
        attempts := attempts[key := attempts[key][1..]];
      }
      verdict := if |attempts[key]| >= MAX_ATTEMPTS then SlowDown(WINDOW) else Allowed;
    }

    method RecordFailure(key: Key, now: nat, applyLockout: bool)
      requires Valid()
      modifies this
      ensures Valid()
      ensures Abstract() == Step(old(Abstract()), Failure(key, now, applyLockout))
    {
      var times: seq<nat> := (if key in attempts then attempts[key] else []) + [now];
      while times != [] && times[0] < now - WINDOW
        invariant Prune(times, now - WINDOW) == Prune(Deque(old(attempts), key) + [now], now - WINDOW)
        decreases |times|
      {
        times := times[1..];
      }
      attempts := attempts[key := times];
      if !applyLockout { return; }
      var failed: seq<nat> := (if key in failures then failures[key] else []) + [now];
      while failed != [] && failed[0] < now - LOCKOUT
        invariant Prune(failed, now - LOCKOUT) == Prune(Deque(old(failures), key) + [now], now - LOCKOUT)
        decreases |failed|
      {
        failed := failed[1..];
      }
      failures := failures[key := failed];
      if |failed| >= THRESHOLD {
        lockouts := lockouts[key := now + LOCKOUT];
      }
    }

    method RecordSuccess(key: Key)
      requires Valid()
      modifies this
      ensures Valid()
      ensures Abstract() == Step(old(Abstract()), Success(key))
    {
      attempts, failures, lockouts := attempts - {key}, failures - {key}, lockouts - {key};
    }

    method ClearShortWindow(key: Key)
      requires Valid()
      modifies this
      ensures Valid()
      ensures Abstract() == Step(old(Abstract()), ClearWindow(key))
    {
      attempts := attempts - {key};
    }
  }

  // ---------------------------------------------------------------- the history of one key

  /** Every attempt recorded since the window was last cleared, every failure since the last success. */
  datatype Log = Log(attempts: seq<nat>, failures: seq<nat>)

  const NOTHING := Log([], [])

  function Noted(log: Log, key: Key, e: Event): Log {
    if e.key != key then log
    else match e
      case Check(_, _) => log
      case Failure(_, now, applyLockout) =>
        Log(log.attempts + [now], if applyLockout then log.failures + [now] else log.failures)
      case Success(_) => NOTHING
      case ClearWindow(_) => log.(attempts := [])
  }

  function History(log: Log, key: Key, es: seq<Event>): Log
    decreases |es|
  {
    if es == [] then log else History(Noted(log, key, es[0]), key, es[1..])
  }

  /** When the lockout earned by the latest twenty failures that fell within 900 seconds ends. */
  function LockEnd(failures: seq<nat>): Option<nat>
    decreases |failures|
  {
    var n := |failures|;
    if n < 20 then None
    else if failures[n - 1] <= failures[n - 20] + 900 then Some(failures[n - 1] + 900)
    else LockEnd(failures[..n - 1])
  }

  /** The rule the limiter stands for, stated on the whole history of a key. */
  function Rule(log: Log, now: nat): Verdict {
    var lock, n := LockEnd(log.failures), |log.attempts|;
    if lock.Some? && lock.value > now then Locked(lock.value - now)
    else if n >= 8 && now - log.attempts[n - 8] <= 60 then SlowDown(60)
    else Allowed
  }

  function TimeOf(e: Event, clock: nat): nat { if e.Check? || e.Failure? then e.now else clock }

  predicate Clocked(clock: nat, es: seq<Event>)
    decreases |es|
  {
    es == [] || (clock <= TimeOf(es[0], clock) && Clocked(TimeOf(es[0], clock), es[1..]))
  }

  function ClockAfter(clock: nat, es: seq<Event>): nat
    decreases |es|
  {
    if es == [] then clock else ClockAfter(TimeOf(es[0], clock), es[1..])
  }

  lemma {:induction false} ClockedAppends(clock: nat, es: seq<Event>, more: seq<Event>)
    requires Clocked(clock, es) && Clocked(ClockAfter(clock, es), more)
    ensures Clocked(clock, es + more) && ClockAfter(clock, es + more) == ClockAfter(ClockAfter(clock, es), more)
    decreases |es|
  {
    if es == [] {
      assert es + more == more;
    } else {
      assert (es + more)[0] == es[0] && (es + more)[1..] == es[1..] + more;
      ClockedAppends(TimeOf(es[0], clock), es[1..], more);
    }
  }

  // ---------------------------------------------------------------- deques against the history

  ghost predicate Sorted(times: seq<nat>, clock: nat) {
    && (forall i, j :: 0 <= i <= j < |times| ==> times[i] <= times[j])
    && (forall i :: 0 <= i < |times| ==> times[i] <= clock)
  }

  /** The deque is the end of the log, and what it has lost is older than the bound. */
  ghost predicate Tail(deque: seq<nat>, log: seq<nat>, bound: int) {
    && |deque| <= |log| && deque == log[|log| - |deque|..]
    && forall i :: 0 <= i < |log| - |deque| ==> log[i] < bound
  }

  lemma {:induction false} PruneKeepsTail(deque: seq<nat>, log: seq<nat>, bound: int, cutoff: int)
    requires Tail(deque, log, bound) && bound <= cutoff
    ensures Tail(Prune(deque, cutoff), log, cutoff)
    ensures Prune(deque, cutoff) != [] ==> Prune(deque, cutoff)[0] >= cutoff
    decreases |deque|
  {
    if deque != [] && deque[0] < cutoff {
      assert log[|log| - |deque|] == deque[0];
      assert deque[1..] == log[|log| - |deque[1..]|..];
      PruneKeepsTail(deque[1..], log, cutoff, cutoff);
    }
  }

  /** A pruned deque holds m entries exactly if the m-th last of the log is recent. */
  lemma {:induction false} LongIffRecent(deque: seq<nat>, log: seq<nat>, clock: nat, bound: int, cutoff: int, m: nat)
    requires Tail(deque, log, bound) && bound <= cutoff && Sorted(log, clock) && m > 0
    ensures |Prune(deque, cutoff)| >= m <==> |log| >= m && log[|log| - m] >= cutoff
  {
    PruneKeepsTail(deque, log, bound, cutoff);
    var kept := Prune(deque, cutoff);
    if |kept| >= m {
      assert kept[0] == log[|log| - |kept|];
    }
  }

  ghost predicate LockMatches(s: State, failures: seq<nat>, key: Key, clock: nat) {
    var end := LockEnd(failures);
    && (key in s.lockouts ==> end == Some(s.lockouts[key]))
    && (key !in s.lockouts && end.Some? ==> end.value <= clock)
  }

  ghost predicate Matches(s: State, log: Log, key: Key, clock: nat) {
    && Sorted(log.attempts, clock) && Sorted(log.failures, clock)
    && Tail(Deque(s.attempts, key), log.attempts, clock - WINDOW)
    && Tail(Deque(s.failures, key), log.failures, clock - LOCKOUT)
    && LockMatches(s, log.failures, key, clock)
  }

  lemma {:induction false} TailAges(deque: seq<nat>, log: seq<nat>, bound: int, later: int)
    requires Tail(deque, log, bound) && bound <= later
    ensures Tail(deque, log, later)
  {
  }

  lemma {:induction false} CheckKeepsMatch(s: State, log: Log, key: Key, clock: nat, now: nat)
    requires Matches(s, log, key, clock) && clock <= now
    ensures Matches(AfterCheck(s, key, now), log, key, now)
  {
    PruneKeepsTail(Deque(s.attempts, key), log.attempts, now - WINDOW, now - WINDOW);
  }

  lemma {:induction false} PushAndPrune(deque: seq<nat>, log: seq<nat>, clock: nat, now: nat, width: nat)
    requires Tail(deque, log, clock - width) && Sorted(log, clock) && clock <= now
    ensures Tail(Prune(deque + [now], now - width), log + [now], now - width) && Sorted(log + [now], now)
  {
    PruneKeepsTail(deque + [now], log + [now], clock - width, now - width);
  }

  /** A new failure locks the key exactly if it completes twenty within 900 seconds. */
  lemma {:induction false} LockAfter(deque: seq<nat>, failures: seq<nat>, clock: nat, now: nat)
    requires Tail(deque, failures, clock - LOCKOUT) && Sorted(failures, clock) && clock <= now
    ensures LockEnd(failures + [now]) ==
      if |Prune(deque + [now], now - LOCKOUT)| >= THRESHOLD then Some(now + LOCKOUT) else LockEnd(failures)
  {
    LongIffRecent(deque + [now], failures + [now], now, clock - LOCKOUT, now - LOCKOUT, THRESHOLD);
  }

  lemma {:induction false} LocksKept(s: State, s': State, log: seq<nat>, key: Key, clock: nat, now: nat, lock: bool)
    requires Tail(Deque(s.failures, key), log, clock - LOCKOUT) && Sorted(log, clock) && clock <= now
    requires LockMatches(s, log, key, clock)
    requires var full := |Prune(Deque(s.failures, key) + [now], now - LOCKOUT)| >= THRESHOLD;
      s'.lockouts == if lock && full then s.lockouts[key := now + LOCKOUT] else s.lockouts
    ensures LockMatches(s', if lock then log + [now] else log, key, now)
  {
    LockAfter(Deque(s.failures, key), log, clock, now);
  }

  lemma {:induction false} AttemptsKept(s: State, s': State, log: seq<nat>, key: Key, clock: nat, now: nat)
    requires Tail(Deque(s.attempts, key), log, clock - WINDOW) && Sorted(log, clock) && clock <= now
    requires Deque(s'.attempts, key) == Prune(Deque(s.attempts, key) + [now], now - WINDOW)
    ensures Sorted(log + [now], now) && Tail(Deque(s'.attempts, key), log + [now], now - WINDOW)
  {
    PushAndPrune(Deque(s.attempts, key), log, clock, now, WINDOW);
  }

  lemma {:induction false} FailuresKept(s: State, s': State, log: seq<nat>, key: Key, clock: nat, now: nat, lock: bool)
    requires Tail(Deque(s.failures, key), log, clock - LOCKOUT) && Sorted(log, clock) && clock <= now
    requires lock ==> Deque(s'.failures, key) == Prune(Deque(s.failures, key) + [now], now - LOCKOUT)
    requires !lock ==> Deque(s'.failures, key) == Deque(s.failures, key)
    ensures var log' := if lock then log + [now] else log;
      Sorted(log', now) && Tail(Deque(s'.failures, key), log', now - LOCKOUT)
  {
    if lock {
      PushAndPrune(Deque(s.failures, key), log, clock, now, LOCKOUT);
    } else {
      TailAges(Deque(s.failures, key), log, clock - LOCKOUT, now - LOCKOUT);
    }
  }

  lemma {:induction false} FailureKeepsMatch(s: State, log: Log, key: Key, clock: nat, now: nat, lock: bool)
    requires Matches(s, log, key, clock) && clock <= now
    ensures Matches(AfterFailure(s, key, now, lock), Noted(log, key, Failure(key, now, lock)), key, now)
  {
    FailureStep(s, AfterFailure(s, key, now, lock), log, key, clock, now, lock);
  }

  lemma {:induction false} FailureStep(s: State, s': State, log: Log, key: Key, clock: nat, now: nat, lock: bool)
    requires Matches(s, log, key, clock) && clock <= now
    requires var pruned := Prune(Deque(s.failures, key) + [now], now - LOCKOUT);
      && Deque(s'.attempts, key) == Prune(Deque(s.attempts, key) + [now], now - WINDOW)
      && Deque(s'.failures, key) == (if lock then pruned else Deque(s.failures, key))
      && s'.lockouts == if lock && |pruned| >= THRESHOLD then s.lockouts[key := now + LOCKOUT] else s.lockouts
    ensures Matches(s', Noted(log, key, Failure(key, now, lock)), key, now)
  {
    AttemptsKept(s, s', log.attempts, key, clock, now);
    FailuresKept(s, s', log.failures, key, clock, now, lock);
    LocksKept(s, s', log.failures, key, clock, now, lock);
  }

  /**
   What a check leaves: everything while a lockout goes on; otherwise no lockout of the key, and of its
   attempts only those of the last 60 s.
   */
  lemma {:induction false} CheckTidies(s: State, log: Log, key: Key, clock: nat, now: nat)
    requires Matches(s, log, key, clock) && clock <= now
    ensures var s' := AfterCheck(s, key, now);
      if VerdictOn(s, key, now).Locked? then s' == s
      else
        && key !in s'.lockouts && s'.failures == s.failures
        && forall t :: t in Deque(s'.attempts, key) ==> now - 60 <= t && t in log.attempts
  {
    PruneKeepsTail(Deque(s.attempts, key), log.attempts, clock - WINDOW, now - WINDOW);
  }

  /** What happens to another key leaves this one as it was. */
  lemma {:induction false} OtherKeysApart(s: State, e: Event, key: Key)
    requires e.key != key
    ensures var s' := Step(s, e);
      && Deque(s'.attempts, key) == Deque(s.attempts, key) && Deque(s'.failures, key) == Deque(s.failures, key)
      && (key in s'.lockouts <==> key in s.lockouts)
      && (key in s.lockouts ==> s'.lockouts[key] == s.lockouts[key])
  {
  }

  lemma {:induction false} OthersKeepMatch(s: State, log: Log, key: Key, clock: nat, e: Event)
    requires Matches(s, log, key, clock) && clock <= TimeOf(e, clock) && e.key != key
    ensures Matches(Step(s, e), log, key, TimeOf(e, clock))
  {
    OtherKeysApart(s, e, key);
  }

  lemma {:induction false} ResetKeepsMatch(s: State, log: Log, clock: nat, e: Event)
    requires Matches(s, log, e.key, clock) && (e.Success? || e.ClearWindow?)
    ensures Matches(Step(s, e), Noted(log, e.key, e), e.key, clock)
  {
  }

  lemma {:induction false} StepKeepsMatch(s: State, log: Log, key: Key, clock: nat, e: Event)
    requires Matches(s, log, key, clock) && clock <= TimeOf(e, clock)
    ensures Matches(Step(s, e), Noted(log, key, e), key, TimeOf(e, clock))
  {
    if e.key != key {
      OthersKeepMatch(s, log, key, clock, e);
    } else if e.Check? {
      CheckKeepsMatch(s, log, key, clock, e.now);
    } else if e.Failure? {
      FailureKeepsMatch(s, log, key, clock, e.now, e.applyLockout);
    } else {
      ResetKeepsMatch(s, log, clock, e);
    }
  }

  lemma {:induction false} RunKeepsMatch(s: State, log: Log, key: Key, clock: nat, es: seq<Event>)
    requires Matches(s, log, key, clock) && Clocked(clock, es)
    ensures Matches(Run(s, es), History(log, key, es), key, ClockAfter(clock, es))
    decreases |es|
  {
    if es != [] {
      StepKeepsMatch(s, log, key, clock, es[0]);
      RunKeepsMatch(Step(s, es[0]), Noted(log, key, es[0]), key, TimeOf(es[0], clock), es[1..]);
    }
  }

  /**
   The deques and their pruning, over every run and for every key, decide as the rule does on the
   whole history: locked out until 900 s after the last failure that was the twentieth within 900 s,
   slowed down if the eighth-last attempt since the last clearing is no more than 60 s old.
   */
  lemma {:induction false} VerdictFollowsHistory(es: seq<Event>, key: Key, now: nat)
    requires Clocked(0, es) && ClockAfter(0, es) <= now
    ensures VerdictOn(Run(EMPTY, es), key, now) == Rule(History(NOTHING, key, es), now)
  {
    var s, log, clock := Run(EMPTY, es), History(NOTHING, key, es), ClockAfter(0, es);
    RunKeepsMatch(EMPTY, NOTHING, key, 0, es);
    LongIffRecent(Deque(s.attempts, key), log.attempts, clock, clock - WINDOW, now - WINDOW, MAX_ATTEMPTS);
  }

  // ---------------------------------------------------------------- username keys and address keys

  predicate NeverLocks(key: Key, es: seq<Event>) {
    forall e :: e in es && e.key == key && e.Failure? ==> !e.applyLockout
  }

  lemma {:induction false} NoFailureHistory(key: Key, es: seq<Event>, log: Log)
    requires NeverLocks(key, es) && log.failures == []
    ensures History(log, key, es).failures == []
    decreases |es|
  {
    if es != [] {
      assert es[0] in es && forall e :: e in es[1..] ==> e in es;
      NoFailureHistory(key, es[1..], Noted(log, key, es[0]));
    }
  }

  /**
   A key whose failures never ask for a lockout never has failure history or a lockout, and is
   refused exactly while the eighth-last recorded attempt is no more than 60 s old.
   */
  lemma {:induction false} UsernameAlwaysReopens(es: seq<Event>, key: Key, now: nat)
    requires Clocked(0, es) && ClockAfter(0, es) <= now && NeverLocks(key, es)
    ensures Deque(Run(EMPTY, es).failures, key) == [] && key !in Run(EMPTY, es).lockouts
    ensures var attempts := History(NOTHING, key, es).attempts;
      VerdictOn(Run(EMPTY, es), key, now) != Allowed <==>
        |attempts| >= 8 && now - attempts[|attempts| - 8] <= 60
  {
    NoFailureHistory(key, es, NOTHING);
    RunKeepsMatch(EMPTY, NOTHING, key, 0, es);
    VerdictFollowsHistory(es, key, now);
  }

  lemma {:induction false} LockEndGrows(failures: seq<nat>, later: seq<nat>, clock: nat, i: nat)
    requires failures <= later && Sorted(later, clock) && THRESHOLD <= i <= |failures|
    requires failures[i - 1] - failures[i - THRESHOLD] <= LOCKOUT
    ensures LockEnd(later).Some? && LockEnd(later).value >= failures[i - 1] + LOCKOUT
    decreases |later|
  {
    var n := |later|;
    if n > i && later[n - 1] - later[n - THRESHOLD] > LOCKOUT {
      LockEndGrows(failures[..i], later[..n - 1], clock, i);
    }
  }

  predicate NoSuccess(key: Key, es: seq<Event>) { Success(key) !in es }

  lemma {:induction false} FailuresOnlyGrow(key: Key, es: seq<Event>, log: Log)
    requires NoSuccess(key, es)
    ensures log.failures <= History(log, key, es).failures
    decreases |es|
  {
    if es != [] {
      assert es[0] != Success(key) && forall e :: e in es[1..] ==> e in es;
      FailuresOnlyGrow(key, es[1..], Noted(log, key, es[0]));
    }
  }

  lemma {:induction false} HistoryAppends(log: Log, key: Key, es: seq<Event>, more: seq<Event>)
    ensures History(log, key, es + more) == History(History(log, key, es), key, more)
    decreases |es|
  {
    if es == [] {
      assert es + more == more;
    } else {
      assert (es + more)[0] == es[0] && (es + more)[1..] == es[1..] + more;
      HistoryAppends(Noted(log, key, es[0]), key, es[1..], more);
    }
  }

  /**
   Twenty failures of an address within 900 s refuse it until 900 s after the twentieth, whatever
   else happens short of a full reset of the key: clearing its short window does not help.
   */
  lemma {:induction false} AddressStaysLocked(before: seq<Event>, after: seq<Event>, key: Key, now: nat)
    requires Clocked(0, before + after) && ClockAfter(0, before + after) <= now && NoSuccess(key, after)
    requires var failures := History(NOTHING, key, before).failures; var n := |failures|;
      n >= 20 && failures[n - 1] <= failures[n - 20] + 900 && now < failures[n - 1] + 900
    ensures var failures := History(NOTHING, key, before).failures;
      var verdict := VerdictOn(Run(EMPTY, before + after), key, now);
      verdict.Locked? && now + verdict.retryAfter >= failures[|failures| - 1] + 900
  {
    var log, all := History(NOTHING, key, before), History(NOTHING, key, before + after);
    HistoryAppends(NOTHING, key, before, after);
    FailuresOnlyGrow(key, after, log);
    HistorySorted(before + after, key);
    LockEndGrows(log.failures, all.failures, ClockAfter(0, before + after), |log.failures|);
    VerdictFollowsHistory(before + after, key, now);
  }

  lemma {:induction false} HistorySorted(es: seq<Event>, key: Key)
    requires Clocked(0, es)
    ensures Sorted(History(NOTHING, key, es).failures, ClockAfter(0, es))
  {
    RunKeepsMatch(EMPTY, NOTHING, key, 0, es);
  }

  // ---------------------------------------------------------------- how many attempts get through

  /**
   The attempts on a key: each begins with a check that allows it, and ends by recording a failure
   or without one. `open` of them are between the two.
   */
  datatype Act = Begin(now: nat) | Fail(now: nat, applyLockout: bool) | Leave | Wipe(full: bool) | Other(e: Event)

  datatype Scene = Scene(s: State, open: nat, clock: nat, records: seq<nat>)

  predicate Enabled(c: Scene, key: Key, a: Act, most: nat) {
    match a
    case Begin(now) => c.clock <= now && (VerdictOn(c.s, key, now).Allowed? ==> c.open < most)
    case Fail(now, _) => c.clock <= now && c.open > 0
    case Leave => c.open > 0
    case Wipe(_) => true
    case Other(e) => e.key != key && c.clock <= TimeOf(e, c.clock)
  }

  /** `records` are the failures recorded since the window was last cleared. */
  function Next(c: Scene, key: Key, a: Act): Scene
    requires a.Fail? || a.Leave? ==> c.open > 0
  {
    match a
    case Begin(now) =>
      Scene(AfterCheck(c.s, key, now), if VerdictOn(c.s, key, now).Allowed? then c.open + 1 else c.open, now,
            c.records)
    case Fail(now, lock) => Scene(AfterFailure(c.s, key, now, lock), c.open - 1, now, c.records + [now])
    case Leave => c.(open := c.open - 1)
    case Wipe(full) => c.(s := Step(c.s, if full then Success(key) else ClearWindow(key)), records := [])
    case Other(e) => c.(s := Step(c.s, e), clock := TimeOf(e, c.clock))
  }

  ghost predicate Play(c: Scene, key: Key, acts: seq<Act>, most: nat)
    decreases |acts|
  {
    acts == [] || (Enabled(c, key, acts[0], most) && Play(Next(c, key, acts[0]), key, acts[1..], most))
  }

  ghost function Ending(c: Scene, key: Key, acts: seq<Act>, most: nat): Scene
    requires Play(c, key, acts, most)
    decreases |acts|
  {
    if acts == [] then c else Ending(Next(c, key, acts[0]), key, acts[1..], most)
  }

  /** Every record is more than 60 s after the one `span` places before it. */
  ghost predicate Spaced(records: seq<nat>, span: nat) {
    forall i :: 0 <= i < |records| - span ==> records[i + span] > records[i] + 60
  }

  /** The recent records and the open attempts together are at most 7 + most. */
  ghost predicate Room(records: seq<nat>, open: nat, clock: nat, most: nat) {
    var i := |records| + open - MAX_ATTEMPTS - most;
    open <= most && (i >= 0 ==> clock - records[i] > WINDOW)
  }

  ghost predicate SceneInv(c: Scene, key: Key, most: nat) {
    && Sorted(c.records, c.clock) && Tail(Deque(c.s.attempts, key), c.records, c.clock - WINDOW)
    && Spaced(c.records, MAX_ATTEMPTS - 1 + most) && Room(c.records, c.open, c.clock, most)
  }

  lemma {:induction false} BeginKeepsInv(c: Scene, key: Key, now: nat, most: nat)
    requires SceneInv(c, key, most) && Enabled(c, key, Begin(now), most)
    ensures SceneInv(Next(c, key, Begin(now)), key, most)
  {
    TailAges(Deque(c.s.attempts, key), c.records, c.clock - WINDOW, now - WINDOW);
    PruneKeepsTail(Deque(c.s.attempts, key), c.records, now - WINDOW, now - WINDOW);
    BeginKeepsRoom(c, key, now, most);
  }

  lemma {:induction false} BeginKeepsRoom(c: Scene, key: Key, now: nat, most: nat)
    requires SceneInv(c, key, most) && Enabled(c, key, Begin(now), most)
    ensures var open := if VerdictOn(c.s, key, now).Allowed? then c.open + 1 else c.open;
      Room(c.records, open, now, most)
  {
    var n := |c.records|;
    LongIffRecent(Deque(c.s.attempts, key), c.records, c.clock, c.clock - WINDOW, now - WINDOW, MAX_ATTEMPTS);
    assert VerdictOn(c.s, key, now).Allowed? ==> n < MAX_ATTEMPTS || c.records[n - MAX_ATTEMPTS] < now - WINDOW;
  }

  lemma {:induction false} FailKeepsInv(c: Scene, key: Key, now: nat, lock: bool, most: nat)
    requires SceneInv(c, key, most) && Enabled(c, key, Fail(now, lock), most)
    ensures SceneInv(Next(c, key, Fail(now, lock)), key, most)
  {
    PushAndPrune(Deque(c.s.attempts, key), c.records, c.clock, now, WINDOW);
    OneMoreSpaced(c.records, c.clock, c.open, now, most);
  }

  lemma {:induction false} OneMoreSpaced(records: seq<nat>, clock: nat, open: nat, now: nat, most: nat)
    requires Sorted(records, clock) && Spaced(records, MAX_ATTEMPTS - 1 + most) && clock <= now && 0 < open <= most
    requires var i := |records| + open - MAX_ATTEMPTS - most; i >= 0 ==> clock - records[i] > WINDOW
    ensures Spaced(records + [now], MAX_ATTEMPTS - 1 + most)
  {
  }

  lemma {:induction false} ActKeepsInv(c: Scene, key: Key, a: Act, most: nat)
    requires SceneInv(c, key, most) && Enabled(c, key, a, most)
    ensures SceneInv(Next(c, key, a), key, most)
  {
    if a.Begin? {
      BeginKeepsInv(c, key, a.now, most);
    } else if a.Fail? {
      FailKeepsInv(c, key, a.now, a.applyLockout, most);
    } else if a.Other? {
      OtherKeysApart(c.s, a.e, key);
      TailAges(Deque(c.s.attempts, key), c.records, c.clock - WINDOW, TimeOf(a.e, c.clock) - WINDOW);
    }
  }

  /**
   Over every run with at most `most` attempts between their check and their record, no 60 s hold
   more than 7 + most failures recorded since the window was cleared: eight, if an attempt's check
   and record are never interleaved with another's.
   */
  lemma {:induction false} FewFailuresAMinute(c: Scene, key: Key, acts: seq<Act>, most: nat)
    requires SceneInv(c, key, most) && Play(c, key, acts, most)
    ensures SceneInv(Ending(c, key, acts, most), key, most)
    ensures Spaced(Ending(c, key, acts, most).records, 7 + most)
    decreases |acts|
  {
    if acts != [] {
      ActKeepsInv(c, key, acts[0], most);
      FewFailuresAMinute(Next(c, key, acts[0]), key, acts[1..], most);
    }
  }

  /** In particular from an empty limiter on, whatever the key. */
  lemma {:induction false} FewFailuresFromTheStart(key: Key, clock: nat, acts: seq<Act>, most: nat)
    requires Play(Scene(EMPTY, 0, clock, []), key, acts, most)
    ensures Spaced(Ending(Scene(EMPTY, 0, clock, []), key, acts, most).records, 7 + most)
  {
    FewFailuresAMinute(Scene(EMPTY, 0, clock, []), key, acts, most);
  }

  /** Attempts one after the other up to seven, then two checked before either is recorded. */
  function Rush(i: nat): seq<Act>
    requires i <= 7
    decreases 7 - i
  {
    if i == 7 then [Begin(100), Begin(100), Fail(100, false), Fail(100, false)]
    else [Begin(100), Fail(100, false)] + Rush(i + 1)
  }

  ghost predicate Filled(c: Scene, key: Key, i: nat) {
    c.clock == 100 && c.open == 0 && c.records == seq(i, _ => 100) == Deque(c.s.attempts, key) && key !in c.s.lockouts
  }

  lemma {:induction false} RushMakesNine(c: Scene, key: Key, i: nat)
    requires i <= 7 && Filled(c, key, i)
    ensures Play(c, key, Rush(i), 2)
    ensures Ending(c, key, Rush(i), 2).records == seq(9, _ => 100)
    decreases 7 - i
  {
    var acts := Rush(i);
    if i < 7 {
      var c1 := Next(c, key, Begin(100));
      var c2 := Next(c1, key, Fail(100, false));
      RushMakesNine(c2, key, i + 1);
      assert acts[1..][1..] == Rush(i + 1) && acts[1..][0] == Fail(100, false);
      assert Play(c1, key, acts[1..], 2);
    } else {
      LastTwo(c, key);
    }
  }

  lemma {:induction false} LastTwo(c: Scene, key: Key)
    requires Filled(c, key, 7)
    ensures Play(c, key, Rush(7), 2)
    ensures Ending(c, key, Rush(7), 2).records == seq(9, _ => 100)
  {
  }

  /** The bound is reached: with two attempts open at once, nine failures in the same second. */
  lemma {:induction false} TwoAtOnceMakeNine(key: Key)
    ensures var start := Scene(EMPTY, 0, 100, []);
      Play(start, key, Rush(0), 2) && Ending(start, key, Rush(0), 2).records == seq(9, _ => 100)
  {
    RushMakesNine(Scene(EMPTY, 0, 100, []), key, 0);
  }
}
