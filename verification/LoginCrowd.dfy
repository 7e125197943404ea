/**
 The rate limiter under sign-ins that run side by side: how many failures get through when many calls
 are between their check and their record, and how a lockout holds whatever else is under way.
 */
module LoginCrowd {
  import opened Wrappers
  import Limiter = LoginLimiter
  import Login
  import Threads = LoginThreads

  type Key = Limiter.Key

  // ---------------------------------------------------------------- what a run does to the limiter

  /** What a step does to the limiter, if anything. */
  function EventOf(w: Threads.World, m: Threads.Move): seq<Limiter.Event>
    requires Threads.Enabled(w, m)
  {
    match m
    case Begin(_, c, now) => if Login.Fits(c) then [Limiter.Check(c.host, now)] else []
    case CheckName(id, now) => [Limiter.Check(Login.UserKey(w.threads[id].call.normal), now)]
    case RecordFailure(id, now) =>
      var c := w.threads[id].call;
      if w.threads[id].addressRecorded then [Limiter.Failure(Login.UserKey(c.normal), now, false)]
      else [Limiter.Failure(c.host, now, true)]
    case ResetCounter(id) =>
      var c := w.threads[id].call;
      if w.threads[id].windowCleared then [Limiter.Success(Login.UserKey(c.normal))]
      else [Limiter.ClearWindow(c.host)]
    case _ => []
  }

  ghost function LimiterLog(w: Threads.World, ms: seq<Threads.Move>): seq<Limiter.Event>
    requires Threads.Play(w, ms)
    decreases |ms|
  {
    if ms == [] then [] else EventOf(w, ms[0]) + LimiterLog(Threads.Next(w, ms[0]), ms[1..])
  }

  lemma {:induction false} MoveIsItsEvent(w: Threads.World, m: Threads.Move)
    requires Threads.Enabled(w, m)
    ensures Threads.Next(w, m).limiter == Limiter.Run(w.limiter, EventOf(w, m))
  {
    var es := EventOf(w, m);
    if es != [] { Login.RunOne(w.limiter, es[0]); }
  }

  lemma {:induction false} LogIsTheLimiter(w: Threads.World, ms: seq<Threads.Move>)
    requires Threads.Play(w, ms)
    ensures Threads.Run(w, ms).limiter == Limiter.Run(w.limiter, LimiterLog(w, ms))
    decreases |ms|
  {
    if ms != [] {
      MoveIsItsEvent(w, ms[0]);
      LogIsTheLimiter(Threads.Next(w, ms[0]), ms[1..]);
      Limiter.RunAppends(w.limiter, EventOf(w, ms[0]), LimiterLog(Threads.Next(w, ms[0]), ms[1..]));
    }
  }

  // ---------------------------------------------------------------- calls under way

  /** The call has passed the check of this key and may still record a failure on it. */
  predicate IsOpen(t: Threads.Thread, key: Key) {
    match t
    case AddressPassed(c) => key == c.host
    case Failing(c, recorded) => key == Login.UserKey(c.normal) || (key == c.host && !recorded)
    case _ => key == t.call.host || key == Login.UserKey(t.call.normal)
  }

  function Open(threads: map<nat, Threads.Thread>, key: Key): set<nat> {
    set id | id in threads && IsOpen(threads[id], key)
  }

  /** Never more than `most` at once. */
  ghost predicate Few(w: Threads.World, ms: seq<Threads.Move>, key: Key, most: nat)
    requires Threads.Play(w, ms)
    decreases |ms|
  {
    |Open(w.threads, key)| <= most && (ms == [] || Few(Threads.Next(w, ms[0]), ms[1..], key, most))
  }

  /** A check of the key that lets a call through opens it. */
  lemma {:induction false} CheckOpens(w: Threads.World, m: Threads.Move, key: Key)
    requires Threads.ThreadsOk(w.threads) && Threads.Enabled(w, m) && Threads.FromAddress(m)
    requires EventOf(w, m) != [] && EventOf(w, m)[0].Check? && EventOf(w, m)[0].key == key
    ensures var after := Open(Threads.Next(w, m).threads, key);
      if Limiter.VerdictOn(w.limiter, key, m.now).Allowed? then
        m.id !in Open(w.threads, key) && after == Open(w.threads, key) + {m.id}
      else after <= Open(w.threads, key)
  {
  }

  /** Recording a failure on the key closes it. */
  lemma {:induction false} FailureCloses(w: Threads.World, m: Threads.Move, key: Key)
    requires Threads.ThreadsOk(w.threads) && Threads.Enabled(w, m) && m.RecordFailure?
    requires EventOf(w, m)[0].key == key
    ensures m.id in Open(w.threads, key)
    ensures Open(Threads.Next(w, m).threads, key) == Open(w.threads, key) - {m.id}
  {
    var c := w.threads[m.id].call;
    assert Threads.ThreadOk(w.threads[m.id]) && Login.UserKey(c.normal)[..5] == "user:";
  }

  /** Every other step opens nothing on the key. */
  lemma {:induction false} OthersOpenNothing(w: Threads.World, m: Threads.Move, key: Key)
    requires Threads.Enabled(w, m)
    requires EventOf(w, m) == [] || !EventOf(w, m)[0].Check? || EventOf(w, m)[0].key != key
    ensures Open(Threads.Next(w, m).threads, key) <= Open(w.threads, key)
  {
    match m {
      case Begin(id, c, now) =>
      case CheckName(id, now) =>
      case ReadAccount(id) =>
      case AskFactor(id, now) => AskOpensNothing(w, id, w.threads[id].call, w.threads[id].user, now, key);
      case VerifyAnswer(id) =>
      case RecordFailure(id, now) =>
      case ResetCounter(id) =>
      case ChangeUsers(_) =>
      case Register(_, _, _) =>
      case FinishRegistration(_, _, _) =>
    }
  }

  lemma {:induction false} AskOpensNothing(w: Threads.World, id: nat, c: Login.Call, u: Login.User, now: nat, key: Key)
    requires id in w.threads && w.threads[id] == Threads.Known(c, u)
    ensures Open(Threads.Ask(w, id, c, u, now).threads, key) <= Open(w.threads, key)
  {
  }

  // ---------------------------------------------------------------- failures a minute

  ghost predicate Scene(w: Threads.World, key: Key, most: nat, clock: nat, log: Limiter.Log) {
    Limiter.SceneInv(Limiter.Scene(w.limiter, |Open(w.threads, key)|, clock, log.attempts), key, most)
  }

  lemma {:induction false} SubsetIsSmaller(a: set<nat>, b: set<nat>)
    requires a <= b
    ensures |a| <= |b|
  {
    assert |b| == |a| + |b - a| by { assert b == a + (b - a); }
  }

  /** Fewer calls under way leave more room. */
  lemma {:induction false} FewerIsFine(c: Limiter.Scene, key: Key, most: nat, open: nat)
    requires Limiter.SceneInv(c, key, most) && open <= c.open
    ensures Limiter.SceneInv(c.(open := open), key, most)
  {
  }

  /** What one event makes of the scene, with `open` calls under way after it. */
  ghost predicate SceneAfter(w: Threads.World, key: Key, most: nat, clock: nat, log: Limiter.Log, e: Limiter.Event,
                             open: nat) {
    Limiter.SceneInv(Limiter.Scene(Limiter.Step(w.limiter, e), open, Limiter.TimeOf(e, clock),
                                   Limiter.Noted(log, key, e).attempts), key, most)
  }

  lemma {:induction false} OtherKeepsScene(w: Threads.World, key: Key, most: nat, clock: nat, log: Limiter.Log,
                                           e: Limiter.Event, open: nat)
    requires clock <= Limiter.TimeOf(e, clock) && e.key != key
    requires Scene(w, key, most, clock, log) && open <= |Open(w.threads, key)|
    ensures SceneAfter(w, key, most, clock, log, e, open)
  {
  }

  lemma {:induction false} WipeKeepsScene(w: Threads.World, key: Key, most: nat, clock: nat, log: Limiter.Log,
                                          e: Limiter.Event, open: nat)
    requires e.key == key && (e.Success? || e.ClearWindow?)
    requires Scene(w, key, most, clock, log) && open <= |Open(w.threads, key)|
    ensures SceneAfter(w, key, most, clock, log, e, open)
  {
  }

  lemma {:induction false} CheckKeepsScene(w: Threads.World, key: Key, most: nat, clock: nat, log: Limiter.Log,
                                           now: nat, open: nat)
    requires clock <= now && open <= most && Scene(w, key, most, clock, log)
    requires if Limiter.VerdictOn(w.limiter, key, now).Allowed? then open == |Open(w.threads, key)| + 1
             else open <= |Open(w.threads, key)|
    ensures SceneAfter(w, key, most, clock, log, Limiter.Check(key, now), open)
  {
    var c := Limiter.Scene(w.limiter, |Open(w.threads, key)|, clock, log.attempts);
    Limiter.ActKeepsInv(c, key, Limiter.Begin(now), most);
    if !Limiter.VerdictOn(w.limiter, key, now).Allowed? {
      FewerIsFine(Limiter.Next(c, key, Limiter.Begin(now)), key, most, open);
    }
  }

  lemma {:induction false} FailureKeepsScene(w: Threads.World, key: Key, most: nat, clock: nat, log: Limiter.Log,
                                             e: Limiter.Event, open: nat)
    requires e.Failure? && e.key == key && clock <= e.now
    requires Scene(w, key, most, clock, log) && |Open(w.threads, key)| == open + 1
    ensures SceneAfter(w, key, most, clock, log, e, open)
  {
    var c := Limiter.Scene(w.limiter, |Open(w.threads, key)|, clock, log.attempts);
    Limiter.ActKeepsInv(c, key, Limiter.Fail(e.now, e.applyLockout), most);
  }

  /** A step that touches the limiter, by what it does there. */
  lemma {:induction false} EventKeepsScene(w: Threads.World, m: Threads.Move, key: Key, most: nat, clock: nat,
                                           log: Limiter.Log, e: Limiter.Event)
    requires Threads.ThreadsOk(w.threads) && Threads.Enabled(w, m) && Threads.FromAddress(m)
    requires EventOf(w, m) == [e] && clock <= Limiter.TimeOf(e, clock)
    requires Scene(w, key, most, clock, log) && |Open(Threads.Next(w, m).threads, key)| <= most
    ensures SceneAfter(w, key, most, clock, log, e, |Open(Threads.Next(w, m).threads, key)|)
  {
    var before, after := Open(w.threads, key), Open(Threads.Next(w, m).threads, key);
    if e.Check? && e.key == key {
      CheckOpens(w, m, key);
      if !Limiter.VerdictOn(w.limiter, key, e.now).Allowed? { SubsetIsSmaller(after, before); }
      CheckKeepsScene(w, key, most, clock, log, e.now, |after|);
    } else if e.Failure? && e.key == key {
      FailureCloses(w, m, key);
      FailureKeepsScene(w, key, most, clock, log, e, |after|);
    } else {
      OthersOpenNothing(w, m, key);
      SubsetIsSmaller(after, before);
      if e.key != key {
        OtherKeepsScene(w, key, most, clock, log, e, |after|);
      } else {
        WipeKeepsScene(w, key, most, clock, log, e, |after|);
      }
    }
  }

  lemma {:induction false} MoveKeepsScene(w: Threads.World, m: Threads.Move, key: Key, most: nat, clock: nat,
                                          log: Limiter.Log)
    requires Threads.ThreadsOk(w.threads) && Threads.Enabled(w, m) && Threads.FromAddress(m)
    requires Limiter.Clocked(clock, EventOf(w, m))
    requires Scene(w, key, most, clock, log) && |Open(Threads.Next(w, m).threads, key)| <= most
    ensures Scene(Threads.Next(w, m), key, most, Limiter.ClockAfter(clock, EventOf(w, m)),
                  Limiter.History(log, key, EventOf(w, m)))
  {
    var es := EventOf(w, m);
    if es == [] {
      MoveIsItsEvent(w, m);
      OthersOpenNothing(w, m, key);
      SubsetIsSmaller(Open(Threads.Next(w, m).threads, key), Open(w.threads, key));
      FewerIsFine(Limiter.Scene(w.limiter, |Open(w.threads, key)|, clock, log.attempts), key, most,
                  |Open(Threads.Next(w, m).threads, key)|);
    } else {
      EventKeepsScene(w, m, key, most, clock, log, es[0]);
      MoveIsItsEvent(w, m);
      Login.RunOne(w.limiter, es[0]);
    }
  }

  lemma {:induction false} ClockedParts(clock: nat, a: seq<Limiter.Event>, b: seq<Limiter.Event>)
    requires Limiter.Clocked(clock, a + b)
    ensures Limiter.Clocked(clock, a) && Limiter.Clocked(Limiter.ClockAfter(clock, a), b)
    ensures Limiter.ClockAfter(clock, a + b) == Limiter.ClockAfter(Limiter.ClockAfter(clock, a), b)
    decreases |a|
  {
    if a == [] {
      assert a + b == b;
    } else {
      assert (a + b)[0] == a[0] && (a + b)[1..] == a[1..] + b;
      ClockedParts(Limiter.TimeOf(a[0], clock), a[1..], b);
    }
  }

  lemma {:induction false} RunKeepsScene(w: Threads.World, ms: seq<Threads.Move>, key: Key, most: nat, clock: nat,
                                         log: Limiter.Log)
    requires Threads.ThreadsOk(w.threads) && Threads.Play(w, ms) && Few(w, ms, key, most)
    requires Limiter.Clocked(clock, LimiterLog(w, ms)) && Scene(w, key, most, clock, log)
    ensures Limiter.Spaced(Limiter.History(log, key, LimiterLog(w, ms)).attempts, 7 + most)
    decreases |ms|
  {
    if ms != [] {
      var next, es := Threads.Next(w, ms[0]), EventOf(w, ms[0]);
      var rest := LimiterLog(next, ms[1..]);
      ClockedParts(clock, es, rest);
      Threads.MoveKeepsThreads(w, ms[0]);
      MoveKeepsScene(w, ms[0], key, most, clock, log);
      RunKeepsScene(next, ms[1..], key, most, Limiter.ClockAfter(clock, es), Limiter.History(log, key, es));
      Limiter.HistoryAppends(log, key, es, rest);
    }
  }

  /**
   In every interleaving with at most `most` calls under way on a key at any time, no 60 s hold more
   than 7 + most failures recorded on it since its window was cleared.
   */
  lemma {:induction false} FewFailuresSideBySide(ms: seq<Threads.Move>, key: Key, most: nat)
    requires Threads.Play(Threads.START, ms) && Few(Threads.START, ms, key, most)
    requires Limiter.Clocked(0, LimiterLog(Threads.START, ms))
    ensures Limiter.Spaced(Limiter.History(Limiter.NOTHING, key, LimiterLog(Threads.START, ms)).attempts,
                           7 + most)
  {
    assert Open(Threads.START.threads, key) == {};
    RunKeepsScene(Threads.START, ms, key, most, 0, Limiter.NOTHING);
  }

  // ---------------------------------------------------------------- one username and the others

  /** Neither a call under way nor one that begins is under this username. */
  ghost predicate NoneUnder(w: Threads.World, ms: seq<Threads.Move>, normal: string) {
    && (forall id :: id in w.threads ==> !Login.SameName(w.threads[id].call.normal, normal))
    && (forall i :: 0 <= i < |ms| && ms[i].Begin? ==> !Login.SameName(ms[i].call.normal, normal))
  }

  /** One thread goes on with this call or is gone, and the others stand. */
  ghost predicate MovesOne(threads: map<nat, Threads.Thread>, threads': map<nat, Threads.Thread>, id: nat,
                           call: Login.Call)
  {
    forall i :: i in threads' ==>
      if i == id then threads'[i].call == call else i in threads && threads'[i] == threads[i]
  }

  lemma {:induction false} AskMovesOne(w: Threads.World, id: nat, call: Login.Call, user: Login.User, now: nat)
    ensures MovesOne(w.threads, Threads.Ask(w, id, call, user, now).threads, id, call)
  {
  }

  lemma {:induction false} CheckMovesOne(w: Threads.World, id: nat, key: Key, now: nat, onward: Threads.Thread)
    ensures MovesOne(w.threads, Threads.Check(w, id, key, now, onward).threads, id, onward.call)
  {
  }

  lemma {:induction false} CallsStay(w: Threads.World, m: Threads.Move, id: nat)
    requires Threads.Enabled(w, m) && id in Threads.Next(w, m).threads
    ensures var call := Threads.Next(w, m).threads[id].call;
      if m.Begin? && id == m.id then call == m.call else id in w.threads && call == w.threads[id].call
  {
    if m.AskFactor? {
      AskMovesOne(w, m.id, w.threads[m.id].call, w.threads[m.id].user, m.now);
    } else if m.CheckName? {
      var call := w.threads[m.id].call;
      CheckMovesOne(w, m.id, Login.UserKey(call.normal), m.now, Threads.BothPassed(call));
    } else if m.Begin? && Login.Fits(m.call) {
      CheckMovesOne(w, m.id, m.call.host, m.now, Threads.AddressPassed(m.call));
    }
  }

  lemma {:induction false} EventUnderOthers(w: Threads.World, m: Threads.Move, normal: string)
    requires Threads.ThreadsOk(w.threads) && Threads.Enabled(w, m) && Threads.FromAddress(m)
    requires NoneUnder(w, [m], normal)
    ensures forall i :: 0 <= i < |EventOf(w, m)| ==> EventOf(w, m)[i].key != Login.UserKey(normal)
  {
    Login.UserKeysApartIff(normal, normal);
    if m.Begin? {
      assert [m][0] == m;
    } else if m.CheckName? || m.RecordFailure? || m.ResetCounter? {
      assert Threads.ThreadOk(w.threads[m.id]);
      Login.UserKeysApartIff(w.threads[m.id].call.normal, normal);
    }
  }

  /** In every interleaving, calls under other usernames leave what the limiter says of a username as it was. */
  lemma {:induction false} OtherUsersLeaveItOpen(w: Threads.World, ms: seq<Threads.Move>, normal: string, now: nat)
    requires Threads.ThreadsOk(w.threads) && Threads.Play(w, ms) && NoneUnder(w, ms, normal)
    ensures Limiter.VerdictOn(Threads.Run(w, ms).limiter, Login.UserKey(normal), now) ==
            Limiter.VerdictOn(w.limiter, Login.UserKey(normal), now)
    decreases |ms|
  {
    if ms != [] {
      var next := Threads.Next(w, ms[0]);
      assert NoneUnder(w, [ms[0]], normal);
      EventUnderOthers(w, ms[0], normal);
      forall id | id in next.threads ensures !Login.SameName(next.threads[id].call.normal, normal) {
        CallsStay(w, ms[0], id);
      }
      MoveIsItsEvent(w, ms[0]);
      Login.OtherEventsApart(w.limiter, EventOf(w, ms[0]), Login.UserKey(normal), now);
      Threads.MoveKeepsThreads(w, ms[0]);
      assert forall i :: 0 <= i < |ms[1..]| ==> ms[1..][i] == ms[i + 1];
      OtherUsersLeaveItOpen(next, ms[1..], normal, now);
    }
  }

  // ---------------------------------------------------------------- lockouts

  lemma {:induction false} FirstOf(a: seq<Threads.Move>, b: seq<Threads.Move>)
    requires a != []
    ensures (a + b)[0] == a[0] && (a + b)[1..] == a[1..] + b
  {
  }

  lemma {:induction false} PlayParts(w: Threads.World, a: seq<Threads.Move>, b: seq<Threads.Move>)
    requires Threads.Play(w, a + b)
    ensures Threads.Play(w, a) && Threads.Play(Threads.Run(w, a), b)
    decreases |a|
  {
    if a == [] {
      assert a + b == b;
    } else {
      FirstOf(a, b);
      PlayParts(Threads.Next(w, a[0]), a[1..], b);
    }
  }

  lemma {:induction false} RunParts(w: Threads.World, a: seq<Threads.Move>, b: seq<Threads.Move>)
    requires Threads.Play(w, a + b) && Threads.Play(w, a) && Threads.Play(Threads.Run(w, a), b)
    ensures Threads.Run(w, a + b) == Threads.Run(Threads.Run(w, a), b)
    decreases |a|
  {
    if a == [] {
      assert a + b == b;
    } else {
      FirstOf(a, b);
      RunParts(Threads.Next(w, a[0]), a[1..], b);
    }
  }

  lemma {:induction false} LogParts(w: Threads.World, a: seq<Threads.Move>, b: seq<Threads.Move>)
    requires Threads.Play(w, a + b) && Threads.Play(w, a) && Threads.Play(Threads.Run(w, a), b)
    ensures LimiterLog(w, a + b) == LimiterLog(w, a) + LimiterLog(Threads.Run(w, a), b)
    decreases |a|
  {
    if a == [] {
      assert a + b == b;
    } else {
      FirstOf(a, b);
      LogParts(Threads.Next(w, a[0]), a[1..], b);
    }
  }

  /** Only username keys are ever forgiven altogether. */
  lemma {:induction false} AddressesNotForgiven(w: Threads.World, ms: seq<Threads.Move>, host: Key)
    requires Threads.Play(w, ms) && !Login.IsUserKey(host)
    ensures Limiter.NoSuccess(host, LimiterLog(w, ms))
    decreases |ms|
  {
    if ms != [] {
      AddressesNotForgiven(Threads.Next(w, ms[0]), ms[1..], host);
      if ms[0].ResetCounter? {
        assert Login.UserKey(w.threads[ms[0].id].call.normal)[..5] == "user:";
      }
      assert Limiter.Success(host) !in EventOf(w, ms[0]);
    }
  }

  /**
   In every interleaving, twenty failures of an address within 900 s keep every call from it out until
   900 s after the twentieth: its first check refuses it, whatever other calls do in between.
   */
  lemma {:induction false} AddressStaysLockedSideBySide(before: seq<Threads.Move>, after: seq<Threads.Move>, id: nat,
                                                        c: Login.Call, now: nat)
    requires Threads.Play(Threads.START, before + after) && Threads.Play(Threads.START, before)
    requires var log := LimiterLog(Threads.START, before + after);
      Limiter.Clocked(0, log) && Limiter.ClockAfter(0, log) <= now
    requires var w := Threads.Run(Threads.START, before + after);
      Threads.Enabled(w, Threads.Begin(id, c, now)) && !Login.IsUserKey(c.host)
    requires var failures := Limiter.History(Limiter.NOTHING, c.host, LimiterLog(Threads.START, before)).failures;
      var n := |failures|;
      && n >= 20 && failures[n - 1] <= failures[n - 20] + 900
      && now < failures[n - 1] + 900
    ensures var w := Threads.Run(Threads.START, before + after);
      Limiter.VerdictOn(w.limiter, c.host, now).Locked? && id !in Threads.Next(w, Threads.Begin(id, c, now)).threads
  {
    PlayParts(Threads.START, before, after);
    RunParts(Threads.START, before, after);
    LogParts(Threads.START, before, after);
    var mid := Threads.Run(Threads.START, before);
    LogIsTheLimiter(Threads.START, before + after);
    AddressesNotForgiven(mid, after, c.host);
    Limiter.AddressStaysLocked(LimiterLog(Threads.START, before), LimiterLog(mid, after), c.host, now);
  }
}
