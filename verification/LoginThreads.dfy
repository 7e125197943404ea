/**
 Sign-ins that run side by side. A call gives up the limiter's lock after each check and record and
 the challenge store's lock after each take and store, so anything may happen between two of its
 steps: other calls' steps, a change of accounts, the registration of a passkey.
 */
module LoginThreads {
  import opened Wrappers
  import opened Login
  import Limiter = LoginLimiter

  /** How far a call has got. */
  datatype Thread =
    | AddressPassed(call: Call)
    | BothPassed(call: Call)
    | Known(call: Call, user: User)
    | Holding(call: Call, user: User, taken: Option<nat>, at: nat)
    | Failing(call: Call, addressRecorded: bool)
    | Passing(call: Call, user: User, paid: Option<nat>, at: nat, windowCleared: bool)

  /** What the run leaves behind; a challenge is named by the place of the note that stored it. */
  datatype Note =
    | Stored(key: ChallengeKey, call: Call, user: User, now: nat)
    | Registered(key: ChallengeKey, now: nat)
    | Given(key: ChallengeKey, call: Call, user: User, paid: Option<nat>, at: nat)

  datatype World = World(
    users: map<string, User>, challenges: Challenges, limiter: Limiter.State, log: seq<Note>, threads: map<nat, Thread>)

  datatype Move =
    | Begin(id: nat, call: Call, now: nat)
    | CheckName(id: nat, now: nat)
    | ReadAccount(id: nat)
    | AskFactor(id: nat, now: nat)
    | VerifyAnswer(id: nat)
    | RecordFailure(id: nat, now: nat)
    | ResetCounter(id: nat)
    | ChangeUsers(users: map<string, User>)
    | Register(subject: nat, rpId: string, now: nat)
    | FinishRegistration(subject: nat, rpId: string, now: nat)

  predicate Enabled(w: World, m: Move) {
    match m
    case Begin(id, _, _) => id !in w.threads
    case CheckName(id, _) => id in w.threads && w.threads[id].AddressPassed?
    case ReadAccount(id) => id in w.threads && w.threads[id].BothPassed?
    case AskFactor(id, _) => id in w.threads && w.threads[id].Known?
    case VerifyAnswer(id) => id in w.threads && w.threads[id].Holding?
    case RecordFailure(id, _) => id in w.threads && w.threads[id].Failing?
    case ResetCounter(id) => id in w.threads && w.threads[id].Passing?
    case _ => true
  }

  function Gone(w: World, id: nat): World { w.(threads := w.threads - {id}) }

  function GoesOn(w: World, id: nat, t: Thread): World { w.(threads := w.threads[id := t]) }

  function Check(w: World, id: nat, key: Limiter.Key, now: nat, onward: Thread): World {
    var w' := w.(limiter := Limiter.AfterCheck(w.limiter, key, now));
    if Limiter.VerdictOn(w.limiter, key, now).Allowed? then GoesOn(w', id, onward) else Gone(w', id)
  }

  function Read(w: World, id: nat, c: Call): World {
    if c.username !in w.users || !c.passwordOk then GoesOn(w, id, Failing(c, false))
    else if !w.users[c.username].active then Gone(w, id)
    else GoesOn(w, id, Known(c, w.users[c.username]))
  }

  function Ask(w: World, id: nat, c: Call, u: User, now: nat): World {
    var key := AuthKey(u, c);
    if UsesPasskey(u, c) then
      if c.passkey.value.CannotBeRead? then Gone(w, id)
      else GoesOn(w.(challenges := Swept(w.challenges, now) - {key}), id,
                  Holding(c, u, Taken(w.challenges, key, now), now))
    else
      var o := Factor(u, c, None);
      if o.Offer? then
        Gone(w.(challenges := w.challenges[key := Pending(|w.log|, now + CHALLENGE_LIFE)],
                log := w.log + [Stored(key, c, u, now)]), id)
      else if CountsAsFailure(o) then GoesOn(w, id, Failing(c, false))
      else if o.SignedIn? then GoesOn(w, id, Passing(c, u, None, now, false))
      else Gone(w, id)
  }

  function Verify(w: World, id: nat, c: Call, u: User, taken: Option<nat>, at: nat): World {
    if Factor(u, c, taken).SignedIn? then GoesOn(w, id, Passing(c, u, taken, at, false))
    else GoesOn(w, id, Failing(c, false))
  }

  function Next(w: World, m: Move): World
    requires Enabled(w, m)
  {
    match m
    case Begin(id, c, now) => if Fits(c) then Check(w, id, c.host, now, AddressPassed(c)) else w
    case CheckName(id, now) =>
      var c := w.threads[id].call; Check(w, id, UserKey(c.normal), now, BothPassed(c))
    case ReadAccount(id) => Read(w, id, w.threads[id].call)
    case AskFactor(id, now) => Ask(w, id, w.threads[id].call, w.threads[id].user, now)
    case VerifyAnswer(id) =>
      var t := w.threads[id]; Verify(w, id, t.call, t.user, t.taken, t.at)
    case RecordFailure(id, now) =>
      var c := w.threads[id].call;
      if w.threads[id].addressRecorded then
        Gone(w.(limiter := Limiter.AfterFailure(w.limiter, UserKey(c.normal), now, false)), id)
      else
        GoesOn(w.(limiter := Limiter.AfterFailure(w.limiter, c.host, now, true)), id, Failing(c, true))
    case ResetCounter(id) =>
      var t := w.threads[id];
      if t.windowCleared then
        Gone(w.(limiter := Limiter.Step(w.limiter, Limiter.Success(UserKey(t.call.normal))),
                log := w.log + [Given(AuthKey(t.user, t.call), t.call, t.user, t.paid, t.at)]), id)
      else
        GoesOn(w.(limiter := Limiter.Step(w.limiter, Limiter.ClearWindow(t.call.host))), id,
               t.(windowCleared := true))
    case ChangeUsers(users) => w.(users := users)
    case Register(subject, rpId, now) =>
      var key := ChallengeKey(Registration, rpId, subject);
      w.(challenges := w.challenges[key := Pending(|w.log|, now + CHALLENGE_LIFE)],
         log := w.log + [Registered(key, now)])
    case FinishRegistration(subject, rpId, now) =>
      w.(challenges := Swept(w.challenges, now) - {ChallengeKey(Registration, rpId, subject)})
  }

  // ---------------------------------------------------------------- who has a challenge

  function Held(t: Thread): Option<nat> {
    match t
    case Holding(_, _, taken, _) => taken
    case Passing(_, _, paid, _, _) => paid
    case _ => None
  }

  predicate Holds(threads: map<nat, Thread>, id: nat, ch: nat) { id in threads && Held(threads[id]) == Some(ch) }

  predicate PaidAt(log: seq<Note>, j: nat, ch: nat) { j < |log| && log[j].Given? && log[j].paid == Some(ch) }

  predicate Waits(m: Challenges, key: ChallengeKey, ch: nat) { key in m && m[key].challenge == ch }

  /** The note stored a challenge for signing in under this key, for a right password of an active account. */
  predicate StoredFor(log: seq<Note>, ch: nat, key: ChallengeKey) {
    ch < |log| && log[ch].Stored? && log[ch].key == key && log[ch].call.passwordOk && log[ch].user.active
  }

  ghost predicate WaitingKnown(m: Challenges, log: seq<Note>) {
    forall key, ch: nat {:trigger Waits(m, key, ch)} :: Waits(m, key, ch) ==>
      && ch < |log| && !log[ch].Given? && log[ch].key == key && m[key].expires == log[ch].now + CHALLENGE_LIFE
      && (key.kind.Auth? ==> StoredFor(log, ch, key))
  }

  ghost predicate HeldKnown(threads: map<nat, Thread>, log: seq<Note>) {
    forall id: nat, ch: nat {:trigger Holds(threads, id, ch)} :: Holds(threads, id, ch) ==>
      StoredFor(log, ch, AuthKey(threads[id].user, threads[id].call)) &&
      threads[id].at <= log[ch].now + 180
  }

  ghost predicate PaidKnown(log: seq<Note>) {
    forall j: nat, ch: nat {:trigger PaidAt(log, j, ch)} :: PaidAt(log, j, ch) ==>
      ch < j && StoredFor(log, ch, log[j].key) && log[j].at <= log[ch].now + 180
  }

  /** A challenge waits under one key, or is held by one call, or has paid for one sign-in. */
  ghost predicate OneOwner(m: Challenges, threads: map<nat, Thread>, log: seq<Note>) {
    && (forall key, id: nat, ch: nat :: Waits(m, key, ch) ==> !Holds(threads, id, ch))
    && (forall key, j: nat, ch: nat :: Waits(m, key, ch) ==> !PaidAt(log, j, ch))
    && (forall i: nat, j: nat, ch: nat :: Holds(threads, i, ch) && Holds(threads, j, ch) ==> i == j)
    && (forall i: nat, j: nat, ch: nat :: Holds(threads, i, ch) ==> !PaidAt(log, j, ch))
    && (forall i: nat, j: nat, ch: nat :: PaidAt(log, i, ch) && PaidAt(log, j, ch) ==> i == j)
  }

  ghost predicate ChallengesOk(m: Challenges, threads: map<nat, Thread>, log: seq<Note>) {
    WaitingKnown(m, log) && HeldKnown(threads, log) && PaidKnown(log) && OneOwner(m, threads, log)
  }

  // ---------------------------------------------------------------- why a call may go on

  predicate Proved(u: User, c: Call, paid: Option<nat>) { OwesFactor(u) || paid.Some? ==> FactorProved(u, c, paid) }

  predicate ThreadOk(t: Thread) {
    !IsUserKey(t.call.host) &&
    match t
    case AddressPassed(c) => Fits(c)
    case BothPassed(c) => Fits(c)
    case Known(c, u) => Fits(c) && c.passwordOk && u.active
    case Holding(c, u, _, _) => Fits(c) && c.passwordOk && u.active && UsesPasskey(u, c) && c.passkey.value.Answer?
    case Failing(_, _) => true
    case Passing(c, u, paid, _, _) => Fits(c) && c.passwordOk && u.active && Proved(u, c, paid)
  }

  ghost predicate ThreadsOk(threads: map<nat, Thread>) { forall id: nat :: id in threads ==> ThreadOk(threads[id]) }

  predicate EarnedNote(n: Note) {
    n.Given? ==> Fits(n.call) && n.call.passwordOk && n.user.active && Proved(n.user, n.call, n.paid)
  }

  ghost predicate AllEarnedNotes(log: seq<Note>) { forall j: nat :: 0 <= j < |log| ==> EarnedNote(log[j]) }

  /** No username has failure history or a lockout. */
  ghost predicate UsernamesFree(l: Limiter.State) {
    forall key :: IsUserKey(key) ==> key !in l.failures && key !in l.lockouts
  }

  ghost predicate Inv(w: World) {
    && ChallengesOk(w.challenges, w.threads, w.log) && ThreadsOk(w.threads) && AllEarnedNotes(w.log)
    && UsernamesFree(w.limiter)
  }

  // ---------------------------------------------------------------- steps

  /** Fewer challenges wait and no call holds one it did not hold. */
  lemma {:induction false} NothingTaken(m: Challenges, m': Challenges, threads: map<nat, Thread>,
                                        threads': map<nat, Thread>, log: seq<Note>)
    requires ChallengesOk(m, threads, log)
    requires forall key :: key in m' ==> key in m && m'[key] == m[key]
    requires forall id: nat, ch: nat :: Holds(threads', id, ch) ==>
               Holds(threads, id, ch) && threads'[id].user == threads[id].user &&
               threads'[id].call == threads[id].call && threads'[id].at == threads[id].at
    ensures ChallengesOk(m', threads', log)
  {
    assert forall key, ch: nat :: Waits(m', key, ch) ==> Waits(m, key, ch);
  }

  /** A call takes what waits under its key. */
  lemma {:induction false} Takes(m: Challenges, threads: map<nat, Thread>, log: seq<Note>, id: nat, c: Call, u: User,
                                 now: nat)
    requires ChallengesOk(m, threads, log) && id in threads && Held(threads[id]).None?
    ensures ChallengesOk(Swept(m, now) - {AuthKey(u, c)},
                         threads[id := Holding(c, u, Taken(m, AuthKey(u, c), now), now)], log)
  {
    var key, taken := AuthKey(u, c), Taken(m, AuthKey(u, c), now);
    var m', threads' := Swept(m, now) - {key}, threads[id := Holding(c, u, taken, now)];
    assert forall k, ch: nat :: Waits(m', k, ch) ==> Waits(m, k, ch) && k != key;
    assert forall i: nat, ch: nat :: Holds(threads', i, ch) && i != id ==> Holds(threads, i, ch);
    if taken.Some? {
      assert Waits(m, key, taken.value);
      assert forall k :: Waits(m, k, taken.value) ==> k == key;
    }
  }

  /** A note more stores a challenge under a name nothing has yet. */
  lemma {:induction false} Stores(m: Challenges, threads: map<nat, Thread>, log: seq<Note>, n: Note)
    requires ChallengesOk(m, threads, log) && !n.Given?
    requires n.key.kind.Auth? ==> n.Stored? && n.call.passwordOk && n.user.active
    ensures ChallengesOk(m[n.key := Pending(|log|, n.now + CHALLENGE_LIFE)], threads, log + [n])
  {
    var m', log' := m[n.key := Pending(|log|, n.now + CHALLENGE_LIFE)], log + [n];
    assert forall key, ch: nat :: Waits(m', key, ch) ==> (key == n.key && ch == |log|) || Waits(m, key, ch);
    assert forall j: nat, ch: nat :: PaidAt(log', j, ch) ==> PaidAt(log, j, ch);
  }

  /** A call spends what it holds, and is over. */
  lemma {:induction false} Spends(m: Challenges, threads: map<nat, Thread>, log: seq<Note>, id: nat)
    requires ChallengesOk(m, threads, log) && id in threads && threads[id].Passing?
    ensures var t := threads[id];
      ChallengesOk(m, threads - {id}, log + [Given(AuthKey(t.user, t.call), t.call, t.user, t.paid, t.at)])
  {
    var t := threads[id];
    var n := Given(AuthKey(t.user, t.call), t.call, t.user, t.paid, t.at);
    assert forall i: nat, ch: nat :: Holds(threads - {id}, i, ch) ==> Holds(threads, i, ch) && i != id;
    assert forall j: nat, ch: nat :: PaidAt(log + [n], j, ch) ==>
        PaidAt(log, j, ch) || (j == |log| && Holds(threads, id, ch));
  }

  /** A call goes on holding what it held or nothing, or is over. */
  lemma {:induction false} MovesOn(m: Challenges, threads: map<nat, Thread>, log: seq<Note>, id: nat, t: Thread)
    requires ChallengesOk(m, threads, log)
    requires Held(t).Some? ==>
               id in threads && Held(threads[id]) == Held(t) && threads[id].user == t.user &&
               threads[id].call == t.call && threads[id].at == t.at
    ensures ChallengesOk(m, threads[id := t], log) && ChallengesOk(m, threads - {id}, log)
  {
    NothingTaken(m, m, threads, threads[id := t], log);
    NothingTaken(m, m, threads, threads - {id}, log);
  }

  /** The steps under the limiter's lock, before the last. */
  lemma {:induction false} LimiterMoveKeepsChallenges(w: World, m: Move)
    requires ChallengesOk(w.challenges, w.threads, w.log) && Enabled(w, m)
    requires m.Begin? || m.CheckName? || m.RecordFailure? || (m.ResetCounter? && !w.threads[m.id].windowCleared)
    ensures var w' := Next(w, m); ChallengesOk(w'.challenges, w'.threads, w'.log)
  {
    if m.Begin? {
      MovesOn(w.challenges, w.threads, w.log, m.id, AddressPassed(m.call));
    } else if m.CheckName? {
      MovesOn(w.challenges, w.threads, w.log, m.id, BothPassed(w.threads[m.id].call));
    } else if m.RecordFailure? {
      MovesOn(w.challenges, w.threads, w.log, m.id, Failing(w.threads[m.id].call, true));
    } else {
      MovesOn(w.challenges, w.threads, w.log, m.id, w.threads[m.id].(windowCleared := true));
    }
  }

  lemma {:induction false} RegistrationKeepsChallenges(w: World, m: Move)
    requires ChallengesOk(w.challenges, w.threads, w.log) && (m.Register? || m.FinishRegistration?)
    ensures var w' := Next(w, m); ChallengesOk(w'.challenges, w'.threads, w'.log)
  {
    if m.Register? {
      Stores(w.challenges, w.threads, w.log, Registered(ChallengeKey(Registration, m.rpId, m.subject), m.now));
    } else {
      NothingTaken(w.challenges, Next(w, m).challenges, w.threads, w.threads, w.log);
    }
  }

  lemma {:induction false} MoveKeepsChallenges(w: World, m: Move)
    requires ChallengesOk(w.challenges, w.threads, w.log) && ThreadsOk(w.threads) && Enabled(w, m)
    ensures var w' := Next(w, m); ChallengesOk(w'.challenges, w'.threads, w'.log)
  {
    if m.ReadAccount? {
      ReadKeepsChallenges(w, m.id, w.threads[m.id].call);
    } else if m.AskFactor? {
      assert ThreadOk(w.threads[m.id]);
      AskKeepsChallenges(w, m.id, w.threads[m.id].call, w.threads[m.id].user, m.now);
    } else if m.VerifyAnswer? {
      VerifyKeepsChallenges(w, m.id);
    } else if m.ResetCounter? && w.threads[m.id].windowCleared {
      Spends(w.challenges, w.threads, w.log, m.id);
    } else if m.Register? || m.FinishRegistration? {
      RegistrationKeepsChallenges(w, m);
    } else if !m.ChangeUsers? {
      LimiterMoveKeepsChallenges(w, m);
    }
  }

  lemma {:induction false} ReadKeepsChallenges(w: World, id: nat, c: Call)
    requires ChallengesOk(w.challenges, w.threads, w.log)
    ensures var w' := Read(w, id, c); ChallengesOk(w'.challenges, w'.threads, w'.log)
  {
    MovesOn(w.challenges, w.threads, w.log, id, Failing(c, false));
    if c.username in w.users { MovesOn(w.challenges, w.threads, w.log, id, Known(c, w.users[c.username])); }
  }

  lemma {:induction false} VerifyKeepsChallenges(w: World, id: nat)
    requires ChallengesOk(w.challenges, w.threads, w.log) && id in w.threads && w.threads[id].Holding?
    ensures var t := w.threads[id]; var w' := Verify(w, id, t.call, t.user, t.taken, t.at);
      ChallengesOk(w'.challenges, w'.threads, w'.log)
  {
    var t := w.threads[id];
    MovesOn(w.challenges, w.threads, w.log, id, Failing(t.call, false));
    MovesOn(w.challenges, w.threads, w.log, id, Passing(t.call, t.user, t.taken, t.at, false));
  }

  lemma {:induction false} AskKeepsChallenges(w: World, id: nat, c: Call, u: User, now: nat)
    requires ChallengesOk(w.challenges, w.threads, w.log)
    requires id in w.threads && w.threads[id] == Known(c, u) && c.passwordOk && u.active
    ensures var w' := Ask(w, id, c, u, now); ChallengesOk(w'.challenges, w'.threads, w'.log)
  {
    MovesOn(w.challenges, w.threads, w.log, id, Failing(c, false));
    if UsesPasskey(u, c) {
      Takes(w.challenges, w.threads, w.log, id, c, u, now);
    } else if Factor(u, c, None).Offer? {
      Stores(w.challenges, w.threads - {id}, w.log, Stored(AuthKey(u, c), c, u, now));
    } else {
      MovesOn(w.challenges, w.threads, w.log, id, Passing(c, u, None, now, false));
    }
  }

  lemma {:induction false} ThreadGoesOn(threads: map<nat, Thread>, id: nat, t: Thread)
    requires ThreadsOk(threads)
    ensures ThreadsOk(threads - {id}) && (ThreadOk(t) ==> ThreadsOk(threads[id := t]))
  {
  }

  lemma {:induction false} AskKeepsThreads(w: World, id: nat, c: Call, u: User, now: nat)
    requires ThreadsOk(w.threads) && ThreadOk(Known(c, u))
    ensures ThreadsOk(Ask(w, id, c, u, now).threads)
  {
    ThreadGoesOn(w.threads, id, Failing(c, false));
    if UsesPasskey(u, c) {
      ThreadGoesOn(w.threads, id, Holding(c, u, Taken(w.challenges, AuthKey(u, c), now), now));
    } else {
      ThreadGoesOn(w.threads, id, Passing(c, u, None, now, false));
    }
  }

  lemma {:induction false} MoveKeepsThreads(w: World, m: Move)
    requires ThreadsOk(w.threads) && Enabled(w, m) && FromAddress(m)
    ensures ThreadsOk(Next(w, m).threads)
  {
    match m {
      case Begin(id, c, now) => if Fits(c) { ThreadGoesOn(w.threads, id, AddressPassed(c)); }
      case CheckName(id, now) => ThreadGoesOn(w.threads, id, BothPassed(w.threads[id].call));
      case ReadAccount(id) =>
      case AskFactor(id, now) => AskKeepsThreads(w, id, w.threads[id].call, w.threads[id].user, now);
      case VerifyAnswer(id) =>
      case RecordFailure(id, now) => ThreadGoesOn(w.threads, id, Failing(w.threads[id].call, true));
      case ResetCounter(id) => ThreadGoesOn(w.threads, id, w.threads[id].(windowCleared := true));
      case ChangeUsers(_) =>
      case Register(_, _, _) =>
      case FinishRegistration(_, _, _) =>
    }
  }

  /** The addresses calls come from do not look like username keys. */
  predicate FromAddress(m: Move) { m.Begin? ==> !IsUserKey(m.call.host) }

  lemma {:induction false} LimiterKeepsUsernamesFree(l: Limiter.State, key: Limiter.Key, now: nat)
    requires UsernamesFree(l)
    ensures UsernamesFree(Limiter.AfterCheck(l, key, now)) && UsernamesFree(Limiter.AfterFailure(l, key, now, false))
    ensures !IsUserKey(key) ==> UsernamesFree(Limiter.AfterFailure(l, key, now, true))
    ensures UsernamesFree(Limiter.Step(l, Limiter.Success(key)))
    ensures UsernamesFree(Limiter.Step(l, Limiter.ClearWindow(key)))
  {
  }

  lemma {:induction false} MoveKeepsUsernamesFree(w: World, m: Move)
    requires UsernamesFree(w.limiter) && ThreadsOk(w.threads) && Enabled(w, m) && FromAddress(m)
    ensures UsernamesFree(Next(w, m).limiter)
  {
    if m.Begin? {
      LimiterKeepsUsernamesFree(w.limiter, m.call.host, m.now);
    } else if m.CheckName? {
      LimiterKeepsUsernamesFree(w.limiter, UserKey(w.threads[m.id].call.normal), m.now);
    } else if m.RecordFailure? {
      assert ThreadOk(w.threads[m.id]);
      var c := w.threads[m.id].call;
      LimiterKeepsUsernamesFree(w.limiter, if w.threads[m.id].addressRecorded then UserKey(c.normal) else c.host, m.now);
    } else if m.ResetCounter? {
      var c := w.threads[m.id].call;
      LimiterKeepsUsernamesFree(w.limiter, if w.threads[m.id].windowCleared then UserKey(c.normal) else c.host, 0);
    }
  }

  ghost predicate Play(w: World, ms: seq<Move>)
    decreases |ms|
  {
    ms == [] || (Enabled(w, ms[0]) && FromAddress(ms[0]) && Play(Next(w, ms[0]), ms[1..]))
  }

  ghost function Run(w: World, ms: seq<Move>): World
    requires Play(w, ms)
    decreases |ms|
  {
    if ms == [] then w else Run(Next(w, ms[0]), ms[1..])
  }

  const START := World(map[], map[], Limiter.EMPTY, [], map[])

  lemma {:induction false} RunKeepsInv(w: World, ms: seq<Move>)
    requires Inv(w) && Play(w, ms)
    ensures Inv(Run(w, ms))
    decreases |ms|
  {
    if ms != [] {
      MoveKeepsChallenges(w, ms[0]);
      MoveKeepsThreads(w, ms[0]);
      MoveKeepsUsernamesFree(w, ms[0]);
      RunKeepsInv(Next(w, ms[0]), ms[1..]);
    }
  }

  /**
   In every interleaving, whatever accounts are changed between two steps: a session is given only to
   a call whose account, when it read it, was active with that password and whose factor it proved if
   it owed one; each challenge paid for at most one, taken in time, and was stored by a call whose
   password was right; and no username is ever locked.
   */
  lemma {:induction false} SideBySideIsSafe(ms: seq<Move>)
    requires Play(START, ms)
    ensures var w := Run(START, ms);
      AllEarnedNotes(w.log) && PaidKnown(w.log) && UsernamesFree(w.limiter) &&
      forall i: nat, j: nat, ch: nat :: PaidAt(w.log, i, ch) && PaidAt(w.log, j, ch) ==> i == j
  {
    RunKeepsInv(START, ms);
  }
}
