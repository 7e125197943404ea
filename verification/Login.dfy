/**
 Signing in: the password, then whatever second factor the account owes, under the rate limiter and
 with challenges that are kept in memory and spent once. Whether a password, a code or a passkey's
 answer is right comes with the call; calls are taken one at a time.
 */
module Login {
  import opened Wrappers
  import opened Text
  import Limiter = LoginLimiter

  const MAX_USERNAME := 64
  const MAX_PASSWORD := 72
  const CHALLENGE_LIFE := 180

  // ---------------------------------------------------------------- challenges

  datatype Kind = Auth | Registration

  datatype ChallengeKey = ChallengeKey(kind: Kind, rpId: string, subject: nat)

  function KindText(kind: Kind): string { if kind.Auth? then "auth" else "reg" }

  function KeyText(k: ChallengeKey): string {
    "bpanel:webauthn:" + KindText(k.kind) + ":" + k.rpId + ":" + Decimal(k.subject)
  }

  /** The text a challenge is filed under says whose it is, for which name and for what. */
  lemma {:induction false} KeyTextInjective(a: ChallengeKey, b: ChallengeKey)
    requires KeyText(a) == KeyText(b)
    ensures a == b
  {
    var x := "bpanel:webauthn:" + KindText(a.kind) + ":" + a.rpId;
    var y := "bpanel:webauthn:" + KindText(b.kind) + ":" + b.rpId;
    assert KeyText(a) == x + [':'] + Decimal(a.subject) && KeyText(b) == y + [':'] + Decimal(b.subject);
    LastSeparator(x, Decimal(a.subject), y, Decimal(b.subject), ':');
    DecimalInjective(a.subject, b.subject);
    assert x[16] == KindText(a.kind)[0] && y[16] == KindText(b.kind)[0];
    var skip := 17 + |KindText(a.kind)|;
    assert x[skip..] == a.rpId && y[skip..] == b.rpId;
  }

  datatype Pending = Pending(challenge: nat, expires: int)

  type Challenges = map<ChallengeKey, Pending>

  function Swept(m: Challenges, now: int): Challenges { map k | k in m && m[k].expires >= now :: m[k] }

  function Taken(m: Challenges, key: ChallengeKey, now: int): Option<nat> {
    if key in m && m[key].expires >= now then Some(m[key].challenge) else None
  }

  // ---------------------------------------------------------------- accounts and calls

  datatype Passkey = Passkey(credential: nat, rpId: string)

  datatype User = User(id: nat, active: bool, totp: bool, passkeys: set<Passkey>)

  datatype Otp = NoOtp | Code(correct: bool)

  /**
   A passkey's answer: which one, to which challenge, and whether its signature and origin are right.
   A text that is no JSON answers for no passkey. One `CannotBeRead` if asking it for its passkey
   raises an error that is not expected there: JSON that is not an object, or nested too deep to parse.
   */
  datatype Answer = Answer(credential: nat, challenge: nat, genuine: bool) | CannotBeRead

  /**
   `normal` is the username with its ends trimmed and in lower case, `rpId` the name in the address
   bar, empty if passkeys cannot be used at it.
   */
  datatype Call = Call(
    username: string, normal: string, passwordLength: nat, passwordOk: bool, host: string, rpId: string, otp: Otp,
    passkey: Option<Answer>, now: nat)

  datatype Outcome =
    | TooLong
    | Limited(byAddress: bool, verdict: Limiter.Verdict)
    | BadPassword
    | Suspended
    | PasskeyExpired
    | PasskeyRefused
    | Crashed
    | Offer
    | NeedCode
    | BadCode
    | NoFactor
    | WrongName
    | SignedIn(paid: Option<nat>)

  /** What happened, oldest first. A challenge is named by the place of the entry that stored it. */
  datatype Entry =
    | Tried(call: Call, key: ChallengeKey, user: User, outcome: Outcome)
    | RegistrationStored(key: ChallengeKey, now: nat)
    | RegistrationTaken(key: ChallengeKey, now: nat)

  datatype State = State(users: map<string, User>, challenges: Challenges, limiter: Limiter.State, log: seq<Entry>)

  function UserKey(normal: string): Limiter.Key { if normal == "" then "user:_unknown" else "user:" + normal }

  const NOBODY := User(0, false, false, {})

  function UserOf(s: State, c: Call): User { if c.username in s.users then s.users[c.username] else NOBODY }

  function AuthKey(u: User, c: Call): ChallengeKey { ChallengeKey(Auth, c.rpId, u.id) }

  /** The account's passkeys that can be used at the name in the address bar. */
  function Site(u: User, rpId: string): set<Passkey> {
    if rpId == "" then {} else set p | p in u.passkeys && p.rpId == rpId
  }

  // ---------------------------------------------------------------- one call

  predicate UsesPasskey(u: User, c: Call) { c.passkey.Some? && Site(u, c.rpId) != {} }

  function Factor(u: User, c: Call, taken: Option<nat>): Outcome {
    if UsesPasskey(u, c) then
      if c.passkey.value.CannotBeRead? then Crashed
      else if Passkey(c.passkey.value.credential, c.rpId) !in u.passkeys || taken.None? then PasskeyExpired
      else if !(c.passkey.value.genuine && c.passkey.value.challenge == taken.value) then PasskeyRefused
      else SignedIn(taken)
    else if Site(u, c.rpId) != {} && c.otp.NoOtp? then Offer
    else if u.totp then
      if c.otp.NoOtp? then NeedCode else if !c.otp.correct then BadCode else SignedIn(None)
    else if c.otp.Code? || c.passkey.Some? then NoFactor
    else if u.passkeys != {} then WrongName
    else SignedIn(None)
  }

  function AddressVerdict(s: State, c: Call): Limiter.Verdict { Limiter.VerdictOn(s.limiter, c.host, c.now) }

  function NameVerdict(s: State, c: Call): Limiter.Verdict {
    Limiter.VerdictOn(Limiter.AfterCheck(s.limiter, c.host, c.now), UserKey(c.normal), c.now)
  }

  predicate Fits(c: Call) { |c.username| <= MAX_USERNAME && c.passwordLength <= MAX_PASSWORD }

  predicate LetThrough(s: State, c: Call) { Fits(c) && AddressVerdict(s, c).Allowed? && NameVerdict(s, c).Allowed? }

  predicate PasswordChecked(s: State, c: Call) { LetThrough(s, c) && c.username in s.users && c.passwordOk }

  predicate FactorAsked(s: State, c: Call) { PasswordChecked(s, c) && s.users[c.username].active }

  function Decide(s: State, c: Call): Outcome {
    if !Fits(c) then TooLong
    else if !AddressVerdict(s, c).Allowed? then Limited(true, AddressVerdict(s, c))
    else if !NameVerdict(s, c).Allowed? then Limited(false, NameVerdict(s, c))
    else Credentials(s, c)
  }

  function Credentials(s: State, c: Call): Outcome {
    if c.username !in s.users || !c.passwordOk then BadPassword
    else if !s.users[c.username].active then Suspended
    else
      var u := s.users[c.username];
      Factor(u, c, Taken(s.challenges, AuthKey(u, c), c.now))
  }

  function ChallengesAtFactor(users: map<string, User>, m: Challenges, c: Call, o: Outcome, nonce: nat): Challenges {
    if c.username !in users || !c.passwordOk || !users[c.username].active then m
    else
      var u := users[c.username];
      if UsesPasskey(u, c) then if o.Crashed? then m else Swept(m, c.now) - {AuthKey(u, c)}
      else if o.Offer? then m[AuthKey(u, c) := Pending(nonce, c.now + CHALLENGE_LIFE)]
      else m
  }

  function ChallengesAfter(s: State, c: Call): Challenges {
    if LetThrough(s, c) then ChallengesAtFactor(s.users, s.challenges, c, Decide(s, c), |s.log|) else s.challenges
  }

  predicate CountsAsFailure(o: Outcome) { o.BadPassword? || o.PasskeyExpired? || o.PasskeyRefused? || o.BadCode? }

  function Checks(c: Call): seq<Limiter.Event> {
    [Limiter.Check(c.host, c.now), Limiter.Check(UserKey(c.normal), c.now)]
  }

  function Failures(c: Call): seq<Limiter.Event> {
    [Limiter.Failure(c.host, c.now, true), Limiter.Failure(UserKey(c.normal), c.now, false)]
  }

  function Resets(c: Call): seq<Limiter.Event> {
    [Limiter.ClearWindow(c.host), Limiter.Success(UserKey(c.normal))]
  }

  /** What one call does to the limiter, in order. */
  function LimiterEvents(c: Call, o: Outcome): seq<Limiter.Event> {
    if o.TooLong? then []
    else if o.Limited? && o.byAddress then [Limiter.Check(c.host, c.now)]
    else if CountsAsFailure(o) then Checks(c) + Failures(c)
    else if o.SignedIn? then Checks(c) + Resets(c)
    else Checks(c)
  }

  function EntryOf(s: State, c: Call): Entry { Tried(c, AuthKey(UserOf(s, c), c), UserOf(s, c), Decide(s, c)) }

  datatype Event =
    | SignIn(call: Call)
    | StoreRegistration(subject: nat, rpId: string, now: nat)
    | TakeRegistration(subject: nat, rpId: string, now: nat)
    | ChangeUsers(users: map<string, User>)

  function Step(s: State, e: Event): State {
    match e
    case SignIn(c) =>
      State(s.users, ChallengesAfter(s, c), Limiter.Run(s.limiter, LimiterEvents(c, Decide(s, c))),
            s.log + [EntryOf(s, c)])
    case StoreRegistration(subject, rpId, now) =>
      var key := ChallengeKey(Registration, rpId, subject);
      s.(challenges := s.challenges[key := Pending(|s.log|, now + CHALLENGE_LIFE)],
         log := s.log + [RegistrationStored(key, now)])
    case TakeRegistration(subject, rpId, now) =>
      var key := ChallengeKey(Registration, rpId, subject);
      s.(challenges := Swept(s.challenges, now) - {key}, log := s.log + [RegistrationTaken(key, now)])
    case ChangeUsers(users) => s.(users := users)
  }

  function Run(s: State, es: seq<Event>): State
    decreases |es|
  {
    if es == [] then s else Run(Step(s, es[0]), es[1..])
  }

  const START := State(map[], map[], Limiter.EMPTY, [])

  // ---------------------------------------------------------------- what a session is given for

  /** The call proved a second factor of the account. */
  predicate FactorProved(u: User, c: Call, paid: Option<nat>) {
    if paid.Some? then
      && c.passkey.Some? && c.passkey.value.Answer?
      && c.passkey.value == Answer(c.passkey.value.credential, paid.value, true)
      && Passkey(c.passkey.value.credential, c.rpId) in u.passkeys
    else u.totp && c.otp == Code(true)
  }

  predicate OwesFactor(u: User) { u.totp || u.passkeys != {} }

  /** Why an entry of the log that gave a session was right to. */
  ghost predicate Earned(e: Entry) {
    e.Tried? && e.outcome.SignedIn? ==>
      && e.call.passwordOk && e.user.active && Fits(e.call)
      && (OwesFactor(e.user) || e.outcome.paid.Some? ==> FactorProved(e.user, e.call, e.outcome.paid))
  }

  /** A passkey of the account can be used at this name. */
  predicate Usable(u: User, rpId: string) { rpId != "" && exists p :: p in u.passkeys && p.rpId == rpId }

  /** A challenge is pending under this key and still good. */
  predicate PendingAt(m: Challenges, key: ChallengeKey, challenge: nat, now: int) {
    key in m && now <= m[key].expires && m[key].challenge == challenge
  }

  /** The limiter lets both keys pass, the address's first. */
  predicate BothPass(s: State, c: Call) {
    && Limiter.VerdictOn(s.limiter, c.host, c.now) == Limiter.Allowed
    && Limiter.VerdictOn(Limiter.Step(s.limiter, Limiter.Check(c.host, c.now)), UserKey(c.normal), c.now)
         == Limiter.Allowed
  }

  lemma {:induction false} SiteIsUsable(u: User, rpId: string)
    ensures Site(u, rpId) != {} <==> Usable(u, rpId)
  {
    if Usable(u, rpId) {
      var p :| p in u.passkeys && p.rpId == rpId;
      assert p in Site(u, rpId);
    }
    if Site(u, rpId) != {} {
      var p :| p in Site(u, rpId);
      assert p in u.passkeys && p.rpId == rpId;
    }
  }

  /**
   Exactly when a call is given a session: name and password are no longer than they may be, the limiter
   lets it pass, the password is right, the account is active, and then one of three: it answers the
   pending challenge with a passkey of the account for this name; or it gives the right code; or the
   account has no second factor and none was offered.
   */
  lemma {:induction false} SessionIff(s: State, c: Call)
    ensures Decide(s, c).SignedIn? <==>
      && |c.username| <= 64 && c.passwordLength <= 72 && BothPass(s, c)
      && c.username in s.users && c.passwordOk && s.users[c.username].active
      && var u := s.users[c.username];
        if c.passkey.Some? && Usable(u, c.rpId) then
          && c.passkey.value.Answer? && c.passkey.value.genuine
          && Passkey(c.passkey.value.credential, c.rpId) in u.passkeys
          && PendingAt(s.challenges, ChallengeKey(Auth, c.rpId, u.id), c.passkey.value.challenge, c.now)
        else if u.totp then c.otp.Code? && c.otp.correct
        else u.passkeys == {} && c.otp.NoOtp? && c.passkey.None?
  {
    if c.username in s.users { SiteIsUsable(s.users[c.username], c.rpId); }
  }

  /** What a call with the right password of an active account is told when it gets no session. */
  lemma {:induction false} FactorIff(s: State, c: Call)
    requires Fits(c) && BothPass(s, c) && c.username in s.users && c.passwordOk && s.users[c.username].active
    ensures var u, o := s.users[c.username], Decide(s, c); var usable := Usable(u, c.rpId);
      var answering := c.passkey.Some? && usable;
      var key := ChallengeKey(Auth, c.rpId, u.id);
      var held := answering && c.passkey.value.Answer? && Passkey(c.passkey.value.credential, c.rpId) in u.passkeys;
      var good := key in s.challenges && c.now <= s.challenges[key].expires;
      var right := held && good && c.passkey.value.genuine && s.challenges[key].challenge == c.passkey.value.challenge;
      && (o.Crashed? <==> answering && c.passkey.value.CannotBeRead?)
      && (o.PasskeyExpired? <==> answering && c.passkey.value.Answer? && !(held && good))
      && (o.PasskeyRefused? <==> held && good && !right)
      && (o.Offer? <==> usable && c.passkey.None? && c.otp.NoOtp?)
      && (o.NeedCode? <==> !usable && u.totp && c.otp.NoOtp?)
      && (o.BadCode? <==> !answering && u.totp && c.otp.Code? && !c.otp.correct)
      && (o.NoFactor? <==> !answering && !u.totp && (c.otp.Code? || c.passkey.Some?))
      && (o.WrongName? <==> !usable && !u.totp && u.passkeys != {} && c.otp.NoOtp? && c.passkey.None?)
  {
    SiteIsUsable(s.users[c.username], c.rpId);
  }

  /** What a call is told before its second factor is looked at, in this order. */
  lemma {:induction false} FirstChecksIff(s: State, c: Call)
    ensures var o, fits := Decide(s, c), |c.username| <= 64 && c.passwordLength <= 72;
      var known := c.username in s.users && c.passwordOk;
      && (o.TooLong? <==> !fits)
      && (o.Limited? <==> fits && !BothPass(s, c))
      && (o.Limited? ==> (o.byAddress <==> Limiter.VerdictOn(s.limiter, c.host, c.now) != Limiter.Allowed))
      && (o.BadPassword? <==> fits && BothPass(s, c) && !known)
      && (o.Suspended? <==> fits && BothPass(s, c) && known && !s.users[c.username].active)
  {
  }

  /** Sweeping takes nothing that could still be used. */
  lemma {:induction false} SweepIsInvisible(m: Challenges, now: int, key: ChallengeKey, later: int)
    requires now <= later
    ensures Taken(Swept(m, now), key, later) == Taken(m, key, later)
    ensures Taken(m, key, later).Some? <==> key in m && later <= m[key].expires
  {
  }

  /**
   What a call leaves pending: one that is asked for a passkey stores its challenge for 180 s; one that
   answers with a passkey spends its own and sweeps what is overdue, right or wrong; any other call, and
   every call whose password is wrong or that is not let in, leaves them all alone.
   */
  lemma {:induction false} ChallengesIff(s: State, c: Call)
    ensures var m := ChallengesAfter(s, c);
      var asked := |c.username| <= 64 && c.passwordLength <= 72 && BothPass(s, c) && c.username in s.users &&
                   c.passwordOk && s.users[c.username].active;
      var key := ChallengeKey(Auth, c.rpId, UserOf(s, c).id);
      var answers := asked && c.passkey.Some? && c.passkey.value.Answer? && Usable(UserOf(s, c), c.rpId);
      if Decide(s, c).Offer? then asked && m == s.challenges[key := Pending(|s.log|, c.now + 180)]
      else if answers then
        forall k :: (k in m <==> k in s.challenges && k != key && c.now <= s.challenges[k].expires) &&
                    (k in m ==> m[k] == s.challenges[k])
      else m == s.challenges
  {
    SiteIsUsable(UserOf(s, c), c.rpId);
  }

  /** What a call leaves of the limiter, by what it was told. */
  lemma {:induction false} LimiterAfterIff(s: State, c: Call)
    ensures var l, o, name := Limiter.Run(s.limiter, LimiterEvents(c, Decide(s, c))), Decide(s, c), UserKey(c.normal);
      var address := Limiter.AfterCheck(s.limiter, c.host, c.now);
      var both := Limiter.AfterCheck(address, name, c.now);
      match o
      case TooLong => l == s.limiter
      case Limited(byAddress, _) => l == if byAddress then address else both
      case SignedIn(_) =>
        l == Limiter.Step(Limiter.Step(both, Limiter.ClearWindow(c.host)), Limiter.Success(name))
      case _ =>
        if o.BadPassword? || o.PasskeyExpired? || o.PasskeyRefused? || o.BadCode?
        then l == Limiter.AfterFailure(Limiter.AfterFailure(both, c.host, c.now, true), name, c.now, false)
        else l == both
  {
    var es := LimiterEvents(c, Decide(s, c));
    if es != [] { RunsThrough(s.limiter, es); }
  }

  /** One event, two, or two and two. */
  lemma {:induction false} RunsThrough(l: Limiter.State, es: seq<Limiter.Event>)
    requires |es| == 1 || |es| == 2 || |es| == 4
    ensures |es| == 1 ==> Limiter.Run(l, es) == Limiter.Step(l, es[0])
    ensures |es| == 2 ==> Limiter.Run(l, es) == Limiter.Step(Limiter.Step(l, es[0]), es[1])
    ensures |es| == 4 ==>
              Limiter.Run(l, es) ==
                Limiter.Step(Limiter.Step(Limiter.Step(Limiter.Step(l, es[0]), es[1]), es[2]), es[3])
  {
    if |es| == 1 {
      RunOne(l, es[0]);
      assert es == [es[0]];
    } else {
      RunTwo(l, es[0], es[1]);
      if |es| == 2 {
        assert es == [es[0], es[1]];
      } else {
        assert es == [es[0], es[1]] + [es[2], es[3]];
        Limiter.RunAppends(l, [es[0], es[1]], [es[2], es[3]]);
        RunTwo(Limiter.Run(l, [es[0], es[1]]), es[2], es[3]);
      }
    }
  }

  /** The name in the address bar has no say in whether a factor is owed: a passkey for another name is not skipped. */
  lemma {:induction false} OtherNameIsNoWayAround(s: State, c: Call, rpId: string)
    requires c.username in s.users && OwesFactor(s.users[c.username]) && c.otp.NoOtp? && c.passkey.None?
    ensures !Decide(s, c.(rpId := rpId)).SignedIn?
  {
  }

  /** Something secret was offered and was wrong: the password, a code, or a passkey's answer. */
  predicate WrongSecret(s: State, c: Call) {
    if !(c.username in s.users && c.passwordOk) then true
    else
      var u := s.users[c.username];
      u.active &&
      if UsesPasskey(u, c) then
        var taken := Taken(s.challenges, AuthKey(u, c), c.now);
        taken.None? || !FactorProved(u, c, taken)
      else u.totp && c.otp == Code(false)
  }

  /** The answer cannot be read, at a point where nothing has been recorded yet. */
  predicate Unreadable(s: State, c: Call) {
    FactorAsked(s, c) && UsesPasskey(s.users[c.username], c) && c.passkey.value.CannotBeRead?
  }

  /**
   A call that is let through counts against its address and its username exactly if a secret was
   wrong and, where a passkey's answer was, it could be read.
   */
  lemma {:induction false} WrongSecretsCountIff(s: State, c: Call)
    requires LetThrough(s, c)
    ensures var events := LimiterEvents(c, Decide(s, c)); var counted := WrongSecret(s, c) && !Unreadable(s, c);
      && (Limiter.Failure(c.host, c.now, true) in events <==> counted)
      && (Limiter.Failure(UserKey(c.normal), c.now, false) in events <==> counted)
    ensures Unreadable(s, c) ==> WrongSecret(s, c) && ChallengesAfter(s, c) == s.challenges
  {
  }

  /** An empty list for an answer, with the right password of an account that has a passkey for this name. */
  lemma {:induction false} UnreadableAnswerGoesUncounted()
    ensures var held := Passkey(7, "panel.example");
      var c := Call("ann", "ann", 12, true, "192.0.2.1", "panel.example", NoOtp, Some(CannotBeRead), 100);
      var s := State(map["ann" := User(1, true, false, {held})], map[], Limiter.EMPTY, []);
      && LetThrough(s, c) && WrongSecret(s, c) && Decide(s, c) == Crashed
      && LimiterEvents(c, Decide(s, c)) == Checks(c)
  {
    var held := Passkey(7, "panel.example");
    var u := User(1, true, false, {held});
    assert held in Site(u, "panel.example");
  }

  // ---------------------------------------------------------------- challenges over a run

  function TimeOf(e: Entry): nat { if e.Tried? then e.call.now else e.now }

  /** The entry at place i stored a challenge for signing in under this key. */
  predicate Stored(log: seq<Entry>, i: nat, key: ChallengeKey) {
    i < |log| && log[i].Tried? && log[i].outcome.Offer? && log[i].key == key
  }

  /** Everything pending was put there by the entry it is named after. */
  ghost predicate PendingKnown(m: Challenges, log: seq<Entry>) {
    forall key :: key in m ==>
      && m[key].challenge < |log|
      && log[m[key].challenge].key == key && m[key].expires == TimeOf(log[m[key].challenge]) + CHALLENGE_LIFE
      && (if key.kind.Auth? then Stored(log, m[key].challenge, key) else log[m[key].challenge].RegistrationStored?)
  }

  predicate Pays(e: Entry, challenge: nat) { e.Tried? && e.outcome == SignedIn(Some(challenge)) }

  /**
   A spent challenge was stored earlier by a call whose password was right, for the same account and
   name, and was still good.
   */
  ghost predicate PaymentsGood(log: seq<Entry>) {
    forall j, ch: nat {:trigger Pays(log[j], ch)} :: 0 <= j < |log| && Pays(log[j], ch) ==>
      ch < j && Stored(log, ch, log[j].key) && log[ch].call.passwordOk && log[ch].user.active &&
      TimeOf(log[j]) <= TimeOf(log[ch]) + 180
  }

  /** And no other sign-in was paid for with it. */
  ghost predicate PaidOnce(log: seq<Entry>) {
    forall i, j, ch: nat :: 0 <= i < j < |log| && Pays(log[i], ch) ==> !Pays(log[j], ch)
  }

  ghost predicate SpentIsGone(m: Challenges, log: seq<Entry>) {
    forall j, key :: 0 <= j < |log| && key in m ==> !Pays(log[j], m[key].challenge)
  }

  ghost predicate OffersChecked(log: seq<Entry>) {
    forall j :: 0 <= j < |log| && log[j].Tried? && log[j].outcome.Offer? ==> log[j].call.passwordOk && log[j].user.active
  }

  ghost predicate AllEarned(log: seq<Entry>) { forall j :: 0 <= j < |log| ==> Earned(log[j]) }

  ghost predicate Inv(s: State) {
    && PendingKnown(s.challenges, s.log) && PaymentsGood(s.log) && PaidOnce(s.log)
    && SpentIsGone(s.challenges, s.log) && OffersChecked(s.log) && AllEarned(s.log)
  }

  /** Fewer challenges pending and one more entry that pays with none of them. */
  lemma {:induction false} QuietEntry(m: Challenges, m': Challenges, log: seq<Entry>, e: Entry)
    requires PendingKnown(m, log) && SpentIsGone(m, log)
    requires forall key :: key in m' ==> key in m && m'[key] == m[key] && !Pays(e, m[key].challenge)
    ensures PendingKnown(m', log + [e]) && SpentIsGone(m', log + [e])
  {
  }

  lemma {:induction false} LogGrows(log: seq<Entry>, e: Entry)
    requires PaymentsGood(log) && PaidOnce(log) && OffersChecked(log) && AllEarned(log) && Earned(e)
    requires e.Tried? && e.outcome.Offer? ==> e.call.passwordOk && e.user.active
    requires forall ch: nat :: Pays(e, ch) ==>
               && Stored(log, ch, e.key) && TimeOf(e) <= TimeOf(log[ch]) + CHALLENGE_LIFE
               && forall j :: 0 <= j < |log| ==> !Pays(log[j], ch)
    ensures PaymentsGood(log + [e]) && PaidOnce(log + [e]) && OffersChecked(log + [e]) && AllEarned(log + [e])
  {
  }

  lemma {:induction false} SignInKeepsPending(s: State, c: Call)
    requires PendingKnown(s.challenges, s.log) && SpentIsGone(s.challenges, s.log) && PaymentsGood(s.log)
    ensures var m, log := ChallengesAfter(s, c), s.log + [EntryOf(s, c)]; PendingKnown(m, log) && SpentIsGone(m, log)
  {
    var e := EntryOf(s, c);
    if e.outcome.Offer? {
      OfferIsStored(s, c);
    } else {
      PaidEntry(s, c);
      QuietEntry(s.challenges, ChallengesAfter(s, c), s.log, e);
    }
  }

  lemma {:induction false} SignInKeepsInv(s: State, c: Call)
    requires Inv(s)
    ensures Inv(Step(s, SignIn(c)))
  {
    SignInKeepsPending(s, c);
    LogGrows(s.log, EntryOf(s, c));
  }

  lemma {:induction false} OfferIsStored(s: State, c: Call)
    requires Decide(s, c).Offer?
    ensures ChallengesAfter(s, c) ==
      s.challenges[AuthKey(UserOf(s, c), c) := Pending(|s.log|, c.now + CHALLENGE_LIFE)]
  {
  }

  /** A sign-in can only be paid for with the challenge pending under its own key, which it uses up. */
  lemma {:induction false} PaidEntry(s: State, c: Call)
    requires PendingKnown(s.challenges, s.log) && !Decide(s, c).Offer?
    ensures var m := ChallengesAfter(s, c);
      forall k :: k in m ==>
        k in s.challenges && m[k] == s.challenges[k] && !Pays(EntryOf(s, c), s.challenges[k].challenge)
  {
  }

  lemma {:induction false} StoreRegistrationKeepsInv(s: State, subject: nat, rpId: string, now: nat)
    requires Inv(s)
    ensures Inv(Step(s, StoreRegistration(subject, rpId, now)))
  {
    var key := ChallengeKey(Registration, rpId, subject);
    LogGrows(s.log, RegistrationStored(key, now));
  }

  lemma {:induction false} TakeRegistrationKeepsInv(s: State, subject: nat, rpId: string, now: nat)
    requires Inv(s)
    ensures Inv(Step(s, TakeRegistration(subject, rpId, now)))
  {
    var key := ChallengeKey(Registration, rpId, subject);
    QuietEntry(s.challenges, Swept(s.challenges, now) - {key}, s.log, RegistrationTaken(key, now));
    LogGrows(s.log, RegistrationTaken(key, now));
  }

  lemma {:induction false} StepKeepsInv(s: State, e: Event)
    requires Inv(s)
    ensures Inv(Step(s, e))
  {
    match e {
      case SignIn(c) => SignInKeepsInv(s, c);
      case StoreRegistration(subject, rpId, now) => StoreRegistrationKeepsInv(s, subject, rpId, now);
      case TakeRegistration(subject, rpId, now) => TakeRegistrationKeepsInv(s, subject, rpId, now);
      case ChangeUsers(_) =>
    }
  }

  lemma {:induction false} RunKeepsInv(s: State, es: seq<Event>)
    requires Inv(s)
    ensures Inv(Run(s, es))
    decreases |es|
  {
    if es != [] {
      StepKeepsInv(s, es[0]);
      RunKeepsInv(Step(s, es[0]), es[1..]);
    }
  }

  /**
   Over every run, whatever accounts are changed in between: every session was earned, and each
   challenge paid for at most one, in time, having been stored by a call whose password was right.
   */
  lemma {:induction false} SignInIsSafe(es: seq<Event>)
    ensures var log := Run(START, es).log; AllEarned(log) && PaymentsGood(log) && PaidOnce(log)
  {
    RunKeepsInv(START, es);
  }

  /** The answer to the challenge that the last call of this account at this name was offered. */
  predicate AnswersOffer(s: State, c1: Call, c2: Call) {
    && Decide(s, c1).Offer? && c2.username == c1.username && c2.rpId == c1.rpId
    && c2.now <= c1.now + 180
    && c2.passkey.Some? && c2.passkey.value.Answer?
    && c2.passkey.value == Answer(c2.passkey.value.credential, |s.log|, true)
    && Passkey(c2.passkey.value.credential, c2.rpId) in UserOf(s, c1).passkeys
  }

  /**
   The two calls of a passkey sign-in: a right answer, in time and with the right password, is given
   a session, and the same answer given again is not.
   */
  lemma {:induction false} AnswerWorksOnce(s: State, c1: Call, c2: Call)
    requires AnswersOffer(s, c1, c2) && FactorAsked(Step(s, SignIn(c1)), c2)
    ensures Decide(Step(s, SignIn(c1)), c2) == SignedIn(Some(|s.log|))
    ensures !Decide(Step(Step(s, SignIn(c1)), SignIn(c2)), c2).SignedIn?
  {
    var key := AuthKey(UserOf(s, c1), c1);
    var s1 := Step(s, SignIn(c1));
    OfferIsStored(s, c1);
    assert s1.users == s.users && AuthKey(UserOf(s1, c2), c2) == key;
    assert s1.challenges[key] == Pending(|s.log|, c1.now + CHALLENGE_LIFE);
    assert UsesPasskey(UserOf(s1, c2), c2) by {
      assert Passkey(c2.passkey.value.credential, c2.rpId) in Site(UserOf(s1, c2), c2.rpId);
    }
    var s2 := Step(s1, SignIn(c2));
    assert s2.challenges == Swept(s1.challenges, c2.now) - {key};
    assert key !in s2.challenges && s2.users == s.users;
  }

  // ---------------------------------------------------------------- the limiter over a run of calls

  /** Everything a run of calls does to the limiter. */
  function LimiterLog(s: State, es: seq<Event>): seq<Limiter.Event>
    decreases |es|
  {
    if es == [] then []
    else
      (if es[0].SignIn? then LimiterEvents(es[0].call, Decide(s, es[0].call)) else [])
      + LimiterLog(Step(s, es[0]), es[1..])
  }

  lemma {:induction false} LimiterLogIsTheLimiter(s: State, es: seq<Event>)
    ensures Run(s, es).limiter == Limiter.Run(s.limiter, LimiterLog(s, es))
    decreases |es|
  {
    if es != [] {
      var first := if es[0].SignIn? then LimiterEvents(es[0].call, Decide(s, es[0].call)) else [];
      LimiterLogIsTheLimiter(Step(s, es[0]), es[1..]);
      Limiter.RunAppends(s.limiter, first, LimiterLog(Step(s, es[0]), es[1..]));
    }
  }

  predicate IsUserKey(key: Limiter.Key) { StartsWith(key, "user:") }

  /** The addresses calls come from do not look like username keys. */
  predicate FromAddresses(es: seq<Event>) {
    forall i :: 0 <= i < |es| && es[i].SignIn? ==> !IsUserKey(es[i].call.host)
  }

  /** A call asks for lockouts of its address only, and forgives nothing but its own username. */
  predicate KeysKeptApart(es: seq<Limiter.Event>) {
    forall i :: 0 <= i < |es| ==>
      (es[i].Failure? && IsUserKey(es[i].key) ==> !es[i].applyLockout) && (es[i].Success? ==> IsUserKey(es[i].key))
  }

  lemma {:induction false} ApartAppends(a: seq<Limiter.Event>, b: seq<Limiter.Event>)
    requires KeysKeptApart(a) && KeysKeptApart(b)
    ensures KeysKeptApart(a + b)
  {
  }

  lemma {:induction false} RunKeepsKeysApart(s: State, es: seq<Event>)
    requires FromAddresses(es)
    ensures KeysKeptApart(LimiterLog(s, es))
    decreases |es|
  {
    if es != [] {
      assert FromAddresses(es[1..]) by { assert forall i :: 0 <= i < |es[1..]| ==> es[1..][i] == es[i + 1]; }
      RunKeepsKeysApart(Step(s, es[0]), es[1..]);
      var rest := LimiterLog(Step(s, es[0]), es[1..]);
      if es[0].SignIn? {
        ApartAppends(LimiterEvents(es[0].call, Decide(s, es[0].call)), rest);
      } else {
        assert [] + rest == rest;
      }
    }
  }

  /** Calls come in the order of the clock. */
  predicate InOrder(clock: nat, es: seq<Event>)
    decreases |es|
  {
    es == [] || (if es[0].SignIn? then clock <= es[0].call.now && InOrder(es[0].call.now, es[1..])
                 else InOrder(clock, es[1..]))
  }

  lemma {:induction false} SameMomentClocked(clock: nat, es: seq<Limiter.Event>, now: nat)
    requires clock <= now && forall i :: 0 <= i < |es| ==> Limiter.TimeOf(es[i], now) == now
    ensures Limiter.Clocked(clock, es) && Limiter.ClockAfter(clock, es) <= now
    decreases |es|
  {
    if es != [] {
      assert Limiter.TimeOf(es[0], now) == now;
      SameMomentClocked(Limiter.TimeOf(es[0], clock), es[1..], now);
    }
  }

  lemma {:induction false} OneCallClocked(clock: nat, c: Call, o: Outcome)
    requires clock <= c.now
    ensures Limiter.Clocked(clock, LimiterEvents(c, o)) && Limiter.ClockAfter(clock, LimiterEvents(c, o)) <= c.now
  {
    SameMomentClocked(clock, LimiterEvents(c, o), c.now);
  }

  /** The last of the clock readings, none before `clock`. */
  function LastCall(clock: nat, es: seq<Event>): nat
    decreases |es|
  {
    if es == [] then clock else LastCall(if es[0].SignIn? then es[0].call.now else clock, es[1..])
  }

  lemma {:induction false} ClockedLater(earlier: nat, clock: nat, es: seq<Limiter.Event>)
    requires earlier <= clock && Limiter.Clocked(clock, es)
    ensures Limiter.Clocked(earlier, es) && Limiter.ClockAfter(earlier, es) <= Limiter.ClockAfter(clock, es)
    decreases |es|
  {
    if es != [] { ClockedLater(Limiter.TimeOf(es[0], earlier), Limiter.TimeOf(es[0], clock), es[1..]); }
  }

  lemma {:induction false} RunIsClocked(s: State, clock: nat, es: seq<Event>)
    requires InOrder(clock, es)
    ensures Limiter.Clocked(clock, LimiterLog(s, es))
    ensures Limiter.ClockAfter(clock, LimiterLog(s, es)) <= LastCall(clock, es)
    decreases |es|
  {
    if es != [] {
      var rest := LimiterLog(Step(s, es[0]), es[1..]);
      if es[0].SignIn? {
        var c, first := es[0].call, LimiterEvents(es[0].call, Decide(s, es[0].call));
        RunIsClocked(Step(s, es[0]), c.now, es[1..]);
        OneCallClocked(clock, c, Decide(s, c));
        ClockedLater(Limiter.ClockAfter(clock, first), c.now, rest);
        Limiter.ClockedAppends(clock, first, rest);
      } else {
        RunIsClocked(Step(s, es[0]), clock, es[1..]);
        assert [] + rest == rest;
      }
    }
  }

  /**
   Over every run of calls no username has failure history or a lockout, and it is turned away only
   while its eighth-last attempt is no more than 60 s old: nobody can lock another's account.
   */
  lemma {:induction false} UsernamesAlwaysReopen(es: seq<Event>, normal: string, now: nat)
    requires FromAddresses(es) && InOrder(0, es) && LastCall(0, es) <= now
    ensures var limiter, key := Run(START, es).limiter, UserKey(normal);
      var attempts := Limiter.History(Limiter.NOTHING, key, LimiterLog(START, es)).attempts;
      && Limiter.Deque(limiter.failures, key) == [] && key !in limiter.lockouts
      && (Limiter.VerdictOn(limiter, key, now) != Limiter.Allowed <==>
          |attempts| >= 8 &&
          now - attempts[|attempts| - 8] <= 60)
  {
    var log, key := LimiterLog(START, es), UserKey(normal);
    LimiterLogIsTheLimiter(START, es);
    RunKeepsKeysApart(START, es);
    RunIsClocked(START, 0, es);
    assert key[..5] == "user:";
    Limiter.UsernameAlwaysReopens(log, key, now);
  }

  // ---------------------------------------------------------------- one username and the others

  predicate Nameless(normal: string) { normal == "" || normal == "_unknown" }

  predicate SameName(a: string, b: string) { a == b || (Nameless(a) && Nameless(b)) }

  /** Each username has a key of its own, but for the empty one, which shares that of `_unknown`. */
  lemma {:induction false} UserKeysApartIff(a: string, b: string)
    ensures UserKey(a) == UserKey(b) <==> SameName(a, b)
    ensures IsUserKey(UserKey(a))
  {
    assert a != "" ==> UserKey(a)[5..] == a;
    assert b != "" ==> UserKey(b)[5..] == b;
    assert "user:_unknown"[5..] == "_unknown" && "user:" + "_unknown" == "user:_unknown";
  }

  predicate NoneUnder(es: seq<Event>, normal: string) {
    forall i :: 0 <= i < |es| && es[i].SignIn? ==> !SameName(es[i].call.normal, normal)
  }

  predicate NoneFrom(es: seq<Event>, host: string) {
    forall i :: 0 <= i < |es| && es[i].SignIn? ==> es[i].call.host != host
  }

  lemma {:induction false} OtherEventsApart(l: Limiter.State, es: seq<Limiter.Event>, key: Limiter.Key, now: nat)
    requires forall i :: 0 <= i < |es| ==> es[i].key != key
    ensures Limiter.VerdictOn(Limiter.Run(l, es), key, now) == Limiter.VerdictOn(l, key, now)
    decreases |es|
  {
    if es != [] {
      Limiter.OtherKeysApart(l, es[0], key);
      OtherEventsApart(Limiter.Step(l, es[0]), es[1..], key, now);
    }
  }

  lemma {:induction false} OtherCallsApart(s: State, es: seq<Event>, key: Limiter.Key, now: nat)
    requires forall i :: 0 <= i < |es| && es[i].SignIn? ==> es[i].call.host != key && UserKey(es[i].call.normal) != key
    ensures Limiter.VerdictOn(Run(s, es).limiter, key, now) == Limiter.VerdictOn(s.limiter, key, now)
    decreases |es|
  {
    if es != [] {
      if es[0].SignIn? {
        OtherEventsApart(s.limiter, LimiterEvents(es[0].call, Decide(s, es[0].call)), key, now);
      }
      OtherCallsApart(Step(s, es[0]), es[1..], key, now);
    }
  }

  /** Over every run, calls under other usernames leave what the limiter says of a username as it was. */
  lemma {:induction false} OtherUsersLeaveItOpen(s: State, es: seq<Event>, normal: string, now: nat)
    requires FromAddresses(es) && NoneUnder(es, normal)
    ensures Limiter.VerdictOn(Run(s, es).limiter, UserKey(normal), now) ==
            Limiter.VerdictOn(s.limiter, UserKey(normal), now)
  {
    forall i | 0 <= i < |es| && es[i].SignIn?
      ensures es[i].call.host != UserKey(normal) && UserKey(es[i].call.normal) != UserKey(normal)
    {
      UserKeysApartIff(es[i].call.normal, normal);
    }
    OtherCallsApart(s, es, UserKey(normal), now);
  }

  /** And calls that are from other addresses besides do not decide whether one is let through. */
  lemma {:induction false} OthersDoNotKeepItOut(s: State, es: seq<Event>, c: Call)
    requires FromAddresses(es) && NoneUnder(es, c.normal) && NoneFrom(es, c.host) && !IsUserKey(c.host)
    ensures LetThrough(Run(s, es), c) <==> LetThrough(s, c)
  {
    OtherUsersLeaveItOpen(s, es, c.normal, c.now);
    forall i | 0 <= i < |es| && es[i].SignIn? ensures UserKey(es[i].call.normal) != c.host {
      UserKeysApartIff(es[i].call.normal, c.normal);
    }
    OtherCallsApart(s, es, c.host, c.now);
    OwnCheckApart(s, c);
    OwnCheckApart(Run(s, es), c);
  }

  lemma {:induction false} OwnCheckApart(s: State, c: Call)
    requires !IsUserKey(c.host)
    ensures NameVerdict(s, c) == Limiter.VerdictOn(s.limiter, UserKey(c.normal), c.now)
  {
    UserKeysApartIff(c.normal, c.normal);
    Limiter.OtherKeysApart(s.limiter, Limiter.Check(c.host, c.now), UserKey(c.normal));
  }

  lemma {:induction false} LogAppends(s: State, es: seq<Event>, more: seq<Event>)
    ensures LimiterLog(s, es + more) == LimiterLog(s, es) + LimiterLog(Run(s, es), more)
    decreases |es|
  {
    if es == [] {
      assert es + more == more;
    } else {
      assert (es + more)[0] == es[0] && (es + more)[1..] == es[1..] + more;
      LogAppends(Step(s, es[0]), es[1..], more);
    }
  }

  lemma {:induction false} NoForgivenAddress(es: seq<Limiter.Event>, host: Limiter.Key)
    requires KeysKeptApart(es) && !IsUserKey(host)
    ensures Limiter.NoSuccess(host, es)
  {
  }

  /**
   Twenty failures from an address within 900 s have every later call from it refused until 900 s
   after the twentieth, whoever signs in from there in the meantime.
   */
  lemma {:induction false} SignInDoesNotUnlockTheAddress(before: seq<Event>, after: seq<Event>, c: Call)
    requires FromAddresses(before + after + [SignIn(c)]) && InOrder(0, before + after)
    requires LastCall(0, before + after) <= c.now && Fits(c)
    requires var failures := Limiter.History(Limiter.NOTHING, c.host, LimiterLog(START, before)).failures;
      var n := |failures|;
      && n >= 20 && failures[n - 1] <= failures[n - 20] + 900
      && c.now < failures[n - 1] + 900
    ensures var o := Decide(Run(START, before + after), c);
      o.Limited? && o.byAddress && o.verdict.Locked?
  {
    var log, more := LimiterLog(START, before), LimiterLog(Run(START, before), after);
    AddressesOfParts(before, after, SignIn(c));
    LogAppends(START, before, after);
    LimiterLogIsTheLimiter(START, before + after);
    RunIsClocked(START, 0, before + after);
    RunKeepsKeysApart(Run(START, before), after);
    NoForgivenAddress(more, c.host);
    Limiter.AddressStaysLocked(log, more, c.host, c.now);
  }

  lemma {:induction false} AddressesOfParts(before: seq<Event>, after: seq<Event>, last: Event)
    requires FromAddresses(before + after + [last])
    ensures FromAddresses(before + after) && FromAddresses(after)
    ensures last.SignIn? ==> !IsUserKey(last.call.host)
  {
    var all := before + after + [last];
    assert all[|all| - 1] == last;
    assert forall i :: 0 <= i < |before + after| ==> (before + after)[i] == all[i];
    assert forall i :: 0 <= i < |after| ==> after[i] == all[|before| + i];
  }

  // ---------------------------------------------------------------- the endpoint

  class Panel {
    var users: map<string, User>
    var challenges: Challenges
    const limiter: Limiter.Limiter
    ghost var log: seq<Entry>

    ghost function Abstract(): State
      reads this, limiter
    {
      State(users, challenges, limiter.Abstract(), log)
    }

    constructor ()
      ensures limiter.Valid() && fresh(limiter) && Abstract() == START
    {
      users, challenges, log := map[], map[], [];
      limiter := new Limiter.Limiter();
    }

    method ChallengeTake(key: ChallengeKey, now: int) returns (challenge: Option<nat>)
      modifies this`challenges
      ensures challenges == Swept(old(challenges), now) - {key}
      ensures challenge == Taken(old(challenges), key, now)
    {
      challenges := map k | k in challenges && !(challenges[k].expires < now) :: challenges[k];
      if key !in challenges {
        return None;
      }
      var entry := challenges[key];
      challenges := challenges - {key};
      return if entry.expires >= now then Some(entry.challenge) else None;
    }

    /** The address first, then the username. */
    method EnforceRateLimits(c: Call) returns (refusal: Option<Outcome>)
      requires limiter.Valid()
      modifies limiter
      ensures limiter.Valid()
      ensures refusal ==
        if !AddressVerdict(old(Abstract()), c).Allowed? then Some(Limited(true, AddressVerdict(old(Abstract()), c)))
        else if !NameVerdict(old(Abstract()), c).Allowed? then Some(Limited(false, NameVerdict(old(Abstract()), c)))
        else None
      ensures limiter.Abstract() == Limiter.Run(old(limiter.Abstract()),
        if refusal.Some? then LimiterEvents(c, refusal.value) else Checks(c))
    {
      var verdict := limiter.EnforceRateLimit(c.host, c.now);
      RunOne(old(limiter.Abstract()), Limiter.Check(c.host, c.now));
      if !verdict.Allowed? { return Some(Limited(true, verdict)); }
      verdict := limiter.EnforceRateLimit(UserKey(c.normal), c.now);
      RunTwo(old(limiter.Abstract()), Limiter.Check(c.host, c.now), Limiter.Check(UserKey(c.normal), c.now));
      return if verdict.Allowed? then None else Some(Limited(false, verdict));
    }

    method RecordFailures(c: Call)
      requires limiter.Valid()
      modifies limiter
      ensures limiter.Valid()
      ensures limiter.Abstract() == Limiter.Run(old(limiter.Abstract()), Failures(c))
    {
      limiter.RecordFailure(c.host, c.now, true);
      limiter.RecordFailure(UserKey(c.normal), c.now, false);
      RunTwo(old(limiter.Abstract()), Limiter.Failure(c.host, c.now, true),
             Limiter.Failure(UserKey(c.normal), c.now, false));
    }

    /** The second factor of an account whose password was right; `nonce` is the challenge to offer. */
    method CheckFactor(u: User, c: Call, nonce: nat) returns (outcome: Outcome)
      requires limiter.Valid()
      modifies this`challenges, limiter
      ensures limiter.Valid()
      ensures outcome == Factor(u, c, Taken(old(challenges), AuthKey(u, c), c.now))
      ensures challenges ==
        if UsesPasskey(u, c) && !outcome.Crashed? then Swept(old(challenges), c.now) - {AuthKey(u, c)}
        else if outcome.Offer? then old(challenges)[AuthKey(u, c) := Pending(nonce, c.now + CHALLENGE_LIFE)]
        else old(challenges)
      ensures limiter.Abstract() ==
        if CountsAsFailure(outcome) then Limiter.Run(old(limiter.Abstract()), Failures(c)) else old(limiter.Abstract())
    {
      var sitePasskeys := if c.rpId == "" then {} else set p | p in u.passkeys && p.rpId == c.rpId;
      if c.passkey.Some? && sitePasskeys != {} {
        var answer := c.passkey.value;
        if answer.CannotBeRead? { return Crashed; }
        var held := Passkey(answer.credential, c.rpId) in sitePasskeys;
        var challenge := ChallengeTake(AuthKey(u, c), c.now);
        if !held || challenge.None? {
          RecordFailures(c);
          return PasskeyExpired;
        }
        if !(answer.genuine && answer.challenge == challenge.value) {
          RecordFailures(c);
          return PasskeyRefused;
        }
        return SignedIn(challenge);
      } else if sitePasskeys != {} && c.otp.NoOtp? {
        challenges := challenges[AuthKey(u, c) := Pending(nonce, c.now + CHALLENGE_LIFE)];
        return Offer;
      } else if u.totp {
        if c.otp.NoOtp? { return NeedCode; }
        if !c.otp.correct {
          RecordFailures(c);
          return BadCode;
        }
        return SignedIn(None);
      } else if c.otp.Code? || c.passkey.Some? {
        return NoFactor;
      } else if u.passkeys != {} {
        return WrongName;
      }
      return SignedIn(None);
    }

    method SignIn(c: Call, nonce: nat) returns (outcome: Outcome)
      requires limiter.Valid() && nonce == |log|
      modifies this, limiter
      ensures limiter.Valid()
      ensures outcome == Decide(old(Abstract()), c)
      ensures Abstract() == Step(old(Abstract()), Event.SignIn(c))
    {
      outcome := Authenticate(c, nonce);
      if outcome.SignedIn? {
        ResetCounters(c);
        Limiter.RunAppends(old(limiter.Abstract()), Checks(c), Resets(c));
      }
      log := log + [Tried(c, AuthKey(UserOf(old(Abstract()), c), c), UserOf(old(Abstract()), c), outcome)];
    }

    method ResetCounters(c: Call)
      requires limiter.Valid()
      modifies limiter
      ensures limiter.Valid()
      ensures limiter.Abstract() == Limiter.Run(old(limiter.Abstract()), Resets(c))
    {
      limiter.ClearShortWindow(c.host);
      limiter.RecordSuccess(UserKey(c.normal));
      RunTwo(old(limiter.Abstract()), Limiter.ClearWindow(c.host), Limiter.Success(UserKey(c.normal)));
    }

    /** Everything up to the decision: only a success still has to reset the counters. */
    method Authenticate(c: Call, nonce: nat) returns (outcome: Outcome)
      requires limiter.Valid() && nonce == |log|
      modifies this`challenges, limiter
      ensures limiter.Valid()
      ensures outcome == Decide(old(Abstract()), c)
      ensures challenges == ChallengesAfter(old(Abstract()), c)
      ensures limiter.Abstract() == Limiter.Run(old(limiter.Abstract()),
        if outcome.SignedIn? then Checks(c) else LimiterEvents(c, outcome))
    {
      if |c.username| > MAX_USERNAME || c.passwordLength > MAX_PASSWORD { return TooLong; }
      var refusal := EnforceRateLimits(c);
      if refusal.Some? { return refusal.value; }
      outcome := CheckCredentials(c, nonce);
      FailuresAfterChecks(old(limiter.Abstract()), c, outcome);
    }

    method CheckCredentials(c: Call, nonce: nat) returns (outcome: Outcome)
      requires limiter.Valid()
      modifies this`challenges, limiter
      ensures limiter.Valid()
      ensures outcome == Credentials(old(Abstract()), c)
      ensures challenges == ChallengesAtFactor(old(users), old(challenges), c, outcome, nonce)
      ensures limiter.Abstract() ==
        if CountsAsFailure(outcome) then Limiter.Run(old(limiter.Abstract()), Failures(c)) else old(limiter.Abstract())
    {
      if c.username !in users || !c.passwordOk {
        RecordFailures(c);
        return BadPassword;
      }
      var user := users[c.username];
      if !user.active { return Suspended; }
      outcome := CheckFactor(user, c, nonce);
    }
  }

  lemma {:induction false} FailuresAfterChecks(s: Limiter.State, c: Call, o: Outcome)
    requires !o.TooLong? && !o.Limited?
    ensures Limiter.Run(s, if o.SignedIn? then Checks(c) else LimiterEvents(c, o)) ==
      if CountsAsFailure(o) then Limiter.Run(Limiter.Run(s, Checks(c)), Failures(c)) else Limiter.Run(s, Checks(c))
  {
    Limiter.RunAppends(s, Checks(c), Failures(c));
  }

  lemma {:induction false} RunOne(s: Limiter.State, a: Limiter.Event)
    ensures Limiter.Run(s, [a]) == Limiter.Step(s, a)
  {
  }

  lemma {:induction false} RunTwo(s: Limiter.State, a: Limiter.Event, b: Limiter.Event)
    ensures Limiter.Run(s, [a, b]) == Limiter.Step(Limiter.Step(s, a), b)
  {
    assert [a, b][1..] == [b];
    RunOne(Limiter.Step(s, a), b);
  }
}
