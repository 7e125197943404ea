/**
 Sessions: signed tokens that name an account and the version of it they were issued for, a table of
 tokens that were signed out, and the renewal of browser sessions that are in use. Times are whole
 seconds of a clock that does not go back; a token's identifier is its place in the order of issue.
 */
module Sessions {
  import opened Wrappers

  datatype Rank = Admin | Reseller | EndUser

  /** `seller` is the reseller an account is a customer of, `totp` whether two-factor authentication is on. */
  datatype Account = Account(version: nat, active: bool, rank: Rank, seller: Option<string>, totp: bool)

  datatype Token = Token(jti: nat, sub: string, version: nat, iat: int, exp: int, imp: Option<string>)

  /** How a token came about: by a sign-in, or in a request that another token was accepted with. */
  datatype Origin =
    | SignedIn
    | RenewedFrom(parent: nat)
    | ImpersonatedFrom(parent: nat)
    | TwoFactorChangedIn(parent: nat)

  /**
   `tokens` are all that were ever signed, `root` the one each was renewed from in the end, `origin`
   what each came from, `used` the names ever given to an account, `served` the tokens some request
   was accepted with and `minutes` the configured lifetime of a session.
   */
  datatype State = State(
    accounts: map<string, Account>, revoked: map<nat, int>, tokens: seq<Token>, root: seq<nat>, origin: seq<Origin>,
    used: set<string>, served: set<nat>, minutes: nat, clock: int)

  // ---------------------------------------------------------------- who may come in

  datatype Refusal = Expired | UnknownUser | Inactive | OtherVersion | Revoked

  function Refused(s: State, t: Token, now: int): Option<Refusal> {
    if now >= t.exp then Some(Expired)
    else if t.sub !in s.accounts then Some(UnknownUser)
    else if !s.accounts[t.sub].active && t.imp.None? then Some(Inactive)
    else if s.accounts[t.sub].version != t.version then Some(OtherVersion)
    else if t.jti in s.revoked then Some(Revoked)
    else None
  }

  predicate Accepts(s: State, j: nat, now: int) {
    j < |s.tokens| && Refused(s, s.tokens[j], now).None?
  }

  // ---------------------------------------------------------------- what happens to tokens

  function Issue(s: State, sub: string, version: nat, minutes: nat, imp: Option<string>, root: nat, from: Origin)
    : State
  {
    s.(tokens := s.tokens + [Token(|s.tokens|, sub, version, s.clock, s.clock + 60 * minutes, imp)],
       root := s.root + [root], origin := s.origin + [from])
  }

  /** Rows of tokens that have expired by now are dropped, and this token's is added. */
  function Revoke(s: State, j: nat): State
    requires j < |s.tokens|
  {
    var left := map k | k in s.revoked && s.revoked[k] > s.clock :: s.revoked[k];
    s.(revoked := if j in left then left else left[j := s.tokens[j].exp])
  }

  function Bump(s: State, name: string): State {
    if name !in s.accounts then s
    else s.(accounts := s.accounts[name := s.accounts[name].(version := s.accounts[name].version + 1)])
  }

  /** Switching two-factor authentication off, or on where it was off, raises the version. */
  predicate Raises(s: State, name: string, on: bool) { name in s.accounts && !(on && s.accounts[name].totp) }

  function Switched(s: State, name: string, on: bool): State
    requires name in s.accounts
  {
    var s' := if Raises(s, name, on) then Bump(s, name) else s;
    s'.(accounts := s'.accounts[name := s'.accounts[name].(totp := on)])
  }

  /** The whole number of minutes nearest to a lifetime in seconds, the even one of two as near, and at least one. */
  function RenewalMinutes(lifetime: int): nat {
    if lifetime < 60 then 1
    else
      var q, r := lifetime / 60, lifetime % 60;
      if 2 * r < 60 || (2 * r == 60 && q % 2 == 0) then q else q + 1
  }

  /** Half of the token's life has passed, but not all of it. */
  predicate RenewalIsDue(t: Token, now: int) {
    t.imp.None? && t.exp - t.iat > 0 && t.exp > now && 2 * (t.exp - now) <= t.exp - t.iat
  }

  /** Whether an account manages another, or itself. */
  predicate Manages(s: State, actor: string, target: string)
    requires actor in s.accounts && target in s.accounts
  {
    || s.accounts[actor].rank.Admin? || actor == target
    || (s.accounts[actor].rank.Reseller? && s.accounts[target].seller == Some(actor))
  }

  /** What else decides whether a session may impersonate: the rate limit, and the code that was given, if one was. */
  datatype Circumstances = Circumstances(limited: bool, code: Option<bool>)

  datatype Denial = NotStaff | AlreadyImpersonating | TooMany | NoSuchUser | CodeNeeded | CodeWrong

  function WhyNot(s: State, j: nat, target: string, about: Circumstances): Option<Denial>
    requires j < |s.tokens| && s.tokens[j].sub in s.accounts
  {
    var actor := s.tokens[j].sub;
    if s.accounts[actor].rank.EndUser? then Some(NotStaff)
    else if s.tokens[j].imp.Some? then Some(AlreadyImpersonating)
    else if about.limited then Some(TooMany)
    else if target !in s.accounts || target == actor || !Manages(s, actor, target) then Some(NoSuchUser)
    else if s.accounts[actor].totp && about.code.None? then Some(CodeNeeded)
    else if s.accounts[actor].totp && about.code.Some? && !about.code.value then Some(CodeWrong)
    else None
  }

  datatype Event =
    | Create(name: string, rank: Rank, seller: Option<string>)
    | Delete(name: string)
    | SetActive(name: string, active: bool, bump: bool)
    | SetRank(name: string, rank: Rank, seller: Option<string>, bump: bool)
    | ChangeCredentials(name: string)
    | SignIn(name: string, minutes: nat)
    | Serve(j: nat)
    | Renew(j: nat)
    | Logout(j: nat)
    | LogoutEverywhere(j: nat)
    | Impersonate(j: nat, target: string, about: Circumstances)
    | Return(j: nat)
    | ChangeTwoFactor(j: nat, on: bool)

  /**
   When each thing can happen. A response renews the token its request came with, whatever happened
   since. Two-factor authentication is switched on or off in any session that is accepted, once the
   code or the password it asks for was right; switching it on a second time leaves the version alone.
   */
  predicate Enabled(s: State, e: Event) {
    match e
    case Create(name, _, _) => name !in s.used
    case Delete(name) => true
    case SetActive(name, _, _) => name in s.accounts
    case SetRank(name, _, _, _) => name in s.accounts
    case ChangeCredentials(name) => true
    case SignIn(name, _) => name in s.accounts && s.accounts[name].active
    case Serve(j) => Accepts(s, j, s.clock)
    case Renew(j) => j in s.served && j < |s.tokens|
    case Logout(j) => Accepts(s, j, s.clock)
    case LogoutEverywhere(j) => Accepts(s, j, s.clock) && s.tokens[j].imp.None?
    case Impersonate(j, target, about) => Accepts(s, j, s.clock) && WhyNot(s, j, target, about).None?
    case Return(j) => Accepts(s, j, s.clock) && s.tokens[j].imp.Some?
    case ChangeTwoFactor(j, _) => Accepts(s, j, s.clock)
  }

  function Act(s: State, e: Event): State
    requires Enabled(s, e)
  {
    match e
    case Create(name, rank, seller) =>
      s.(accounts := s.accounts[name := Account(0, true, rank, seller, false)], used := s.used + {name})
    case Delete(name) => s.(accounts := s.accounts - {name})
    case SetActive(name, active, bump) =>
      var s' := s.(accounts := s.accounts[name := s.accounts[name].(active := active)]);
      if bump then Bump(s', name) else s'
    case SetRank(name, rank, seller, bump) =>
      var s' := s.(accounts := s.accounts[name := s.accounts[name].(rank := rank, seller := seller)]);
      if bump then Bump(s', name) else s'
    case ChangeCredentials(name) => Bump(s, name)
    case SignIn(name, minutes) => Issue(s, name, s.accounts[name].version, minutes, None, |s.tokens|, SignedIn)
    case Serve(j) => s.(served := s.served + {j})
    case Renew(j) =>
      var t := s.tokens[j];
      if RenewalIsDue(t, s.clock) && j < |s.root|
      then Issue(s, t.sub, t.version, RenewalMinutes(t.exp - t.iat), None, s.root[j], RenewedFrom(j))
      else s
    case Logout(j) => Revoke(s, j)
    case LogoutEverywhere(j) => Bump(Revoke(s, j), s.tokens[j].sub)
    case Impersonate(j, target, _) =>
      Issue(s, target, s.accounts[target].version, s.minutes, Some(s.tokens[j].sub), |s.tokens|, ImpersonatedFrom(j))
    case Return(j) => Revoke(s, j)
    case ChangeTwoFactor(j, on) =>
      var sub := s.tokens[j].sub;
      var s' := Switched(s, sub, on);
      Issue(s', sub, s'.accounts[sub].version, s.minutes, None, |s.tokens|, TwoFactorChangedIn(j))
  }

  datatype Timed = Timed(now: int, e: Event)

  ghost predicate Play(s: State, es: seq<Timed>)
    decreases |es|
  {
    es == [] || (s.clock <= es[0].now && Enabled(s.(clock := es[0].now), es[0].e) && Play(Next(s, es[0]), es[1..]))
  }

  function Next(s: State, t: Timed): State
    requires Enabled(s.(clock := t.now), t.e)
  {
    Act(s.(clock := t.now), t.e)
  }

  ghost function Run(s: State, es: seq<Timed>): State
    requires Play(s, es)
    decreases |es|
  {
    if es == [] then s else Run(Next(s, es[0]), es[1..])
  }

  // ---------------------------------------------------------------- what every run keeps

  ghost predicate Numbered(s: State) {
    |s.root| == |s.tokens| == |s.origin| &&
    forall j :: 0 <= j < |s.tokens| ==> s.tokens[j].jti == j && s.tokens[j].iat <= s.clock
  }

  /** Every revoked token is one that was signed, and its row is kept as long as it could be used. */
  ghost predicate RowsMatch(s: State) {
    forall j :: j in s.revoked ==> j < |s.tokens| && s.revoked[j] == s.tokens[j].exp
  }

  /** No token is ahead of its account. */
  ghost predicate NoneAhead(s: State) {
    && s.accounts.Keys <= s.used
    && forall j :: 0 <= j < |s.tokens| ==>
         s.tokens[j].sub in s.used &&
         (s.tokens[j].sub in s.accounts ==> s.tokens[j].version <= s.accounts[s.tokens[j].sub].version)
  }

  /** Renewed tokens are for the account and the version their sign-in was for; only sign-ins impersonate. */
  ghost predicate Inherited(s: State)
    requires |s.root| == |s.tokens|
  {
    forall j :: 0 <= j < |s.tokens| ==>
      && s.root[j] <= j
      && s.tokens[j].sub == s.tokens[s.root[j]].sub && s.tokens[j].version == s.tokens[s.root[j]].version
      && (s.root[j] != j ==> s.tokens[j].imp.None? && s.tokens[s.root[j]].imp.None?)
  }

  /**
   What a token came from is an earlier one. Impersonations alone carry the claim, and each was started
   in a session that does not.
   */
  ghost predicate OriginOk(tokens: seq<Token>, j: nat, from: Origin)
    requires j < |tokens|
  {
    match from
    case SignedIn => tokens[j].imp.None?
    case RenewedFrom(p) => p < j && tokens[j].imp.None? && tokens[p].imp.None?
    case ImpersonatedFrom(p) => p < j && tokens[j].imp.Some? && tokens[p].imp.None?
    case TwoFactorChangedIn(p) => p < j && tokens[j].imp.None? && tokens[j].sub == tokens[p].sub
  }

  ghost predicate Descended(s: State)
    requires |s.origin| == |s.tokens|
  {
    forall j :: 0 <= j < |s.tokens| ==> OriginOk(s.tokens, j, s.origin[j])
  }

  ghost predicate Inv(s: State) {
    Numbered(s) && RowsMatch(s) && NoneAhead(s) && Inherited(s) && Descended(s)
  }

  function Start(minutes: nat): State { State(map[], map[], [], [], [], {}, {}, minutes, 0) }

  lemma {:induction false} IssueKeepsInv(s: State, sub: string, version: nat, minutes: nat, imp: Option<string>,
      root: nat, from: Origin)
    requires Inv(s) && sub in s.used && (sub in s.accounts ==> version <= s.accounts[sub].version)
    requires OriginOk(Issue(s, sub, version, minutes, imp, root, from).tokens, |s.tokens|, from)
    requires root == |s.tokens| ||
             (root < |s.tokens| && s.tokens[root].sub == sub && s.tokens[root].version == version && imp.None? &&
              s.tokens[root].imp.None?)
    ensures Inv(Issue(s, sub, version, minutes, imp, root, from))
  {
  }

  lemma {:induction false} RevokeKeepsInv(s: State, j: nat)
    requires Inv(s) && j < |s.tokens|
    ensures Inv(Revoke(s, j))
  {
  }

  lemma {:induction false} BumpKeepsInv(s: State, name: string)
    requires Inv(s)
    ensures Inv(Bump(s, name))
  {
  }

  lemma {:induction false} SetActiveKeepsInv(s: State, name: string, active: bool, bump: bool)
    requires Inv(s) && name in s.accounts
    ensures Inv(Act(s, SetActive(name, active, bump)))
  {
  }

  lemma {:induction false} SetRankKeepsInv(s: State, e: Event)
    requires Inv(s) && e.SetRank? && e.name in s.accounts
    ensures Inv(Act(s, e))
  {
  }

  lemma {:induction false} SwitchKeepsInv(s: State, name: string, on: bool)
    requires Inv(s) && name in s.accounts
    ensures Inv(Switched(s, name, on))
  {
  }

  lemma {:induction false} ChangeKeepsInv(s: State, j: nat, on: bool)
    requires Inv(s) && Accepts(s, j, s.clock)
    ensures Inv(Act(s, ChangeTwoFactor(j, on)))
  {
    var sub := s.tokens[j].sub;
    SwitchKeepsInv(s, sub, on);
    var s' := Switched(s, sub, on);
    IssueKeepsInv(s', sub, s'.accounts[sub].version, s.minutes, None, |s.tokens|, TwoFactorChangedIn(j));
  }

  lemma {:induction false} ActKeepsInv(s: State, e: Event)
    requires Inv(s) && Enabled(s, e)
    ensures Inv(Act(s, e))
  {
    if e.SetActive? {
      SetActiveKeepsInv(s, e.name, e.active, e.bump);
    } else if e.SetRank? {
      SetRankKeepsInv(s, e);
    } else if e.ChangeCredentials? {
      BumpKeepsInv(s, e.name);
    } else if e.SignIn? {
      IssueKeepsInv(s, e.name, s.accounts[e.name].version, e.minutes, None, |s.tokens|, SignedIn);
    } else if e.Renew? {
      var t := s.tokens[e.j];
      if RenewalIsDue(t, s.clock) {
        IssueKeepsInv(s, t.sub, t.version, RenewalMinutes(t.exp - t.iat), None, s.root[e.j], RenewedFrom(e.j));
      }
    } else if e.Logout? || e.Return? {
      RevokeKeepsInv(s, e.j);
    } else if e.LogoutEverywhere? {
      RevokeKeepsInv(s, e.j);
      BumpKeepsInv(Revoke(s, e.j), s.tokens[e.j].sub);
    } else if e.Impersonate? {
      IssueKeepsInv(s, e.target, s.accounts[e.target].version, s.minutes, Some(s.tokens[e.j].sub), |s.tokens|,
                    ImpersonatedFrom(e.j));
    } else if e.ChangeTwoFactor? {
      ChangeKeepsInv(s, e.j, e.on);
    }
  }

  lemma {:induction false} RunKeepsInv(s: State, es: seq<Timed>)
    requires Inv(s) && Play(s, es)
    ensures Inv(Run(s, es))
    decreases |es|
  {
    if es != [] {
      assert Inv(s.(clock := es[0].now));
      ActKeepsInv(s.(clock := es[0].now), es[0].e);
      RunKeepsInv(Next(s, es[0]), es[1..]);
    }
  }

  // ---------------------------------------------------------------- what only moves forward

  /** Later: names are not given again, versions do not go back, tokens and what they came from stay. */
  ghost predicate Later(s: State, s': State) {
    && s.clock <= s'.clock && s.minutes == s'.minutes && s.used <= s'.used
    && s.tokens <= s'.tokens && s.root <= s'.root && s.origin <= s'.origin
    && forall name :: name in s'.accounts && name in s.used ==>
         name in s.accounts && s.accounts[name].version <= s'.accounts[name].version
  }

  lemma {:induction false} AccountsMoveOn(s: State, e: Event, name: string)
    requires Inv(s) && Enabled(s, e) && name in Act(s, e).accounts && name in s.used
    ensures name in s.accounts && s.accounts[name].version <= Act(s, e).accounts[name].version
  {
  }

  lemma {:induction false} ActIsLater(s: State, e: Event)
    requires Inv(s) && Enabled(s, e)
    ensures Later(s, Act(s, e))
  {
    forall name | name in Act(s, e).accounts && name in s.used
      ensures name in s.accounts && s.accounts[name].version <= Act(s, e).accounts[name].version
    {
      AccountsMoveOn(s, e, name);
    }
  }

  lemma {:induction false} RunIsLater(s: State, es: seq<Timed>)
    requires Inv(s) && Play(s, es)
    ensures Later(s, Run(s, es))
    decreases |es|
  {
    if es != [] {
      var now := s.(clock := es[0].now);
      assert Inv(now) && Later(s, now);
      ActIsLater(now, es[0].e);
      ActKeepsInv(now, es[0].e);
      RunIsLater(Next(s, es[0]), es[1..]);
    }
  }

  /** A token refused for its version is refused at every later time of every run. */
  lemma {:induction false} StaleVersionStaysRefused(s: State, es: seq<Timed>, j: nat, now: int)
    requires Inv(s) && Play(s, es) && j < |s.tokens|
    requires s.tokens[j].sub in s.accounts ==> s.tokens[j].version != s.accounts[s.tokens[j].sub].version
    ensures !Accepts(Run(s, es), j, now)
  {
    RunIsLater(s, es);
  }

  // ---------------------------------------------------------------- signing out

  /** The token is expired, or its row is in the table. */
  ghost predicate Dead(s: State, j: nat) {
    j < |s.tokens| && (s.clock >= s.tokens[j].exp || j in s.revoked)
  }

  lemma {:induction false} ActKeepsDead(s: State, e: Event, j: nat)
    requires Inv(s) && Enabled(s, e) && Dead(s, j)
    ensures Dead(Act(s, e), j)
  {
  }

  lemma {:induction false} RunKeepsDead(s: State, es: seq<Timed>, j: nat)
    requires Inv(s) && Play(s, es) && Dead(s, j)
    ensures Dead(Run(s, es), j)
    decreases |es|
  {
    if es != [] {
      var now := s.(clock := es[0].now);
      assert Inv(now) && Dead(now, j);
      ActKeepsInv(now, es[0].e);
      ActKeepsDead(now, es[0].e, j);
      RunKeepsDead(Next(s, es[0]), es[1..], j);
    }
  }

  /** A token that was signed out is refused at every later time, although rows of the table are purged. */
  lemma {:induction false} SignedOutStaysRefused(s: State, j: nat, es: seq<Timed>, now: int)
    requires Inv(s) && Enabled(s, Logout(j)) && Play(Act(s, Logout(j)), es)
    requires now >= Run(Act(s, Logout(j)), es).clock
    ensures !Accepts(Run(Act(s, Logout(j)), es), j, now)
  {
    var out := Act(s, Logout(j));
    ActKeepsInv(s, Logout(j));
    RunKeepsDead(out, es, j);
    RunKeepsInv(out, es);
  }

  /**
   Signing out, or going back from an impersonation, ends exactly that token: at every time from now
   on every other token is accepted as it would have been. Purging a row revives nothing.
   */
  lemma {:induction false} RevokeEndsOneToken(s: State, j: nat, k: nat, now: int)
    requires Inv(s) && j < |s.tokens| && now >= s.clock
    ensures Accepts(Revoke(s, j), k, now) <==> Accepts(s, k, now) && k != j
  {
  }

  /**
   Signing out everywhere ends every session of the account: the tokens issued before, and whatever a
   response already under way may still renew from them, are refused at every later time.
   */
  lemma {:induction false} EverywhereEndsThemAll(s: State, j: nat, es: seq<Timed>, k: nat, now: int)
    requires Inv(s) && Enabled(s, LogoutEverywhere(j)) && Play(Act(s, LogoutEverywhere(j)), es)
    requires var end := Run(Act(s, LogoutEverywhere(j)), es);
      k < |end.tokens| == |end.root| && end.root[k] < |s.tokens| && end.tokens[k].sub == s.tokens[j].sub
    ensures !Accepts(Run(Act(s, LogoutEverywhere(j)), es), k, now)
  {
    var out := Act(s, LogoutEverywhere(j));
    var end := Run(out, es);
    ActKeepsInv(s, LogoutEverywhere(j));
    RunKeepsInv(out, es);
    RunIsLater(out, es);
    var r := end.root[k];
    assert out.tokens == s.tokens && end.tokens[r] == s.tokens[r];
    assert s.tokens[r].version < out.accounts[s.tokens[j].sub].version;
  }

  /** The same after any change that raises the version of an account. */
  lemma {:induction false} BumpEndsThemAll(s: State, name: string, es: seq<Timed>, k: nat, now: int)
    requires Inv(s) && name in s.accounts && Play(Bump(s, name), es)
    requires var end := Run(Bump(s, name), es);
      k < |end.tokens| == |end.root| && end.root[k] < |s.tokens| && end.tokens[k].sub == name
    ensures !Accepts(Run(Bump(s, name), es), k, now)
  {
    var out := Bump(s, name);
    var end := Run(out, es);
    BumpKeepsInv(s, name);
    RunKeepsInv(out, es);
    RunIsLater(out, es);
    var r := end.root[k];
    assert out.tokens == s.tokens && end.tokens[r] == s.tokens[r];
  }

  /** Suspensions and changes of rank that count, and of the password, end every session of the account. */
  lemma {:induction false} ChangesSignOut(s: State, e: Event, k: nat, now: int)
    requires Inv(s) && Enabled(s, e) && k < |s.tokens|
    requires e.ChangeCredentials? || (e.SetActive? && e.bump) || (e.SetRank? && e.bump)
    ensures Accepts(Act(s, e), k, now) <==> Accepts(s, k, now) && s.tokens[k].sub != e.name
  {
  }

  /**
   Switching two-factor authentication off, or on for the first time, ends every other session of the
   account; switching it on once more ends none. Other accounts' sessions stay.
   */
  lemma {:induction false} TwoFactorSignsOutIff(s: State, j: nat, on: bool, k: nat, now: int)
    requires Inv(s) && Accepts(s, j, s.clock) && k < |s.tokens|
    ensures var name := s.tokens[j].sub;
      Accepts(Act(s, ChangeTwoFactor(j, on)), k, now) <==>
        Accepts(s, k, now) && (s.tokens[k].sub == name ==> on && s.accounts[name].totp)
    ensures Act(s, ChangeTwoFactor(j, on)).accounts[s.tokens[j].sub].totp == on
  {
  }

  /** A sign-in works from the moment it is issued until it expires, and disturbs no other session. */
  lemma {:induction false} SignInWorks(s: State, name: string, minutes: nat, k: nat, now: int)
    requires Inv(s) && Enabled(s, SignIn(name, minutes)) && now >= s.clock
    ensures var s' := Act(s, SignIn(name, minutes)); var j := |s.tokens|;
      && (Accepts(s', j, now) <==> now < s.clock + 60 * minutes)
      && (k != j ==> (Accepts(s', k, now) <==> Accepts(s, k, now)))
  {
  }

  // ---------------------------------------------------------------- impersonation

  /** The session an impersonation gives back to, if any: still good, that of the account named, and its own. */
  predicate GivesBack(s: State, j: nat, saved: nat)
    requires j < |s.tokens| && s.tokens[j].imp.Some? && s.tokens[j].sub in s.accounts
  {
    && Accepts(s, saved, s.clock)
    && s.tokens[saved].sub == s.tokens[j].imp.value && s.tokens[saved].imp.None?
    && var actor := s.tokens[saved].sub;
       s.accounts[actor].active && !s.accounts[actor].rank.EndUser? && Manages(s, actor, s.tokens[j].sub)
  }

  /** Going back never hands out a session that was signed out, and costs the other sessions nothing. */
  lemma {:induction false} ReturnIsSafe(s: State, j: nat, saved: nat, k: nat, now: int)
    requires Inv(s) && Enabled(s, Return(j)) && now >= s.clock
    ensures GivesBack(s, j, saved) ==>
              && saved != j && Accepts(Act(s, Return(j)), saved, s.clock)
              && Some(s.tokens[saved].sub) == s.tokens[j].imp && s.tokens[saved].imp.None?
              && (s.accounts[s.tokens[saved].sub].rank.Admin? || s.accounts[s.tokens[saved].sub].rank.Reseller?)
    ensures Accepts(Act(s, Return(j)), k, now) <==> Accepts(s, k, now) && k != j
  {
  }

  // ---------------------------------------------------------------- sliding renewal

  function Lifetime(t: Token): int { t.exp - t.iat }

  lemma {:induction false} RenewalIsAFixedPoint(lifetime: int)
    ensures RenewalMinutes(lifetime) >= 1
    ensures RenewalMinutes(60 * RenewalMinutes(lifetime)) == RenewalMinutes(lifetime)
    ensures lifetime >= 30 ==> -30 <= 60 * RenewalMinutes(lifetime) - lifetime <= 30
  {
  }

  /** From a minute on, the nearest whole number of minutes, and of two as near the even one; below it, one. */
  lemma {:induction false} RenewalRounds(lifetime: int)
    ensures var n := RenewalMinutes(lifetime);
      if lifetime < 60 then n == 1
      else -30 <= 60 * n - lifetime <= 30 && (60 * n - lifetime == 30 || 60 * n - lifetime == -30 ==> n % 2 == 0)
  {
  }

  /**
   A response renews exactly the sessions of somebody's own that have lived half of their time and not all
   of it. The renewed one is for the same account and version and lives from now on.
   */
  lemma {:induction false} RenewedIff(s: State, j: nat)
    requires Inv(s) && Enabled(s, Renew(j))
    ensures var t, s', n := s.tokens[j], Act(s, Renew(j)), |s.tokens|;
      var due := t.imp.None? && t.iat < t.exp && s.clock < t.exp && 2 * (s.clock - t.iat) >= t.exp - t.iat;
      if due then
        && s'.tokens == s.tokens +
             [Token(n, t.sub, t.version, s.clock, s.clock + 60 * RenewalMinutes(t.exp - t.iat), None)]
        && s'.origin == s.origin + [RenewedFrom(j)]
      else s' == s
  {
  }

  /** However often it was renewed, a session lives as long as its first renewal made it. */
  ghost predicate Lasting(s: State)
    requires Numbered(s) && Inherited(s)
  {
    forall j :: 0 <= j < |s.tokens| ==>
      && s.root[s.root[j]] == s.root[j]
      && (s.root[j] != j ==> Lifetime(s.tokens[j]) == 60 * RenewalMinutes(Lifetime(s.tokens[s.root[j]])))
      && (s.tokens[j].imp.Some? ==> Lifetime(s.tokens[j]) == 60 * s.minutes)
  }

  lemma {:induction false} RenewKeepsLasting(s: State, j: nat)
    requires Inv(s) && Lasting(s) && Enabled(s, Renew(j))
    ensures Inv(Act(s, Renew(j))) && Lasting(Act(s, Renew(j)))
  {
    ActKeepsInv(s, Renew(j));
    var first := s.tokens[s.root[j]];
    RenewalIsAFixedPoint(Lifetime(first));
    if RenewalIsDue(s.tokens[j], s.clock) {
      assert RenewalMinutes(Lifetime(s.tokens[j])) == RenewalMinutes(Lifetime(first));
      OneMoreLasts(s, Act(s, Renew(j)));
    }
  }

  /** A token issued behind the others lasts if it is a sign-in of its own or a renewal of the right length. */
  lemma {:induction false} OneMoreLasts(s: State, s': State)
    requires Inv(s) && Lasting(s) && Inv(s') && |s'.tokens| == |s.tokens| + 1 && s'.minutes == s.minutes
    requires s.tokens == s'.tokens[..|s.tokens|] && s.root == s'.root[..|s.tokens|]
    requires var j := |s.tokens|; var r := s'.root[j];
      if r == j then s'.tokens[j].imp.Some? ==> Lifetime(s'.tokens[j]) == 60 * s'.minutes
      else s.root[r] == r && Lifetime(s'.tokens[j]) == 60 * RenewalMinutes(Lifetime(s.tokens[r]))
    ensures Lasting(s')
  {
  }

  lemma {:induction false} ActKeepsLasting(s: State, e: Event)
    requires Inv(s) && Lasting(s) && Enabled(s, e)
    ensures Inv(Act(s, e)) && Lasting(Act(s, e))
  {
    ActKeepsInv(s, e);
    if e.Renew? {
      RenewKeepsLasting(s, e.j);
    } else if e.SignIn? || e.Impersonate? || e.ChangeTwoFactor? {
      OneMoreLasts(s, Act(s, e));
    }
  }

  /**
   Over every run, a renewed token carries the account and version of the session it was renewed from
   in the end and lives as long as that one's first renewal; it does not carry an impersonation on.
   */
  lemma {:induction false} RenewedTokensTakeAfterTheirSignIn(minutes: nat, es: seq<Timed>, j: nat)
    requires Play(Start(minutes), es) && j < |Run(Start(minutes), es).tokens|
    ensures var end := Run(Start(minutes), es); Inv(end) && Lasting(end)
    ensures var end := Run(Start(minutes), es); var t, first := end.tokens[j], end.tokens[end.root[j]];
      end.root[j] != j ==>
        && t.sub == first.sub && t.version == first.version && t.imp.None? && first.imp.None?
        && Lifetime(t) == 60 * RenewalMinutes(Lifetime(first))
  {
    RunKeepsLasting(Start(minutes), es);
  }

  lemma {:induction false} RunKeepsLasting(s: State, es: seq<Timed>)
    requires Inv(s) && Lasting(s) && Play(s, es)
    ensures Inv(Run(s, es)) && Lasting(Run(s, es))
    decreases |es|
  {
    if es != [] {
      var now := s.(clock := es[0].now);
      assert Inv(now) && Lasting(now);
      ActKeepsLasting(now, es[0].e);
      RunKeepsLasting(Next(s, es[0]), es[1..]);
    }
  }

  // ---------------------------------------------------------------- what an impersonation leads to

  function Parent(from: Origin): Option<nat> {
    match from case SignedIn => None case _ => Some(from.parent)
  }

  /** The token k came, in however many steps, from a request that j was accepted with, or is j. */
  ghost predicate LedTo(origin: seq<Origin>, j: nat, k: nat)
    decreases k
  {
    k == j ||
    (k < |origin| && Parent(origin[k]).Some? && Parent(origin[k]).value < k && LedTo(origin, j, Parent(origin[k]).value))
  }

  predicate IsChangeIn(e: Event, j: nat) { e.ChangeTwoFactor? && e.j == j }

  /** No request switches two-factor authentication on or off in this session. */
  predicate NoChangeIn(j: nat, es: seq<Timed>) { forall i :: 0 <= i < |es| ==> !IsChangeIn(es[i].e, j) }

  ghost predicate Childless(s: State, j: nat) {
    forall k :: 0 <= k < |s.origin| ==> Parent(s.origin[k]) != Some(j)
  }

  lemma {:induction false} ChildlessIsAlone(origin: seq<Origin>, j: nat, k: nat)
    requires forall i :: 0 <= i < |origin| ==> Parent(origin[i]) != Some(j)
    requires LedTo(origin, j, k)
    ensures k == j
    decreases k
  {
    if k != j { ChildlessIsAlone(origin, j, Parent(origin[k]).value); }
  }

  /** An impersonation is neither renewed nor impersonated from: only a two-factor change leads on from it. */
  lemma {:induction false} ActKeepsChildless(s: State, e: Event, j: nat)
    requires Inv(s) && Enabled(s, e) && Childless(s, j) && !IsChangeIn(e, j)
    requires j < |s.tokens| ==> s.tokens[j].imp.Some?
    ensures Childless(Act(s, e), j)
  {
  }

  lemma {:induction false} RunKeepsChildless(s: State, es: seq<Timed>, j: nat)
    requires Inv(s) && Play(s, es) && Childless(s, j) && NoChangeIn(j, es)
    requires j < |Run(s, es).tokens| && Run(s, es).tokens[j].imp.Some?
    ensures Childless(Run(s, es), j)
    decreases |es|
  {
    if es != [] {
      var now := s.(clock := es[0].now);
      assert Inv(now) && !IsChangeIn(es[0].e, j);
      RunIsLater(s, es);
      ActKeepsInv(now, es[0].e);
      ActKeepsChildless(now, es[0].e, j);
      assert forall i :: 0 <= i < |es[1..]| ==> es[1..][i] == es[i + 1];
      RunKeepsChildless(Next(s, es[0]), es[1..], j);
    }
  }

  lemma {:induction false} ChangeMakesAChild(s: State, es: seq<Timed>, j: nat)
    requires Inv(s) && Play(s, es) && !NoChangeIn(j, es)
    ensures !Childless(Run(s, es), j)
    decreases |es|
  {
    var now := s.(clock := es[0].now);
    assert Inv(now);
    ActKeepsInv(now, es[0].e);
    if IsChangeIn(es[0].e, j) {
      var next := Next(s, es[0]);
      RunIsLater(next, es[1..]);
      assert Parent(next.origin[|s.origin|]) == Some(j);
      assert Run(s, es).origin[|s.origin|] == next.origin[|s.origin|];
    } else {
      ChangeMakesAChild(Next(s, es[0]), es[1..], j);
    }
  }

  /** Nothing but the token itself came from its requests. */
  ghost predicate LeadsNowhere(s: State, j: nat) {
    forall k: nat :: k < |s.tokens| && LedTo(s.origin, j, k) ==> k == j
  }

  lemma {:induction false} ChildlessLeadsNowhere(s: State, j: nat)
    requires Inv(s)
    ensures LeadsNowhere(s, j) <==> Childless(s, j)
  {
    if Childless(s, j) {
      forall k: nat | k < |s.tokens| && LedTo(s.origin, j, k) ensures k == j { ChildlessIsAlone(s.origin, j, k); }
    }
    if LeadsNowhere(s, j) {
      forall k: nat | k < |s.origin| ensures Parent(s.origin[k]) != Some(j) {
        assert OriginOk(s.tokens, k, s.origin[k]);
        assert Parent(s.origin[k]) == Some(j) ==> LedTo(s.origin, j, k);
      }
    }
  }

  /** Over every run an impersonation leads to nothing but itself exactly if no two-factor change was made in it. */
  lemma {:induction false} ImpersonationLeadsNowhereIff(minutes: nat, es: seq<Timed>, j: nat)
    requires Play(Start(minutes), es)
    requires j < |Run(Start(minutes), es).tokens| && Run(Start(minutes), es).tokens[j].imp.Some?
    ensures LeadsNowhere(Run(Start(minutes), es), j) <==> NoChangeIn(j, es)
  {
    RunKeepsInv(Start(minutes), es);
    ChildlessLeadsNowhere(Run(Start(minutes), es), j);
    if NoChangeIn(j, es) {
      RunKeepsChildless(Start(minutes), es, j);
    } else {
      ChangeMakesAChild(Start(minutes), es, j);
    }
  }

  /**
   Over every run, once the configured lifetime of a session has passed since an impersonation was
   started, and no two-factor change was made in it, nothing it led to is accepted any more.
   */
  lemma {:induction false} ImpersonationEnds(minutes: nat, es: seq<Timed>, j: nat, k: nat, now: int)
    requires Play(Start(minutes), es) && NoChangeIn(j, es)
    requires var end := Run(Start(minutes), es);
      j < |end.tokens| && k < |end.tokens| && LedTo(end.origin, j, k) && end.tokens[j].imp.Some? &&
      now >= end.tokens[j].iat + 60 * minutes
    ensures k == j && !Accepts(Run(Start(minutes), es), k, now)
  {
    var end := Run(Start(minutes), es);
    ImpersonationLeadsNowhereIff(minutes, es, j);
    RunKeepsLasting(Start(minutes), es);
    RunIsLater(Start(minutes), es);
    assert k == j && end.minutes == minutes;
    assert Lifetime(end.tokens[j]) == 60 * end.minutes;
  }

  /** Whatever else an impersonation leads to goes back to a two-factor change made in it. */
  lemma {:induction false} HeirsComeFromAChange(s: State, j: nat, k: nat) returns (c: nat)
    requires Inv(s) && j < |s.tokens| && s.tokens[j].imp.Some? && k < |s.tokens| && k != j && LedTo(s.origin, j, k)
    ensures c < |s.tokens| && s.origin[c] == TwoFactorChangedIn(j) && LedTo(s.origin, c, k)
    decreases k
  {
    var p := Parent(s.origin[k]).value;
    assert OriginOk(s.tokens, k, s.origin[k]);
    if p == j {
      c := k;
    } else {
      c := HeirsComeFromAChange(s, j, p);
    }
  }

  /** A session the impersonation j led to is accepted when the configured lifetime has passed since j was started. */
  ghost predicate Outlived(s: State, j: nat, es: seq<Timed>) {
    Play(s, es) && NoChangeIn(j, es) &&
    var end := Run(s, es);
    exists k :: 0 <= k < |end.tokens| && j < |end.tokens| && LedTo(end.origin, j, k) &&
                Accepts(end, k, end.clock) && end.clock >= end.tokens[j].iat + 60 * s.minutes
  }

  lemma {:induction false} PlayFirst(s: State, t: Timed, es: seq<Timed>)
    requires s.clock <= t.now && Enabled(s.(clock := t.now), t.e) && Play(Next(s, t), es)
    ensures Play(s, [t] + es) && Run(s, [t] + es) == Run(Next(s, t), es)
  {
  }

  /** The token is good but for the time: its account stands as it was issued for and it was not signed out. */
  ghost predicate Standing(s: State, j: nat) {
    && j < |s.tokens| && j !in s.revoked && s.tokens[j].imp.None?
    && s.tokens[j].sub in s.accounts
    && s.accounts[s.tokens[j].sub].version == s.tokens[j].version && s.accounts[s.tokens[j].sub].active
  }

  /** Serving and renewing a token of the configured lifetime when half of it has passed. */
  lemma {:induction false} HalfwayRenewal(s: State, k: nat)
    requires Inv(s) && Standing(s, k) && s.minutes > 0
    requires Lifetime(s.tokens[k]) == 60 * s.minutes && s.clock == s.tokens[k].iat + 30 * s.minutes
    ensures Enabled(s, Serve(k)) && Enabled(Act(s, Serve(k)), Renew(k))
    ensures var s' := Act(Act(s, Serve(k)), Renew(k)); var n := |s.tokens|;
      && Act(s, Serve(k)).clock == s.clock && Inv(s') && s'.clock == s.clock
      && Standing(s', n) && s'.tokens[..n] == s.tokens
      && s'.origin == s.origin + [RenewedFrom(k)] && s'.tokens[n].exp == s.clock + 60 * s.minutes
  {
    ActKeepsInv(s, Serve(k));
    ActKeepsInv(Act(s, Serve(k)), Renew(k));
    WholeMinutesRenew(s.minutes);
  }

  lemma {:induction false} ThreeMoves(s: State, a: Timed, b: Timed, c: Timed)
    requires s.clock <= a.now && Enabled(s.(clock := a.now), a.e)
    requires var s1 := Next(s, a); s1.clock <= b.now && Enabled(s1.(clock := b.now), b.e)
    requires var s2 := Next(Next(s, a), b); s2.clock <= c.now && Enabled(s2.(clock := c.now), c.e)
    ensures Play(s, [a, b, c]) && Run(s, [a, b, c]) == Next(Next(Next(s, a), b), c)
  {
    var s3 := Next(Next(Next(s, a), b), c);
    assert Play(s3, []) && Run(s3, []) == s3;
    PlayFirst(Next(Next(s, a), b), c, []);
    PlayFirst(Next(s, a), b, [c] + []);
    PlayFirst(s, a, [b] + ([c] + []));
    assert [a] + ([b] + ([c] + [])) == [a, b, c];
  }

  /** A token of the configured lifetime can be renewed halfway, and its renewal is good for a whole one more. */
  lemma {:induction false} RenewedHalfway(s: State, k: nat, last: int) returns (es: seq<Timed>)
    requires Inv(s) && Standing(s, k) && s.minutes > 0 && last < s.tokens[k].exp + 30 * s.minutes
    requires s.clock <= s.tokens[k].iat && Lifetime(s.tokens[k]) == 60 * s.minutes
    ensures Play(s, es) && (forall j :: NoChangeIn(j, es))
    ensures var end := Run(s, es); var n := |s.tokens|;
      && n < |end.tokens| && end.tokens[..n] == s.tokens && end.origin == s.origin + [RenewedFrom(k)]
      && Accepts(end, n, end.clock) && end.clock >= last
  {
    var now, n := s.(clock := s.tokens[k].iat + 30 * s.minutes), |s.tokens|;
    var end := if last > now.clock then last else now.clock;
    assert Inv(now) && Standing(now, k);
    HalfwayRenewal(now, k);
    var served := Act(now, Serve(k));
    var renewed := Act(served, Renew(k));
    LastServed(renewed, n, end);
    RenewFirst(served, k, [Timed(end, Serve(n))]);
    ServeFirst(s, now.clock, k, [Timed(now.clock, Renew(k))] + [Timed(end, Serve(n))]);
    es := [Timed(now.clock, Serve(k))] + ([Timed(now.clock, Renew(k))] + [Timed(end, Serve(n))]);
    assert forall j :: NoChangeIn(j, es);
  }

  lemma {:induction false} LastServed(s: State, n: nat, end: int)
    requires Inv(s) && Standing(s, n) && s.clock <= end < s.tokens[n].exp
    ensures var es := [Timed(end, Serve(n))];
      && Play(s, es) && Run(s, es).tokens == s.tokens && Run(s, es).origin == s.origin
      && Run(s, es).clock == end && Accepts(Run(s, es), n, end)
  {
    var after := Next(s, Timed(end, Serve(n)));
    assert Play(after, []) && Run(after, []) == after;
    PlayFirst(s, Timed(end, Serve(n)), []);
    assert [Timed(end, Serve(n))] + [] == [Timed(end, Serve(n))];
  }

  lemma {:induction false} RenewFirst(s: State, k: nat, es: seq<Timed>)
    requires Enabled(s, Renew(k)) && Play(Act(s, Renew(k)), es)
    ensures Play(s, [Timed(s.clock, Renew(k))] + es)
    ensures Run(s, [Timed(s.clock, Renew(k))] + es) == Run(Act(s, Renew(k)), es)
  {
    assert s.(clock := s.clock) == s;
    PlayFirst(s, Timed(s.clock, Renew(k)), es);
  }

  lemma {:induction false} ServeFirst(s: State, now: int, k: nat, es: seq<Timed>)
    requires s.clock <= now && Enabled(s.(clock := now), Serve(k)) && Play(Act(s.(clock := now), Serve(k)), es)
    ensures Play(s, [Timed(now, Serve(k))] + es)
    ensures Run(s, [Timed(now, Serve(k))] + es) == Run(Act(s.(clock := now), Serve(k)), es)
  {
    PlayFirst(s, Timed(now, Serve(k)), es);
  }

  lemma {:induction false} WholeMinutesRenew(m: nat)
    requires m > 0
    ensures RenewalMinutes(60 * m) == m
  {
  }

  /** The session a two-factor change issues stands, at the latest once its account is active. */
  lemma {:induction false} ChangedSessionStands(s: State, j: nat, on: bool)
    requires Inv(s) && Accepts(s, j, s.clock)
    ensures var s1 := Act(s, ChangeTwoFactor(j, on)); var wake := SetActive(s.tokens[j].sub, true, false);
      && Inv(s1) && Enabled(s1, wake) && Inv(Act(s1, wake)) && Standing(Act(s1, wake), |s.tokens|)
      && Act(s1, wake).tokens == s1.tokens && Act(s1, wake).origin == s1.origin && Act(s1, wake).clock == s.clock
      && s1.tokens[|s.tokens|].iat == s.clock && Lifetime(s1.tokens[|s.tokens|]) == 60 * s.minutes
      && s1.tokens[..|s.tokens|] == s.tokens && s1.origin == s.origin + [TwoFactorChangedIn(j)]
      && Act(s1, wake).minutes == s.minutes
  {
    ActKeepsInv(s, ChangeTwoFactor(j, on));
    ActKeepsInv(Act(s, ChangeTwoFactor(j, on)), SetActive(s.tokens[j].sub, true, false));
  }

  lemma {:induction false} TwoGenerations(origin: seq<Origin>, j: nat, k: nat)
    requires j < k && k + 1 < |origin| && origin[k] == TwoFactorChangedIn(j) && origin[k + 1] == RenewedFrom(k)
    ensures LedTo(origin, j, k + 1)
  {
    assert LedTo(origin, j, k);
  }

  lemma {:induction false} ChangeOutlives(s: State, j: nat, on: bool) returns (es: seq<Timed>)
    requires Inv(s) && Lasting(s) && Accepts(s, j, s.clock) && s.tokens[j].imp.Some? && s.minutes > 0
    ensures Outlived(Act(s, ChangeTwoFactor(j, on)), j, es)
  {
    var k, s1 := |s.tokens|, Act(s, ChangeTwoFactor(j, on));
    var wake := Timed(s.clock, SetActive(s.tokens[j].sub, true, false));
    ChangedSessionStands(s, j, on);
    assert s1.(clock := s.clock) == s1;
    var rest := RenewedHalfway(Next(s1, wake), k, s.tokens[j].iat + 60 * s.minutes);
    PlayFirst(s1, wake, rest);
    es := [wake] + rest;
    var end := Run(s1, es);
    assert end.tokens[j] == end.tokens[..k + 1][j] == s1.tokens[j] == s1.tokens[..k][j] == s.tokens[j];
    TwoGenerations(end.origin, j, k);
    assert NoChangeIn(j, rest) && es[0] == wake && forall i :: 0 < i < |es| ==> es[i] == rest[i - 1];
    assert NoChangeIn(j, es);
  }

  /**
   What the next request does to an impersonation's end, whatever comes after it: with no further
   two-factor change in it something it led to can be let in after its time exactly if that request
   is such a change.
   */
  lemma {:induction false} OutlivedIff(s: State, j: nat, e: Event)
    requires Inv(s) && Lasting(s) && Accepts(s, j, s.clock) && s.tokens[j].imp.Some? && s.minutes > 0
    requires Childless(s, j) && Enabled(s, e)
    ensures (exists es :: Outlived(Act(s, e), j, es)) <==> IsChangeIn(e, j)
  {
    if IsChangeIn(e, j) {
      var es := ChangeOutlives(s, j, e.on);
    } else {
      forall es ensures !Outlived(Act(s, e), j, es) { NotOutlived(s, j, e, es); }
    }
  }

  lemma {:induction false} NotOutlived(s: State, j: nat, e: Event, es: seq<Timed>)
    requires Inv(s) && Lasting(s) && j < |s.tokens| && s.tokens[j].imp.Some?
    requires Childless(s, j) && Enabled(s, e) && !IsChangeIn(e, j)
    ensures !Outlived(Act(s, e), j, es)
  {
    var s1 := Act(s, e);
    ActKeepsInv(s, e);
    ActIsLater(s, e);
    ActKeepsChildless(s, e, j);
    if Play(s1, es) && NoChangeIn(j, es) {
      RunIsLater(s1, es);
      RunKeepsChildless(s1, es, j);
      var end := Run(s1, es);
      assert end.tokens[j] == s1.tokens[j] == s.tokens[j];
      forall k | 0 <= k < |end.tokens| && LedTo(end.origin, j, k) ensures k == j { ChildlessIsAlone(end.origin, j, k); }
    }
  }

  /**
   One that does: ann impersonates bob at 0, two-factor authentication is switched on a minute later,
   and the session that gives is renewed halfway. Six hours after the start bob's account is open.
   */
  const OUTLIVING := [Timed(60, ChangeTwoFactor(1, true)), Timed(10860, Serve(2)), Timed(10860, Renew(2))]

  function Impersonating(): State {
    State(map["ann" := Account(0, true, Admin, None, false), "bob" := Account(0, true, EndUser, None, false)], map[],
          [Token(0, "ann", 0, 0, 21600, None), Token(1, "bob", 0, 0, 21600, Some("ann"))],
          [0, 1], [SignedIn, ImpersonatedFrom(0)], {"ann", "bob"}, {}, 360, 0)
  }

  /** Four requests reach the state it starts from. */
  lemma {:induction false} ImpersonatingIsReached()
    ensures var es := [Timed(0, Create("ann", Admin, None)), Timed(0, Create("bob", EndUser, None)),
                       Timed(0, SignIn("ann", 360)), Timed(0, Impersonate(0, "bob", Circumstances(false, None)))];
      Play(Start(360), es) && Run(Start(360), es) == Impersonating()
  {
    var a, b := Timed(0, Create("ann", Admin, None)), Timed(0, Create("bob", EndUser, None));
    var c, d := Timed(0, SignIn("ann", 360)), Timed(0, Impersonate(0, "bob", Circumstances(false, None)));
    var s2 := Next(Next(Start(360), a), b);
    var s4 := Next(Next(s2, c), d);
    assert s4 == Impersonating();
    assert Play(s4, []) && Run(s4, []) == s4;
    PlayFirst(Next(s2, c), d, []);
    PlayFirst(s2, c, [d] + []);
    PlayFirst(Next(Start(360), a), b, [c] + ([d] + []));
    PlayFirst(Start(360), a, [b] + ([c] + ([d] + [])));
    assert [a] + ([b] + ([c] + ([d] + []))) == [a, b, c, d];
  }

  lemma {:induction false} ImpersonationOutlived()
    ensures Play(Impersonating(), OUTLIVING)
    ensures var end := Run(Impersonating(), OUTLIVING);
      && |end.tokens| == 4 && LedTo(end.origin, 1, 3) && end.tokens[3].imp.None? && end.tokens[3].sub == "bob"
      && Accepts(end, 3, 21600)
  {
    var s := Impersonating();
    var a, b, c := OUTLIVING[0], OUTLIVING[1], OUTLIVING[2];
    var s1 := Next(s, a);
    assert s1.tokens == s.tokens + [Token(2, "bob", 1, 60, 21660, None)];
    var s2 := Next(s1, b);
    var s3 := Next(s2, c);
    assert s3.tokens == s1.tokens + [Token(3, "bob", 1, 10860, 32460, None)];
    ThreeMoves(s, a, b, c);
    TwoGenerations(s3.origin, 1, 2);
    assert OUTLIVING == [a, b, c];
  }

  /** Whoever asks, and however. */
  ghost predicate NeverMay(s: State, k: nat, other: string)
    requires k < |s.tokens|
  {
    forall about :: s.tokens[k].sub in s.accounts ==> WhyNot(s, k, other, about).Some?
  }

  /**
   One level only, as far as it goes: over every run, if no two-factor change was made in an
   impersonation, no session it led to may start another; if one was made and the account is staff and
   manages the other, one of them may.
   */
  lemma {:induction false} OneLevelOnlyIff(s: State, j: nat, es: seq<Timed>, other: string)
    requires Inv(s) && Play(s, es) && j < |s.tokens| && s.tokens[j].imp.Some? && Childless(s, j)
    ensures var end := Run(s, es);
      NoChangeIn(j, es) ==> forall k: nat :: k < |end.tokens| && LedTo(end.origin, j, k) ==> NeverMay(end, k, other)
    ensures var end := Run(s, es); var sub := s.tokens[j].sub;
      (!NoChangeIn(j, es) && other in end.accounts && other != sub && sub in end.accounts &&
       !end.accounts[sub].rank.EndUser? && Manages(end, sub, other)) ==>
        exists k: nat :: k < |end.tokens| && LedTo(end.origin, j, k) && !NeverMay(end, k, other)
  {
    var end := Run(s, es);
    RunIsLater(s, es);
    RunKeepsInv(s, es);
    assert end.tokens[j] == s.tokens[j];
    if NoChangeIn(j, es) {
      RunKeepsChildless(s, es, j);
      forall k: nat | k < |end.tokens| && LedTo(end.origin, j, k) ensures NeverMay(end, k, other) {
        ChildlessIsAlone(end.origin, j, k);
      }
    } else {
      ChangeMakesAChild(s, es, j);
      var k: nat :| k < |end.origin| && Parent(end.origin[k]) == Some(j);
      assert OriginOk(end.tokens, k, end.origin[k]) && LedTo(end.origin, j, k);
      if other in end.accounts && other != s.tokens[j].sub && s.tokens[j].sub in end.accounts &&
         !end.accounts[s.tokens[j].sub].rank.EndUser? && Manages(end, s.tokens[j].sub, other) {
        assert WhyNot(end, k, other, Circumstances(false, Some(true))).None?;
      }
    }
  }

  /** Exactly when a session is handed back. */
  lemma {:induction false} GivesBackIff(s: State, j: nat, saved: nat)
    requires j < |s.tokens| && s.tokens[j].imp.Some? && s.tokens[j].sub in s.accounts
    ensures GivesBack(s, j, saved) <==>
      && Accepts(s, saved, s.clock) && s.tokens[saved].imp.None? && Some(s.tokens[saved].sub) == s.tokens[j].imp
      && var actor, target := s.tokens[saved].sub, s.tokens[j].sub;
         && s.accounts[actor].active
         && (InCharge(s, actor, target) || (actor == target && !s.accounts[actor].rank.EndUser?))
  {
  }

  // ---------------------------------------------------------------- suspended accounts

  /** Suspending an account ends the sessions that are its own and leaves those that impersonate it. */
  lemma {:induction false} SuspensionIff(s: State, name: string, k: nat, now: int)
    requires Inv(s) && name in s.accounts
    ensures Accepts(Act(s, SetActive(name, false, false)), k, now) <==>
            Accepts(s, k, now) && (s.tokens[k].sub == name ==> s.tokens[k].imp.Some?)
  {
  }

  /**
   An impersonation works from the moment it is issued until it expires, also of a suspended account,
   and disturbs no other session.
   */
  lemma {:induction false} ImpersonationWorks(s: State, j: nat, target: string, about: Circumstances, k: nat, now: int)
    requires Inv(s) && Enabled(s, Impersonate(j, target, about)) && now >= s.clock
    ensures var s' := Act(s, Impersonate(j, target, about)); var n := |s.tokens|;
      && s'.tokens[n].sub == target && s'.tokens[n].imp == Some(s.tokens[j].sub)
      && (Accepts(s', n, now) <==> now < s.clock + 60 * s.minutes)
      && (k != n ==> (Accepts(s', k, now) <==> Accepts(s, k, now)))
  {
  }

  // ---------------------------------------------------------------- who may start an impersonation

  /** An admin, or the reseller the target is a customer of. */
  predicate InCharge(s: State, actor: string, target: string) {
    actor in s.accounts && target in s.accounts &&
    match s.accounts[actor].rank
    case Admin => true
    case Reseller => s.accounts[target].seller == Some(actor)
    case EndUser => false
  }

  /** The token was issued for this event, and rightly. */
  predicate StartedBy(s: State, e: Event, t: Token) {
    && e.Impersonate? && Accepts(s, e.j, s.clock) && s.tokens[e.j].imp.None?
    && t.sub == e.target && t.imp == Some(s.tokens[e.j].sub) && t.iat == s.clock
    && var actor := s.tokens[e.j].sub;
       && InCharge(s, actor, e.target) && actor != e.target && !e.about.limited
       && (s.accounts[actor].totp ==> e.about.code.Some? && e.about.code.value)
  }

  /** When each denial is given: the first reason of these, and none exactly if there is none. */
  lemma {:induction false} DenialIff(s: State, j: nat, target: string, about: Circumstances)
    requires j < |s.tokens| && s.tokens[j].sub in s.accounts
    ensures var actor, why := s.tokens[j].sub, WhyNot(s, j, target, about);
      var staff := s.accounts[actor].rank.Admin? || s.accounts[actor].rank.Reseller?;
      var open := staff && s.tokens[j].imp.None? && !about.limited;
      var reachable := target in s.accounts && target != actor && InCharge(s, actor, target);
      && (why == Some(NotStaff) <==> !staff)
      && (why == Some(AlreadyImpersonating) <==> staff && s.tokens[j].imp.Some?)
      && (why == Some(TooMany) <==> staff && s.tokens[j].imp.None? && about.limited)
      && (why == Some(NoSuchUser) <==> open && !reachable)
      && (why == Some(CodeNeeded) <==> open && reachable && s.accounts[actor].totp && about.code.None?)
      && (why == Some(CodeWrong) <==>
            open && reachable && s.accounts[actor].totp && about.code.Some? && !about.code.value)
      && (why.None? <==> open && reachable && (s.accounts[actor].totp ==> about.code.Some? && about.code.value))
  {
    var actor := s.tokens[j].sub;
    assert target in s.accounts && target != actor && !s.accounts[actor].rank.EndUser? ==>
             (Manages(s, actor, target) <==> InCharge(s, actor, target));
  }

  ghost predicate StartedIn(s: State, es: seq<Timed>, i: nat, t: Token) {
    i < |es| && Play(s, es[..i]) && StartedBy(Run(s, es[..i]).(clock := es[i].now), es[i].e, t)
  }

  lemma {:induction false} StartedLater(s: State, es: seq<Timed>, i: nat, t: Token)
    requires es != [] && Play(s, es) && StartedIn(Next(s, es[0]), es[1..], i, t)
    ensures StartedIn(s, es, i + 1, t)
  {
    var later := es[1..][..i];
    assert es[..i + 1] == [es[0]] + later;
    PlayFirst(s, es[0], later);
  }

  lemma {:induction false} IssuedRightly(s: State, e: Event, k: nat)
    requires Inv(s) && Enabled(s, e) && |s.tokens| <= k < |Act(s, e).tokens| && Act(s, e).tokens[k].imp.Some?
    ensures StartedBy(s, e, Act(s, e).tokens[k])
  {
    if e.Impersonate? { DenialIff(s, e.j, e.target, e.about); }
  }

  lemma {:induction false} StartedOnTheWay(s: State, es: seq<Timed>, k: nat) returns (i: nat)
    requires Inv(s) && Play(s, es) && |s.tokens| <= k < |Run(s, es).tokens| && Run(s, es).tokens[k].imp.Some?
    ensures StartedIn(s, es, i, Run(s, es).tokens[k])
    decreases |es|
  {
    var now, next := s.(clock := es[0].now), Next(s, es[0]);
    assert Inv(now);
    ActKeepsInv(now, es[0].e);
    RunIsLater(next, es[1..]);
    if k < |next.tokens| {
      i := 0;
      assert Run(s, es).tokens[k] == next.tokens[k];
      IssuedRightly(now, es[0].e, k);
      assert es[..0] == [];
    } else {
      i := StartedOnTheWay(next, es[1..], k);
      StartedLater(s, es, i, Run(s, es).tokens[k]);
      i := i + 1;
    }
  }

  /**
   Over every run, every session that impersonates was issued to a session of somebody's own that was
   accepted, of an admin or of the reseller of the target, who gave the right code if one was owed.
   */
  lemma {:induction false} EveryImpersonationWasAllowed(minutes: nat, es: seq<Timed>, k: nat)
    requires Play(Start(minutes), es) && k < |Run(Start(minutes), es).tokens|
    requires Run(Start(minutes), es).tokens[k].imp.Some?
    ensures exists i: nat :: StartedIn(Start(minutes), es, i, Run(Start(minutes), es).tokens[k])
  {
    var i := StartedOnTheWay(Start(minutes), es, k);
  }

  /** The browser's token after a request: none if it came too late, a new one if renewal was due. */
  function Visit(t: Token, now: int): Option<Token> {
    if now >= t.exp then None
    else if RenewalIsDue(t, now) then Some(t.(iat := now, exp := now + 60 * RenewalMinutes(Lifetime(t))))
    else Some(t)
  }

  function Visits(t: Token, times: seq<int>): Option<Token>
    decreases |times|
  {
    if times == [] then Some(t)
    else match Visit(t, times[0]) case None => None case Some(next) => Visits(next, times[1..])
  }

  /** Never more than half the current lifetime from one request to the next. */
  predicate Frequent(t: Token, last: int, times: seq<int>)
    decreases |times|
  {
    times == [] ||
    (last <= times[0] && 2 * (times[0] - last) <= Lifetime(t) &&
     match Visit(t, times[0]) case None => true case Some(next) => Frequent(next, times[0], times[1..]))
  }

  lemma {:induction false} FrequentVisitsFrom(t: Token, last: int, times: seq<int>)
    requires t.imp.None? && Lifetime(t) > 0 && 2 * (t.exp - last) > Lifetime(t) && Frequent(t, last, times)
    ensures Visits(t, times).Some?
    decreases |times|
  {
    if times != [] {
      RenewalIsAFixedPoint(Lifetime(t));
      FrequentVisitsFrom(Visit(t, times[0]).value, times[0], times[1..]);
    }
  }

  /** A session in use never expires. */
  lemma {:induction false} FrequentVisitsKeepTheSession(t: Token, times: seq<int>)
    requires t.imp.None? && Lifetime(t) > 0 && Frequent(t, t.iat, times)
    ensures Visits(t, times).Some?
  {
    FrequentVisitsFrom(t, t.iat, times);
  }

  // ---------------------------------------------------------------- a browser among everything else

  /** The event signs this session out, or changes or removes its account. */
  predicate Ends(s: State, e: Event, j: nat)
    requires j < |s.tokens|
  {
    match e
    case Logout(k) => k == j
    case Return(k) => k == j
    case LogoutEverywhere(k) => k < |s.tokens| && s.tokens[k].sub == s.tokens[j].sub
    case ChangeCredentials(name) => name == s.tokens[j].sub
    case SetActive(name, _, _) => name == s.tokens[j].sub
    case SetRank(name, _, _, bump) => bump && name == s.tokens[j].sub
    case Delete(name) => name == s.tokens[j].sub
    case ChangeTwoFactor(k, on) => k < |s.tokens| && s.tokens[k].sub == s.tokens[j].sub && Raises(s, s.tokens[k].sub, on)
    case _ => false
  }

  ghost predicate LeavesAlone(s: State, es: seq<Timed>, j: nat)
    requires Play(s, es)
    decreases |es|
  {
    es == [] || (j < |s.tokens| && !Ends(s, es[0].e, j) && LeavesAlone(Next(s, es[0]), es[1..], j))
  }

  lemma {:induction false} ActKeepsStanding(s: State, e: Event, j: nat)
    requires Inv(s) && Enabled(s, e) && Standing(s, j) && !Ends(s, e, j)
    ensures Standing(Act(s, e), j) && Act(s, e).tokens[j] == s.tokens[j]
  {
  }

  /** Sign-outs of other sessions, purges, renewals and changes of other accounts do not touch it. */
  lemma {:induction false} RunKeepsStanding(s: State, es: seq<Timed>, j: nat)
    requires Inv(s) && Play(s, es) && Standing(s, j) && LeavesAlone(s, es, j)
    ensures Inv(Run(s, es)) && Standing(Run(s, es), j) && Run(s, es).tokens[j] == s.tokens[j]
    decreases |es|
  {
    if es != [] {
      var now := s.(clock := es[0].now);
      assert Inv(now) && Standing(now, j) && !Ends(now, es[0].e, j);
      ActKeepsInv(now, es[0].e);
      ActKeepsStanding(now, es[0].e, j);
      RunKeepsStanding(Next(s, es[0]), es[1..], j);
    }
  }

  /** One visit of the browser, after whatever else went on since the one before. */
  datatype Leg = Leg(others: seq<Timed>, now: int)

  /** A request with the browser's token and the renewal its response may carry: the state, and the token from then on. */
  function Visited(s: State, j: nat): (State, nat)
    requires Accepts(s, j, s.clock)
  {
    var served := Act(s, Serve(j));
    (Act(served, Renew(j)), if RenewalIsDue(s.tokens[j], s.clock) && j < |s.root| then |s.tokens| else j)
  }

  /**
   The browser comes at every leg's time, never more than half its token's lifetime after the time
   before, and nothing in between ends its session. `Invited` says no more than that: whether it is
   let in is what is to be shown.
   */
  ghost predicate Invited(s: State, j: nat, last: int, legs: seq<Leg>)
    decreases |legs|
  {
    legs == [] ||
    (Play(s, legs[0].others) && LeavesAlone(s, legs[0].others, j) && j < |s.tokens| &&
     var arrived := Run(s, legs[0].others).(clock := legs[0].now);
     && Run(s, legs[0].others).clock <= legs[0].now && last <= legs[0].now
     && 2 * (legs[0].now - last) <= Lifetime(s.tokens[j])
     && (Accepts(arrived, j, legs[0].now) ==>
           Invited(Visited(arrived, j).0, Visited(arrived, j).1, legs[0].now, legs[1..])))
  }

  /** Let in at every leg. */
  ghost predicate LetIn(s: State, j: nat, legs: seq<Leg>)
    decreases |legs|
  {
    legs == [] ||
    (Play(s, legs[0].others) &&
     var arrived := Run(s, legs[0].others).(clock := legs[0].now);
     Accepts(arrived, j, legs[0].now) && LetIn(Visited(arrived, j).0, Visited(arrived, j).1, legs[1..]))
  }

  /** After a visit more than half of the current token's life is left, and the session stands. */
  lemma {:induction false} VisitRefreshes(s: State, j: nat)
    requires Inv(s) && Standing(s, j) && Lifetime(s.tokens[j]) > 0 && s.clock < s.tokens[j].exp
    ensures Accepts(s, j, s.clock)
    ensures var (next, k) := Visited(s, j);
      Inv(next) && Standing(next, k) && Lifetime(next.tokens[k]) > 0 &&
      2 * (next.tokens[k].exp - s.clock) > Lifetime(next.tokens[k])
  {
    var served := Act(s, Serve(j));
    ActKeepsInv(s, Serve(j));
    ActKeepsInv(served, Renew(j));
    RenewalIsAFixedPoint(Lifetime(s.tokens[j]));
  }

  /**
   In every run, whatever happens to other sessions and other accounts and however the table is
   purged, a browser that is never away for more than half of its session's lifetime is always let in.
   */
  lemma {:induction false} FrequentBrowserStaysIn(s: State, j: nat, last: int, legs: seq<Leg>)
    requires Inv(s) && Standing(s, j) && Lifetime(s.tokens[j]) > 0
    requires 2 * (s.tokens[j].exp - last) > Lifetime(s.tokens[j]) && Invited(s, j, last, legs)
    ensures LetIn(s, j, legs)
    decreases |legs|
  {
    if legs != [] {
      RunKeepsStanding(s, legs[0].others, j);
      var arrived := Run(s, legs[0].others).(clock := legs[0].now);
      assert Inv(arrived) && Standing(arrived, j);
      VisitRefreshes(arrived, j);
      FrequentBrowserStaysIn(Visited(arrived, j).0, Visited(arrived, j).1, legs[0].now, legs[1..]);
    }
  }

  /** In particular from its sign-in on. */
  lemma {:induction false} SignInStaysIn(s: State, name: string, minutes: nat, legs: seq<Leg>)
    requires Inv(s) && Enabled(s, SignIn(name, minutes)) && minutes > 0
    requires Invited(Act(s, SignIn(name, minutes)), |s.tokens|, s.clock, legs)
    ensures LetIn(Act(s, SignIn(name, minutes)), |s.tokens|, legs)
  {
    ActKeepsInv(s, SignIn(name, minutes));
    FrequentBrowserStaysIn(Act(s, SignIn(name, minutes)), |s.tokens|, s.clock, legs);
  }

  /** Half is the most that can be promised: one second more between requests loses some session. */
  lemma {:induction false} HalfIsSharp(t: Token)
    requires t.imp.None? && Lifetime(t) > 0
    ensures var first := t.iat + (Lifetime(t) - 1) / 2;
      && t.iat <= first < t.exp && 2 * (t.exp - first) <= Lifetime(t) + 2
      && Visits(t, [first, t.exp]) == None
  {
  }

  /** A session that is not used, and an impersonation used or not, ends at its expiry. */
  lemma {:induction false} UnusedSessionEnds(t: Token, times: seq<int>, now: int)
    requires now >= t.exp && (times == [] || t.imp.Some?)
    ensures Visits(t, times + [now]) == None
    decreases |times|
  {
    if times == [] {
      assert times + [now] == [now];
    } else {
      assert (times + [now])[1..] == times[1..] + [now];
      if times[0] < t.exp { UnusedSessionEnds(t, times[1..], now); }
    }
  }

  /** What a visit says is what serving a request and renewing its token does. */
  lemma {:induction false} VisitIsServeAndRenew(s: State, j: nat)
    requires Inv(s) && Accepts(s, j, s.clock)
    ensures var s' := Act(Act(s, Serve(j)), Renew(j)); var t := Visit(s.tokens[j], s.clock);
      && t.Some?
      && (RenewalIsDue(s.tokens[j], s.clock) ==>
            s'.tokens == s.tokens + [t.value.(jti := |s.tokens|)] && Accepts(s', |s.tokens|, s.clock))
      && (!RenewalIsDue(s.tokens[j], s.clock) ==> s'.tokens == s.tokens && t.value == s.tokens[j])
  {
  }

  // ---------------------------------------------------------------- the endpoints

  class Database {
    var accounts: map<string, Account>
    var revoked: map<nat, int>
    var tokens: seq<Token>
    const minutes: nat
    ghost var root: seq<nat>
    ghost var origin: seq<Origin>
    ghost var used: set<string>
    ghost var served: set<nat>

    ghost function Abstract(now: int): State
      reads this
    {
      State(accounts, revoked, tokens, root, origin, used, served, minutes, now)
    }

    constructor (minutes: nat)
      ensures Abstract(0) == Start(minutes)
    {
      this.minutes := minutes;
      accounts, revoked, tokens, root, origin, used, served := map[], map[], [], [], [], {}, {};
    }

    /** Who a token is, or why it is turned away. */
    method UserFromToken(t: Token, now: int) returns (refusal: Option<Refusal>)
      ensures refusal == Refused(Abstract(now), t, now)
    {
      if now >= t.exp { return Some(Expired); }
      if t.sub !in accounts { return Some(UnknownUser); }
      var user := accounts[t.sub];
      if !user.active && t.imp.None? { return Some(Inactive); }
      if user.version != t.version { return Some(OtherVersion); }
      if t.jti in revoked { return Some(Revoked); }
      return None;
    }

    method RevokeRequestToken(j: nat, now: int)
      requires j < |tokens|
      modifies this`revoked
      ensures Abstract(now) == Revoke(old(Abstract(now)), j)
    {
      revoked := map k | k in revoked && revoked[k] > now :: revoked[k];
      if j in revoked { return; }
      revoked := revoked[j := tokens[j].exp];
    }

    method Logout(j: nat, now: int)
      requires Accepts(Abstract(now), j, now)
      modifies this`revoked
      ensures Abstract(now) == Act(old(Abstract(now)), Event.Logout(j))
    {
      RevokeRequestToken(j, now);
    }

    /** Refused while impersonating. */
    method LogoutEverywhere(j: nat, now: int) returns (ok: bool)
      requires Accepts(Abstract(now), j, now)
      modifies this
      ensures ok == old(tokens)[j].imp.None?
      ensures Abstract(now) == if ok then Act(old(Abstract(now)), Event.LogoutEverywhere(j)) else old(Abstract(now))
    {
      if tokens[j].imp.Some? { return false; }
      RevokeRequestToken(j, now);
      RaiseVersion(tokens[j].sub);
      return true;
    }

    /**
     The end of a response to a request that was served: `isCookie` if the token was the browser's
     cookie, `setsOwn` if the response sets a session cookie itself.
     */
    method MaybeRenew(j: nat, isCookie: bool, setsOwn: bool, now: int)
      requires j in served && j < |tokens| == |root|
      modifies this
      ensures Abstract(now) ==
        if isCookie && !setsOwn then Act(old(Abstract(now)), Event.Renew(j)) else old(Abstract(now))
    {
      if !isCookie { return; }
      var t := tokens[j];
      if t.imp.Some? || setsOwn { return; }
      var lifetime := t.exp - t.iat;
      if lifetime <= 0 || t.exp <= now { return; }
      if 2 * (t.exp - now) > lifetime { return; }
      tokens := tokens + [Token(|tokens|, t.sub, t.version, now, now + 60 * RenewalMinutes(lifetime), None)];
      root, origin := root + [root[j]], origin + [RenewedFrom(j)];
    }

    /** The refusals in their order; a session is issued only past all of them, and a wrong code counts as a failure. */
    method Impersonate(j: nat, target: string, about: Circumstances, now: int)
      returns (denial: Option<Denial>, counted: bool)
      requires Accepts(Abstract(now), j, now)
      modifies this
      ensures denial == WhyNot(old(Abstract(now)), j, target, about)
      ensures counted <==> denial == Some(CodeWrong)
      ensures denial.None? <==>
        && old(tokens)[j].imp.None? && !about.limited && target != old(tokens)[j].sub
        && InCharge(old(Abstract(now)), old(tokens)[j].sub, target)
        && (old(accounts)[old(tokens)[j].sub].totp ==> about.code.Some? && about.code.value)
      ensures Abstract(now) ==
        if denial.None? then Act(old(Abstract(now)), Event.Impersonate(j, target, about)) else old(Abstract(now))
    {
      DenialIff(Abstract(now), j, target, about);
      var actor := tokens[j].sub;
      var rank := accounts[actor].rank;
      if rank.EndUser? { return Some(NotStaff), false; }
      if tokens[j].imp.Some? { return Some(AlreadyImpersonating), false; }
      if about.limited { return Some(TooMany), false; }
      if target !in accounts || target == actor { return Some(NoSuchUser), false; }
      if !rank.Admin? && accounts[target].seller != Some(actor) { return Some(NoSuchUser), false; }
      if accounts[actor].totp {
        if about.code.None? { return Some(CodeNeeded), false; }
        if !about.code.value { return Some(CodeWrong), true; }
      }
      root, origin := root + [|tokens|], origin + [ImpersonatedFrom(j)];
      tokens := tokens + [Token(|tokens|, target, accounts[target].version, now, now + 60 * minutes,
                                Some(actor))];
      return None, false;
    }

    /** Asks for a code of the secret that was set up, not for the password, and not whether it is an impersonation. */
    method EnableTwoFactor(j: nat, hasSecret: bool, codeOk: bool, now: int) returns (ok: bool)
      requires Accepts(Abstract(now), j, now)
      modifies this
      ensures ok <==> hasSecret && codeOk
      ensures Abstract(now) == if ok then Act(old(Abstract(now)), Event.ChangeTwoFactor(j, true)) else old(Abstract(now))
    {
      if !hasSecret || !codeOk { return false; }
      var name := tokens[j].sub;
      if !accounts[name].totp {
        SetTotp(name, true);
        RaiseVersion(name);
      }
      IssueSession(j, now);
      return true;
    }

    method DisableTwoFactor(j: nat, stepUpOk: bool, now: int) returns (ok: bool)
      requires Accepts(Abstract(now), j, now)
      modifies this
      ensures ok <==> stepUpOk
      ensures Abstract(now) == if ok then Act(old(Abstract(now)), Event.ChangeTwoFactor(j, false)) else old(Abstract(now))
    {
      if !stepUpOk { return false; }
      SetTotp(tokens[j].sub, false);
      RaiseVersion(tokens[j].sub);
      IssueSession(j, now);
      return true;
    }

    method SetTotp(name: string, on: bool)
      requires name in accounts
      modifies this`accounts
      ensures accounts == old(accounts)[name := old(accounts)[name].(totp := on)]
    {
      accounts := accounts[name := accounts[name].(totp := on)];
    }

    /** A session of the account of a request, with no claim of its own. */
    method IssueSession(j: nat, now: int)
      requires j < |tokens| && tokens[j].sub in accounts
      modifies this`tokens, this`root, this`origin
      ensures var name := old(tokens)[j].sub;
        Abstract(now) == Issue(old(Abstract(now)), name, old(accounts)[name].version, minutes, None, |old(tokens)|,
                               TwoFactorChangedIn(j))
    {
      root, origin := root + [|tokens|], origin + [TwoFactorChangedIn(j)];
      tokens := tokens + [Token(|tokens|, tokens[j].sub, accounts[tokens[j].sub].version, now, now + 60 * minutes, None)];
    }

    method RaiseVersion(name: string)
      requires name in accounts
      modifies this`accounts
      ensures accounts == old(accounts)[name := old(accounts)[name].(version := old(accounts)[name].version + 1)]
    {
      accounts := accounts[name := accounts[name].(version := accounts[name].version + 1)];
    }

    /** The borrowed session ends whether or not the saved one is handed back. */
    method ReturnFromImpersonation(j: nat, saved: Option<nat>, now: int)
      returns (back: Option<nat>)
      requires Accepts(Abstract(now), j, now) && tokens[j].imp.Some?
      requires saved.Some? ==> saved.value < |tokens|
      modifies this`revoked
      ensures Abstract(now) == Act(old(Abstract(now)), Event.Return(j))
      ensures back == if saved.Some? && GivesBack(old(Abstract(now)), j, saved.value) then saved else None
    {
      var ok := false;
      if saved.Some? {
        var actor := tokens[saved.value];
        var refusal := UserFromToken(actor, now);
        if refusal.None? && Some(actor.sub) == tokens[j].imp && actor.imp.None? {
          var user, target := accounts[actor.sub], tokens[j].sub;
          var manages := user.rank.Admin? || actor.sub == target || accounts[target].seller == Some(actor.sub);
          ok := user.active && (user.rank.Admin? || user.rank.Reseller?) && manages;
        }
      }
      RevokeRequestToken(j, now);
      return if ok then saved else None;
    }
  }
}
