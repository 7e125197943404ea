/**
 A call that nothing comes between: taken step by step it ends as the same call taken in one, with the
 same outcome, the same challenges pending and the same entries of the limiter.
 */
module LoginAlone {
  import opened Wrappers
  import Limiter = LoginLimiter
  import Login
  import Threads = LoginThreads

  /** What a call does next. */
  function NextMove(t: Threads.Thread, id: nat, now: nat): Threads.Move {
    match t
    case AddressPassed(_) => Threads.CheckName(id, now)
    case BothPassed(_) => Threads.ReadAccount(id)
    case Known(_, _) => Threads.AskFactor(id, now)
    case Holding(_, _, _, _) => Threads.VerifyAnswer(id)
    case Failing(_, _) => Threads.RecordFailure(id, now)
    case Passing(_, _, _, _, _) => Threads.ResetCounter(id)
  }

  /** How many more steps a call can take. */
  function StepsLeft(t: Threads.Thread): nat {
    match t
    case AddressPassed(_) => 6
    case BothPassed(_) => 5
    case Known(_, _) => 4
    case Holding(_, _, _, _) => 3
    case Failing(_, recorded) => if recorded then 1 else 2
    case Passing(_, _, _, _, cleared) => if cleared then 1 else 2
  }

  lemma {:induction false} StepsRunOut(w: Threads.World, id: nat, now: nat)
    requires id in w.threads
    ensures var m := NextMove(w.threads[id], id, now); Threads.Enabled(w, m)
    ensures var w' := Threads.Next(w, NextMove(w.threads[id], id, now));
      id in w'.threads ==> StepsLeft(w'.threads[id]) < StepsLeft(w.threads[id])
  {
  }

  /** The call takes all its steps, one after the other. */
  function Finish(w: Threads.World, id: nat, now: nat): Threads.World
    decreases if id in w.threads then StepsLeft(w.threads[id]) else 0
  {
    if id !in w.threads then w
    else
      StepsRunOut(w, id, now);
      Finish(Threads.Next(w, NextMove(w.threads[id], id, now)), id, now)
  }

  /** The same state, for calls that are taken in one. */
  predicate Same(w: Threads.World, s: Login.State) {
    w.users == s.users && w.challenges == s.challenges && w.limiter == s.limiter && |w.log| == |s.log|
  }

  /** What a call notes when it stores a challenge or gives a session. */
  function Noted(u: Login.User, c: Login.Call, o: Login.Outcome): seq<Threads.Note> {
    match o
    case Offer => [Threads.Stored(Login.AuthKey(u, c), c, u, c.now)]
    case SignedIn(paid) => [Threads.Given(Login.AuthKey(u, c), c, u, paid, c.now)]
    case _ => []
  }

  function Failed(l: Limiter.State, c: Login.Call): Limiter.State {
    Limiter.AfterFailure(Limiter.AfterFailure(l, c.host, c.now, true), Login.UserKey(c.normal), c.now, false)
  }

  function Forgiven(l: Limiter.State, c: Login.Call): Limiter.State {
    Limiter.Step(Limiter.Step(l, Limiter.ClearWindow(c.host)), Limiter.Success(Login.UserKey(c.normal)))
  }

  lemma {:induction false} FailingEnds(w: Threads.World, id: nat, c: Login.Call)
    requires id in w.threads && w.threads[id] == Threads.Failing(c, false)
    ensures Finish(w, id, c.now) == w.(limiter := Failed(w.limiter, c), threads := w.threads - {id})
  {
    var w1 := Threads.Next(w, Threads.RecordFailure(id, c.now));
    var w2 := Threads.Next(w1, Threads.RecordFailure(id, c.now));
    assert w1.threads == w.threads[id := Threads.Failing(c, true)] && w2.threads == w.threads - {id};
    assert Finish(w, id, c.now) == Finish(w1, id, c.now) == Finish(w2, id, c.now) == w2;
  }

  lemma {:induction false} PassingEnds(w: Threads.World, id: nat, c: Login.Call, u: Login.User, paid: Option<nat>)
    requires id in w.threads && w.threads[id] == Threads.Passing(c, u, paid, c.now, false)
    ensures Finish(w, id, c.now) ==
            w.(limiter := Forgiven(w.limiter, c), log := w.log + Noted(u, c, Login.SignedIn(paid)),
               threads := w.threads - {id})
  {
    var w1 := Threads.Next(w, Threads.ResetCounter(id));
    var w2 := Threads.Next(w1, Threads.ResetCounter(id));
    assert w1.threads == w.threads[id := Threads.Passing(c, u, paid, c.now, true)];
    assert w2.threads == w.threads - {id};
    assert Finish(w, id, c.now) == Finish(w1, id, c.now) == Finish(w2, id, c.now) == w2;
  }

  /** What the limiter is left with by an outcome of the second factor. */
  function LimiterFor(l: Limiter.State, c: Login.Call, o: Login.Outcome): Limiter.State {
    if Login.CountsAsFailure(o) then Failed(l, c) else if o.SignedIn? then Forgiven(l, c) else l
  }

  function ChallengesFor(m: Login.Challenges, u: Login.User, c: Login.Call, o: Login.Outcome, nonce: nat)
    : Login.Challenges
  {
    if Login.UsesPasskey(u, c) then if o.Crashed? then m else Login.Swept(m, c.now) - {Login.AuthKey(u, c)}
    else if o.Offer? then m[Login.AuthKey(u, c) := Login.Pending(nonce, c.now + Login.CHALLENGE_LIFE)]
    else m
  }

  /** How a call ends that has read its account. */
  ghost predicate EndsAs(w: Threads.World, w': Threads.World, id: nat, c: Login.Call, u: Login.User, o: Login.Outcome) {
    w' == w.(limiter := LimiterFor(w.limiter, c, o), challenges := ChallengesFor(w.challenges, u, c, o, |w.log|),
             log := w.log + Noted(u, c, o), threads := w.threads - {id})
  }

  lemma {:induction false} HoldingEnds(w: Threads.World, id: nat, c: Login.Call, u: Login.User, taken: Option<nat>)
    requires id in w.threads && w.threads[id] == Threads.Holding(c, u, taken, c.now)
    requires Login.UsesPasskey(u, c) && c.passkey.value.Answer?
    ensures var o := Login.Factor(u, c, taken);
      Finish(w, id, c.now) ==
        w.(limiter := LimiterFor(w.limiter, c, o), log := w.log + Noted(u, c, o), threads := w.threads - {id})
  {
    var w1 := Threads.Next(w, Threads.VerifyAnswer(id));
    var o := Login.Factor(u, c, taken);
    assert Finish(w, id, c.now) == Finish(w1, id, c.now);
    assert w1.threads - {id} == w.threads - {id};
    if o.SignedIn? {
      assert o == Login.SignedIn(taken);
      PassingEnds(w1, id, c, u, taken);
    } else {
      FailingEnds(w1, id, c);
      assert w.log + [] == w.log;
    }
  }

  lemma {:induction false} PasskeyEnds(w: Threads.World, id: nat, c: Login.Call, u: Login.User)
    requires id in w.threads && w.threads[id] == Threads.Known(c, u) && Login.UsesPasskey(u, c)
    ensures var o := Login.Factor(u, c, Login.Taken(w.challenges, Login.AuthKey(u, c), c.now));
      EndsAs(w, Finish(w, id, c.now), id, c, u, o)
  {
    var w1 := Threads.Next(w, Threads.AskFactor(id, c.now));
    assert Finish(w, id, c.now) == Finish(w1, id, c.now);
    assert w1.threads - {id} == w.threads - {id} && w.log + [] == w.log;
    if c.passkey.value.Answer? {
      HoldingEnds(w1, id, c, u, Login.Taken(w.challenges, Login.AuthKey(u, c), c.now));
    }
  }

  lemma {:induction false} CodeEnds(w: Threads.World, id: nat, c: Login.Call, u: Login.User)
    requires id in w.threads && w.threads[id] == Threads.Known(c, u) && !Login.UsesPasskey(u, c)
    ensures EndsAs(w, Finish(w, id, c.now), id, c, u, Login.Factor(u, c, None))
  {
    var w1, o := Threads.Next(w, Threads.AskFactor(id, c.now)), Login.Factor(u, c, None);
    assert Finish(w, id, c.now) == Finish(w1, id, c.now);
    assert w1.threads - {id} == w.threads - {id} && w.log + [] == w.log;
    if Login.CountsAsFailure(o) {
      FailingEnds(w1, id, c);
    } else if o.SignedIn? {
      assert o == Login.SignedIn(None);
      PassingEnds(w1, id, c, u, None);
    }
  }

  /** The second factor does not look at the challenge taken unless a passkey answers. */
  lemma {:induction false} OnlyPasskeysTake(u: Login.User, c: Login.Call, taken: Option<nat>)
    requires !Login.UsesPasskey(u, c)
    ensures Login.Factor(u, c, taken) == Login.Factor(u, c, None)
  {
  }

  lemma {:induction false} KnownEnds(w: Threads.World, id: nat, c: Login.Call, u: Login.User)
    requires id in w.threads && w.threads[id] == Threads.Known(c, u)
    ensures var o := Login.Factor(u, c, Login.Taken(w.challenges, Login.AuthKey(u, c), c.now));
      EndsAs(w, Finish(w, id, c.now), id, c, u, o)
  {
    if Login.UsesPasskey(u, c) {
      PasskeyEnds(w, id, c, u);
    } else {
      CodeEnds(w, id, c, u);
      OnlyPasskeysTake(u, c, Login.Taken(w.challenges, Login.AuthKey(u, c), c.now));
    }
  }

  /** How a call ends that the limiter has let through. */
  lemma {:induction false} PassedEnds(w: Threads.World, id: nat, c: Login.Call)
    requires id in w.threads && w.threads[id] == Threads.BothPassed(c)
    ensures var w' := Finish(w, id, c.now);
      if c.username !in w.users || !c.passwordOk
      then w' == w.(limiter := Failed(w.limiter, c), threads := w.threads - {id})
      else if !w.users[c.username].active then w' == w.(threads := w.threads - {id})
      else var u := w.users[c.username];
        EndsAs(w, w', id, c, u, Login.Factor(u, c, Login.Taken(w.challenges, Login.AuthKey(u, c), c.now)))
  {
    var w1 := Threads.Next(w, Threads.ReadAccount(id));
    assert Finish(w, id, c.now) == Finish(w1, id, c.now);
    assert w1.threads - {id} == w.threads - {id};
    if c.username !in w.users || !c.passwordOk {
      FailingEnds(w1, id, c);
    } else if w.users[c.username].active {
      KnownEnds(w1, id, c, w.users[c.username]);
    }
  }

  /** The two checks of the limiter, and what is left to do. */
  lemma {:induction false} ChecksFirst(w: Threads.World, id: nat, c: Login.Call)
    requires id !in w.threads && Login.Fits(c)
    ensures var w' := Finish(Threads.Next(w, Threads.Begin(id, c, c.now)), id, c.now);
      var address := Limiter.AfterCheck(w.limiter, c.host, c.now);
      var both := Limiter.AfterCheck(address, Login.UserKey(c.normal), c.now);
      if !Limiter.VerdictOn(w.limiter, c.host, c.now).Allowed? then w' == w.(limiter := address)
      else if !Limiter.VerdictOn(address, Login.UserKey(c.normal), c.now).Allowed? then w' == w.(limiter := both)
      else w' == Finish(w.(limiter := both, threads := w.threads[id := Threads.BothPassed(c)]), id, c.now)
  {
    var w1 := Threads.Next(w, Threads.Begin(id, c, c.now));
    assert w.threads - {id} == w.threads;
    if Limiter.VerdictOn(w.limiter, c.host, c.now).Allowed? {
      var w2 := Threads.Next(w1, Threads.CheckName(id, c.now));
      assert Finish(w1, id, c.now) == Finish(w2, id, c.now);
      assert w1.threads - {id} == w.threads;
      assert w1.threads[id := Threads.BothPassed(c)] == w.threads[id := Threads.BothPassed(c)];
    }
  }

  /** The call is over and has done what the call taken in one does. */
  ghost predicate Agrees(w: Threads.World, w': Threads.World, s: Login.State, c: Login.Call) {
    var o := Login.Decide(s, c);
    && w'.users == w.users && w'.threads == w.threads
    && w'.challenges == Login.ChallengesAfter(s, c)
    && w'.limiter == Limiter.Run(s.limiter, Login.LimiterEvents(c, o))
    && w'.log == w.log + Noted(Login.UserOf(s, c), c, o)
  }

  lemma {:induction false} FactorInOne(s: Login.State, c: Login.Call, both: Limiter.State)
    requires Login.FactorAsked(s, c)
    requires both == Limiter.AfterCheck(Limiter.AfterCheck(s.limiter, c.host, c.now), Login.UserKey(c.normal), c.now)
    ensures var u := s.users[c.username];
            var o := Login.Factor(u, c, Login.Taken(s.challenges, Login.AuthKey(u, c), c.now));
      && Login.Decide(s, c) == o && Login.UserOf(s, c) == u
      && Login.ChallengesAfter(s, c) == ChallengesFor(s.challenges, u, c, o, |s.log|)
      && Limiter.Run(s.limiter, Login.LimiterEvents(c, o)) == LimiterFor(both, c, o)
  {
    Login.LimiterAfterIff(s, c);
  }

  lemma {:induction false} TurnedAwayInOne(s: Login.State, c: Login.Call, both: Limiter.State)
    requires Login.LetThrough(s, c) && !Login.FactorAsked(s, c)
    requires both == Limiter.AfterCheck(Limiter.AfterCheck(s.limiter, c.host, c.now), Login.UserKey(c.normal), c.now)
    ensures var o := Login.Decide(s, c);
      && o == (if c.username in s.users && c.passwordOk then Login.Suspended else Login.BadPassword)
      && Login.ChallengesAfter(s, c) == s.challenges
      && Limiter.Run(s.limiter, Login.LimiterEvents(c, o)) == if o.BadPassword? then Failed(both, c) else both
  {
    Login.LimiterAfterIff(s, c);
  }

  lemma {:induction false} LetInAgrees(w: Threads.World, mid: Threads.World, s: Login.State, c: Login.Call, id: nat)
    requires Same(w, s) && id !in w.threads && Login.LetThrough(s, c)
    requires mid.users == w.users && mid.challenges == w.challenges && mid.log == w.log
    requires mid.threads == w.threads[id := Threads.BothPassed(c)]
    requires mid.limiter ==
             Limiter.AfterCheck(Limiter.AfterCheck(w.limiter, c.host, c.now), Login.UserKey(c.normal), c.now)
    ensures Agrees(w, Finish(mid, id, c.now), s, c)
  {
    PassedEnds(mid, id, c);
    assert mid.threads - {id} == w.threads && w.log + [] == w.log;
    if Login.FactorAsked(s, c) { FactorInOne(s, c, mid.limiter); } else { TurnedAwayInOne(s, c, mid.limiter); }
  }

  /**
   A call that begins and takes all its steps with nothing in between does what the call taken in one
   does: it is told the same, and leaves the same challenges, the same limiter and no trace of itself.
   */
  lemma {:induction false} AloneIsInOne(w: Threads.World, s: Login.State, c: Login.Call, id: nat)
    requires Same(w, s) && id !in w.threads
    ensures Agrees(w, Finish(Threads.Next(w, Threads.Begin(id, c, c.now)), id, c.now), s, c)
  {
    Login.LimiterAfterIff(s, c);
    assert w.log + [] == w.log;
    if Login.Fits(c) {
      ChecksFirst(w, id, c);
      if Login.LetThrough(s, c) {
        var both := Limiter.AfterCheck(Limiter.AfterCheck(w.limiter, c.host, c.now), Login.UserKey(c.normal), c.now);
        LetInAgrees(w, w.(limiter := both, threads := w.threads[id := Threads.BothPassed(c)]), s, c, id);
      }
    }
  }
}
