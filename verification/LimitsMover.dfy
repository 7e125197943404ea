/**
 Moving processes of hosting accounts into the scope of their account's slice. systemd may refuse
 any call, and processes may exit between two calls.
 */
module LimitsMover {
  import opened Text
  import opened Sets
  import opened LimitsNames
  import opened LimitsConfig

  datatype Process = Process(uid: int, cgroup: string)

  type Processes = map<int, Process>

  // ---------------------------------------------------------------- which processes move

  /** Shell patterns as the accepted configurations allow them: `*` is the only wildcard. */
  predicate Glob(s: string, pattern: string)
    decreases |s| + |pattern|
  {
    if pattern == [] then s == []
    else if pattern[0] == '*' then Glob(s, pattern[1..]) || (s != [] && Glob(s[1..], pattern))
    else s != [] && s[0] == pattern[0] && Glob(s[1..], pattern[1..])
  }

  function Leaf(cgroup: string): string {
    var parts := Split(cgroup, '/');
    parts[|parts| - 1]
  }

  const HOSTING := "/hosting.slice/"
  const SYSTEM := "/system.slice/"

  predicate Movable(cgroup: string, sources: seq<string>, target: string) {
    if cgroup == [] || EndsWith(cgroup, "/" + target) then false
    else if StartsWith(cgroup, HOSTING) && StartsWith(Leaf(cgroup), "limits-") && EndsWith(Leaf(cgroup), ".scope")
    then true
    else if !StartsWith(cgroup, SYSTEM) then false
    else exists i :: 0 <= i < |sources| && Glob(Split(cgroup[|SYSTEM|..], '/')[0], sources[i])
  }

  /** The cgroup of the processes of a scope that runs in a slice. */
  function ScopePath(slice: string, scope: string): string {
    "/" + SlicePath(slice) + "/" + scope
  }

  /** Uids are numbers of accounts, as every accepted configuration has them. */
  ghost predicate Numbered(c: Config) { forall u :: u in c.uids ==> u >= 0 }

  /** The scope and the slice a uid's processes belong in. */
  function Target(c: Config, uid: int): (string, string)
    requires uid in c.uids && uid >= 0
  {
    (ScopeName(c.uids[uid], uid), c.uids[uid])
  }

  function Home(c: Config, uid: int): string
    requires uid in c.uids && uid >= 0
  {
    ScopePath(Target(c, uid).1, Target(c, uid).0)
  }

  predicate ToMove(procs: Processes, c: Config, pid: int) {
    && pid in procs && procs[pid].uid in c.uids && procs[pid].uid >= 0
    && Movable(procs[pid].cgroup, c.sources, Target(c, procs[pid].uid).0)
  }

  /** Where a pass over `pids` leaves the processes when nothing goes wrong. */
  function Settled(procs: Processes, c: Config, pids: set<int>): Processes {
    map pid | pid in procs ::
      if pid in pids && ToMove(procs, c, pid) then Process(procs[pid].uid, Home(c, procs[pid].uid)) else procs[pid]
  }

  // ---------------------------------------------------------------- what a pattern and a path say

  function Stars(pattern: string): nat {
    if pattern == [] then 0 else (if pattern[0] == '*' then 1 else 0) + Stars(pattern[1..])
  }

  /** The pattern with its stars replaced by these texts, in order. */
  function Filled(pattern: string, gaps: seq<string>): string
    requires |gaps| == Stars(pattern)
  {
    if pattern == [] then []
    else if pattern[0] == '*' then gaps[0] + Filled(pattern[1..], gaps[1..])
    else [pattern[0]] + Filled(pattern[1..], gaps)
  }

  lemma {:induction false} FilledMatches(pattern: string, gaps: seq<string>)
    requires |gaps| == Stars(pattern)
    ensures Glob(Filled(pattern, gaps), pattern)
    decreases |pattern|
  {
    if pattern == [] {
    } else if pattern[0] == '*' {
      FilledMatches(pattern[1..], gaps[1..]);
      GapMatches(gaps[0], Filled(pattern[1..], gaps[1..]), pattern);
    } else {
      FilledMatches(pattern[1..], gaps);
      assert Filled(pattern, gaps)[1..] == Filled(pattern[1..], gaps);
    }
  }

  lemma {:induction false} GapMatches(gap: string, rest: string, pattern: string)
    requires pattern != [] && pattern[0] == '*' && Glob(rest, pattern[1..])
    ensures Glob(gap + rest, pattern)
    decreases |gap|
  {
    if gap == [] {
      assert gap + rest == rest;
    } else {
      GapMatches(gap[1..], rest, pattern);
      assert (gap + rest)[1..] == gap[1..] + rest;
    }
  }

  lemma {:induction false} MatchIsFilled(s: string, pattern: string) returns (gaps: seq<string>)
    requires Glob(s, pattern)
    ensures |gaps| == Stars(pattern) && s == Filled(pattern, gaps)
    decreases |s| + |pattern|
  {
    if pattern == [] {
      gaps := [];
    } else if pattern[0] != '*' {
      gaps := MatchIsFilled(s[1..], pattern[1..]);
    } else if Glob(s, pattern[1..]) {
      var later := MatchIsFilled(s, pattern[1..]);
      gaps := [[]] + later;
      assert gaps[1..] == later && [] + s == s;
    } else {
      var longer := MatchIsFilled(s[1..], pattern);
      gaps := [[s[0]] + longer[0]] + longer[1..];
      assert gaps[1..] == longer[1..];
      assert [s[0]] + longer[0] + Filled(pattern[1..], longer[1..]) == [s[0]] + s[1..] == s;
    }
  }

  /** The service is one of these, with texts for the stars. */
  ghost predicate IsListed(service: string, sources: seq<string>) {
    exists i :: 0 <= i < |sources| && Lists(sources[i], service)
  }

  ghost predicate Lists(source: string, service: string) { exists gaps :: IsFilled(service, source, gaps) }

  ghost predicate IsFilled(service: string, pattern: string, gaps: seq<string>) {
    |gaps| == Stars(pattern) && service == Filled(pattern, gaps)
  }

  lemma {:induction false} GlobIff(s: string, pattern: string)
    ensures Glob(s, pattern) <==> Lists(pattern, s)
  {
    if Glob(s, pattern) {
      var gaps := MatchIsFilled(s, pattern);
      assert IsFilled(s, pattern, gaps);
    }
    if Lists(pattern, s) {
      var gaps :| IsFilled(s, pattern, gaps);
      FilledMatches(pattern, gaps);
    }
  }

  lemma {:induction false} PlainFilled(plain: string, rest: string, gaps: seq<string>)
    requires '*' !in plain
    ensures Stars(plain + rest) == Stars(rest)
    ensures |gaps| == Stars(rest) ==> Filled(plain + rest, gaps) == plain + Filled(rest, gaps)
    decreases |plain|
  {
    if plain == [] {
      assert plain + rest == rest;
    } else {
      assert plain[0] in plain && (plain + rest)[1..] == plain[1..] + rest;
      PlainFilled(plain[1..], rest, gaps);
    }
  }

  lemma {:induction false} PlainHasNoGaps(plain: string)
    requires '*' !in plain
    ensures Stars(plain) == 0 && Filled(plain, []) == plain
  {
    PlainFilled(plain, [], []);
    assert plain + [] == plain;
  }

  lemma {:induction false} StarHasOneGap(first: string, last: string, gap: string)
    requires '*' !in first && '*' !in last
    ensures Stars(first + ("*" + last)) == 1 && Filled(first + ("*" + last), [gap]) == first + (gap + last)
  {
    var starred := "*" + last;
    assert starred[1..] == last && [gap][1..] == [];
    PlainHasNoGaps(last);
    PlainFilled(first, starred, [gap]);
  }

  /** A source without a star lists the service of that name alone. */
  lemma {:induction false} PlainSourceIff(service: string, plain: string)
    requires '*' !in plain
    ensures Lists(plain, service) <==> service == plain
  {
    PlainHasNoGaps(plain);
    if service == plain { assert IsFilled(service, plain, []); }
  }

  lemma {:induction false} StarGap(service: string, first: string, last: string, gaps: seq<string>)
    requires '*' !in first && '*' !in last
    ensures IsFilled(service, first + ("*" + last), gaps) <==> |gaps| == 1 && service == first + (gaps[0] + last)
  {
    StarHasOneGap(first, last, "");
    if |gaps| == 1 {
      StarHasOneGap(first, last, gaps[0]);
      assert gaps == [gaps[0]];
    }
  }

  /** A source with one star lists what starts like it, ends like it and is long enough. */
  lemma {:induction false} StarSourceIff(service: string, source: string, first: string, last: string)
    requires source == first + ("*" + last) && '*' !in first && '*' !in last
    ensures Lists(source, service) <==>
            |service| >= |first| + |last| && StartsWith(service, first) && EndsWith(service, last)
  {
    if |service| >= |first| + |last| && StartsWith(service, first) && EndsWith(service, last) {
      var gap := service[|first|..|service| - |last|];
      assert service == first + (gap + last);
      StarGap(service, first, last, [gap]);
    }
    if Lists(source, service) {
      var gaps :| IsFilled(service, source, gaps);
      StarGap(service, first, last, gaps);
      EndsLike(first, gaps[0], last);
    }
  }

  lemma {:induction false} EndsLike(first: string, gap: string, last: string)
    ensures var s := first + (gap + last);
      |s| >= |first| + |last| && StartsWith(s, first) && EndsWith(s, last)
  {
  }

  lemma {:induction false} FourSourcesIff(service: string, s: seq<string>)
    requires |s| == 4
    ensures IsListed(service, s) <==>
            Lists(s[0], service) || Lists(s[1], service) || Lists(s[2], service) || Lists(s[3], service)
  {
  }

  lemma {:induction false} PhpSourceIff(service: string, first: string, last: string)
    requires first == "php" && last == "-fpm.service"
    ensures Lists("php*-fpm.service", service) <==>
            |service| >= 15 && StartsWith(service, first) && EndsWith(service, last)
  {
    assert "php*-fpm.service" == first + ("*" + last);
    StarSourceIff(service, "php*-fpm.service", first, last);
  }

  lemma {:induction false} WebSourceIff(service: string, name: string)
    requires name == "lshttpd.service"
    ensures Lists(name, service) <==> service == name
  {
    PlainSourceIff(service, name);
  }

  lemma {:induction false} CronSourceIff(service: string, name: string)
    requires name == "cron.service" || name == "ssh.service"
    ensures Lists(name, service) <==> service == name
  {
    PlainSourceIff(service, name);
  }

  /** What is listed when a configuration lists nothing: the web server, every PHP-FPM, cron and SSH. */
  lemma {:induction false} DefaultSourcesIff(
    service: string, web: string, php: string, fpm: string, cron: string, ssh: string)
    requires web == "lshttpd.service" && cron == "cron.service" && ssh == "ssh.service"
    requires php == "php" && fpm == "-fpm.service"
    ensures IsListed(service, DEFAULT_SOURCES) <==>
      || service == web || service == cron || service == ssh
      || (|service| >= 15 && StartsWith(service, php) && EndsWith(service, fpm))
  {
    FourSourcesIff(service, DEFAULT_SOURCES);
    WebSourceIff(service, web);
    CronSourceIff(service, cron);
    CronSourceIff(service, ssh);
    PhpSourceIff(service, php, fpm);
  }

  /** The process runs in a service of the system that is one of the sources, or in a cgroup below it. */
  ghost predicate InSharedService(cgroup: string, sources: seq<string>) {
    exists service, below :: RunsBelow(cgroup, service, below) && IsListed(service, sources)
  }

  ghost predicate RunsBelow(cgroup: string, service: string, below: string) {
    '/' !in service && (below == [] || below[0] == '/') && cgroup == "/system.slice/" + service + below
  }

  /** The process is in one of our own scopes. */
  ghost predicate InScope(cgroup: string) {
    StartsWith(cgroup, "/hosting.slice/") && exists above, scope :: IsOurs(cgroup, above, scope)
  }

  ghost predicate IsOurs(cgroup: string, above: string, scope: string) {
    '/' !in scope && cgroup == above + "/" + scope && StartsWith(scope, "limits-") && EndsWith(scope, ".scope")
  }

  lemma {:induction false} SplitService(service: string, below: string)
    requires '/' !in service && (below == [] || below[0] == '/')
    ensures Split(service + below, '/')[0] == service
  {
    if below == [] {
      SplitWithout(service, '/');
      assert service + below == service;
    } else {
      SplitFirst(service, below[1..], '/');
      assert service + below == service + ['/'] + below[1..];
    }
  }

  lemma {:induction false} FirstPiece(s: string) returns (below: string)
    ensures '/' !in Split(s, '/')[0] && s == Split(s, '/')[0] + below && (below == [] || below[0] == '/')
  {
    if s == [] {
      below := [];
    } else if s[0] == '/' {
      below := s;
    } else {
      below := FirstPiece(s[1..]);
      assert s == [s[0]] + s[1..];
    }
  }

  lemma {:induction false} SharedServiceIff(cgroup: string, sources: seq<string>)
    ensures InSharedService(cgroup, sources) <==>
            StartsWith(cgroup, SYSTEM) &&
            exists i :: 0 <= i < |sources| && Glob(Split(cgroup[|SYSTEM|..], '/')[0], sources[i])
  {
    if StartsWith(cgroup, SYSTEM) {
      var service := Split(cgroup[|SYSTEM|..], '/')[0];
      var below := FirstPiece(cgroup[|SYSTEM|..]);
      assert cgroup == SYSTEM + cgroup[|SYSTEM|..] == SYSTEM + service + below;
      assert RunsBelow(cgroup, service, below);
      forall i | 0 <= i < |sources| ensures Glob(service, sources[i]) <==> Lists(sources[i], service) {
        GlobIff(service, sources[i]);
      }
    }
    if InSharedService(cgroup, sources) {
      var service, below :| RunsBelow(cgroup, service, below) && IsListed(service, sources);
      assert cgroup[|SYSTEM|..] == service + below;
      SplitService(service, below);
      var i :| 0 <= i < |sources| && Lists(sources[i], service);
      GlobIff(service, sources[i]);
    }
  }

  lemma {:induction false} LeafOf(above: string, scope: string)
    requires '/' !in scope
    ensures Leaf(above + "/" + scope) == scope
  {
    SplitLast(above, scope, '/');
  }

  lemma {:induction false} LastPiece(s: string) returns (above: string)
    requires '/' in s
    ensures |Split(s, '/')| > 1 && s == above + "/" + Leaf(s)
  {
    if '/' !in s[1..] {
      SplitWithout(s[1..], '/');
      above := [];
      assert s == "/" + s[1..];
    } else {
      var later := LastPiece(s[1..]);
      above := [s[0]] + later;
      SplitHead(s, '/');
      assert Leaf(s) == Leaf(s[1..]);
      assert s == [s[0]] + s[1..];
    }
  }

  lemma {:induction false} ScopeIff(cgroup: string)
    ensures InScope(cgroup) <==>
            StartsWith(cgroup, HOSTING) && StartsWith(Leaf(cgroup), "limits-") && EndsWith(Leaf(cgroup), ".scope")
  {
    if StartsWith(cgroup, HOSTING) {
      assert cgroup[0] == '/';
      var above := LastPiece(cgroup);
      SplitPartsClean(cgroup, '/');
      if StartsWith(Leaf(cgroup), "limits-") && EndsWith(Leaf(cgroup), ".scope") {
        assert IsOurs(cgroup, above, Leaf(cgroup));
      }
    }
    if InScope(cgroup) {
      var above, scope :| IsOurs(cgroup, above, scope);
      LeafOf(above, scope);
    }
  }

  /**
   Which hosted processes are moved: those outside their target that run in a listed service of the
   system or in another of our scopes. A login session and a unit of the account's own are left alone.
   */
  lemma {:induction false} MovedIff(procs: Processes, c: Config, pid: int)
    ensures ToMove(procs, c, pid) <==>
      && pid in procs && procs[pid].uid in c.uids && procs[pid].uid >= 0
      && var cgroup, uid := procs[pid].cgroup, procs[pid].uid;
        && !EndsWith(cgroup, "/" + ScopeName(c.uids[uid], uid))
        && (InSharedService(cgroup, c.sources) || InScope(cgroup))
  {
    if pid in procs {
      SharedServiceIff(procs[pid].cgroup, c.sources);
      ScopeIff(procs[pid].cgroup);
    }
  }

  lemma {:induction false} HomeEndsInTarget(c: Config, uid: int)
    requires uid in c.uids && uid >= 0
    ensures EndsWith(Home(c, uid), "/" + Target(c, uid).0)
  {
  }

  /** One pass over every process is enough: the next one finds nothing to move. */
  lemma {:induction false} OnePassSettles(procs: Processes, c: Config)
    ensures var after := Settled(procs, c, procs.Keys);
            && (forall pid :: !ToMove(after, c, pid))
            && Settled(after, c, after.Keys) == after
  {
    var after := Settled(procs, c, procs.Keys);
    forall pid ensures !ToMove(after, c, pid) {
      if pid in procs && ToMove(procs, c, pid) { HomeEndsInTarget(c, procs[pid].uid); }
    }
  }

  lemma {:induction false} SplitLast(front: string, last: string, sep: char)
    requires sep !in last
    ensures var parts := Split(front + [sep] + last, sep); |parts| > 1 && parts[|parts| - 1] == last
  {
    if front == [] {
      SplitFirst(front, last, sep);
      SplitWithout(last, sep);
    } else {
      assert (front + [sep] + last)[1..] == front[1..] + [sep] + last;
      SplitLast(front[1..], last, sep);
    }
  }

  lemma {:induction false} ScopeHasNoSlash(slice: string, uid: nat)
    requires IsSlice(slice)
    ensures '/' !in ScopeName(slice, uid)
  {
    StemOf(slice);
    var stem := Stem(slice);
    assert forall i :: 0 <= i < |stem| ==> stem[i] == (stem + SUFFIX)[i];
    assert '/' !in stem;
    assert '/' !in Decimal(uid);
  }

  lemma {:induction false} PathUnderHosting(slice: string) returns (rest: string)
    requires IsAccountSlice(slice)
    ensures "/" + SlicePath(slice) == HOSTING + rest
  {
    AccountSitsUnderItsGroup(slice);
    if GroupOf(slice).Some? {
      GroupPath(GroupOf(slice).value);
      rest := Concatenated(SlicePath(slice), Stem(GroupOf(slice).value) + SUFFIX, Stem(slice));
    } else {
      rest := Stem(slice) + SUFFIX;
      HostingAlone(Stem(slice));
    }
  }

  lemma {:induction false} HostingAlone(stem: string)
    ensures "/" + ("hosting.slice" + "/" + stem + SUFFIX) == HOSTING + (stem + SUFFIX)
  {
  }

  lemma {:induction false} Concatenated(path: string, above: string, stem: string) returns (rest: string)
    requires path == "hosting.slice" + ['/'] + above + "/" + stem + SUFFIX
    ensures "/" + path == HOSTING + rest
  {
    rest := above + "/" + stem + SUFFIX;
  }

  /**
   An account that changes reseller: a process settled under the old configuration is movable
   under the new one, which gives its uid another slice, and the next pass takes it there.
   */
  lemma {:induction false} AccountChangesReseller(c: Config, d: Config, uid: int, procs: Processes, pid: int)
    requires WellFormed(c) && WellFormed(d) && uid in c.uids && uid in d.uids && c.uids[uid] != d.uids[uid]
    requires pid in procs && procs[pid] == Process(uid, Home(c, uid))
    ensures ToMove(procs, d, pid)
    ensures Settled(procs, d, procs.Keys)[pid] == Process(uid, Home(d, uid))
  {
    var slice, other := c.uids[uid], d.uids[uid];
    assert slice in c.accounts && other in d.accounts;
    OtherSliceIsMovable(slice, other, uid, d.sources);
  }

  lemma {:induction false} OtherSliceIsMovable(slice: string, other: string, uid: nat, sources: seq<string>)
    requires IsAccountSlice(slice) && IsAccountSlice(other) && slice != other
    ensures Movable(ScopePath(slice, ScopeName(slice, uid)), sources, ScopeName(other, uid))
  {
    if ScopeName(slice, uid) == ScopeName(other, uid) { ScopeInjective(slice, uid, other, uid); }
    ScopeHasNoSlash(slice, uid);
    ScopeHasNoSlash(other, uid);
    var rest := PathUnderHosting(slice);
    OtherScopeIsMovable("/" + SlicePath(slice), rest, ScopeName(slice, uid), ScopeName(other, uid), sources);
  }

  lemma {:induction false} OtherScopeIsMovable(front: string, rest: string, scope: string, target: string,
                                               sources: seq<string>)
    requires front == HOSTING + rest && scope != target && '/' !in scope && '/' !in target
    requires StartsWith(scope, "limits-") && EndsWith(scope, ".scope")
    ensures Movable(front + "/" + scope, sources, target)
  {
    var cgroup := front + "/" + scope;
    assert cgroup == front + ['/'] + scope;
    if EndsWith(cgroup, "/" + target) {
      var front' := cgroup[..|cgroup| - |target| - 1];
      assert cgroup == front' + ("/" + target) == front' + ['/'] + target;
      LastSeparator(front', target, front, scope, '/');
    }
    SplitLast(front, scope, '/');
    assert cgroup == HOSTING + (rest + "/" + scope);
  }

  // ---------------------------------------------------------------- systemd

  datatype Reply = Done | NoSuchProcess | OtherError

  /** A running scope named for a slice runs in that slice. */
  ghost predicate ScopesOk(scopes: map<string, string>) {
    forall slice, uid: nat :: IsSlice(slice) && ScopeName(slice, uid) in scopes ==> scopes[ScopeName(slice, uid)] == slice
  }

  /** Some processes may have exited; none has changed otherwise. */
  ghost predicate Survivors(before: Processes, after: Processes) {
    forall pid :: pid in after ==> pid in before && after[pid] == before[pid]
  }

  /** `after` is `before` with the pids in `moved` in a cgroup, and perhaps some processes gone. */
  ghost predicate MovedTo(before: Processes, after: Processes, moved: set<int>, cgroup: string) {
    forall pid :: pid in after ==>
      && pid in before
      && after[pid] == if pid in moved then Process(before[pid].uid, cgroup) else before[pid]
  }

  function Moved(procs: Processes, pids: set<int>, cgroup: string): Processes {
    map pid | pid in procs :: if pid in pids then Process(procs[pid].uid, cgroup) else procs[pid]
  }

  /** The bus, the running scopes and the live processes. `quiet` is lost at the first fault or exit. */
  class System {
    var procs: Processes
    var scopes: map<string, string>
    ghost var quiet: bool

    constructor (procs: Processes)
      ensures this.procs == procs && scopes == map[] && quiet
    {
      this.procs, scopes, quiet := procs, map[], true;
    }

    /** Time passes before a call: processes exit, or the call is about to fail for its own reasons. */
    method Elapse() returns (fault: bool)
      modifies this
      ensures scopes == old(scopes) && Survivors(old(procs), procs)
      ensures quiet ==> old(quiet) && !fault && procs == old(procs)
    {
      var exiting: set<int> := *;
      fault := *;
      quiet := quiet && !fault && procs - exiting == procs;
      procs := procs - exiting;
    }

    method AttachProcesses(scope: string, pids: set<int>) returns (reply: Reply)
      modifies this
      ensures scopes == old(scopes)
      ensures reply.Done? ==> pids <= procs.Keys && scope in scopes
      ensures reply.Done? ==> MovedTo(old(procs), procs, pids, ScopePath(scopes[scope], scope))
      ensures !reply.Done? ==> Survivors(old(procs), procs)
      ensures quiet ==> old(quiet) && (reply.Done? <==> scope in scopes && pids <= old(procs).Keys)
      ensures quiet ==>
                procs == if reply.Done? then Moved(old(procs), pids, ScopePath(scopes[scope], scope)) else old(procs)
      ensures quiet && pids <= old(procs).Keys ==> !reply.NoSuchProcess?
    {
      var fault := Elapse();
      if fault || scope !in scopes { return OtherError; }
      if !(pids <= procs.Keys) { return NoSuchProcess; }
      procs := Moved(procs, pids, ScopePath(scopes[scope], scope));
      return Done;
    }

    method StartScope(scope: string, slice: string, pids: set<int>) returns (reply: Reply)
      modifies this
      ensures reply.Done? ==> pids <= procs.Keys && scope !in old(scopes) && scopes == old(scopes)[scope := slice]
      ensures reply.Done? ==> MovedTo(old(procs), procs, pids, ScopePath(slice, scope))
      ensures !reply.Done? ==> Survivors(old(procs), procs) && scopes == old(scopes)
      ensures quiet ==> old(quiet) && (reply.Done? <==> scope !in old(scopes) && pids <= old(procs).Keys)
      ensures quiet ==> procs == if reply.Done? then Moved(old(procs), pids, ScopePath(slice, scope)) else old(procs)
      ensures quiet && pids <= old(procs).Keys ==> !reply.NoSuchProcess?
    {
      var fault := Elapse();
      if fault || scope in scopes { return OtherError; }
      if !(pids <= procs.Keys) { return NoSuchProcess; }
      scopes := scopes[scope := slice];
      procs := Moved(procs, pids, ScopePath(slice, scope));
      return Done;
    }
  }

  lemma {:induction false} StartKeepsScopesOk(scopes: map<string, string>, slice: string, uid: nat)
    requires ScopesOk(scopes) && IsSlice(slice)
    ensures ScopesOk(scopes[ScopeName(slice, uid) := slice])
    ensures RunsIn(scopes, ScopeName(slice, uid), slice)
  {
    var after := scopes[ScopeName(slice, uid) := slice];
    forall s, u: nat | IsSlice(s) && ScopeName(s, u) in after ensures after[ScopeName(s, u)] == s {
      if ScopeName(s, u) == ScopeName(slice, uid) { ScopeInjective(s, u, slice, uid); }
    }
  }

  /** The scope runs in the slice, if it runs. */
  predicate RunsIn(scopes: map<string, string>, scope: string, slice: string) {
    scope in scopes ==> scopes[scope] == slice
  }

  /** At most this scope was started, in this slice. */
  predicate Started(before: map<string, string>, after: map<string, string>, scope: string, slice: string) {
    after == before || after == before[scope := slice]
  }

  lemma {:induction false} AllWereThere(before: Processes, after: Processes, moved: set<int>, cgroup: string)
    requires MovedTo(before, after, moved, cgroup) && moved <= after.Keys
    ensures moved <= before.Keys
  {
    forall pid | pid in moved ensures pid in before { assert pid in after; }
  }

  /** Attach to the running scope; failing that, start it; failing that, attach again. */
  method AttachTogether(system: System, scope: string, slice: string, pids: set<int>) returns (ok: bool)
    requires RunsIn(system.scopes, scope, slice)
    modifies system
    ensures Started(old(system.scopes), system.scopes, scope, slice)
    ensures ok ==> pids <= old(system.procs).Keys
    ensures MovedTo(old(system.procs), system.procs, if ok then pids else {}, ScopePath(slice, scope))
    ensures system.quiet ==> old(system.quiet) && system.procs.Keys == old(system.procs).Keys
    ensures system.quiet ==> (ok <==> pids <= old(system.procs).Keys)
    ensures system.quiet && !ok ==> system.procs == old(system.procs)
  {
    ghost var cgroup := ScopePath(slice, scope);
    var step := 0;
    while step < 3
      invariant step <= 3 && system.scopes == old(system.scopes)
      invariant MovedTo(old(system.procs), system.procs, {}, cgroup)
      invariant system.quiet ==> old(system.quiet) && system.procs == old(system.procs)
      invariant system.quiet && pids <= old(system.procs).Keys ==> step < 2
      invariant system.quiet && pids <= old(system.procs).Keys && step == 1 ==> scope !in system.scopes
    {
      var reply: Reply;
      if step == 1 {
        reply := system.StartScope(scope, slice, pids);
      } else {
        reply := system.AttachProcesses(scope, pids);
      }
      if reply.Done? {
        AllWereThere(old(system.procs), system.procs, pids, cgroup);
        return true;
      }
      if reply.NoSuchProcess? { return false; }
      step := step + 1;
    }
    return false;
  }

  /**
   All together, or failing that one by one until one of them is in. True exactly when a call
   succeeded and so at least one process moved; and when nothing goes wrong they all have.
   */
  method Attach(system: System, scope: string, slice: string, pids: set<int>)
    returns (ok: bool, ghost moved: set<int>)
    requires pids != {} && RunsIn(system.scopes, scope, slice)
    modifies system
    ensures Started(old(system.scopes), system.scopes, scope, slice)
    ensures ok <==> moved != {}
    ensures moved <= pids && moved <= old(system.procs).Keys
    ensures MovedTo(old(system.procs), system.procs, moved, ScopePath(slice, scope))
    ensures system.quiet ==> old(system.quiet) && system.procs.Keys == old(system.procs).Keys
    ensures system.quiet && pids <= old(system.procs).Keys ==> moved == pids
  {
    ok := AttachTogether(system, scope, slice, pids);
    if ok { return true, pids; }
    moved := {};
    if |pids| > 1 {
      var left := pids;
      while left != {}
        invariant left <= pids
        invariant Started(old(system.scopes), system.scopes, scope, slice)
        invariant MovedTo(old(system.procs), system.procs, {}, ScopePath(slice, scope))
        invariant system.quiet ==> old(system.quiet) && system.procs == old(system.procs)
        invariant system.quiet ==> !(pids <= old(system.procs).Keys)
        decreases left
      {
        var pid := Pick(left);
        left := left - {pid};
        ok := AttachTogether(system, scope, slice, {pid});
        if ok { return true, {pid}; }
      }
    }
    return false, {};
  }

  // ---------------------------------------------------------------- the mover

  /** The processes a pass is to move, by the scope and slice they go to. */
  ghost predicate Batched(batches: map<(string, string), set<int>>, procs: Processes, c: Config, pids: set<int>) {
    && (forall key :: key in batches ==> batches[key] != {} && InBatch(batches[key], procs, c, pids, key))
    && (forall pid :: pid in pids && ToMove(procs, c, pid) ==>
          Target(c, procs[pid].uid) in batches && pid in batches[Target(c, procs[pid].uid)])
  }

  ghost predicate InBatch(batch: set<int>, procs: Processes, c: Config, pids: set<int>, key: (string, string)) {
    forall pid :: pid in batch ==> pid in pids && ToMove(procs, c, pid) && Target(c, procs[pid].uid) == key
  }

  /** A process is where it was, or it was to be moved and is in the scope of its own uid's slice. */
  ghost predicate OnlyHome(before: Processes, after: Processes, c: Config, pids: set<int>) {
    forall pid :: pid in after ==>
      && pid in before && after[pid].uid == before[pid].uid
      && (after[pid].cgroup == before[pid].cgroup
          || (pid in pids && ToMove(before, c, pid) && after[pid].cgroup == Home(c, before[pid].uid)))
  }

  /** In the middle of a pass: `done` have been tried, and with no trouble they are home. */
  ghost predicate Underway(before: Processes, after: Processes, c: Config, done: set<int>, quiet: bool) {
    && OnlyHome(before, after, c, done)
    && (quiet ==> after == Settled(before, c, done))
  }

  lemma {:induction false} OneMoreBatch(before: Processes, mid: Processes, after: Processes, c: Config, done: set<int>,
                                        batch: set<int>, key: (string, string), moved: set<int>,
                                        quiet: bool, quiet': bool)
    requires Underway(before, mid, c, done, quiet) && batch !! done && InBatch(batch, before, c, batch, key)
    requires moved <= batch && MovedTo(mid, after, moved, ScopePath(key.1, key.0))
    requires quiet' ==> quiet && after.Keys == mid.Keys && (batch <= mid.Keys ==> moved == batch)
    ensures Underway(before, after, c, done + batch, quiet')
  {
    forall pid | pid in after
      ensures pid in before && after[pid].uid == before[pid].uid
      ensures after[pid].cgroup == before[pid].cgroup
              || (pid in done + batch && ToMove(before, c, pid) && after[pid].cgroup == Home(c, before[pid].uid))
    {
      assert pid in mid && pid in before;
      if pid in moved { assert ToMove(before, c, pid) && Target(c, before[pid].uid) == key; }
    }
    if quiet' {
      assert batch <= mid.Keys by {
        forall pid | pid in batch ensures pid in mid { assert ToMove(before, c, pid); }
      }
      SettleOneMore(before, mid, after, c, done, batch, key);
    }
  }

  lemma {:induction false} SettleOneMore(before: Processes, mid: Processes, after: Processes, c: Config,
                                         done: set<int>, batch: set<int>, key: (string, string))
    requires mid == Settled(before, c, done) && batch !! done && InBatch(batch, before, c, batch, key)
    requires MovedTo(mid, after, batch, ScopePath(key.1, key.0)) && after.Keys == mid.Keys
    ensures after == Settled(before, c, done + batch)
  {
  }

  lemma {:induction false} PassIsOver(before: Processes, after: Processes, c: Config,
                                      batches: map<(string, string), set<int>>, pids: set<int>, done: set<int>,
                                      quiet: bool)
    requires Batched(batches, before, c, pids) && Underway(before, after, c, done, quiet)
    requires forall pid :: pid in done ==> pid in pids
    requires forall key :: key in batches ==> batches[key] <= done
    ensures OnlyHome(before, after, c, pids)
    ensures quiet ==> after == Settled(before, c, pids)
  {
  }

  class Mover {
    var pending: set<int>

    constructor ()
      ensures pending == {}
    {
      pending := {};
    }

    method Note(pid: int)
      modifies this
      ensures pending == old(pending) + {pid}
    {
      pending := pending + {pid};
    }

    method Flush(c: Config, system: System)
      requires WellFormed(c) && ScopesOk(system.scopes)
      modifies this, system
      ensures ScopesOk(system.scopes) && pending == {}
      ensures OnlyHome(old(system.procs), system.procs, c, old(pending))
      ensures system.quiet ==> system.procs == Settled(old(system.procs), c, old(pending))
    {
      var pids := pending;
      pending := {};
      Move(c, system, pids);
    }

    method Group(c: Config, system: System, pids: set<int>) returns (batches: map<(string, string), set<int>>)
      requires Numbered(c)
      ensures Batched(batches, system.procs, c, pids)
    {
      batches := map[];
      var left := pids;
      while left != {}
        invariant left <= pids && Batched(batches, system.procs, c, pids - left)
        decreases left
      {
        var pid := Pick(left);
        ghost var seen := pids - left;
        left := left - {pid};
        assert pids - left == seen + {pid};
        if pid in system.procs && system.procs[pid].uid in c.uids {
          var key := Target(c, system.procs[pid].uid);
          if Movable(system.procs[pid].cgroup, c.sources, key.0) {
            batches := batches[key := (if key in batches then batches[key] else {}) + {pid}];
          }
        }
      }
      assert pids - left == pids;
    }

    method Move(c: Config, system: System, pids: set<int>)
      requires WellFormed(c) && ScopesOk(system.scopes)
      modifies system
      ensures ScopesOk(system.scopes)
      ensures OnlyHome(old(system.procs), system.procs, c, pids)
      ensures system.quiet ==> old(system.quiet) && system.procs == Settled(old(system.procs), c, pids)
    {
      var batches := Group(c, system, pids);
      ghost var procs := system.procs;
      var left := batches.Keys;
      ghost var done: set<int> := {};
      while left != {}
        invariant left <= batches.Keys && ScopesOk(system.scopes)
        invariant forall key :: key in batches && key !in left ==> batches[key] <= done
        invariant forall pid :: pid in done ==>
                    pid in pids && ToMove(procs, c, pid) && Target(c, procs[pid].uid) !in left
        invariant Underway(procs, system.procs, c, done, system.quiet) && (system.quiet ==> old(system.quiet))
        decreases left
      {
        var key :| key in left;
        left := left - {key};
        forall pid | pid in batches[key] ensures pid !in done { assert Target(c, procs[pid].uid) == key; }
        AttachBatch(c, system, key, batches[key], procs, done);
        done := done + batches[key];
      }
      PassIsOver(procs, system.procs, c, batches, pids, done, system.quiet);
    }

    /** One scope's processes, in the middle of a pass that started from `procs`. */
    method AttachBatch(c: Config, system: System, key: (string, string), batch: set<int>,
                       ghost procs: Processes, ghost done: set<int>)
      requires WellFormed(c) && ScopesOk(system.scopes)
      requires Underway(procs, system.procs, c, done, system.quiet)
      requires batch != {} && batch !! done && InBatch(batch, procs, c, batch, key)
      modifies system
      ensures ScopesOk(system.scopes)
      ensures Underway(procs, system.procs, c, done + batch, system.quiet)
      ensures system.quiet ==> old(system.quiet)
    {
      ghost var uid := BatchUid(procs, c, batch, key);
      StartKeepsScopesOk(system.scopes, key.1, uid);
      var ok, moved := Attach(system, key.0, key.1, batch);
      OneMoreBatch(procs, old(system.procs), system.procs, c, done, batch, key, moved, old(system.quiet), system.quiet);
    }

    method Reconcile(c: Config, system: System)
      requires WellFormed(c) && ScopesOk(system.scopes)
      modifies system
      ensures ScopesOk(system.scopes)
      ensures OnlyHome(old(system.procs), system.procs, c, old(system.procs).Keys)
      ensures system.quiet ==> system.procs == Settled(old(system.procs), c, old(system.procs).Keys)
      ensures system.quiet ==> forall pid :: !ToMove(system.procs, c, pid)
      ensures system.quiet ==>
                forall pid :: pid in old(system.procs) ==> AtHome(old(system.procs)[pid], system.procs, c, pid)
    {
      OnePassSettles(system.procs, c);
      SharedProcessesGoHome(system.procs, c);
      if c.uids == map[] {
        assert Settled(system.procs, c, system.procs.Keys) == system.procs;
        return;
      }
      Move(c, system, system.procs.Keys);
    }
  }

  /**
   A process of a hosted uid that was in a listed service, and not in a group named like its scope there,
   is in the scope of its own uid's slice.
   */
  ghost predicate AtHome(was: Process, procs: Processes, c: Config, pid: int) {
    && was.uid in c.uids && was.uid >= 0 && InSharedService(was.cgroup, c.sources)
    && !EndsWith(was.cgroup, "/" + ScopeName(c.uids[was.uid], was.uid))
    ==> pid in procs && procs[pid].uid == was.uid
        && procs[pid].cgroup == "/" + SlicePath(c.uids[was.uid]) + "/" + ScopeName(c.uids[was.uid], was.uid)
  }

  lemma {:induction false} SharedProcessesGoHome(procs: Processes, c: Config)
    requires WellFormed(c)
    ensures forall pid :: pid in procs ==> AtHome(procs[pid], Settled(procs, c, procs.Keys), c, pid)
  {
    forall pid | pid in procs ensures AtHome(procs[pid], Settled(procs, c, procs.Keys), c, pid) {
      MovedIff(procs, c, pid);
    }
  }

  lemma {:induction false} BatchUid(procs: Processes, c: Config, batch: set<int>, key: (string, string))
    returns (uid: nat)
    requires WellFormed(c) && batch != {} && InBatch(batch, procs, c, batch, key)
    ensures IsSlice(key.1) && key.0 == ScopeName(key.1, uid)
  {
    var pid := SomeElement(batch);
    uid := procs[pid].uid;
    assert key == Target(c, uid) && IsAccountSlice(c.uids[uid]);
  }
}
