/**
 The table of background jobs (archives, backups): the fifty latest, in the order they were queued,
 where only finished jobs make room. A job is queued by a request and updated by its worker, which
 runs beside other requests.
 */
module Jobs {
  const LIMIT := 50

  datatype Status = Queued | Running | Finished | Failed

  predicate Active(s: Status) { s.Queued? || s.Running? }

  datatype Job = Job(id: nat, owner: nat, status: Status, created: int)

  type Table = seq<Job>

  ghost predicate Distinct(t: Table) { forall i, j :: 0 <= i < j < |t| ==> t[i].id != t[j].id }

  predicate Has(t: Table, id: nat) { exists i :: 0 <= i < |t| && t[i].id == id }

  // ---------------------------------------------------------------- one table

  function Drop(t: Table, id: nat): Table {
    if t == [] then [] else if t[0].id == id then t[1..] else [t[0]] + Drop(t[1..], id)
  }

  function PopAll(t: Table, gone: seq<Job>): Table
    decreases |gone|
  {
    if gone == [] then t else PopAll(Drop(t, gone[0].id), gone[1..])
  }

  function Removable(t: Table): seq<Job> {
    if t == [] then [] else (if Active(t[0].status) then [] else [t[0]]) + Removable(t[1..])
  }

  /** Stable: among jobs created at the same moment the one queued first comes first. */
  function InsertByAge(j: Job, s: seq<Job>): seq<Job> {
    if s == [] || j.created <= s[0].created then [j] + s else [s[0]] + InsertByAge(j, s[1..])
  }

  function ByAge(s: seq<Job>): seq<Job> { if s == [] then [] else InsertByAge(s[0], ByAge(s[1..])) }

  function Oldest(t: Table, count: nat): seq<Job> {
    var sorted := ByAge(Removable(t));
    if count < |sorted| then sorted[..count] else sorted
  }

  function Remembered(t: Table, job: Job): Table {
    var all := t + [job];
    if |all| > LIMIT then PopAll(all, Oldest(all, |all| - LIMIT)) else all
  }

  function SetStatus(t: Table, id: nat, status: Status): Table {
    if t == [] then []
    else if t[0].id == id then [t[0].(status := status)] + t[1..]
    else [t[0]] + SetStatus(t[1..], id, status)
  }

  // ---------------------------------------------------------------- what makes room

  ghost predicate Aged(s: seq<Job>) { forall i, j :: 0 <= i < j < |s| ==> s[i].created <= s[j].created }

  lemma {:induction false} InsertHolds(j: Job, s: seq<Job>)
    ensures |InsertByAge(j, s)| == |s| + 1
    ensures forall k :: k in InsertByAge(j, s) <==> k == j || k in s
  {
    if s != [] && j.created > s[0].created {
      InsertHolds(j, s[1..]);
      assert s == [s[0]] + s[1..];
    }
  }

  lemma {:induction false} InsertSorts(j: Job, s: seq<Job>)
    requires Aged(s)
    ensures Aged(InsertByAge(j, s))
  {
    if s != [] && j.created > s[0].created {
      assert forall i :: 0 <= i < |s[1..]| ==> s[1..][i] == s[i + 1];
      InsertSorts(j, s[1..]);
      InsertHolds(j, s[1..]);
      var rest := InsertByAge(j, s[1..]);
      forall i | 0 <= i < |rest| ensures s[0].created <= rest[i].created { assert rest[i] in rest; }
    }
  }

  lemma {:induction false} InsertKeepsDistinct(j: Job, s: seq<Job>)
    requires Distinct(s) && !Has(s, j.id)
    ensures Distinct(InsertByAge(j, s))
  {
    if s != [] && j.created > s[0].created {
      assert forall i :: 0 <= i < |s[1..]| ==> s[1..][i] == s[i + 1];
      InsertKeepsDistinct(j, s[1..]);
      InsertHolds(j, s[1..]);
      var rest := InsertByAge(j, s[1..]);
      forall i | 0 <= i < |rest| ensures rest[i].id != s[0].id { assert rest[i] in rest; }
    }
  }

  lemma {:induction false} ByAgeSorts(s: seq<Job>)
    ensures Aged(ByAge(s)) && |ByAge(s)| == |s| && forall k :: k in ByAge(s) <==> k in s
    ensures Distinct(s) ==> Distinct(ByAge(s))
  {
    if s != [] {
      var rest := ByAge(s[1..]);
      ByAgeSorts(s[1..]);
      InsertSorts(s[0], rest);
      InsertHolds(s[0], rest);
      assert s == [s[0]] + s[1..];
      if Distinct(s) {
        assert forall i :: 0 <= i < |s[1..]| ==> s[1..][i] == s[i + 1];
        forall i | 0 <= i < |rest| ensures rest[i].id != s[0].id { assert rest[i] in s[1..]; }
        InsertKeepsDistinct(s[0], rest);
      }
    }
  }

  lemma {:induction false} RemovableIs(t: Table)
    ensures forall j :: j in Removable(t) <==> j in t && !Active(j.status)
  {
    if t != [] {
      RemovableIs(t[1..]);
      assert t == [t[0]] + t[1..];
    }
  }

  lemma {:induction false} RemovableDistinct(t: Table)
    requires Distinct(t)
    ensures Distinct(Removable(t))
  {
    if t != [] {
      assert forall i :: 0 <= i < |t[1..]| ==> t[1..][i] == t[i + 1];
      RemovableDistinct(t[1..]);
      RemovableIs(t[1..]);
      var rest := Removable(t[1..]);
      forall j | 0 <= j < |rest| ensures rest[j].id != t[0].id { assert rest[j] in t[1..]; }
    }
  }

  /** The jobs that go are finished, distinct, and no newer than the finished jobs that stay; no more go than asked. */
  ghost predicate MakesRoom(t: Table, gone: seq<Job>, count: nat) {
    && Distinct(gone) && (forall j :: j in gone ==> j in t && !Active(j.status))
    && (forall j, k :: j in gone && k in t && k !in gone && !Active(k.status) ==> j.created <= k.created)
    && |gone| <= count && (|gone| < count ==> forall j :: j in t && !Active(j.status) ==> j in gone)
  }

  lemma {:induction false} PrefixIsOlder(sorted: seq<Job>, n: nat, j: Job, k: Job)
    requires Aged(sorted) && n <= |sorted| && j in sorted[..n] && k in sorted && k !in sorted[..n]
    ensures j.created <= k.created
  {
  }

  lemma {:induction false} OldestMakeRoom(t: Table, count: nat)
    requires Distinct(t)
    ensures MakesRoom(t, Oldest(t, count), count)
  {
    var sorted, gone := ByAge(Removable(t)), Oldest(t, count);
    RemovableIs(t);
    RemovableDistinct(t);
    ByAgeSorts(Removable(t));
    forall j, k | j in gone && k in t && k !in gone && !Active(k.status) ensures j.created <= k.created {
      PrefixIsOlder(sorted, |gone|, j, k);
    }
  }

  // ---------------------------------------------------------------- removing

  lemma {:induction false} DropRemoves(t: Table, id: nat)
    requires Distinct(t)
    ensures Distinct(Drop(t, id)) && forall j :: j in Drop(t, id) <==> j in t && j.id != id
    ensures |Drop(t, id)| == if Has(t, id) then |t| - 1 else |t|
  {
    if t != [] {
      assert forall i :: 0 <= i < |t[1..]| ==> t[1..][i] == t[i + 1];
      assert t == [t[0]] + t[1..];
      if t[0].id != id {
        DropRemoves(t[1..], id);
        var rest := Drop(t[1..], id);
        forall i | 0 <= i < |rest| ensures rest[i].id != t[0].id { assert rest[i] in rest; }
        assert Has(t, id) <==> Has(t[1..], id);
      }
    }
  }

  lemma {:induction false} PopAllRemoves(t: Table, gone: seq<Job>)
    requires Distinct(t) && Distinct(gone) && forall j :: j in gone ==> j in t
    ensures Distinct(PopAll(t, gone)) && forall j :: j in PopAll(t, gone) <==> j in t && j !in gone
    ensures |PopAll(t, gone)| == |t| - |gone|
    decreases |gone|
  {
    if gone != [] {
      DropRemoves(t, gone[0].id);
      SameIdSameJob(t, gone[0]);
      var rest := gone[1..];
      assert forall i :: 0 <= i < |rest| ==> rest[i] == gone[i + 1];
      assert gone == [gone[0]] + rest;
      forall j | j in rest ensures j in Drop(t, gone[0].id) { assert j in gone && j.id != gone[0].id; }
      PopAllRemoves(Drop(t, gone[0].id), rest);
    }
  }

  lemma {:induction false} SameIdSameJob(t: Table, j: Job)
    requires Distinct(t) && j in t
    ensures Has(t, j.id) && forall k :: k in t && k.id == j.id ==> k == j
  {
  }

  /**
   A new job is in the table, no job that is queued or running is pushed out, the finished ones that
   are were no newer than any finished one kept, and no more are than needed: afterwards the table
   holds fifty at most, or nothing but active jobs.
   */
  lemma {:induction false} RememberMakesRoom(t: Table, job: Job)
    requires Distinct(t) && !Has(t, job.id) && Active(job.status)
    ensures var t' := Remembered(t, job);
      && Distinct(t') && job in t'
      && (forall j :: j in t' ==> j in t || j == job)
      && (forall j :: j in t && Active(j.status) ==> j in t')
      && (forall j, k :: j in t && j !in t' && k in t' && !Active(k.status) ==> j.created <= k.created)
      && (|t'| <= 50 || forall j :: j in t' ==> Active(j.status))
      && (|t'| < 50 ==> |t'| == |t| + 1)
  {
    var all := t + [job];
    Appended(t, job, all);
    if |all| > LIMIT { Trimmed(all, Remembered(t, job)); }
  }

  lemma {:induction false} Appended(t: Table, job: Job, all: Table)
    requires Distinct(t) && !Has(t, job.id) && all == t + [job]
    ensures Distinct(all) && forall j :: j in all <==> j in t || j == job
  {
    assert all[|t|] == job;
  }

  lemma {:induction false} Trimmed(all: Table, t': Table)
    requires Distinct(all) && |all| > LIMIT && t' == PopAll(all, Oldest(all, |all| - LIMIT))
    ensures Distinct(t') && |t'| >= LIMIT && forall j :: j in t' ==> j in all
    ensures forall j :: j in all && Active(j.status) ==> j in t'
    ensures forall j, k :: j in all && j !in t' && k in t' && !Active(k.status) ==> j.created <= k.created
    ensures |t'| == LIMIT || forall j :: j in t' ==> Active(j.status)
  {
    OldestMakeRoom(all, |all| - LIMIT);
    PopAllRemoves(all, Oldest(all, |all| - LIMIT));
  }

  // ---------------------------------------------------------------- requests and workers

  /** What a worker has done so far: nothing, or marked its job as running. */
  datatype Phase = Waiting | Working

  /** `workers` are the jobs handed to the pool and not ended, `used` the ids given so far. */
  datatype State = State(table: Table, workers: map<nat, Phase>, used: set<nat>)

  datatype Event =
    | Queue(id: nat, owner: nat, created: int)
    | Start(id: nat)
    | End(id: nat, ok: bool)
    | Dismiss(id: nat, user: nat, admin: bool)

  datatype Answer = NotFound | Denied | StillRunning | Dismissed

  function Lookup(t: Table, id: nat): seq<Job> {
    if t == [] then [] else if t[0].id == id then [t[0]] else Lookup(t[1..], id)
  }

  function DismissAnswer(t: Table, id: nat, user: nat, admin: bool): Answer {
    var found := Lookup(t, id);
    if found == [] then NotFound
    else if found[0].owner != user && !admin then Denied
    else if Active(found[0].status) then StillRunning
    else Dismissed
  }

  predicate Enabled(s: State, e: Event) {
    match e
    case Queue(id, _, _) => id !in s.used
    case Start(id) => id in s.workers && s.workers[id].Waiting?
    case End(id, _) => id in s.workers && s.workers[id].Working?
    case Dismiss(_, _, _) => true
  }

  function Next(s: State, e: Event): State {
    match e
    case Queue(id, owner, created) =>
      State(Remembered(s.table, Job(id, owner, Queued, created)), s.workers[id := Waiting], s.used + {id})
    case Start(id) => State(SetStatus(s.table, id, Running), s.workers[id := Working], s.used)
    case End(id, ok) => State(SetStatus(s.table, id, if ok then Finished else Failed), s.workers - {id}, s.used)
    case Dismiss(id, user, admin) =>
      if DismissAnswer(s.table, id, user, admin).Dismissed? then s.(table := Drop(s.table, id)) else s
  }

  lemma {:induction false} LookupFinds(t: Table, id: nat)
    requires Distinct(t)
    ensures |Lookup(t, id)| <= 1 && (Lookup(t, id) == [] <==> !Has(t, id))
    ensures forall j :: j in t && j.id == id ==> Lookup(t, id) == [j]
    ensures Lookup(t, id) != [] ==> Lookup(t, id)[0] in t && Lookup(t, id)[0].id == id
  {
    if t != [] {
      assert forall i :: 0 <= i < |t[1..]| ==> t[1..][i] == t[i + 1];
      assert t == [t[0]] + t[1..];
      if t[0].id != id {
        LookupFinds(t[1..], id);
        assert Has(t, id) <==> Has(t[1..], id);
      }
    }
  }

  /** A job is dismissed exactly if it exists, is its owner's or an admin asks, and it has ended. */
  lemma {:induction false} DismissedIff(t: Table, id: nat, user: nat, admin: bool)
    requires Distinct(t)
    ensures DismissAnswer(t, id, user, admin).Dismissed? <==>
            exists j :: j in t && j.id == id && (j.owner == user || admin) && !Active(j.status)
    ensures DismissAnswer(t, id, user, admin).NotFound? <==> !Has(t, id)
  {
    LookupFinds(t, id);
  }

  /** A dismissed job is gone and every other stays; a refused dismissal changes nothing. */
  lemma {:induction false} DismissalTakesEffect(s: State, id: nat, user: nat, admin: bool)
    requires Distinct(s.table)
    ensures var s' := Next(s, Dismiss(id, user, admin));
      if DismissAnswer(s.table, id, user, admin).Dismissed?
      then s'.workers == s.workers && forall j :: j in s'.table <==> j in s.table && j.id != id
      else s' == s
  {
    LookupFinds(s.table, id);
    DropRemoves(s.table, id);
  }

  lemma {:induction false} SetChangesOne(t: Table, id: nat, status: Status)
    requires Distinct(t)
    ensures Distinct(SetStatus(t, id, status)) && |SetStatus(t, id, status)| == |t|
    ensures forall i :: 0 <= i < |t| ==>
              SetStatus(t, id, status)[i] == if t[i].id == id then t[i].(status := status) else t[i]
  {
    if t != [] && t[0].id != id {
      assert forall i :: 0 <= i < |t[1..]| ==> t[1..][i] == t[i + 1];
      SetChangesOne(t[1..], id, status);
    }
  }

  // ---------------------------------------------------------------- every run

  /** What a worker's job looks like in the table. */
  predicate Expected(p: Phase, s: Status) { if p.Waiting? then s.Queued? else s.Running? }

  ghost predicate WorkerOk(t: Table, id: nat, p: Phase) {
    exists j :: j in t && j.id == id && Expected(p, j.status)
  }

  /** Every worker's job is in the table as the worker left it, and every active job has its worker. */
  ghost predicate WorkersMatch(s: State) {
    && (forall id :: id in s.workers ==> WorkerOk(s.table, id, s.workers[id]))
    && (forall j :: j in s.table && Active(j.status) ==> j.id in s.workers)
  }

  ghost predicate IdsUsed(s: State) {
    s.workers.Keys <= s.used && forall j :: j in s.table ==> j.id in s.used
  }

  ghost predicate Inv(s: State) { Distinct(s.table) && IdsUsed(s) && WorkersMatch(s) }

  const START := State([], map[], {})

  /** A worker's job stays in any table that keeps the active jobs it had. */
  lemma {:induction false} WorkerStaysOk(t: Table, t': Table, id: nat, p: Phase)
    requires WorkerOk(t, id, p) && forall j :: j in t && Active(j.status) ==> j in t'
    ensures WorkerOk(t', id, p)
  {
  }

  lemma {:induction false} QueueKeepsInv(s: State, e: Event)
    requires Inv(s) && Enabled(s, e) && e.Queue?
    ensures Inv(Next(s, e))
  {
    var job, s' := Job(e.id, e.owner, Queued, e.created), Next(s, e);
    assert forall i :: 0 <= i < |s.table| ==> s.table[i] in s.table;
    RememberMakesRoom(s.table, job);
    forall id | id in s'.workers ensures WorkerOk(s'.table, id, s'.workers[id]) {
      if id != e.id { WorkerStaysOk(s.table, s'.table, id, s.workers[id]); }
    }
  }

  lemma {:induction false} SetMembers(t: Table, id: nat, status: Status)
    requires Distinct(t)
    ensures Distinct(SetStatus(t, id, status))
    ensures forall j :: j in t ==> (if j.id == id then j.(status := status) else j) in SetStatus(t, id, status)
    ensures forall k :: k in SetStatus(t, id, status) ==>
              if k.id == id then k.status == status && Has(t, id) else k in t
  {
    var t' := SetStatus(t, id, status);
    SetChangesOne(t, id, status);
    forall j | j in t ensures (if j.id == id then j.(status := status) else j) in t' {
      var i :| 0 <= i < |t| && t[i] == j;
      assert t'[i] in t';
    }
    forall k | k in t' ensures if k.id == id then k.status == status && Has(t, id) else k in t {
      var i :| 0 <= i < |t'| && t'[i] == k;
      assert t[i] in t;
    }
  }

  lemma {:induction false} WorkerAfterSet(t: Table, id: nat, status: Status, other: nat, p: Phase)
    requires Distinct(t) && WorkerOk(t, other, p)
    ensures other != id ==> WorkerOk(SetStatus(t, id, status), other, p)
    ensures other == id && status.Running? ==> WorkerOk(SetStatus(t, id, status), id, Working)
  {
    var j :| j in t && j.id == other && Expected(p, j.status);
    SetMembers(t, id, status);
    assert (if j.id == id then j.(status := status) else j) in SetStatus(t, id, status);
  }

  lemma {:induction false} WorkerKeepsInv(s: State, id: nat, status: Status, workers: map<nat, Phase>)
    requires Inv(s) && id in s.workers && !status.Queued?
    requires workers == if status.Running? then s.workers[id := Working] else s.workers - {id}
    ensures Inv(State(SetStatus(s.table, id, status), workers, s.used))
  {
    SetMembers(s.table, id, status);
    forall other | other in workers ensures WorkerOk(SetStatus(s.table, id, status), other, workers[other]) {
      WorkerAfterSet(s.table, id, status, other, s.workers[other]);
    }
  }

  lemma {:induction false} DismissKeepsInv(s: State, e: Event)
    requires Inv(s) && e.Dismiss?
    ensures Inv(Next(s, e))
  {
    var s' := Next(s, e);
    LookupFinds(s.table, e.id);
    DropRemoves(s.table, e.id);
    if DismissAnswer(s.table, e.id, e.user, e.admin).Dismissed? {
      forall id | id in s'.workers ensures WorkerOk(s'.table, id, s'.workers[id]) {
        WorkerStaysOk(s.table, s'.table, id, s.workers[id]);
      }
    }
  }

  lemma {:induction false} NextKeepsInv(s: State, e: Event)
    requires Inv(s) && Enabled(s, e)
    ensures Inv(Next(s, e))
  {
    if e.Queue? {
      QueueKeepsInv(s, e);
    } else if e.Dismiss? {
      DismissKeepsInv(s, e);
    } else if e.Start? {
      WorkerKeepsInv(s, e.id, Running, s.workers[e.id := Working]);
    } else {
      WorkerKeepsInv(s, e.id, if e.ok then Finished else Failed, s.workers - {e.id});
    }
  }

  ghost predicate Play(s: State, es: seq<Event>)
    decreases |es|
  {
    es == [] || (Enabled(s, es[0]) && Play(Next(s, es[0]), es[1..]))
  }

  function Run(s: State, es: seq<Event>): State
    decreases |es|
  {
    if es == [] then s else Run(Next(s, es[0]), es[1..])
  }

  lemma {:induction false} RunKeepsInv(s: State, es: seq<Event>)
    requires Inv(s) && Play(s, es)
    ensures Inv(Run(s, es))
    decreases |es|
  {
    if es != [] {
      NextKeepsInv(s, es[0]);
      RunKeepsInv(Next(s, es[0]), es[1..]);
    }
  }

  /**
   In every run, whatever is queued and dismissed meanwhile, a worker that has something to report
   finds its job in the table, as queued before it starts and as running before it ends: no update is lost.
   */
  lemma {:induction false} NoUpdateIsLost(es: seq<Event>, id: nat)
    requires Play(START, es) && id in Run(START, es).workers
    ensures var s := Run(START, es); var found := Lookup(s.table, id);
      found != [] && Expected(s.workers[id], found[0].status)
      && Lookup(SetStatus(s.table, id, Finished), id) == [found[0].(status := Finished)]
  {
    var s := Run(START, es);
    RunKeepsInv(START, es);
    LookupFinds(s.table, id);
    var j :| j in s.table && j.id == id && Expected(s.workers[id], j.status);
    SetMembers(s.table, id, Finished);
    LookupFinds(SetStatus(s.table, id, Finished), id);
  }

  function Rank(s: Status): nat { match s case Queued => 0 case Running => 1 case _ => 2 }

  /** Statuses only move on, one step at a time, and an ended job's stays as it is. */
  lemma {:induction false} StatusOnlyMovesOn(s: State, e: Event, before: Job, after: Job)
    requires Inv(s) && Enabled(s, e) && before in s.table && after in Next(s, e).table && after.id == before.id
    ensures after == before || (after == before.(status := after.status) && Rank(after.status) == Rank(before.status) + 1)
  {
    SameIdSameJob(s.table, before);
    if e.Queue? {
      RememberMakesRoom(s.table, Job(e.id, e.owner, Queued, e.created));
    } else if e.Dismiss? {
      DropRemoves(s.table, e.id);
    } else {
      MovedOn(s, e, if e.Start? then Running else if e.ok then Finished else Failed, before, after);
    }
  }

  lemma {:induction false} MovedOn(s: State, e: Event, status: Status, before: Job, after: Job)
    requires Inv(s) && Enabled(s, e) && (e.Start? || e.End?)
    requires status == if e.Start? then Running else if e.ok then Finished else Failed
    requires before in s.table && after in SetStatus(s.table, e.id, status) && after.id == before.id
    ensures after == before || (after == before.(status := after.status) && Rank(after.status) == Rank(before.status) + 1)
  {
    SameIdSameJob(s.table, before);
    SetMembers(s.table, e.id, status);
    SameIdSameJob(SetStatus(s.table, e.id, status), after);
    if before.id == e.id {
      var j :| j in s.table && j.id == e.id && Expected(s.workers[e.id], j.status);
      assert before.(status := status) in SetStatus(s.table, e.id, status);
    }
  }

  ghost predicate Listed(t: Table, id: nat) { exists j :: j in t && j.id == id }

  /** An id that has left the table does not come back. */
  lemma {:induction false} GoneForGood(s: State, e: Event, id: nat)
    requires Inv(s) && Enabled(s, e) && id in s.used && !Listed(s.table, id)
    ensures id in Next(s, e).used && !Listed(Next(s, e).table, id)
  {
    if e.Queue? {
      assert forall i :: 0 <= i < |s.table| ==> s.table[i] in s.table;
      RememberMakesRoom(s.table, Job(e.id, e.owner, Queued, e.created));
    } else if e.Dismiss? {
      DropRemoves(s.table, e.id);
    } else {
      var status := if e.Start? then Running else if e.ok then Finished else Failed;
      SetMembers(s.table, e.id, status);
      assert WorkerOk(s.table, e.id, s.workers[e.id]);
    }
  }

  lemma {:induction false} NeverBack(s: State, es: seq<Event>, id: nat)
    requires Inv(s) && Play(s, es) && id in s.used && !Listed(s.table, id)
    ensures !Listed(Run(s, es).table, id)
    decreases |es|
  {
    if es != [] {
      NextKeepsInv(s, es[0]);
      GoneForGood(s, es[0], id);
      NeverBack(Next(s, es[0]), es[1..], id);
    }
  }

  /** Over every run a job's status never goes back, and once ended the job is as it was for as long as it is kept. */
  lemma {:induction false} StatusNeverGoesBack(s: State, es: seq<Event>, before: Job, after: Job)
    requires Inv(s) && Play(s, es) && before in s.table && after in Run(s, es).table && after.id == before.id
    ensures Rank(after.status) >= Rank(before.status) && (!Active(before.status) ==> after == before)
    decreases |es|
  {
    if es == [] {
      SameIdSameJob(s.table, before);
    } else {
      var next := Next(s, es[0]);
      NextKeepsInv(s, es[0]);
      if !Listed(next.table, before.id) {
        NeverBack(next, es[1..], before.id);
        assert Listed(Run(next, es[1..]).table, before.id);
      } else {
        var mid :| mid in next.table && mid.id == before.id;
        StatusOnlyMovesOn(s, es[0], before, mid);
        StatusNeverGoesBack(next, es[1..], mid, after);
      }
    }
  }

  // ---------------------------------------------------------------- what the table tells

  /** The status of a job as the events of a run have it. */
  ghost function StatusFrom(es: seq<Event>, id: nat): Status {
    if End(id, true) in es then Finished
    else if End(id, false) in es then Failed
    else if Start(id) in es then Running
    else Queued
  }

  ghost predicate JobTold(j: Job, es: seq<Event>) {
    Queue(j.id, j.owner, j.created) in es && j.status == StatusFrom(es, j.id)
  }

  ghost predicate WorkersTold(s: State, es: seq<Event>) {
    && (forall id :: id in s.workers ==>
          End(id, true) !in es && End(id, false) !in es && (s.workers[id].Working? <==> Start(id) in es))
    && (forall id :: id !in s.used ==> Start(id) !in es && End(id, true) !in es && End(id, false) !in es)
  }

  ghost predicate Told(s: State, es: seq<Event>) {
    WorkersTold(s, es) && forall j :: j in s.table ==> JobTold(j, es)
  }

  lemma {:induction false} WorkersStayTold(s: State, es: seq<Event>, e: Event)
    requires Inv(s) && WorkersTold(s, es) && Enabled(s, e)
    ensures WorkersTold(Next(s, e), es + [e])
  {
  }

  /** A job that the event is not about. */
  lemma {:induction false} OtherJobTold(j: Job, es: seq<Event>, e: Event)
    requires JobTold(j, es) && (e.Start? || e.End? ==> e.id != j.id)
    ensures JobTold(j, es + [e])
  {
  }

  lemma {:induction false} OwnJobTold(s: State, es: seq<Event>, e: Event, j: Job)
    requires Inv(s) && Told(s, es) && Enabled(s, e) && (e.Start? || e.End?) && j in s.table && j.id == e.id
    ensures JobTold(j.(status := if e.Start? then Running else if e.ok then Finished else Failed), es + [e])
  {
    assert JobTold(j, es) && e.id in s.workers;
  }

  lemma {:induction false} TableStaysTold(s: State, es: seq<Event>, e: Event, j: Job)
    requires Inv(s) && Told(s, es) && Enabled(s, e) && j in Next(s, e).table
    ensures JobTold(j, es + [e])
  {
    if e.Queue? {
      var job := Job(e.id, e.owner, Queued, e.created);
      assert forall i :: 0 <= i < |s.table| ==> s.table[i] in s.table;
      RememberMakesRoom(s.table, job);
      if j != job { OtherJobTold(j, es, e); }
    } else if e.Dismiss? {
      DropRemoves(s.table, e.id);
      OtherJobTold(j, es, e);
    } else {
      var status := if e.Start? then Running else if e.ok then Finished else Failed;
      SetMembers(s.table, e.id, status);
      if j.id == e.id {
        var before := WasListed(s.table, e.id, status, j);
        OwnJobTold(s, es, e, before);
      } else {
        OtherJobTold(j, es, e);
      }
    }
  }

  lemma {:induction false} WasListed(t: Table, id: nat, status: Status, j: Job) returns (before: Job)
    requires Distinct(t) && j in SetStatus(t, id, status) && j.id == id
    ensures before in t && before.id == id && j == before.(status := status)
  {
    SetChangesOne(t, id, status);
    var i :| 0 <= i < |t| && SetStatus(t, id, status)[i] == j;
    before := t[i];
  }

  lemma {:induction false} RunLast(s: State, es: seq<Event>)
    requires Play(s, es) && es != []
    ensures var n := |es| - 1;
      Play(s, es[..n]) && Enabled(Run(s, es[..n]), es[n]) && Run(s, es) == Next(Run(s, es[..n]), es[n])
    decreases |es|
  {
    var n := |es| - 1;
    if n == 0 {
      assert es[1..] == [] && es[..0] == [];
    } else {
      assert es[1..][..n - 1] == es[..n][1..] && es[1..][n - 1] == es[n] && es[..n][0] == es[0];
      RunLast(Next(s, es[0]), es[1..]);
    }
  }

  /**
   In every run, whatever was queued, dismissed and evicted, each job in the table was queued for its
   owner at its time and has the status that the run gave it.
   */
  lemma {:induction false} TableTellsTheRun(es: seq<Event>)
    requires Play(START, es)
    ensures Told(Run(START, es), es)
    ensures forall j :: j in Run(START, es).table ==>
              && Queue(j.id, j.owner, j.created) in es
              && (j.status.Finished? <==> End(j.id, true) in es)
    decreases |es|
  {
    if es != [] {
      var n := |es| - 1;
      RunLast(START, es);
      TableTellsTheRun(es[..n]);
      RunKeepsInv(START, es[..n]);
      var s := Run(START, es[..n]);
      assert es == es[..n] + [es[n]];
      WorkersStayTold(s, es[..n], es[n]);
      forall j | j in Next(s, es[n]).table ensures JobTold(j, es) { TableStaysTold(s, es[..n], es[n], j); }
    }
  }

  // ---------------------------------------------------------------- the table itself

  lemma {:induction false} RemovableAppends(a: Table, j: Job)
    ensures Removable(a + [j]) == Removable(a) + if Active(j.status) then [] else [j]
  {
    if a == [] {
      assert a + [j] == [j];
    } else {
      assert (a + [j])[0] == a[0] && (a + [j])[1..] == a[1..] + [j];
      RemovableAppends(a[1..], j);
    }
  }

  lemma {:induction false} SetAt(t: Table, i: nat, status: Status)
    requires Distinct(t) && i < |t|
    ensures SetStatus(t, t[i].id, status) == t[i := t[i].(status := status)]
  {
    SetChangesOne(t, t[i].id, status);
  }

  class JobTable {
    var table: Table

    constructor ()
      ensures table == []
    {
      table := [];
    }

    method Remember(job: Job)
      requires Distinct(table) && !Has(table, job.id)
      modifies this
      ensures table == Remembered(old(table), job)
    {
      table := table + [job];
      var all := table;
      if |table| > LIMIT {
        var toRemove := |table| - LIMIT;
        var removable, i := [], 0;
        while i < |all|
          invariant i <= |all| && table == all
          invariant removable == Removable(all[..i])
        {
          RemovableAppends(all[..i], all[i]);
          assert all[..i + 1] == all[..i] + [all[i]];
          if !Active(all[i].status) { removable := removable + [all[i]]; }
          i := i + 1;
        }
        assert all[..i] == all;
        removable := ByAge(removable);
        var gone := if toRemove < |removable| then removable[..toRemove] else removable;
        i := 0;
        while i < |gone|
          invariant i <= |gone|
          invariant PopAll(table, gone[i..]) == PopAll(all, gone)
        {
          assert gone[i..][0] == gone[i] && gone[i..][1..] == gone[i + 1..];
          table := Drop(table, gone[i].id);
          i := i + 1;
        }
        assert gone[i..] == [];
      }
    }

    /** An update for a job that is not in the table is dropped without a word. */
    method Set(id: nat, status: Status) returns (found: bool)
      requires Distinct(table)
      modifies this
      ensures found <==> Has(old(table), id)
      ensures table == SetStatus(old(table), id, status)
    {
      var i := 0;
      while i < |table|
        invariant i <= |table| && table == old(table)
        invariant forall k :: 0 <= k < i ==> table[k].id != id
      {
        if table[i].id == id {
          SetAt(table, i, status);
          table := table[i := table[i].(status := status)];
          return true;
        }
        i := i + 1;
      }
      NothingToSet(table, id, status);
      return false;
    }

    method Dismiss(id: nat, user: nat, admin: bool) returns (answer: Answer)
      modifies this
      ensures answer == DismissAnswer(old(table), id, user, admin)
      ensures table == if answer.Dismissed? then Drop(old(table), id) else old(table)
    {
      var found := Lookup(table, id);
      if found == [] { return NotFound; }
      var job := found[0];
      if job.owner != user && !admin { return Denied; }
      if Active(job.status) { return StillRunning; }
      table := Drop(table, id);
      return Dismissed;
    }
  }

  lemma {:induction false} NothingToSet(t: Table, id: nat, status: Status)
    requires !Has(t, id)
    ensures SetStatus(t, id, status) == t
  {
    if t != [] {
      assert t[0].id != id;
      assert forall i :: 0 <= i < |t[1..]| ==> t[1..][i] == t[i + 1];
      NothingToSet(t[1..], id, status);
    }
  }
}
