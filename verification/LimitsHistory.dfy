/**
 The usage history of each slice: every five minutes one averaged point, kept for a day, and every
 hour one more made of the hour's points, kept for a week. CPU is in tenths of a percent and I/O in
 thousandths of a megabyte a second, as they are rounded; times are whole seconds.
 */
module LimitsHistory {
  import opened Sets

  const DAY_POINTS := 288
  const WEEK_POINTS := 168
  const HOUR := 3600

  datatype Sample = Sample(cpu: nat, mem: nat, procs: nat, ioRead: nat, ioWrite: nat, oom: nat, memMax: nat)

  datatype Point = Point(
    t: int, cpu: nat, cpuPeak: nat, mem: nat, procs: nat, ioRead: nat, ioWrite: nat, oom: nat, memMax: nat)

  datatype Entry = Entry(day: seq<Point>, week: seq<Point>)

  // ---------------------------------------------------------------- means and peaks

  function Sum(values: seq<nat>): nat {
    if values == [] then 0 else values[0] + Sum(values[1..])
  }

  function Max(values: seq<nat>): nat
    requires values != []
  {
    if |values| == 1 then values[0]
    else if values[0] > Max(values[1..]) then values[0] else Max(values[1..])
  }

  /** The nearest whole number to a quotient, an even one if two are as near. */
  function RoundedQuotient(n: nat, d: nat): nat
    requires d > 0
  {
    var q, r := n / d, n % d;
    if 2 * r < d || (2 * r == d && q % 2 == 0) then q else q + 1
  }

  function Mean(values: seq<nat>): nat
    requires values != []
  {
    RoundedQuotient(Sum(values), |values|)
  }

  lemma {:induction false} MaxBounds(values: seq<nat>)
    requires values != []
    ensures forall i :: 0 <= i < |values| ==> values[i] <= Max(values)
    ensures Max(values) in values
  {
    if |values| > 1 { MaxBounds(values[1..]); }
  }

  /** A sum is that of its parts, and of one value it is the value. */
  lemma {:induction false} SumSplits(a: seq<nat>, b: seq<nat>, x: nat)
    ensures Sum(a + b) == Sum(a) + Sum(b) && Sum([x]) == x && Sum([]) == 0
    decreases |a|
  {
    assert [x][1..] == [];
    if a == [] {
      assert a + b == b;
    } else {
      assert (a + b)[0] == a[0] && (a + b)[1..] == a[1..] + b;
      SumSplits(a[1..], b, x);
    }
  }

  lemma {:induction false} SumBound(values: seq<nat>, top: nat)
    requires forall i :: 0 <= i < |values| ==> values[i] <= top
    ensures Sum(values) <= top * |values|
  {
    if values != [] {
      SumBound(values[1..], top);
      assert top * |values| == top + top * |values[1..]|;
    }
  }

  lemma {:induction false} DivisionIsNearest(n: nat, d: nat)
    requires d > 0
    ensures var off := 2 * (RoundedQuotient(n, d) * d - n);
      -(d as int) <= off <= d && (off == d || off == -(d as int) ==> RoundedQuotient(n, d) % 2 == 0)
  {
    var q, r := n / d, n % d;
    assert n == q * d + r && (q + 1) * d == q * d + d;
    assert 2 * (q * d - n) == -2 * r && 2 * ((q + 1) * d - n) == 2 * d - 2 * r;
    if 2 * r == d && q % 2 == 1 { assert (q + 1) % 2 == 0; }
  }

  lemma {:induction false} QuotientBound(n: nat, d: nat, top: nat)
    requires d > 0 && n <= top * d
    ensures RoundedQuotient(n, d) <= top
  {
  }

  /** Rounding does not lift a mean above a bound its values keep. */
  lemma {:induction false} MeanBound(values: seq<nat>, top: nat)
    requires values != [] && forall i :: 0 <= i < |values| ==> values[i] <= top
    ensures Mean(values) <= top
  {
    SumBound(values, top);
    QuotientBound(Sum(values), |values|, top);
  }

  /** `top` is one of the values and none is larger. */
  ghost predicate IsPeak(top: nat, values: seq<nat>) {
    top in values && forall i :: 0 <= i < |values| ==> values[i] <= top
  }

  /** No whole number is nearer to the mean of the values, and of two as near it is the even one. */
  ghost predicate IsNearestMean(mean: nat, values: seq<nat>) {
    var off := 2 * (mean * |values| - Sum(values));
    -|values| <= off <= |values| && (off == |values| || off == -|values| ==> mean % 2 == 0)
  }

  // ---------------------------------------------------------------- one slice

  function Cpus(s: seq<Sample>): seq<nat> { seq(|s|, i requires 0 <= i < |s| => s[i].cpu) }
  function Mems(s: seq<Sample>): seq<nat> { seq(|s|, i requires 0 <= i < |s| => s[i].mem) }
  function Procs(s: seq<Sample>): seq<nat> { seq(|s|, i requires 0 <= i < |s| => s[i].procs) }
  function Reads(s: seq<Sample>): seq<nat> { seq(|s|, i requires 0 <= i < |s| => s[i].ioRead) }
  function Writes(s: seq<Sample>): seq<nat> { seq(|s|, i requires 0 <= i < |s| => s[i].ioWrite) }

  function PointOf(samples: seq<Sample>, now: int): Point
    requires samples != []
  {
    var last := samples[|samples| - 1];
    Point(now, Mean(Cpus(samples)), Max(Cpus(samples)), Max(Mems(samples)), Max(Procs(samples)),
          Mean(Reads(samples)), Mean(Writes(samples)), last.oom, last.memMax)
  }

  /** The points of the last hour. */
  function Since(points: seq<Point>, start: int): seq<Point> {
    if points == [] then []
    else (if points[0].t > start then [points[0]] else []) + Since(points[1..], start)
  }

  function PointCpus(p: seq<Point>): seq<nat> { seq(|p|, i requires 0 <= i < |p| => p[i].cpu) }
  function PointPeaks(p: seq<Point>): seq<nat> { seq(|p|, i requires 0 <= i < |p| => p[i].cpuPeak) }
  function PointMems(p: seq<Point>): seq<nat> { seq(|p|, i requires 0 <= i < |p| => p[i].mem) }
  function PointProcs(p: seq<Point>): seq<nat> { seq(|p|, i requires 0 <= i < |p| => p[i].procs) }
  function PointReads(p: seq<Point>): seq<nat> { seq(|p|, i requires 0 <= i < |p| => p[i].ioRead) }
  function PointWrites(p: seq<Point>): seq<nat> { seq(|p|, i requires 0 <= i < |p| => p[i].ioWrite) }

  function HourPoint(hour: seq<Point>, point: Point): Point
    requires hour != []
  {
    Point(point.t, Mean(PointCpus(hour)), Max(PointPeaks(hour)), Max(PointMems(hour)), Max(PointProcs(hour)),
          Mean(PointReads(hour)), Mean(PointWrites(hour)), point.oom, point.memMax)
  }

  /** `points[-count:]` */
  function Latest(points: seq<Point>, count: nat): seq<Point> {
    if |points| > count then points[|points| - count..] else points
  }

  function DayAfter(e: Entry, point: Point): seq<Point> { Latest(e.day + [point], DAY_POINTS) }

  predicate HourIsDue(e: Entry, now: int) {
    e.week == [] || now - e.week[|e.week| - 1].t >= HOUR
  }

  /** The day points an hourly point is made of. */
  function Batch(e: Entry, point: Point): (hour: seq<Point>)
    ensures hour != []
  {
    var hour := Since(DayAfter(e, point), point.t - HOUR);
    if hour != [] then hour else [point]
  }

  function Roll(e: Entry, samples: seq<Sample>, now: int): Entry
    requires samples != []
  {
    var point := PointOf(samples, now);
    Entry(DayAfter(e, point),
          if HourIsDue(e, now) then Latest(e.week + [HourPoint(Batch(e, point), point)], WEEK_POINTS) else e.week)
  }

  // ---------------------------------------------------------------- what a series keeps

  ghost predicate InOrder(points: seq<Point>, gap: nat) {
    forall i, j :: 0 <= i < j < |points| ==> points[j].t - points[i].t >= gap
  }

  ghost predicate UpTo(points: seq<Point>, now: int) { forall i :: 0 <= i < |points| ==> points[i].t <= now }

  ghost predicate MeansBelowPeaks(points: seq<Point>) {
    forall i :: 0 <= i < |points| ==> points[i].cpu <= points[i].cpuPeak
  }

  ghost predicate SeriesOk(points: seq<Point>, now: int, limit: nat, gap: nat) {
    |points| <= limit && InOrder(points, gap) && UpTo(points, now) && MeansBelowPeaks(points)
  }

  ghost predicate EntryOk(e: Entry, now: int) {
    SeriesOk(e.day, now, 288, 0) && SeriesOk(e.week, now, 168, 3600)
  }

  lemma {:induction false} OneMoreInOrder(points: seq<Point>, point: Point, gap: nat)
    requires InOrder(points, gap) && (points != [] ==> point.t - points[|points| - 1].t >= gap)
    ensures InOrder(points + [point], gap)
  {
    var all := points + [point];
    forall i, j | 0 <= i < j < |all| ensures all[j].t - all[i].t >= gap {
      if j == |points| && i < j - 1 { assert points[j - 1].t - points[i].t >= gap; }
    }
  }

  lemma {:induction false} LatestKeeps(points: seq<Point>, now: int, limit: nat, gap: nat)
    requires InOrder(points, gap) && UpTo(points, now) && MeansBelowPeaks(points)
    ensures SeriesOk(Latest(points, limit), now, limit, gap)
  {
  }

  lemma {:induction false} SeriesGrows(points: seq<Point>, point: Point, before: int, limit: nat, gap: nat)
    requires SeriesOk(points, before, limit, gap) && before <= point.t && point.cpu <= point.cpuPeak
    requires points != [] ==> point.t - points[|points| - 1].t >= gap
    ensures SeriesOk(Latest(points + [point], limit), point.t, limit, gap)
  {
    OneMoreInOrder(points, point, gap);
    LatestKeeps(points + [point], point.t, limit, gap);
  }

  /** A point of the day: the peaks are reached by a sample, the means are the nearest, the totals are the last. */
  lemma {:induction false} PointSummarises(samples: seq<Sample>, now: int)
    requires samples != []
    ensures var p := PointOf(samples, now);
      && p.t == now && p.oom == samples[|samples| - 1].oom && p.memMax == samples[|samples| - 1].memMax
      && IsPeak(p.cpuPeak, Cpus(samples)) && IsPeak(p.mem, Mems(samples)) && IsPeak(p.procs, Procs(samples))
      && IsNearestMean(p.cpu, Cpus(samples)) && IsNearestMean(p.ioRead, Reads(samples))
      && IsNearestMean(p.ioWrite, Writes(samples))
  {
    MaxBounds(Cpus(samples));
    MaxBounds(Mems(samples));
    MaxBounds(Procs(samples));
    DivisionIsNearest(Sum(Cpus(samples)), |samples|);
    DivisionIsNearest(Sum(Reads(samples)), |samples|);
    DivisionIsNearest(Sum(Writes(samples)), |samples|);
  }

  /** A point of the week sums up its hour in the same way, and carries the totals of the point that closed it. */
  lemma {:induction false} HourPointSummarises(hour: seq<Point>, point: Point)
    requires hour != []
    ensures var p := HourPoint(hour, point);
      && p.t == point.t && p.oom == point.oom && p.memMax == point.memMax
      && IsPeak(p.cpuPeak, PointPeaks(hour)) && IsPeak(p.mem, PointMems(hour)) && IsPeak(p.procs, PointProcs(hour))
      && IsNearestMean(p.cpu, PointCpus(hour)) && IsNearestMean(p.ioRead, PointReads(hour))
      && IsNearestMean(p.ioWrite, PointWrites(hour))
  {
    MaxBounds(PointPeaks(hour));
    MaxBounds(PointMems(hour));
    MaxBounds(PointProcs(hour));
    DivisionIsNearest(Sum(PointCpus(hour)), |hour|);
    DivisionIsNearest(Sum(PointReads(hour)), |hour|);
    DivisionIsNearest(Sum(PointWrites(hour)), |hour|);
  }

  lemma {:induction false} PointIsOk(samples: seq<Sample>, now: int)
    requires samples != []
    ensures PointOf(samples, now).cpu <= PointOf(samples, now).cpuPeak
  {
    MaxBounds(Cpus(samples));
    MeanBound(Cpus(samples), Max(Cpus(samples)));
  }

  lemma {:induction false} HourPointIsOk(hour: seq<Point>, point: Point)
    requires hour != [] && MeansBelowPeaks(hour)
    ensures HourPoint(hour, point).cpu <= HourPoint(hour, point).cpuPeak
  {
    var cpus, peaks := PointCpus(hour), PointPeaks(hour);
    MaxBounds(peaks);
    forall i | 0 <= i < |hour| ensures cpus[i] <= Max(peaks) { assert peaks[i] <= Max(peaks); }
    MeanBound(cpus, Max(peaks));
  }

  lemma {:induction false} SinceIsFilter(points: seq<Point>, start: int)
    ensures forall p :: p in Since(points, start) <==> p in points && p.t > start
    ensures MeansBelowPeaks(points) ==> MeansBelowPeaks(Since(points, start))
  {
    if points != [] {
      SinceIsFilter(points[1..], start);
      assert points == [points[0]] + points[1..];
      assert MeansBelowPeaks(points) ==> MeansBelowPeaks(points[1..]);
    }
  }

  /** The new point itself is always in its hour, so the fallback of the batch is never taken. */
  lemma {:induction false} BatchIsTheHour(e: Entry, point: Point)
    ensures Batch(e, point) == Since(DayAfter(e, point), point.t - HOUR)
    ensures point in Batch(e, point)
  {
    var day := DayAfter(e, point);
    assert day[|day| - 1] == point;
    SinceIsFilter(day, point.t - HOUR);
  }

  lemma {:induction false} DayStaysOk(e: Entry, point: Point, before: int)
    requires SeriesOk(e.day, before, DAY_POINTS, 0) && before <= point.t && point.cpu <= point.cpuPeak
    ensures SeriesOk(DayAfter(e, point), point.t, DAY_POINTS, 0)
  {
  }

  lemma {:induction false} WeekStaysOk(e: Entry, point: Point, before: int)
    requires SeriesOk(e.week, before, WEEK_POINTS, HOUR) && before <= point.t && HourIsDue(e, point.t)
    requires MeansBelowPeaks(DayAfter(e, point))
    ensures SeriesOk(Latest(e.week + [HourPoint(Batch(e, point), point)], WEEK_POINTS), point.t, WEEK_POINTS, HOUR)
  {
    BatchIsTheHour(e, point);
    SinceIsFilter(DayAfter(e, point), point.t - HOUR);
    HourPointIsOk(Batch(e, point), point);
    SeriesGrows(e.week, HourPoint(Batch(e, point), point), before, WEEK_POINTS, HOUR);
  }

  lemma {:induction false} UpToLater(points: seq<Point>, before: int, now: int, limit: nat, gap: nat)
    requires SeriesOk(points, before, limit, gap) && before <= now
    ensures SeriesOk(points, now, limit, gap)
  {
  }

  lemma {:induction false} RollKeepsEntryOk(e: Entry, samples: seq<Sample>, before: int, now: int)
    requires EntryOk(e, before) && before <= now && samples != []
    ensures EntryOk(Roll(e, samples, now), now)
  {
    var point := PointOf(samples, now);
    PointIsOk(samples, now);
    DayStaysOk(e, point, before);
    if HourIsDue(e, now) {
      WeekStaysOk(e, point, before);
    } else {
      UpToLater(e.week, before, now, WEEK_POINTS, HOUR);
    }
  }

  /**
   After a roll the newest day point is the new one, nothing but the oldest has made way for it, and
   the week's newest point is less than an hour old.
   */
  lemma {:induction false} RollIsUpToDate(e: Entry, samples: seq<Sample>, now: int)
    requires samples != [] && |e.day| <= 288 && |e.week| <= 168
    ensures var day, week, last := Roll(e, samples, now).day, Roll(e, samples, now).week, |e.week| - 1;
      && day != [] && day[|day| - 1] == PointOf(samples, now)
      && day[..|day| - 1] == (if |e.day| < 288 then e.day else e.day[1..])
      && week != [] && now - week[|week| - 1].t < 3600
      && (last >= 0 && now - e.week[last].t < 3600 ==> week == e.week)
  {
    var point := PointOf(samples, now);
    assert (e.day + [point])[..|e.day|] == e.day;
    if e.day != [] { assert (e.day + [point])[1..][..|e.day| - 1] == e.day[1..]; }
  }

  /** The batch of the hourly point a roll makes, if it makes one. */
  function Hourly(e: Entry, samples: seq<Sample>, now: int): seq<seq<Point>>
    requires samples != []
  {
    if HourIsDue(e, now) then [Batch(e, PointOf(samples, now))] else []
  }

  /** The batches of the hourly points a run of rolls makes, oldest first. */
  function Batches(e: Entry, rolls: seq<(seq<Sample>, int)>): seq<seq<Point>>
    requires forall i :: 0 <= i < |rolls| ==> rolls[i].0 != []
    decreases |rolls|
  {
    if rolls == [] then []
    else
      Hourly(e, rolls[0].0, rolls[0].1) + Batches(Roll(e, rolls[0].0, rolls[0].1), rolls[1..])
  }

  ghost predicate Clocked(rolls: seq<(seq<Sample>, int)>, before: int) {
    && (forall i :: 0 <= i < |rolls| ==> rolls[i].0 != [] && rolls[i].1 >= before)
    && (forall i, j :: 0 <= i < j < |rolls| ==> rolls[i].1 <= rolls[j].1)
  }

  ghost predicate AllAfter(batch: seq<Point>, time: int) { forall p :: p in batch ==> p.t > time }
  ghost predicate AllBy(batch: seq<Point>, time: int) { forall p :: p in batch ==> p.t <= time }

  ghost predicate EarlierIsOlder(batches: seq<seq<Point>>) {
    forall i, j, p, q :: 0 <= i < j < |batches| && p in batches[i] && q in batches[j] ==> p.t < q.t
  }

  /** The end of the last hourly point: the next one counts only what is newer. */
  ghost predicate AfterWeek(e: Entry, batches: seq<seq<Point>>) {
    e.week != [] ==> forall i :: 0 <= i < |batches| ==> AllAfter(batches[i], e.week[|e.week| - 1].t)
  }

  /** A batch holds points of the last hour, of the day's or the new one. */
  lemma {:induction false} BatchSpan(e: Entry, point: Point)
    requires UpTo(e.day, point.t)
    ensures AllAfter(Batch(e, point), point.t - HOUR) && AllBy(Batch(e, point), point.t)
    ensures forall p :: p in Batch(e, point) ==> p in e.day || p == point
  {
    var day := DayAfter(e, point);
    BatchIsTheHour(e, point);
    SinceIsFilter(day, point.t - HOUR);
    assert forall p :: p in e.day ==> p.t <= point.t;
  }

  /** The batch of an hourly point is newer than the one before, and the point closes it. */
  lemma {:induction false} DueBatch(e: Entry, samples: seq<Sample>, before: int, now: int)
    requires UpTo(e.day, before) && before <= now && samples != [] && HourIsDue(e, now)
    ensures AfterWeek(e, [Batch(e, PointOf(samples, now))]) && AllBy(Batch(e, PointOf(samples, now)), now)
    ensures var next := Roll(e, samples, now); next.week != [] && next.week[|next.week| - 1].t == now
  {
    BatchSpan(e, PointOf(samples, now));
  }

  lemma {:induction false} LaterStillAfter(e: Entry, next: Entry, first: seq<Point>, later: seq<seq<Point>>)
    requires e.week != [] ==> next.week != [] && next.week[|next.week| - 1].t >= e.week[|e.week| - 1].t
    requires AfterWeek(e, [first]) && AfterWeek(next, later)
    ensures AfterWeek(e, [first] + later)
  {
  }

  lemma {:induction false} HourlyStep(e: Entry, samples: seq<Sample>, before: int, now: int, later: seq<seq<Point>>)
    requires EntryOk(e, before) && before <= now && samples != []
    requires AfterWeek(Roll(e, samples, now), later) && EarlierIsOlder(later)
    ensures AfterWeek(e, Hourly(e, samples, now) + later) && EarlierIsOlder(Hourly(e, samples, now) + later)
  {
    if HourIsDue(e, now) {
      DueBatch(e, samples, before, now);
      LaterStillAfter(e, Roll(e, samples, now), Batch(e, PointOf(samples, now)), later);
      FirstBatchIsOldest(Batch(e, PointOf(samples, now)), later, now);
    } else {
      assert [] + later == later;
    }
  }

  /**
   However the rolls are spaced, no day point is counted in two hourly points: everything in a
   later batch is newer than everything in an earlier one.
   */
  lemma {:induction false} BatchesAreDisjoint(e: Entry, rolls: seq<(seq<Sample>, int)>, before: int)
    requires EntryOk(e, before) && Clocked(rolls, before)
    ensures AfterWeek(e, Batches(e, rolls))
    ensures EarlierIsOlder(Batches(e, rolls))
    decreases |rolls|
  {
    if rolls != [] {
      RollKeepsEntryOk(e, rolls[0].0, before, rolls[0].1);
      BatchesAreDisjoint(Roll(e, rolls[0].0, rolls[0].1), rolls[1..], rolls[0].1);
      HourlyStep(e, rolls[0].0, before, rolls[0].1, Batches(Roll(e, rolls[0].0, rolls[0].1), rolls[1..]));
    }
  }

  lemma {:induction false} FirstBatchIsOldest(first: seq<Point>, later: seq<seq<Point>>, now: int)
    requires AllBy(first, now) && forall i :: 0 <= i < |later| ==> AllAfter(later[i], now)
    requires EarlierIsOlder(later)
    ensures EarlierIsOlder([first] + later)
  {
  }

  // ---------------------------------------------------------------- all slices

  type Windows = map<string, seq<Sample>>
  type Histories = map<string, Entry>

  const EMPTY := Entry([], [])

  datatype Event = Sampled(name: string, sample: Sample) | Rolled(names: set<string>, now: int)

  datatype State = State(window: Windows, history: Histories)

  function WindowOf(w: Windows, name: string): seq<Sample> { if name in w then w[name] else [] }
  function EntryOf(h: Histories, name: string): Entry { if name in h then h[name] else EMPTY }

  /** Slices that are gone lose their history. */
  function Kept(h: Histories, names: set<string>): Histories { map name | name in h && name in names :: h[name] }

  /** The slices with samples get a point. */
  function Rolls(s: State, names: set<string>, now: int): Histories {
    map name | name in s.window && name in names && s.window[name] != []
      :: Roll(EntryOf(s.history, name), s.window[name], now)
  }

  function RollAll(s: State, names: set<string>, now: int): State {
    State(s.window - names, Kept(s.history, names) + Rolls(s, names, now))
  }

  function Step(s: State, e: Event): State {
    match e
    case Sampled(name, sample) => s.(window := s.window[name := WindowOf(s.window, name) + [sample]])
    case Rolled(names, now) => RollAll(s, names, now)
  }

  function Run(s: State, es: seq<Event>): State
    decreases |es|
  {
    if es == [] then s else Run(Step(s, es[0]), es[1..])
  }

  /** The clock does not go back between rolls. */
  function ClockAfter(before: int, es: seq<Event>): int
    decreases |es|
  {
    if es == [] then before else ClockAfter(if es[0].Rolled? then es[0].now else before, es[1..])
  }

  predicate ClockedRun(before: int, es: seq<Event>)
    decreases |es|
  {
    es != [] ==>
      (es[0].Rolled? ==> es[0].now >= before) && ClockedRun(if es[0].Rolled? then es[0].now else before, es[1..])
  }

  ghost predicate HistoriesOk(h: Histories, now: int) { forall name :: name in h ==> EntryOk(h[name], now) }

  lemma {:induction false} RollAllKeepsOk(s: State, names: set<string>, before: int, now: int)
    requires HistoriesOk(s.history, before) && before <= now
    ensures HistoriesOk(RollAll(s, names, now).history, now)
  {
    var kept, rolls := Kept(s.history, names), Rolls(s, names, now);
    forall name | name in kept + rolls ensures EntryOk((kept + rolls)[name], now) {
      var e := EntryOf(s.history, name);
      assert EntryOk(e, before);
      if name in rolls { RollKeepsEntryOk(e, s.window[name], before, now); }
    }
  }

  /** Over every run, every slice's two series are bounded, in time order and spaced, with means below peaks. */
  lemma {:induction false} RunKeepsHistoriesOk(s: State, es: seq<Event>, before: int)
    requires HistoriesOk(s.history, before) && ClockedRun(before, es)
    ensures HistoriesOk(Run(s, es).history, ClockAfter(before, es))
    decreases |es|
  {
    if es != [] {
      var now := if es[0].Rolled? then es[0].now else before;
      var next := Step(s, es[0]);
      if es[0].Rolled? { RollAllKeepsOk(s, es[0].names, before, now); }
      RunKeepsHistoriesOk(next, es[1..], now);
    }
  }

  // ---------------------------------------------------------------- batches over a run

  /** The batches of the hourly points a run makes for one slice, oldest first. */
  function BatchesOf(s: State, es: seq<Event>, name: string): seq<seq<Point>>
    decreases |es|
  {
    if es == [] then [] else BatchOf(s, es[0], name) + BatchesOf(Step(s, es[0]), es[1..], name)
  }

  function BatchOf(s: State, e: Event, name: string): seq<seq<Point>> {
    var samples := WindowOf(s.window, name);
    if e.Rolled? && name in e.names && samples != [] then Hourly(EntryOf(s.history, name), samples, e.now) else []
  }

  /** The clock does not go back, and a roll that drops the slice is later than the roll before it. */
  predicate DropsApart(before: int, es: seq<Event>, name: string)
    decreases |es|
  {
    es != [] ==>
      && (es[0].Rolled? ==> es[0].now >= before && (name !in es[0].names ==> es[0].now > before))
      && DropsApart(if es[0].Rolled? then es[0].now else before, es[1..], name)
  }

  /** What an event makes of the slice's entry. */
  function NextEntry(s: State, e: Event, name: string): Entry {
    var entry, samples := EntryOf(s.history, name), WindowOf(s.window, name);
    if e.Sampled? then entry
    else if name !in e.names then EMPTY
    else if samples == [] then entry
    else Roll(entry, samples, e.now)
  }

  lemma {:induction false} StepEntry(s: State, e: Event, name: string)
    ensures EntryOf(Step(s, e).history, name) == NextEntry(s, e, name)
  {
  }

  ghost predicate DayFrom(e: Entry, low: int) { forall p :: p in e.day ==> p.t >= low }

  ghost predicate AllFrom(batches: seq<seq<Point>>, low: int) {
    forall i :: 0 <= i < |batches| ==> AllAfter(batches[i], low - 1)
  }

  lemma {:induction false} BatchMembers(e: Entry, point: Point)
    ensures forall p :: p in Batch(e, point) ==> p in e.day || p == point
  {
    BatchIsTheHour(e, point);
    SinceIsFilter(DayAfter(e, point), point.t - HOUR);
  }

  lemma {:induction false} PointFrom(e: Entry, point: Point, low: int)
    requires DayFrom(e, low) && low <= point.t
    ensures (forall p :: p in DayAfter(e, point) ==> p.t >= low) && AllAfter(Batch(e, point), low - 1)
  {
    BatchMembers(e, point);
  }

  lemma {:induction false} RollFrom(e: Entry, samples: seq<Sample>, now: int, low: int)
    requires samples != [] && DayFrom(e, low) && low <= now
    ensures DayFrom(Roll(e, samples, now), low) && AllFrom(Hourly(e, samples, now), low)
  {
    PointFrom(e, PointOf(samples, now), low);
  }

  /** What was forgotten is in no later batch. */
  lemma {:induction false} BatchesNotBefore(s: State, es: seq<Event>, name: string, low: int, before: int)
    requires DayFrom(EntryOf(s.history, name), low) && low <= before && DropsApart(before, es, name)
    ensures AllFrom(BatchesOf(s, es, name), low)
    decreases |es|
  {
    if es != [] {
      var now, samples := if es[0].Rolled? then es[0].now else before, WindowOf(s.window, name);
      StepEntry(s, es[0], name);
      if es[0].Rolled? && name in es[0].names && samples != [] {
        RollFrom(EntryOf(s.history, name), samples, now, low);
      }
      assert DayFrom(EntryOf(Step(s, es[0]).history, name), low);
      BatchesNotBefore(Step(s, es[0]), es[1..], name, low, now);
    }
  }

  lemma {:induction false} NextEntryOk(s: State, e: Event, name: string, before: int, now: int)
    requires EntryOk(EntryOf(s.history, name), before) && before <= now && (e.Rolled? ==> e.now == now)
    ensures EntryOk(NextEntry(s, e, name), now)
  {
    if e.Rolled? && name in e.names && WindowOf(s.window, name) != [] {
      RollKeepsEntryOk(EntryOf(s.history, name), WindowOf(s.window, name), before, now);
    }
  }

  /**
   Over every run of samples and rolls, also when a slice goes and comes back, no day point of it is
   counted in two hourly points: everything in a later batch is newer than everything in an earlier one.
   */
  lemma {:induction false} RunBatchesAreDisjoint(s: State, es: seq<Event>, before: int, name: string)
    requires EntryOk(EntryOf(s.history, name), before) && DropsApart(before, es, name)
    ensures AfterWeek(EntryOf(s.history, name), BatchesOf(s, es, name))
    ensures EarlierIsOlder(BatchesOf(s, es, name))
    decreases |es|
  {
    if es != [] {
      var now := if es[0].Rolled? then es[0].now else before;
      StepEntry(s, es[0], name);
      NextEntryOk(s, es[0], name, before, now);
      RunBatchesAreDisjoint(Step(s, es[0]), es[1..], now, name);
      if es[0].Rolled? && name !in es[0].names {
        BatchesNotBefore(Step(s, es[0]), es[1..], name, now, now);
      }
      OneMoreEvent(s, es[0], before, name, BatchesOf(Step(s, es[0]), es[1..], name));
    }
  }

  lemma {:induction false} FirstBatches(s: State, es: seq<Event>, name: string)
    requires es != []
    ensures BatchesOf(s, es, name) == BatchOf(s, es[0], name) + BatchesOf(Step(s, es[0]), es[1..], name)
  {
  }

  lemma {:induction false} CutLater(es: seq<Event>, i: nat)
    requires 0 < i <= |es|
    ensures es[..i] != [] && es[..i][0] == es[0] && es[..i][1..] == es[1..][..i - 1] && es[i..] == es[1..][i - 1..]
  {
  }

  lemma {:induction false} FirstOfRun(s: State, es: seq<Event>)
    requires es != []
    ensures Run(s, es) == Run(Step(s, es[0]), es[1..])
  {
  }

  lemma {:induction false} Associates(a: seq<seq<Point>>, b: seq<seq<Point>>, c: seq<seq<Point>>)
    ensures a + (b + c) == (a + b) + c
  {
  }

  lemma {:induction false} BatchesSplit(s: State, es: seq<Event>, i: nat, name: string)
    requires i <= |es|
    ensures BatchesOf(s, es, name) == BatchesOf(s, es[..i], name) + BatchesOf(Run(s, es[..i]), es[i..], name)
    decreases |es|
  {
    if i == 0 {
      assert es[..0] == [] && es[0..] == es;
    } else {
      var next, rest, front := Step(s, es[0]), es[1..], es[..i];
      CutLater(es, i);
      BatchesSplit(next, rest, i - 1, name);
      FirstBatches(s, es, name);
      FirstBatches(s, front, name);
      FirstOfRun(s, front);
      Associates(BatchOf(s, es[0], name), BatchesOf(next, rest[..i - 1], name),
                 BatchesOf(Run(next, rest[..i - 1]), rest[i - 1..], name));
    }
  }

  lemma {:induction false} CutHere(es: seq<Event>, i: nat)
    requires i < |es|
    ensures es[i..] != [] && es[i..][0] == es[i] && es[i..][1..] == es[i + 1..]
    ensures es[..i + 1] != [] && es[..i + 1][..i] == es[..i] && es[..i + 1][i] == es[i] && |es[..i + 1]| == i + 1
  {
  }

  /** The batch of the event at one place of a run, if it makes one, is among the batches of the run. */
  lemma {:induction false} BatchInRun(s: State, es: seq<Event>, i: nat, name: string)
    requires i < |es|
    ensures var batch := BatchOf(Run(s, es[..i]), es[i], name);
      BatchesOf(s, es, name) ==
        BatchesOf(s, es[..i], name) + (batch + BatchesOf(Run(s, es[..i + 1]), es[i + 1..], name))
  {
    BatchesSplit(s, es, i, name);
    CutHere(es, i);
    RunLast(s, es[..i + 1]);
    FirstBatches(Run(s, es[..i]), es[i..], name);
  }

  lemma {:induction false} TwoBatches(s: State, es: seq<Event>, i: nat, j: nat, name: string)
    returns (x: seq<seq<Point>>, y: seq<seq<Point>>, z: seq<seq<Point>>)
    requires i < j < |es|
    ensures BatchesOf(s, es, name) ==
            x + (BatchOf(Run(s, es[..i]), es[i], name) + y) + (BatchOf(Run(s, es[..j]), es[j], name) + z)
  {
    var front := es[..j];
    assert front[..i] == es[..i] && front[i] == es[i];
    x := BatchesOf(s, front[..i], name);
    y := BatchesOf(Run(s, front[..i + 1]), front[i + 1..], name);
    z := BatchesOf(Run(s, es[..j + 1]), es[j + 1..], name);
    BatchInRun(s, front, i, name);
    BatchInRun(s, es, j, name);
  }

  /**
   The same by the places of two rolls in the run: what the first counted in its point of the week is older
   than what the second counts.
   */
  lemma {:induction false} NoPointCountsTwice(s: State, es: seq<Event>, before: int, name: string, i: nat, j: nat)
    requires EntryOk(EntryOf(s.history, name), before) && DropsApart(before, es, name) && i < j < |es|
    ensures var first, second := BatchOf(Run(s, es[..i]), es[i], name), BatchOf(Run(s, es[..j]), es[j], name);
      forall p, q :: first != [] && second != [] && p in first[0] && q in second[0] ==> p.t < q.t
  {
    RunBatchesAreDisjoint(s, es, before, name);
    var x, y, z := TwoBatches(s, es, i, j, name);
    OlderPair(x, BatchOf(Run(s, es[..i]), es[i], name), y, BatchOf(Run(s, es[..j]), es[j], name), z);
  }

  lemma {:induction false} OlderPair(x: seq<seq<Point>>, a: seq<seq<Point>>, y: seq<seq<Point>>, b: seq<seq<Point>>,
                                     z: seq<seq<Point>>)
    requires EarlierIsOlder(x + (a + y) + (b + z))
    ensures forall p, q :: a != [] && b != [] && p in a[0] && q in b[0] ==> p.t < q.t
  {
    var all := x + (a + y) + (b + z);
    if a != [] && b != [] { assert all[|x|] == a[0] && all[|x + (a + y)|] == b[0]; }
  }

  lemma {:induction false} OneMoreEvent(s: State, e: Event, before: int, name: string, later: seq<seq<Point>>)
    requires EntryOk(EntryOf(s.history, name), before)
    requires e.Rolled? ==> e.now >= before && (name !in e.names ==> e.now > before && AllFrom(later, e.now))
    requires AfterWeek(NextEntry(s, e, name), later) && EarlierIsOlder(later)
    ensures AfterWeek(EntryOf(s.history, name), BatchOf(s, e, name) + later)
    ensures EarlierIsOlder(BatchOf(s, e, name) + later)
  {
    if e.Rolled? && name in e.names && WindowOf(s.window, name) != [] {
      HourlyStep(EntryOf(s.history, name), WindowOf(s.window, name), before, e.now, later);
    } else {
      assert [] + later == later;
    }
  }

  // ---------------------------------------------------------------- every sample once

  /** The samples of a slice since it was last rolled, read off the events alone. */
  function Fresh(es: seq<Event>, name: string): seq<Sample> {
    if es == [] then []
    else
      var before := Fresh(es[..|es| - 1], name);
      match es[|es| - 1]
      case Sampled(other, sample) => if other == name then before + [sample] else before
      case Rolled(names, _) => if name in names then [] else before
  }

  /** What each roll of the slice had to sum up. */
  function SummedUp(es: seq<Event>, name: string): seq<Sample> {
    if es == [] then []
    else
      var n := |es| - 1;
      SummedUp(es[..n], name) + if es[n].Rolled? && name in es[n].names then Fresh(es[..n], name) else []
  }

  function Recorded(es: seq<Event>, name: string): seq<Sample> {
    if es == [] then []
    else
      var n := |es| - 1;
      Recorded(es[..n], name) + if es[n].Sampled? && es[n].name == name then [es[n].sample] else []
  }

  /** Every sample that was recorded is summed up by one roll, in order, or waits for the next. */
  lemma {:induction false} EverySampleOnce(es: seq<Event>, name: string)
    ensures SummedUp(es, name) + Fresh(es, name) == Recorded(es, name)
    decreases |es|
  {
    if es != [] { EverySampleOnce(es[..|es| - 1], name); }
  }

  lemma {:induction false} RunLast(s: State, es: seq<Event>)
    requires es != []
    ensures Run(s, es) == Step(Run(s, es[..|es| - 1]), es[|es| - 1])
    decreases |es|
  {
    var n := |es| - 1;
    if n == 0 {
      assert es[1..] == [] && es[..0] == [];
    } else {
      assert es[1..][..n - 1] == es[..n][1..] && es[1..][n - 1] == es[n] && es[..n][0] == es[0];
      RunLast(Step(s, es[0]), es[1..]);
    }
  }

  lemma {:induction false} WindowIsFresh(loaded: Histories, es: seq<Event>, name: string)
    ensures WindowOf(Run(State(map[], loaded), es).window, name) == Fresh(es, name)
    decreases |es|
  {
    if es != [] {
      RunLast(State(map[], loaded), es);
      WindowIsFresh(loaded, es[..|es| - 1], name);
    }
  }

  /**
   Over every run, a roll of a slice adds one point to its day, of exactly the samples recorded since
   the roll before; without any it leaves the slice alone.
   */
  lemma {:induction false} PointsAreOfFreshSamples(loaded: Histories, es: seq<Event>, names: set<string>, now: int,
                                                   name: string)
    requires name in names
    ensures var before := Run(State(map[], loaded), es).history;
            var after := Run(State(map[], loaded), es + [Rolled(names, now)]).history;
      if Fresh(es, name) == [] then EntryOf(after, name) == EntryOf(before, name)
      else EntryOf(after, name).day == Latest(EntryOf(before, name).day + [PointOf(Fresh(es, name), now)], 288)
  {
    var s, e := Run(State(map[], loaded), es), Rolled(names, now);
    RunLast(State(map[], loaded), es + [e]);
    assert (es + [e])[..|es|] == es;
    WindowIsFresh(loaded, es, name);
    StepEntry(s, e, name);
  }

  class Sampler {
    var window: Windows
    var history: Histories

    ghost function Abstract(): State
      reads this
    {
      State(window, history)
    }

    constructor (loaded: Histories)
      ensures Abstract() == State(map[], loaded)
    {
      window, history := map[], loaded;
    }

    method Record(name: string, sample: Sample)
      modifies this
      ensures Abstract() == Step(old(Abstract()), Sampled(name, sample))
    {
      if name !in window { window := window[name := []]; }
      window := window[name := window[name] + [sample]];
    }

    method RollHistory(names: set<string>, now: int)
      modifies this
      ensures Abstract() == Step(old(Abstract()), Rolled(names, now))
    {
      history := map name | name in history && name in names :: history[name];
      ghost var kept, rolls := history, Rolls(old(Abstract()), names, now);
      var left := names;
      while left != {}
        invariant left <= names
        invariant window == old(window) - (names - left)
        invariant history == kept + (rolls - left)
        decreases left
      {
        var name := Pick(left);
        assert window - {name} == old(window) - (names - (left - {name}));
        OneMoreRolled(old(Abstract()), names, now, left, name, history);
        RollName(name, now);
        left := left - {name};
      }
      assert names - left == names && rolls - left == rolls;
    }

    /** One slice: its samples become a point, if it has any. */
    method RollName(name: string, now: int)
      modifies this
      ensures window == old(window) - {name}
      ensures history == RolledName(old(history), old(window), name, now)
    {
      var points := if name in window then window[name] else [];
      window := window - {name};
      if points == [] { return; }
      var entry := if name in history then history[name] else EMPTY;
      history := history[name := Roll(entry, points, now)];
    }
  }

  function RolledName(h: Histories, w: Windows, name: string, now: int): Histories {
    if WindowOf(w, name) == [] then h else h[name := Roll(EntryOf(h, name), WindowOf(w, name), now)]
  }

  /** In the middle of a roll, with `left` still to do: one name more. */
  lemma {:induction false} OneMoreRolled(s: State, names: set<string>, now: int, left: set<string>, name: string,
                                         h: Histories)
    requires name in left && left <= names && h == Kept(s.history, names) + (Rolls(s, names, now) - left)
    ensures RolledName(h, s.window - (names - left), name, now) ==
              Kept(s.history, names) + (Rolls(s, names, now) - (left - {name}))
  {
    OneMoreName(Kept(s.history, names), Rolls(s, names, now), left, name);
    assert WindowOf(s.window - (names - left), name) == WindowOf(s.window, name);
    if WindowOf(s.window, name) != [] {
      assert EntryOf(h, name) == EntryOf(s.history, name);
    }
  }

  lemma {:induction false} OneMoreName(kept: Histories, rolls: Histories, left: set<string>, name: string)
    requires name in left
    ensures name in rolls ==>
              kept + (rolls - (left - {name})) == (kept + (rolls - left))[name := rolls[name]]
    ensures name !in rolls ==> kept + (rolls - (left - {name})) == kept + (rolls - left)
    ensures name in kept + (rolls - left) <==> name in kept
    ensures name in kept ==> (kept + (rolls - left))[name] == kept[name]
  {
  }
}
