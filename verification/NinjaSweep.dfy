/** The sweep of tools/report_build_time_ninja.py that divides the elapsed time of a build among
    the tasks running at each moment.  Times are exact (`real`). */
module NinjaSweep {
  import opened Arith

  datatype Task = Task(start: real, end: real)

  ghost predicate Valid(tasks: seq<Task>) {
    forall i :: 0 <= i < |tasks| ==> tasks[i].start <= tasks[i].end
  }

  datatype Event = Event(time: real, stop: bool, task: nat)

  /** The sort key: by time, and starts before stops. */
  predicate Leq(a: Event, b: Event) {
    a.time < b.time || (a.time == b.time && (a.stop ==> b.stop))
  }

  function StartOf(tasks: seq<Task>, i: nat): Event
    requires i < |tasks|
  {
    Event(tasks[i].start, false, i)
  }

  function StopOf(tasks: seq<Task>, i: nat): Event
    requires i < |tasks|
  {
    Event(tasks[i].end, true, i)
  }

  ghost predicate Sorted(ev: seq<Event>) {
    forall j, k :: 0 <= j < k < |ev| ==> Leq(ev[j], ev[k])
  }

  ghost predicate NoDuplicates(ev: seq<Event>) {
    forall j, k :: 0 <= j < k < |ev| ==> ev[j] != ev[k]
  }

  /** `e` is the start or stop of one of the first `n` tasks. */
  ghost predicate IsEvent(tasks: seq<Task>, n: nat, e: Event)
    requires n <= |tasks|
  {
    e.task < n && (e == StartOf(tasks, e.task) || e == StopOf(tasks, e.task))
  }

  /** A sorted list that holds the start and stop of each of the first `n` tasks once. */
  ghost predicate Schedule(tasks: seq<Task>, n: nat, ev: seq<Event>)
    requires n <= |tasks|
  {
    Sorted(ev) && NoDuplicates(ev) && forall e :: e in ev <==> IsEvent(tasks, n, e)
  }

  // ---------------------------------------------------------------------------
  // Sorting the events
  // ---------------------------------------------------------------------------

  /** Insertion behind equal keys, as a stable sort does it. */
  function Insert(e: Event, ev: seq<Event>): seq<Event> {
    if ev == [] then [e]
    else if Leq(ev[0], e) then [ev[0]] + Insert(e, ev[1..])
    else [e] + ev
  }

  lemma {:induction false} InsertHolds(e: Event, ev: seq<Event>, x: Event)
    ensures x in Insert(e, ev) <==> x == e || x in ev
  {
    if ev != [] {
      assert ev == [ev[0]] + ev[1..];
      if Leq(ev[0], e) {
        InsertHolds(e, ev[1..], x);
      }
    }
  }

  lemma {:induction false} InsertKeeps(e: Event, ev: seq<Event>)
    requires Sorted(ev) && NoDuplicates(ev) && e !in ev
    ensures Sorted(Insert(e, ev)) && NoDuplicates(Insert(e, ev))
  {
    if ev != [] && Leq(ev[0], e) {
      InsertKeeps(e, ev[1..]);
      var t := Insert(e, ev[1..]);
      forall k | 0 <= k < |t| ensures Leq(ev[0], t[k]) && t[k] != ev[0] {
        InsertHolds(e, ev[1..], t[k]);
      }
    } else if ev != [] {
      forall k | 0 <= k < |ev| ensures Leq(e, ev[k]) && ev[k] != e {
        assert k == 0 || Leq(ev[0], ev[k]);
      }
    }
  }

  /** Adding one task's events to a schedule. */
  lemma ScheduleGrows(tasks: seq<Task>, n: nat, ev: seq<Event>)
    requires n < |tasks| && Schedule(tasks, n, ev)
    ensures Schedule(tasks, n + 1, Insert(StopOf(tasks, n), Insert(StartOf(tasks, n), ev)))
  {
    var a, b := StartOf(tasks, n), StopOf(tasks, n);
    var one := Insert(a, ev);
    InsertKeeps(a, ev);
    InsertHolds(a, ev, b);
    InsertKeeps(b, one);
    forall e ensures e in Insert(b, one) <==> IsEvent(tasks, n + 1, e) {
      InsertHolds(a, ev, e);
      InsertHolds(b, one, e);
    }
  }

  method SortedEvents(tasks: seq<Task>) returns (ev: seq<Event>)
    ensures Schedule(tasks, |tasks|, ev)
  {
    ev := [];
    for n := 0 to |tasks|
      invariant Schedule(tasks, n, ev)
    {
      ScheduleGrows(tasks, n, ev);
      ev := Insert(StopOf(tasks, n), Insert(StartOf(tasks, n), ev));
    }
  }

  // ---------------------------------------------------------------------------
  // What the sweep should compute
  // ---------------------------------------------------------------------------

  /** The tasks that run through the whole of [a, b]. */
  ghost function Covering(tasks: seq<Task>, a: real, b: real): set<nat> {
    set i: nat | i < |tasks| && tasks[i].start <= a && b <= tasks[i].end
  }

  /** The share of a task in the segment [a, b]: the length, divided among those running. */
  ghost function Share(tasks: seq<Task>, i: nat, a: real, b: real): real {
    if a < b && i in Covering(tasks, a, b) then (b - a) / |Covering(tasks, a, b)| as real else 0.0
  }

  /** The share of a task in the segments between the first `k` events. */
  ghost function Weight(tasks: seq<Task>, ev: seq<Event>, i: nat, k: nat): real
    requires k <= |ev|
  {
    if k <= 1 then 0.0 else Weight(tasks, ev, i, k - 1) + Share(tasks, i, ev[k - 2].time, ev[k - 1].time)
  }

  /** The time between the first `k` events during which at least one task runs. */
  ghost function Busy(tasks: seq<Task>, ev: seq<Event>, k: nat): real
    requires k <= |ev|
  {
    if k <= 1 then 0.0
    else
      var a, b := ev[k - 2].time, ev[k - 1].time;
      Busy(tasks, ev, k - 1) + if a < b && Covering(tasks, a, b) != {} then b - a else 0.0
  }

  /** The shares are fair: all tasks that run through a segment have the same one, together they are
      its length, and the others have none. */
  lemma ShareIsFair(tasks: seq<Task>, i: nat, j: nat, a: real, b: real)
    requires a < b && i in Covering(tasks, a, b)
    ensures j in Covering(tasks, a, b) ==> Share(tasks, j, a, b) == Share(tasks, i, a, b)
    ensures j !in Covering(tasks, a, b) ==> Share(tasks, j, a, b) == 0.0
    ensures Times(|Covering(tasks, a, b)|, Share(tasks, i, a, b)) == b - a
  {
    var n := |Covering(tasks, a, b)|;
    assert n > 0;
    QuotientBounds(b - a, n);
  }

  /** Between two neighbouring events the tasks running at any moment are the covering ones. */
  lemma CoveringIsRunning(tasks: seq<Task>, ev: seq<Event>, k: nat, t: real, i: nat)
    requires Schedule(tasks, |tasks|, ev) && 1 <= k < |ev| && ev[k - 1].time < t < ev[k].time && i < |tasks|
    ensures i in Covering(tasks, ev[k - 1].time, ev[k].time) <==> tasks[i].start <= t <= tasks[i].end
  {
    assert IsEvent(tasks, |tasks|, StartOf(tasks, i)) && IsEvent(tasks, |tasks|, StopOf(tasks, i));
    var p :| 0 <= p < |ev| && ev[p] == StartOf(tasks, i);
    var q :| 0 <= q < |ev| && ev[q] == StopOf(tasks, i);
    assert p <= k - 1 ==> p == k - 1 || Leq(ev[p], ev[k - 1]);
    assert p >= k ==> p == k || Leq(ev[k], ev[p]);
    assert q <= k - 1 ==> q == k - 1 || Leq(ev[q], ev[k - 1]);
    assert q >= k ==> q == k || Leq(ev[k], ev[q]);
  }

  // ---------------------------------------------------------------------------
  // The sweep
  // ---------------------------------------------------------------------------

  ghost predicate Running(tasks: seq<Task>, ev: seq<Event>, k: nat, i: nat)
    requires k <= |ev|
  {
    i < |tasks| && StartOf(tasks, i) in ev[..k] && StopOf(tasks, i) !in ev[..k]
  }

  /** On a segment of positive length the running tasks are the covering ones. */
  lemma RunningIsCovering(tasks: seq<Task>, ev: seq<Event>, k: nat, i: nat)
    requires Schedule(tasks, |tasks|, ev) && 1 <= k < |ev| && ev[k - 1].time < ev[k].time
    ensures Running(tasks, ev, k, i) <==> i in Covering(tasks, ev[k - 1].time, ev[k].time)
  {
    if i < |tasks| {
      EventBefore(tasks, ev, k, StartOf(tasks, i));
      EventBefore(tasks, ev, k, StopOf(tasks, i));
    }
  }

  lemma EventBefore(tasks: seq<Task>, ev: seq<Event>, k: nat, e: Event)
    requires Schedule(tasks, |tasks|, ev) && 1 <= k < |ev| && ev[k - 1].time < ev[k].time && IsEvent(tasks, |tasks|, e)
    ensures e in ev[..k] ==> e.time <= ev[k - 1].time
    ensures e !in ev[..k] ==> e.time >= ev[k].time
  {
    var p :| 0 <= p < |ev| && ev[p] == e;
    if p < k {
      assert ev[..k][p] == e;
      assert p == k - 1 || Leq(ev[p], ev[k - 1]);
    } else {
      assert p == k || Leq(ev[k], ev[p]);
    }
  }

  /** The state of the sweep before event `k`. */
  datatype Sweep = Sweep(running: map<nat, real>, acc: real, weights: seq<real>, total: real)

  function Sum(n: nat, m: map<nat, real>): real {
    if n == 0 then 0.0 else Sum(n - 1, m) + if n - 1 in m then m[n - 1] else 0.0
  }

  function SumOf(w: seq<real>): real {
    if w == [] then 0.0 else SumOf(w[..|w| - 1]) + w[|w| - 1]
  }

  lemma {:induction false} SumAdd(n: nat, m: map<nat, real>, i: nat, v: real)
    requires i !in m
    ensures Sum(n, m[i := v]) == Sum(n, m) + if i < n then v else 0.0
  {
    if n > 0 {
      SumAdd(n - 1, m, i, v);
    }
  }

  lemma {:induction false} SumRemove(n: nat, m: map<nat, real>, i: nat)
    requires i in m
    ensures Sum(n, m - {i}) == Sum(n, m) - if i < n then m[i] else 0.0
  {
    if n > 0 {
      SumRemove(n - 1, m, i);
    }
  }

  lemma {:induction false} SumSet(w: seq<real>, i: nat, v: real)
    requires i < |w| && w[i] == 0.0
    ensures SumOf(w[i := v]) == SumOf(w) + v
  {
    var p := w[..|w| - 1];
    if i == |w| - 1 {
      assert w[i := v][..|w| - 1] == p;
    } else {
      assert w[i := v][..|w| - 1] == p[i := v];
      SumSet(p, i, v);
    }
  }

  lemma {:induction false} SumEmpty(n: nat)
    ensures Sum(n, map[]) == 0.0
  {
    if n > 0 {
      SumEmpty(n - 1);
    }
  }

  /** What has been paid out and what the running tasks have earned so far. */
  function Owed(n: nat, s: Sweep): real { s.total + Times(|s.running|, s.acc) - Sum(n, s.running) }

  /** Task `i` after `k` events and the segments between the first `w`: not started, running
      since a recorded moment, or done. */
  ghost predicate TaskState(tasks: seq<Task>, ev: seq<Event>, k: nat, w: nat, s: Sweep, last: real, i: nat)
    requires k <= |ev| && w <= |ev| && |s.weights| == |tasks| && i < |tasks|
  {
    && (i in s.running <==> Running(tasks, ev, k, i))
    && (i in s.running ==>
          && s.weights[i] == 0.0 && s.acc - s.running[i] == Weight(tasks, ev, i, w)
          && 0.0 <= s.acc - s.running[i] <= last - tasks[i].start)
    && (StartOf(tasks, i) !in ev[..k] ==> s.weights[i] == 0.0 && Weight(tasks, ev, i, w) == 0.0)
    && (StopOf(tasks, i) in ev[..k] ==>
          s.weights[i] == Weight(tasks, ev, i, w) && 0.0 <= s.weights[i] <= tasks[i].end - tasks[i].start)
  }

  /** Every running task is owed the time since its start; what is owed and what has been paid
      out is the busy time. */
  ghost predicate Inv(tasks: seq<Task>, ev: seq<Event>, k: nat, w: nat, s: Sweep, last: real) {
    && k <= |ev| && w <= |ev| && |s.weights| == |tasks|
    && (forall i :: i in s.running ==> i < |tasks|)
    && (forall i :: 0 <= i < |tasks| ==> TaskState(tasks, ev, k, w, s, last, i))
    && s.total == SumOf(s.weights)
    && Owed(|tasks|, s) == Busy(tasks, ev, w)
  }

  /** Time moves on to the next event. */
  function Advance(s: Sweep, last: real, time: real): Sweep {
    if |s.running| > 0 then s.(acc := s.acc + (time - last) / |s.running| as real) else s
  }

  /** The event itself. */
  function Act(s: Sweep, e: Event): Sweep
    requires e.stop ==> e.task in s.running && e.task < |s.weights|
  {
    if !e.stop then s.(running := s.running[e.task := s.acc])
    else
      var d := s.acc - s.running[e.task];
      Sweep(s.running - {e.task}, s.acc, s.weights[e.task := d], s.total + d)
  }

  lemma ShareIs(tasks: seq<Task>, ev: seq<Event>, k: nat, s: Sweep, i: nat)
    requires Schedule(tasks, |tasks|, ev) && 1 <= k < |ev| && i < |tasks|
    requires Inv(tasks, ev, k, k, s, ev[k - 1].time)
    ensures ev[k - 1].time <= ev[k].time
    ensures i in s.running ==> |s.running| > 0 && Share(tasks, i, ev[k - 1].time, ev[k].time) == (ev[k].time - ev[k - 1].time) / |s.running| as real
    ensures i !in s.running ==> Share(tasks, i, ev[k - 1].time, ev[k].time) == 0.0
  {
    var a, b := ev[k - 1].time, ev[k].time;
    assert Leq(ev[k - 1], ev[k]);
    assert i in s.running ==> |s.running| > 0;
    if a < b {
      RunningSet(tasks, ev, k, s);
    }
  }

  lemma RunningSet(tasks: seq<Task>, ev: seq<Event>, k: nat, s: Sweep)
    requires Schedule(tasks, |tasks|, ev) && 1 <= k < |ev| && ev[k - 1].time < ev[k].time
    requires Inv(tasks, ev, k, k, s, ev[k - 1].time)
    ensures s.running.Keys == Covering(tasks, ev[k - 1].time, ev[k].time)
    ensures |s.running| == |Covering(tasks, ev[k - 1].time, ev[k].time)|
  {
    forall i: nat ensures i in s.running <==> i in Covering(tasks, ev[k - 1].time, ev[k].time) {
      RunningIsCovering(tasks, ev, k, i);
      if i < |tasks| {
        assert TaskState(tasks, ev, k, k, s, ev[k - 1].time, i);
      }
    }
    assert |s.running| == |s.running.Keys|;
  }

  lemma QuotientBounds(x: real, n: nat)
    requires x >= 0.0 && n >= 1
    ensures 0.0 <= x / n as real <= x && Times(n, x / n as real) == x
  {
    var q := x / n as real;
    TimesIsProduct(n, q);
    assert q * n as real == x;
    assert (n - 1) as real * q >= 0.0;
    assert n as real == (n - 1) as real + 1.0;
    assert n as real * q == (n - 1) as real * q + q;
  }

  lemma AdvanceTask(tasks: seq<Task>, ev: seq<Event>, k: nat, s: Sweep, i: nat)
    requires Schedule(tasks, |tasks|, ev) && 1 <= k < |ev| && i < |tasks|
    requires Inv(tasks, ev, k, k, s, ev[k - 1].time)
    ensures TaskState(tasks, ev, k, k + 1, Advance(s, ev[k - 1].time, ev[k].time), ev[k].time, i)
  {
    assert TaskState(tasks, ev, k, k, s, ev[k - 1].time, i);
    ShareIs(tasks, ev, k, s, i);
    if |s.running| > 0 {
      QuotientBounds(ev[k].time - ev[k - 1].time, |s.running|);
    }
    assert Running(tasks, ev, k, i) ==> StartOf(tasks, i) in ev[..k] && StopOf(tasks, i) !in ev[..k];
  }

  lemma AdvanceBusy(tasks: seq<Task>, ev: seq<Event>, k: nat, s: Sweep)
    requires Schedule(tasks, |tasks|, ev) && 1 <= k < |ev|
    requires Inv(tasks, ev, k, k, s, ev[k - 1].time)
    ensures var t := Advance(s, ev[k - 1].time, ev[k].time);
            Times(|t.running|, t.acc) == Times(|s.running|, s.acc) + Busy(tasks, ev, k + 1) - Busy(tasks, ev, k)
  {
    var a, b := ev[k - 1].time, ev[k].time;
    assert Leq(ev[k - 1], ev[k]);
    if a < b {
      RunningSet(tasks, ev, k, s);
    }
    if |s.running| > 0 {
      var n := |s.running|;
      QuotientBounds(b - a, n);
      TimesOfSum(n, s.acc, (b - a) / n as real);
      assert a < b ==> Covering(tasks, a, b) != {};
    } else {
      assert a < b ==> Covering(tasks, a, b) == {};
    }
  }

  lemma AdvanceKeeps(tasks: seq<Task>, ev: seq<Event>, k: nat, s: Sweep)
    requires Schedule(tasks, |tasks|, ev) && 1 <= k < |ev|
    requires Inv(tasks, ev, k, k, s, ev[k - 1].time)
    ensures Inv(tasks, ev, k, k + 1, Advance(s, ev[k - 1].time, ev[k].time), ev[k].time)
  {
    var t := Advance(s, ev[k - 1].time, ev[k].time);
    AdvanceBusy(tasks, ev, k, s);
    var w, last := k + 1, ev[k].time;
    forall i | 0 <= i < |tasks| ensures TaskState(tasks, ev, k, w, t, last, i) {
      AdvanceTask(tasks, ev, k, s, i);
    }
  }

  // The event

  /** Event `k` is new, and the stop of a task comes after its start. */
  lemma EventIsNew(tasks: seq<Task>, ev: seq<Event>, k: nat)
    requires Valid(tasks) && Schedule(tasks, |tasks|, ev) && k < |ev|
    ensures ev[k].task < |tasks| && ev[k] !in ev[..k]
    ensures !ev[k].stop ==> ev[k] == StartOf(tasks, ev[k].task) && StopOf(tasks, ev[k].task) !in ev[..k]
    ensures ev[k].stop ==> ev[k] == StopOf(tasks, ev[k].task) && StartOf(tasks, ev[k].task) in ev[..k]
  {
    var i := ev[k].task;
    assert IsEvent(tasks, |tasks|, ev[k]);
    if ev[k].stop {
      StartComesFirst(tasks, ev, k);
    }
  }

  lemma StartComesFirst(tasks: seq<Task>, ev: seq<Event>, k: nat)
    requires Valid(tasks) && Schedule(tasks, |tasks|, ev) && k < |ev| && ev[k].task < |tasks| && ev[k] == StopOf(tasks, ev[k].task)
    ensures StartOf(tasks, ev[k].task) in ev[..k]
  {
    var a := StartOf(tasks, ev[k].task);
    assert IsEvent(tasks, |tasks|, a);
    var p :| 0 <= p < |ev| && ev[p] == a;
    ComesBefore(ev, p, k);
    assert ev[..k][p] == a;
  }

  lemma ComesBefore(ev: seq<Event>, p: nat, k: nat)
    requires Sorted(ev) && p < |ev| && k < |ev| && !Leq(ev[k], ev[p])
    ensures p < k
  {
  }

  lemma OtherTask(tasks: seq<Task>, ev: seq<Event>, k: nat, i: nat)
    requires k < |ev| && i < |tasks| && ev[k].task != i
    ensures StartOf(tasks, i) in ev[..k + 1] <==> StartOf(tasks, i) in ev[..k]
    ensures StopOf(tasks, i) in ev[..k + 1] <==> StopOf(tasks, i) in ev[..k]
  {
    assert ev[..k + 1] == ev[..k] + [ev[k]];
  }

  lemma ActTask(tasks: seq<Task>, ev: seq<Event>, k: nat, s: Sweep, i: nat)
    requires Valid(tasks) && Schedule(tasks, |tasks|, ev) && k < |ev| && i < |tasks|
    requires Inv(tasks, ev, k, k + 1, s, ev[k].time) && ev[k].task < |tasks|
    requires ev[k].stop ==> ev[k].task in s.running
    ensures TaskState(tasks, ev, k + 1, k + 1, Act(s, ev[k]), ev[k].time, i)
  {
    assert TaskState(tasks, ev, k, k + 1, s, ev[k].time, i);
    EventIsNew(tasks, ev, k);
    assert ev[..k + 1] == ev[..k] + [ev[k]];
    if ev[k].task != i {
      OtherTask(tasks, ev, k, i);
    }
  }

  /** The task of the event, and its place in the books. */
  lemma ActReady(tasks: seq<Task>, ev: seq<Event>, k: nat, s: Sweep)
    requires Valid(tasks) && Schedule(tasks, |tasks|, ev) && k < |ev|
    requires Inv(tasks, ev, k, k + 1, s, ev[k].time)
    ensures ev[k].task < |tasks|
    ensures ev[k].task in s.running <==> ev[k].stop
    ensures ev[k].stop ==> s.weights[ev[k].task] == 0.0
  {
    EventIsNew(tasks, ev, k);
    assert TaskState(tasks, ev, k, k + 1, s, ev[k].time, ev[k].task);
  }

  lemma StopSize(m: map<nat, real>, i: nat)
    requires i in m
    ensures |m| == |m - {i}| + 1
  {
    var r := m - {i};
    assert r.Keys == m.Keys - {i};
    assert |r| == |r.Keys| && |m| == |m.Keys|;
  }

  lemma StartSize(m: map<nat, real>, i: nat, v: real)
    requires i !in m
    ensures |m[i := v]| == |m| + 1
  {
    var r := m[i := v];
    assert r.Keys == m.Keys + {i};
    assert |r| == |r.Keys| && |m| == |m.Keys|;
  }

  lemma StopBooks(n: nat, s: Sweep, i: nat)
    requires i < n == |s.weights| && s.total == SumOf(s.weights) && i in s.running && s.weights[i] == 0.0
    ensures var t := Act(s, Event(0.0, true, i)); t.total == SumOf(t.weights) && Owed(n, t) == Owed(n, s)
  {
    SumRemove(n, s.running, i);
    SumSet(s.weights, i, s.acc - s.running[i]);
    StopSize(s.running, i);
  }

  lemma StartBooks(n: nat, s: Sweep, i: nat)
    requires i < n == |s.weights| && s.total == SumOf(s.weights) && i !in s.running
    ensures var t := Act(s, Event(0.0, false, i)); t.total == SumOf(t.weights) && Owed(n, t) == Owed(n, s)
  {
    SumAdd(n, s.running, i, s.acc);
    StartSize(s.running, i, s.acc);
  }

  lemma ActBooks(n: nat, s: Sweep, e: Event)
    requires e.task < n == |s.weights| && s.total == SumOf(s.weights)
    requires e.task in s.running <==> e.stop
    requires e.stop ==> s.weights[e.task] == 0.0
    ensures var t := Act(s, e); t.total == SumOf(t.weights) && Owed(n, t) == Owed(n, s)
  {
    if e.stop {
      StopBooks(n, s, e.task);
    } else {
      StartBooks(n, s, e.task);
    }
  }

  lemma ActKeeps(tasks: seq<Task>, ev: seq<Event>, k: nat, s: Sweep)
    requires Valid(tasks) && Schedule(tasks, |tasks|, ev) && k < |ev|
    requires Inv(tasks, ev, k, k + 1, s, ev[k].time)
    ensures ev[k].task < |tasks| && (ev[k].stop ==> ev[k].task in s.running)
    ensures Inv(tasks, ev, k + 1, k + 1, Act(s, ev[k]), ev[k].time)
  {
    ActReady(tasks, ev, k, s);
    ActBooks(|tasks|, s, ev[k]);
    var t, w, last := Act(s, ev[k]), k + 1, ev[k].time;
    forall i | 0 <= i < |tasks| ensures TaskState(tasks, ev, w, w, t, last, i) {
      ActTask(tasks, ev, k, s, i);
    }
  }

  lemma {:induction false} SumOfZeros(n: nat)
    ensures SumOf(seq(n, _ => 0.0)) == 0.0
  {
    if n > 0 {
      assert seq(n, _ => 0.0)[..n - 1] == seq(n - 1, _ => 0.0);
      SumOfZeros(n - 1);
    }
  }

  lemma FirstInv(tasks: seq<Task>, ev: seq<Event>, last: real)
    requires |ev| >= 1
    ensures Inv(tasks, ev, 0, 1, Sweep(map[], 0.0, seq(|tasks|, _ => 0.0), 0.0), last)
  {
    SumOfZeros(|tasks|);
    SumEmpty(|tasks|);
  }

  /** What the sweep leaves: no task is running, every task has its share of every segment it
      covers, which lies between 0 and its own duration, and all shares together are the busy
      time. */
  ghost predicate Divided(tasks: seq<Task>, ev: seq<Event>, s: Sweep) {
    && s.running == map[] && |s.weights| == |tasks|
    && (forall i :: 0 <= i < |tasks| ==>
          s.weights[i] == Weight(tasks, ev, i, |ev|) && 0.0 <= s.weights[i] <= tasks[i].end - tasks[i].start)
    && s.total == SumOf(s.weights) == Busy(tasks, ev, |ev|)
  }

  lemma LastInv(tasks: seq<Task>, ev: seq<Event>, s: Sweep, last: real)
    requires Schedule(tasks, |tasks|, ev) && Inv(tasks, ev, |ev|, |ev|, s, last)
    ensures Divided(tasks, ev, s)
  {
    forall i | 0 <= i < |tasks|
      ensures i !in s.running && s.weights[i] == Weight(tasks, ev, i, |ev|)
      ensures 0.0 <= s.weights[i] <= tasks[i].end - tasks[i].start
    {
      assert TaskState(tasks, ev, |ev|, |ev|, s, last, i);
      assert IsEvent(tasks, |tasks|, StopOf(tasks, i)) && ev[..|ev|] == ev;
    }
    assert s.running == map[];
    SumEmpty(|tasks|);
  }

  // ---------------------------------------------------------------------------
  // No time of a task is left out
  // ---------------------------------------------------------------------------

  function Clamp(t: real, lo: real, hi: real): real { if t < lo then lo else if t > hi then hi else t }

  /** A task covers a segment between neighbouring events, or lies before or behind it. */
  lemma NoStraddling(tasks: seq<Task>, ev: seq<Event>, k: nat, i: nat)
    requires Valid(tasks) && Schedule(tasks, |tasks|, ev) && 1 <= k < |ev| && i < |tasks|
    ensures ev[k - 1].time <= ev[k].time
    ensures tasks[i].start <= ev[k - 1].time || ev[k].time <= tasks[i].start
    ensures ev[k].time <= tasks[i].end || tasks[i].end <= ev[k - 1].time
  {
    assert Leq(ev[k - 1], ev[k]);
    TimeOnOneSide(tasks, ev, k, StartOf(tasks, i));
    TimeOnOneSide(tasks, ev, k, StopOf(tasks, i));
  }

  lemma TimeOnOneSide(tasks: seq<Task>, ev: seq<Event>, k: nat, e: Event)
    requires Schedule(tasks, |tasks|, ev) && 1 <= k < |ev| && IsEvent(tasks, |tasks|, e)
    ensures e.time <= ev[k - 1].time || ev[k].time <= e.time
  {
    var p :| 0 <= p < |ev| && ev[p] == e;
    if p < k - 1 {
      assert Leq(ev[p], ev[k - 1]);
    } else if p > k {
      assert Leq(ev[k], ev[p]);
    }
  }

  /** The part of a task in a segment, from its end points. */
  lemma PartOfSegment(tasks: seq<Task>, ev: seq<Event>, k: nat, i: nat)
    requires Valid(tasks) && Schedule(tasks, |tasks|, ev) && 1 <= k < |ev| && i < |tasks|
    ensures var a, b := ev[k - 1].time, ev[k].time;
            Clamp(b, tasks[i].start, tasks[i].end) - Clamp(a, tasks[i].start, tasks[i].end) ==
            if a < b && i in Covering(tasks, a, b) then b - a else 0.0
  {
    NoStraddling(tasks, ev, k, i);
  }

  /** Of every segment that a task covers it gets at least one part in as many as there are tasks. */
  lemma ShareAtLeast(tasks: seq<Task>, i: nat, a: real, b: real)
    requires a < b && i in Covering(tasks, a, b)
    ensures Times(|tasks|, Share(tasks, i, a, b)) >= b - a
  {
    var cover := Covering(tasks, a, b);
    ShareIsFair(tasks, i, i, a, b);
    AtMostAll(cover, |tasks|);
    QuotientBounds(b - a, |cover|);
    TimesGrow(|cover|, |tasks|, Share(tasks, i, a, b));
  }

  lemma {:induction false} TimesGrow(m: nat, n: nat, x: real)
    requires m <= n && x >= 0.0
    ensures Times(m, x) <= Times(n, x)
  {
    if m < n {
      TimesGrow(m, n - 1, x);
    }
  }

  lemma {:induction false} AtMostAll(s: set<nat>, n: nat)
    requires forall i :: i in s ==> i < n
    ensures |s| <= n
  {
    if n > 0 {
      AtMostAll(s - {n - 1}, n - 1);
      assert s <= s - {n - 1} + {n - 1};
    } else {
      assert s == {};
    }
  }

  lemma {:induction false} TimesAdds(n: nat, x: real, y: real)
    ensures Times(n, x + y) == Times(n, x) + Times(n, y)
  {
    if n > 0 {
      TimesAdds(n - 1, x, y);
    }
  }

  lemma {:induction false} TimesZero(n: nat)
    ensures Times(n, 0.0) == 0.0
  {
    if n > 0 {
      TimesZero(n - 1);
    }
  }

  lemma {:induction false} WeightSoFar(tasks: seq<Task>, ev: seq<Event>, i: nat, k: nat)
    requires Valid(tasks) && Schedule(tasks, |tasks|, ev) && i < |tasks| && 1 <= k <= |ev|
    ensures Times(|tasks|, Weight(tasks, ev, i, k)) >= Clamp(ev[k - 1].time, tasks[i].start, tasks[i].end) - Clamp(ev[0].time, tasks[i].start, tasks[i].end)
    ensures Busy(tasks, ev, k) >= Clamp(ev[k - 1].time, tasks[i].start, tasks[i].end) - Clamp(ev[0].time, tasks[i].start, tasks[i].end)
  {
    TimesZero(|tasks|);
    if k > 1 {
      var a, b := ev[k - 2].time, ev[k - 1].time;
      WeightSoFar(tasks, ev, i, k - 1);
      PartOfSegment(tasks, ev, k - 1, i);
      TimesAdds(|tasks|, Weight(tasks, ev, i, k - 1), Share(tasks, i, a, b));
      if a < b && i in Covering(tasks, a, b) {
        ShareAtLeast(tasks, i, a, b);
      }
    }
  }

  /** Nothing of a task's duration is left out: its weight is at least the duration divided by the
      number of all tasks, and the busy time is at least the duration. */
  lemma {:induction false} WeightAtLeast(tasks: seq<Task>, ev: seq<Event>, i: nat)
    requires Valid(tasks) && Schedule(tasks, |tasks|, ev) && i < |tasks|
    ensures Times(|tasks|, Weight(tasks, ev, i, |ev|)) >= tasks[i].end - tasks[i].start
    ensures Busy(tasks, ev, |ev|) >= tasks[i].end - tasks[i].start
  {
    assert IsEvent(tasks, |tasks|, StartOf(tasks, i)) && IsEvent(tasks, |tasks|, StopOf(tasks, i));
    var p :| 0 <= p < |ev| && ev[p] == StartOf(tasks, i);
    var q :| 0 <= q < |ev| && ev[q] == StopOf(tasks, i);
    assert p == 0 || Leq(ev[0], ev[p]);
    assert q == |ev| - 1 || Leq(ev[q], ev[|ev| - 1]);
    WeightSoFar(tasks, ev, i, |ev|);
  }

  datatype Outcome = Done(s: Sweep) | IndexError

  /** The sweep over sorted events. */
  method SweepEvents(tasks: seq<Task>, ev: seq<Event>) returns (s: Sweep)
    requires Valid(tasks) && Schedule(tasks, |tasks|, ev) && |ev| >= 1
    ensures Divided(tasks, ev, s)
  {
    s := Sweep(map[], 0.0, seq(|tasks|, _ => 0.0), 0.0);
    var last := ev[0].time;
    FirstInv(tasks, ev, last);
    var k := 0;
    while k < |ev|
      invariant 0 <= k <= |ev|
      invariant k == 0 ==> last == ev[0].time && s.running == map[] && Inv(tasks, ev, 0, 1, s, last)
      invariant k > 0 ==> last == ev[k - 1].time && Inv(tasks, ev, k, k, s, last)
    {
      if k > 0 {
        AdvanceKeeps(tasks, ev, k, s);
      }
      s := Advance(s, last, ev[k].time);
      ActKeeps(tasks, ev, k, s);
      s := Act(s, ev[k]);
      last := ev[k].time;
      k := k + 1;
    }
    LastInv(tasks, ev, s, last);
  }

  /** The whole summary.  Without tasks there is no first event, and the code raises. */
  method Summarize(tasks: seq<Task>) returns (r: Outcome, ghost ev: seq<Event>)
    requires Valid(tasks)
    ensures r.IndexError? <==> tasks == []
    ensures Schedule(tasks, |tasks|, ev) && (r.Done? ==> Divided(tasks, ev, r.s))
  {
    var events := SortedEvents(tasks);
    ev := events;
    if |events| == 0 {
      assert tasks != [] ==> IsEvent(tasks, |tasks|, StartOf(tasks, 0));
      return IndexError, ev;
    }
    assert IsEvent(tasks, |tasks|, events[0]);
    var s := SweepEvents(tasks, events);
    return Done(s), ev;
  }
}
