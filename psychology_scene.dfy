/**
 * The psychology scene's report queue: admission of a painting-report
 * request, its place in the queue, stopping it, the object check behind
 * the painting test, and the hourly and twelve-hour housekeeping of the
 * tick. The units, the channel, the clock and the predictions are
 * parameters; the worker thread that drains the queue is left out.
 */
module PsychologySceneModel {
  import opened PsychologyTypes
  import opened Strings

  /** The state codes the scene tells apart; every other code is Other. */
  datatype StateCode = Ok | Stopped | Other(code: int)

  /** A report kept by serial number; only painting reports can be stopped. */
  datatype Report =
    | PaintingReport(sn: int, state: StateCode, timestamp: int)
    | ScaleReport(sn: int, timestamp: int)

  /** A queued request: the report's serial number and its indicator limit. */
  datatype ReportTask = ReportTask(sn: int, maxIndicators: int)

  /** The largest number of indicators a task may ask for. */
  const MaxIndicators: int := 36

  /** The report task constructor: the indicator limit is capped at 36. */
  function MakeTask(sn: int, maxIndicators: int): (t: ReportTask)
    ensures t.sn == sn
    ensures t.maxIndicators <= MaxIndicators
    ensures t.maxIndicators <= maxIndicators
    ensures t.maxIndicators == maxIndicators || t.maxIndicators == MaxIndicators
  {
    ReportTask(sn, if maxIndicators < MaxIndicators then maxIndicators else MaxIndicators)
  }

  // ---- The queue ---------------------------------------------------------------

  /** The 1-based position of the first task for sn, or -1. */
  function Position(q: seq<ReportTask>, sn: int): int
  {
    if q == [] then -1
    else if q[0].sn == sn then 1
    else
      var p := Position(q[1..], sn);
      if p == -1 then -1 else p + 1
  }

  /** The queue without its first task for sn. */
  function RemoveFirst(q: seq<ReportTask>, sn: int): seq<ReportTask>
  {
    if q == [] then []
    else if q[0].sn == sn then q[1..]
    else [q[0]] + RemoveFirst(q[1..], sn)
  }

  lemma {:induction false} PositionAt(q: seq<ReportTask>, sn: int, i: int)
    requires 0 <= i < |q| && q[i].sn == sn
    requires forall k :: 0 <= k < i ==> q[k].sn != sn
    ensures Position(q, sn) == i + 1
    ensures RemoveFirst(q, sn) == q[..i] + q[i + 1..]
  {
    if i > 0 {
      PositionAt(q[1..], sn, i - 1);
      assert q[1..][..i - 1] == q[1..i];
      assert q[1..][i..] == q[i + 1..];
      assert q[..i] == [q[0]] + q[1..i];
    }
  }

  lemma {:induction false} PositionAbsent(q: seq<ReportTask>, sn: int)
    requires forall k :: 0 <= k < |q| ==> q[k].sn != sn
    ensures Position(q, sn) == -1
    ensures RemoveFirst(q, sn) == q
  {
    if q != [] {
      PositionAbsent(q[1..], sn);
      assert q == [q[0]] + q[1..];
    }
  }

  /**
   * The position is -1 exactly when no task is for sn; otherwise it points,
   * 1-based, at the first task for sn, and removal takes out exactly that
   * task.
   */
  lemma PositionMeaning(q: seq<ReportTask>, sn: int)
    ensures Position(q, sn) == -1 <==> forall k :: 0 <= k < |q| ==> q[k].sn != sn
    ensures Position(q, sn) != -1 ==>
      var p := Position(q, sn);
      1 <= p <= |q| && q[p - 1].sn == sn &&
      (forall k :: 0 <= k < p - 1 ==> q[k].sn != sn) &&
      RemoveFirst(q, sn) == q[..p - 1] + q[p..]
    ensures Position(q, sn) == -1 ==> RemoveFirst(q, sn) == q
  {
    if i :| 0 <= i < |q| && q[i].sn == sn {
      var j := FirstFor(q, sn, i);
      PositionAt(q, sn, j);
    } else {
      PositionAbsent(q, sn);
    }
  }

  /** Some task for sn at or before i gives a first one. */
  lemma {:induction false} FirstFor(q: seq<ReportTask>, sn: int, i: int) returns (j: int)
    requires 0 <= i < |q| && q[i].sn == sn
    ensures 0 <= j <= i && q[j].sn == sn
    ensures forall k :: 0 <= k < j ==> q[k].sn != sn
  {
    j := i;
    while j > 0 && exists k :: 0 <= k < j && q[k].sn == sn
      invariant 0 <= j <= i && q[j].sn == sn
      decreases j
    {
      var k :| 0 <= k < j && q[k].sn == sn;
      j := k;
    }
  }

  /** A request offered for a serial number not yet queued is queued last. */
  lemma {:induction false} PositionAfterOffer(q: seq<ReportTask>, t: ReportTask)
    requires Position(q, t.sn) == -1
    ensures Position(q + [t], t.sn) == |q| + 1
  {
    PositionMeaning(q, t.sn);
    PositionAt(q + [t], t.sn, |q|);
  }

  /** The source's getGeneratingQueuePosition. */
  method QueuePosition(q: seq<ReportTask>, sn: int) returns (position: int)
    ensures position == Position(q, sn)
  {
    var i := 0;
    while i < |q|
      invariant 0 <= i <= |q|
      invariant forall k :: 0 <= k < i ==> q[k].sn != sn
    {
      if q[i].sn == sn {
        PositionAt(q, sn, i);
        return i + 1;
      }
      i := i + 1;
    }
    PositionAbsent(q, sn);
    return -1;
  }

  /** The removal loop of stopGenerating: the first task for sn goes, the others keep their order. */
  method DropFirst(q: seq<ReportTask>, sn: int) returns (r: seq<ReportTask>)
    ensures r == RemoveFirst(q, sn)
  {
    var i := 0;
    while i < |q|
      invariant 0 <= i <= |q|
      invariant forall k :: 0 <= k < i ==> q[k].sn != sn
    {
      if q[i].sn == sn {
        PositionAt(q, sn, i);
        return q[..i] + q[i + 1..];
      }
      i := i + 1;
    }
    PositionAbsent(q, sn);
    return q;
  }

  // ---- Admission -------------------------------------------------------------------

  /**
   * The number of reports generated at once: the count of BaizeNext units,
   * else of BaizeX units, one less when above two; None with no unit.
   */
  function Concurrency(nextUnits: nat, xUnits: nat): (c: Option<nat>)
    ensures c.None? <==> nextUnits == 0 && xUnits == 0
    ensures c.Some? ==>
      var n := if nextUnits != 0 then nextUnits else xUnits;
      1 <= c.value <= n && (n > 2 ==> c.value == n - 1) && (n <= 2 ==> c.value == n)
  {
    var n := if nextUnits != 0 then nextUnits else xUnits;
    if n == 0 then None
    else if n > 2 then Some(n - 1)
    else Some(n)
  }

  /**
   * The guards of generatePsychologyReport in their order: a channel, room
   * in the queue, an age in range, some Baize unit and a psychology unit.
   * The result is the concurrency once all of them hold.
   */
  function Admit(hasChannel: bool, queued: int, maxQueueLength: int,
                 age: int, minAge: int, maxAge: int,
                 nextUnits: nat, xUnits: nat, hasPsychologyUnit: bool): (c: Option<nat>)
    ensures c.Some? <==>
      hasChannel && queued < maxQueueLength && minAge <= age <= maxAge &&
      (nextUnits != 0 || xUnits != 0) && hasPsychologyUnit
    ensures c.Some? ==> c == Concurrency(nextUnits, xUnits)
  {
    if !hasChannel then None
    else if queued >= maxQueueLength then None
    else if age < minAge || age > maxAge then None
    else
      var c := Concurrency(nextUnits, xUnits);
      if c.None? then None
      else if !hasPsychologyUnit then None
      else c
  }

  // ---- The object check -------------------------------------------------------------

  /** Whether a detected label names a person: it begins with 人. */
  predicate IsPerson(tag: string)
  {
    StartsWith(tag, "人")
  }

  /** How many labels are not persons. */
  function OtherObjects(labels: seq<string>): nat
  {
    if labels == [] then 0
    else OtherObjects(labels[..|labels| - 1]) + (if IsPerson(labels[|labels| - 1]) then 0 else 1)
  }

  lemma {:induction false} OtherObjectsPositive(labels: seq<string>)
    ensures OtherObjects(labels) > 0 <==> exists i :: 0 <= i < |labels| && !IsPerson(labels[i])
  {
    if labels != [] {
      var init := labels[..|labels| - 1];
      OtherObjectsPositive(init);
      if exists i :: 0 <= i < |init| && !IsPerson(init[i]) {
        var i :| 0 <= i < |init| && !IsPerson(init[i]);
        assert labels[i] == init[i];
      }
      if exists i :: 0 <= i < |labels| && !IsPerson(labels[i]) {
        var i :| 0 <= i < |labels| && !IsPerson(labels[i]);
        if i < |init| {
          assert init[i] == labels[i];
        }
      }
    }
  }

  /** The source's hasMoreObjects: some detected object is not a person. */
  method HasMoreObjects(labels: seq<string>) returns (more: bool)
    ensures more <==> exists i :: 0 <= i < |labels| && !IsPerson(labels[i])
  {
    var count := 0;
    for i := 0 to |labels|
      invariant count == OtherObjects(labels[..i])
    {
      assert labels[..i + 1][..i] == labels[..i];
      if !IsPerson(labels[i]) {
        count := count + 1;
      }
    }
    assert labels[..|labels|] == labels;
    OtherObjectsPositive(labels);
    return count > 0;
  }

  /** The prediction unit's answer: whether its state was Ok, and the payload's verdict if it could be read. */
  datatype PredictResponse = PredictResponse(ok: bool, result: Option<bool>)

  /**
   * The source's checkPsychologyPainting: false when the file, the unit or
   * the answer is missing or faulty; otherwise the pixel verdict, or true
   * when object detection found nothing but persons.
   */
  method CheckPsychologyPainting(hasFile: bool, detected: Option<seq<string>>, hasUnit: bool,
                                 response: Option<PredictResponse>) returns (r: bool)
    ensures r <==>
      hasFile && hasUnit && response.Some? && response.value.ok && response.value.result.Some? &&
      (response.value.result.value ||
       !(detected.Some? && exists i :: 0 <= i < |detected.value| && !IsPerson(detected.value[i])))
  {
    if !hasFile {
      return false;
    }
    var more := false;
    if detected.Some? {
      more := HasMoreObjects(detected.value);
    }
    if !hasUnit || response.None? || !response.value.ok || response.value.result.None? {
      return false;
    }
    return response.value.result.value || !more;
  }

  // ---- Housekeeping ------------------------------------------------------------------

  /** Reports and paintings are dropped twelve hours after their timestamp. */
  const RetentionSpan: int := 12 * 60 * 60 * 1000

  /** The retention of stored reports is refreshed at most once an hour. */
  const RefreshPeriod: int := 60 * 60 * 1000

  /** The entries still within the retention span at time now. */
  function Live<V>(m: map<int, V>, stamp: V -> int, now: int): (r: map<int, V>)
    ensures forall k :: k in r <==> k in m && now - stamp(m[k]) <= RetentionSpan
    ensures forall k :: k in r ==> r[k] == m[k]
  {
    map k | k in m && now - stamp(m[k]) <= RetentionSpan :: m[k]
  }

  /** A later tick keeps no more than an earlier one, and a second tick at the same time changes nothing. */
  lemma LiveShrinks<V>(m: map<int, V>, stamp: V -> int, now: int, later: int)
    requires now <= later
    ensures Live(m, stamp, later).Keys <= Live(m, stamp, now).Keys
    ensures Live(Live(m, stamp, now), stamp, now) == Live(m, stamp, now)
  {
  }

  lemma SomeKey(keys: set<int>)
    requires keys != {}
    ensures exists k :: k in keys
  {
    if forall k :: k !in keys {
      assert false;
    }
  }

  /** The removal loop of the tick. */
  method DropExpired<V>(m: map<int, V>, stamp: V -> int, now: int) returns (r: map<int, V>)
    ensures r == Live(m, stamp, now)
  {
    r := m;
    var keys := m.Keys;
    while keys != {}
      invariant keys <= m.Keys
      invariant forall k :: k in r <==> k in m && (k in keys || now - stamp(m[k]) <= RetentionSpan)
      invariant forall k :: k in r ==> r[k] == m[k]
      decreases keys
    {
      SomeKey(keys);
      var k :| k in keys;
      if now - stamp(m[k]) > RetentionSpan {
        r := r - {k};
      }
      keys := keys - {k};
    }
    ghost var live := Live(m, stamp, now);
    assert forall k :: k in r <==> k in live;
    assert forall k :: k in r ==> r[k] == live[k];
  }

  function ReportTime(r: Report): int
  {
    r.timestamp
  }

  function PaintingTime(t: int): int
  {
    t
  }

  class PsychologyScene {
    var taskQueue: seq<ReportTask>
    var maxQueueLength: int
    var numRunningTasks: int
    var reports: map<int, Report>
    /** The paintings by report serial number; a painting is modelled by its timestamp. */
    var paintings: map<int, int>
    var lastConfigModified: int

    constructor ()
      ensures taskQueue == [] && maxQueueLength == 30 && numRunningTasks == 0
      ensures reports == map[] && paintings == map[] && lastConfigModified == 0
    {
      taskQueue := [];
      maxQueueLength := 30;
      numRunningTasks := 0;
      reports := map[];
      paintings := map[];
      lastConfigModified := 0;
    }

    /**
     * The source's generatePsychologyReport up to the start of a worker.
     * A refused request returns None and changes nothing. An admitted one
     * queues its task last, stores its report, and starts a worker (spawn)
     * only when fewer workers than the concurrency are running. The new
     * report's serial number and state come from the report constructor,
     * which is not part of this model, and are parameters.
     */
    method Generate(hasChannel: bool, age: int, minAge: int, maxAge: int,
                    nextUnits: nat, xUnits: nat, hasPsychologyUnit: bool,
                    sn: int, initial: StateCode, maxIndicators: int, now: int)
      returns (r: Option<Report>, spawn: bool)
      modifies this
      ensures var c := Admit(hasChannel, |old(taskQueue)|, old(maxQueueLength), age, minAge, maxAge,
                             nextUnits, xUnits, hasPsychologyUnit);
        if c.None? then
          r.None? && !spawn && taskQueue == old(taskQueue) && reports == old(reports) &&
          numRunningTasks == old(numRunningTasks)
        else
          r == Some(PaintingReport(sn, initial, now)) &&
          taskQueue == old(taskQueue) + [MakeTask(sn, maxIndicators)] &&
          reports == old(reports)[sn := r.value] &&
          (spawn <==> old(numRunningTasks) < c.value) &&
          numRunningTasks == old(numRunningTasks) + (if spawn then 1 else 0)
      ensures maxQueueLength == old(maxQueueLength) && paintings == old(paintings)
      ensures lastConfigModified == old(lastConfigModified)
    {
      if !hasChannel || |taskQueue| >= maxQueueLength || age < minAge || age > maxAge {
        return None, false;
      }
      var concurrency := if nextUnits != 0 then nextUnits else xUnits;
      if concurrency == 0 {
        return None, false;
      }
      if concurrency > 2 {
        concurrency := concurrency - 1;
      }
      if !hasPsychologyUnit {
        return None, false;
      }
      var report := PaintingReport(sn, initial, now);
      taskQueue := taskQueue + [MakeTask(sn, maxIndicators)];
      reports := reports[sn := report];
      if numRunningTasks >= concurrency {
        return Some(report), false;
      }
      numRunningTasks := numRunningTasks + 1;
      return Some(report), true;
    }

    /**
     * The source's stopGenerating: nothing happens without a painting
     * report for sn or when it is already Ok; otherwise its first queued
     * task is removed and it is marked Stopped.
     */
    method StopGenerating(sn: int) returns (r: Option<Report>)
      modifies this
      ensures if sn !in old(reports) || !old(reports)[sn].PaintingReport? || old(reports)[sn].state == Ok then
          r.None? && taskQueue == old(taskQueue) && reports == old(reports)
        else
          r == Some(old(reports)[sn].(state := Stopped)) &&
          taskQueue == RemoveFirst(old(taskQueue), sn) &&
          reports == old(reports)[sn := r.value]
      ensures maxQueueLength == old(maxQueueLength) && numRunningTasks == old(numRunningTasks)
      ensures paintings == old(paintings) && lastConfigModified == old(lastConfigModified)
    {
      if sn !in reports || !reports[sn].PaintingReport? {
        return None;
      }
      var report := reports[sn];
      if report.state == Ok {
        return None;
      }
      taskQueue := DropFirst(taskQueue, sn);
      report := report.(state := Stopped);
      reports := reports[sn := report];
      return Some(report);
    }

    /**
     * The source's onTick: reports and paintings older than twelve hours
     * are dropped; once an hour has passed since the last refresh, the
     * stored reports' retention is refreshed (refresh) and the time noted.
     */
    method OnTick(now: int) returns (refresh: bool)
      modifies this
      ensures reports == Live(old(reports), ReportTime, now)
      ensures paintings == Live(old(paintings), PaintingTime, now)
      ensures refresh <==> now - old(lastConfigModified) > RefreshPeriod
      ensures lastConfigModified == (if refresh then now else old(lastConfigModified))
      ensures taskQueue == old(taskQueue) && maxQueueLength == old(maxQueueLength)
      ensures numRunningTasks == old(numRunningTasks)
    {
      reports := DropExpired(reports, ReportTime, now);
      paintings := DropExpired(paintings, PaintingTime, now);
      refresh := now - lastConfigModified > RefreshPeriod;
      if refresh {
        lastConfigModified := now;
      }
    }
  }
}
