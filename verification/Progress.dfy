// Folding an agent's progress reports into a DeployRun's status.
module Progress {
  import opened Common

  datatype Timing = Timing(phase: string, startedAt: int, finishedAt: Option<int>)

  // ProgressPartition and DeployRunPartitionProgress have the same fields.
  datatype Partition = Partition(number: int, percent: int, bytesDone: int)

  datatype ReportState = Running | Succeeded | Failed | Unknown

  datatype Report = Report(step: string, state: ReportState, message: string, partitions: seq<Partition>,
                           timestamp: int)

  // A metav1.Condition of type Succeeded; since is its lastTransitionTime.
  datatype Condition = Condition(isTrue: bool, reason: string, message: string, since: int, observedGeneration: int)

  datatype Status = Status(
    phase: string, timings: seq<Timing>, partitions: seq<Partition>, condition: Option<Condition>,
    lastProgressAt: Option<int>)

  // The clock of the process that receives a report, and the run's generation as it reads it.
  datatype Moment = Moment(time: int, generation: int)

  datatype Delivery = Delivery(report: Report, now: Moment)

  const EMPTY := Status("", [], [], None, None)
  const PHASE_SUCCEEDED := "Succeeded"
  const PHASE_FAILED := "Failed"

  // ----- the folds as functions -----

  function Close(timings: seq<Timing>, ts: int): seq<Timing> {
    if timings != [] && timings[|timings| - 1].finishedAt.None?
    then timings[|timings| - 1 := timings[|timings| - 1].(finishedAt := Some(ts))]
    else timings
  }

  function Enter(st: Status, step: string, ts: int): Status {
    if st.phase == step then st
    else st.(phase := step, timings := Close(st.timings, ts) + [Timing(step, ts, None)])
  }

  // Position of the first entry numbered n, or |ps|.
  function FirstIndex(ps: seq<Partition>, n: int): (k: nat)
    ensures k <= |ps| && (k < |ps| ==> ps[k].number == n) && (forall i :: 0 <= i < k ==> ps[i].number != n)
  {
    if ps == [] || ps[0].number == n then 0 else 1 + FirstIndex(ps[1..], n)
  }

  function Upsert(ps: seq<Partition>, p: Partition): seq<Partition> {
    var k := FirstIndex(ps, p.number);
    if k < |ps| then ps[k := p] else ps + [p]
  }

  function UpsertAll(ps: seq<Partition>, reported: seq<Partition>): seq<Partition>
    decreases |reported|
  {
    if reported == [] then ps else UpsertAll(Upsert(ps, reported[0]), reported[1..])
  }

  // apimeta.SetStatusCondition: the transition time moves only when the status does.
  function SetCondition(c: Option<Condition>, isTrue: bool, reason: string, message: string,
                        now: Moment): Option<Condition> {
    var since := if c.Some? && c.value.isTrue == isTrue then c.value.since else now.time;
    Some(Condition(isTrue, reason, message, since, now.generation))
  }

  function MessageOr(message: string, fallback: string): string {
    if message != "" then message else fallback
  }

  function Finish(st: Status, r: Report, now: Moment): Status {
    match r.state
    case Succeeded =>
      st.(timings := Close(st.timings, r.timestamp),
          condition := if r.step == PHASE_SUCCEEDED
                       then SetCondition(st.condition, true, "DeploySucceeded",
                                         MessageOr(r.message, "deploy completed successfully"), now)
                       else st.condition)
    case Failed =>
      st.(timings := Close(st.timings, r.timestamp), phase := PHASE_FAILED,
          condition := SetCondition(st.condition, false, "DeployFailed", MessageOr(r.message, "deploy failed"), now))
    case _ => st
  }

  function Apply(st: Status, r: Report, now: Moment): Status {
    var entered := Enter(st.(lastProgressAt := Some(now.time)), r.step, r.timestamp);
    Finish(entered.(partitions := UpsertAll(entered.partitions, r.partitions)), r, now)
  }

  function Fold(st: Status, ds: seq<Delivery>): Status {
    if ds == [] then st else
      var before := Fold(st, ds[..|ds| - 1]);
      Apply(before, ds[|ds| - 1].report, ds[|ds| - 1].now)
  }

  // ----- the run, changed in place -----

  class DeployRun {
    var phase: string
    var timings: seq<Timing>
    var partitions: seq<Partition>
    var condition: Option<Condition>
    var lastProgressAt: Option<int>

    ghost function View(): Status
      reads this
    {
      Status(phase, timings, partitions, condition, lastProgressAt)
    }

    constructor ()
      ensures View() == EMPTY
    {
      phase, timings, partitions, condition, lastProgressAt := "", [], [], None, None;
    }

    /** closeCurrentPhaseTiming */
    method CloseCurrentPhaseTiming(ts: int)
      modifies this`timings
      ensures View() == old(View()).(timings := Close(old(timings), ts))
    {
      var n := |timings|;
      if n == 0 {
        return;
      }
      if timings[n - 1].finishedAt.None? {
        timings := timings[n - 1 := timings[n - 1].(finishedAt := Some(ts))];
      }
    }

    /** enterPhase */
    method EnterPhase(step: string, ts: int)
      modifies this`phase, this`timings
      ensures View() == Enter(old(View()), step, ts)
    {
      if phase == step {
        return;
      }
      CloseCurrentPhaseTiming(ts);
      phase := step;
      timings := timings + [Timing(step, ts, None)];
    }

    /** applyPartitionProgress */
    method ApplyPartitionProgress(reported: seq<Partition>)
      modifies this`partitions
      ensures View() == old(View()).(partitions := UpsertAll(old(partitions), reported))
    {
      for i := 0 to |reported|
        invariant UpsertAll(partitions, reported[i..]) == UpsertAll(old(partitions), reported)
      {
        var k := FindPartition(partitions, reported[i].number);
        if k >= 0 {
          partitions := partitions[k := reported[i]];
        } else {
          partitions := partitions + [reported[i]];
        }
        assert reported[i..][0] == reported[i] && reported[i..][1..] == reported[i + 1..];
      }
    }

    /** setSucceededCondition */
    method SetSucceededCondition(isTrue: bool, reason: string, message: string, now: Moment)
      modifies this`condition
      ensures View() == old(View()).(condition := SetCondition(old(condition), isTrue, reason, message, now))
    {
      if condition.None? {
        condition := Some(Condition(isTrue, reason, message, now.time, now.generation));
        return;
      }
      var c := condition.value;
      if c.isTrue != isTrue {
        c := c.(isTrue := isTrue, since := now.time);
      }
      condition := Some(c.(reason := reason, message := message, observedGeneration := now.generation));
    }

    /** applyProgressToDeployRun */
    method ApplyProgress(r: Report, now: Moment)
      modifies this
      ensures View() == Apply(old(View()), r, now)
    {
      lastProgressAt := Some(now.time);
      EnterPhase(r.step, r.timestamp);
      ApplyPartitionProgress(r.partitions);
      match r.state
      case Succeeded =>
        CloseCurrentPhaseTiming(r.timestamp);
        if r.step == PHASE_SUCCEEDED {
          SetSucceededCondition(true, "DeploySucceeded", MessageOr(r.message, "deploy completed successfully"), now);
        }
      case Failed =>
        CloseCurrentPhaseTiming(r.timestamp);
        phase := PHASE_FAILED;
        SetSucceededCondition(false, "DeployFailed", MessageOr(r.message, "deploy failed"), now);
      case _ =>
    }
  }

  // slices.IndexFunc by partition number.
  method FindPartition(ps: seq<Partition>, n: int) returns (k: int)
    ensures k == if FirstIndex(ps, n) < |ps| then FirstIndex(ps, n) else -1
  {
    for i := 0 to |ps|
      invariant forall j :: 0 <= j < i ==> ps[j].number != n
    {
      if ps[i].number == n {
        return i;
      }
    }
    return -1;
  }

  // ----- partitions: the list summarizes everything reported -----

  // Position of the last entry numbered n, or |ps|.
  function LastIndex(ps: seq<Partition>, n: int): (k: nat)
    ensures k <= |ps| && (k < |ps| ==> ps[k].number == n)
    ensures k == |ps| ==> forall i :: 0 <= i < |ps| ==> ps[i].number != n
    ensures k < |ps| ==> forall i :: k < i < |ps| ==> ps[i].number != n
  {
    if ps == [] then 0
    else if ps[|ps| - 1].number == n then |ps| - 1
    else
      var k := LastIndex(ps[..|ps| - 1], n);
      if k == |ps| - 1 then |ps| else k
  }

  // One entry per reported number, ordered by first report, holding the last report.
  ghost predicate IsSummary(list: seq<Partition>, reported: seq<Partition>) {
    && (forall i :: 0 <= i < |list| ==> HoldsLast(list[i], reported))
    && (forall i, j :: 0 <= i < j < |list| ==>
        FirstIndex(reported, list[i].number) < FirstIndex(reported, list[j].number))
    && (forall k :: 0 <= k < |reported| ==> Lists(list, reported[k].number))
  }

  ghost predicate HoldsLast(p: Partition, reported: seq<Partition>) {
    LastIndex(reported, p.number) < |reported| && p == reported[LastIndex(reported, p.number)]
  }

  ghost predicate Lists(list: seq<Partition>, n: int) {
    exists i :: 0 <= i < |list| && list[i].number == n
  }

  // The positions are determined by what they promise.
  lemma {:induction false} FirstIndexIs(ps: seq<Partition>, n: int, k: nat)
    requires k <= |ps| && (k < |ps| ==> ps[k].number == n) && forall i :: 0 <= i < k ==> ps[i].number != n
    ensures FirstIndex(ps, n) == k
  {
  }

  lemma {:induction false} LastIndexIs(ps: seq<Partition>, n: int, k: nat)
    requires k < |ps| && ps[k].number == n && forall i :: k < i < |ps| ==> ps[i].number != n
    ensures LastIndex(ps, n) == k
  {
  }

  // How the positions of a number change when one more entry is reported.
  lemma {:induction false} FirstIndexAppend(ps: seq<Partition>, p: Partition, n: int)
    ensures FirstIndex(ps + [p], n) ==
            if FirstIndex(ps, n) < |ps| then FirstIndex(ps, n) else if p.number == n then |ps| else |ps| + 1
  {
    var k := FirstIndex(ps, n);
    FirstIndexIs(ps + [p], n, if k < |ps| then k else if p.number == n then |ps| else |ps| + 1);
  }

  lemma {:induction false} LastIndexAppend(ps: seq<Partition>, p: Partition, n: int)
    ensures LastIndex(ps + [p], n) ==
            if p.number == n then |ps| else if LastIndex(ps, n) < |ps| then LastIndex(ps, n) else |ps| + 1
  {
    var all := ps + [p];
    assert all[..|all| - 1] == ps && all[|all| - 1] == p;
  }

  // An entry not touched by the new report still holds its last report.
  lemma StillHoldsLast(q: Partition, reported: seq<Partition>, p: Partition)
    requires HoldsLast(q, reported) && q.number != p.number
    ensures HoldsLast(q, reported + [p])
  {
    LastIndexAppend(reported, p, q.number);
  }

  lemma NewHoldsLast(reported: seq<Partition>, p: Partition)
    ensures HoldsLast(p, reported + [p])
  {
    LastIndexAppend(reported, p, p.number);
  }

  lemma {:induction false} FirstStays(q: Partition, reported: seq<Partition>, p: Partition)
    requires HoldsLast(q, reported)
    ensures FirstIndex(reported + [p], q.number) == FirstIndex(reported, q.number) < |reported|
  {
    FirstIndexAppend(reported, p, q.number);
    assert reported[LastIndex(reported, q.number)].number == q.number;
  }

  lemma UpsertHoldsLast(list: seq<Partition>, reported: seq<Partition>, p: Partition)
    requires IsSummary(list, reported)
    ensures forall i :: 0 <= i < |Upsert(list, p)| ==> HoldsLast(Upsert(list, p)[i], reported + [p])
  {
    NewHoldsLast(reported, p);
    NumbersAreUnique(list, reported);
    var more := Upsert(list, p);
    forall i | 0 <= i < |more|
      ensures HoldsLast(more[i], reported + [p])
    {
      if more[i].number != p.number { StillHoldsLast(list[i], reported, p); }
    }
  }

  lemma {:induction false} UpsertOrdered(list: seq<Partition>, reported: seq<Partition>, p: Partition)
    requires IsSummary(list, reported)
    ensures var more := Upsert(list, p);
            forall i, j :: 0 <= i < j < |more| ==>
              FirstIndex(reported + [p], more[i].number) < FirstIndex(reported + [p], more[j].number)
  {
    var more := Upsert(list, p);
    forall i, j | 0 <= i < j < |more|
      ensures FirstIndex(reported + [p], more[i].number) < FirstIndex(reported + [p], more[j].number)
    {
      assert more[i].number == list[i].number;
      FirstStays(list[i], reported, p);
      if j < |list| {
        assert more[j].number == list[j].number;
        FirstStays(list[j], reported, p);
      } else {
        NewNumberIsLater(list, reported, p);
      }
    }
  }

  lemma {:induction false} NewNumberIsLater(list: seq<Partition>, reported: seq<Partition>, p: Partition)
    requires IsSummary(list, reported) && FirstIndex(list, p.number) == |list|
    ensures FirstIndex(reported + [p], p.number) == |reported|
  {
    FirstIndexAppend(reported, p, p.number);
    var k := FirstIndex(reported, p.number);
    assert k < |reported| ==> Lists(list, reported[k].number);
  }

  lemma UpsertLists(list: seq<Partition>, reported: seq<Partition>, p: Partition)
    requires IsSummary(list, reported)
    ensures forall k :: 0 <= k < |reported + [p]| ==> Lists(Upsert(list, p), (reported + [p])[k].number)
  {
    var more, all := Upsert(list, p), reported + [p];
    assert more[FirstIndex(list, p.number)].number == p.number;
    forall k | 0 <= k < |all|
      ensures Lists(more, all[k].number)
    {
      if k < |reported| {
        assert Lists(list, reported[k].number);
        var i :| 0 <= i < |list| && list[i].number == reported[k].number;
        assert more[i].number == list[i].number;
      }
    }
  }

  lemma UpsertSummarizes(list: seq<Partition>, reported: seq<Partition>, p: Partition)
    requires IsSummary(list, reported)
    ensures IsSummary(Upsert(list, p), reported + [p])
  {
    UpsertHoldsLast(list, reported, p);
    UpsertOrdered(list, reported, p);
    UpsertLists(list, reported, p);
  }

  lemma {:induction false} UpsertAllSummarizes(list: seq<Partition>, reported: seq<Partition>, more: seq<Partition>)
    requires IsSummary(list, reported)
    ensures IsSummary(UpsertAll(list, more), reported + more)
    decreases |more|
  {
    if more == [] {
      assert reported + more == reported;
    } else {
      var p, next := more[0], Upsert(list, more[0]);
      UpsertSummarizes(list, reported, p);
      assert reported + [p] + more[1..] == reported + more;
      UpsertAllSummarizes(next, reported + [p], more[1..]);
    }
  }

  /** A summary names each partition number once. */
  lemma NumbersAreUnique(list: seq<Partition>, reported: seq<Partition>)
    requires IsSummary(list, reported)
    ensures forall i, j :: 0 <= i < j < |list| ==> list[i].number != list[j].number
  {
  }

  ghost function AllReported(ds: seq<Delivery>): seq<Partition> {
    if ds == [] then [] else AllReported(ds[..|ds| - 1]) + ds[|ds| - 1].report.partitions
  }

  /** After any reports the partition list has one entry per reported number, ordered by first report, holding the
      last. */
  lemma {:induction false} PartitionsSummarizeReports(ds: seq<Delivery>)
    ensures IsSummary(Fold(EMPTY, ds).partitions, AllReported(ds))
    decreases |ds|
  {
    if ds != [] {
      var before, d := ds[..|ds| - 1], ds[|ds| - 1];
      PartitionsSummarizeReports(before);
      UpsertAllSummarizes(Fold(EMPTY, before).partitions, AllReported(before), d.report.partitions);
      assert Fold(EMPTY, ds).partitions == UpsertAll(Fold(EMPTY, before).partitions, d.report.partitions);
    }
  }

  // ----- phase timings -----

  // Only the last timing may be open, and the phase is Failed or the last timing's.
  ghost predicate TimingsOk(st: Status) {
    && (forall i :: 0 <= i < |st.timings| - 1 ==> st.timings[i].finishedAt.Some?)
    && (st.phase == PHASE_FAILED
        || if st.timings == [] then st.phase == "" else st.phase == st.timings[|st.timings| - 1].phase)
  }

  // The closed timings of a are timings of b, at the same places.
  ghost predicate ClosedKept(a: seq<Timing>, b: seq<Timing>) {
    |a| <= |b| && forall i :: 0 <= i < |a| ==>
      a[i].phase == b[i].phase && a[i].startedAt == b[i].startedAt && (a[i].finishedAt.Some? ==> a[i] == b[i])
  }

  // Timings follow each other, and none lies after limit.
  ghost predicate InOrder(timings: seq<Timing>, limit: int) {
    && (forall i :: 0 <= i < |timings| ==> timings[i].startedAt <= limit)
    && (forall i :: 0 <= i < |timings| && timings[i].finishedAt.Some? ==>
          timings[i].startedAt <= timings[i].finishedAt.value <= limit)
    && (forall i :: 0 <= i < |timings| - 1 && timings[i].finishedAt.Some? ==>
          timings[i].finishedAt.value <= timings[i + 1].startedAt)
  }

  // The part of Apply that concerns phase and timings.
  function NextTimings(phase: string, timings: seq<Timing>, r: Report): seq<Timing> {
    var entered := if phase == r.step then timings
      else Close(timings, r.timestamp) + [Timing(r.step, r.timestamp, None)];
    if r.state.Succeeded? || r.state.Failed? then Close(entered, r.timestamp) else entered
  }

  lemma ApplyIsNext(st: Status, r: Report, now: Moment)
    ensures Apply(st, r, now).timings == NextTimings(st.phase, st.timings, r)
    ensures Apply(st, r, now).phase == if r.state.Failed? then PHASE_FAILED else r.step
    ensures Apply(st, r, now).partitions == UpsertAll(st.partitions, r.partitions)
  {
  }

  lemma CloseKeeps(timings: seq<Timing>, ts: int)
    requires forall i :: 0 <= i < |timings| - 1 ==> timings[i].finishedAt.Some?
    ensures |Close(timings, ts)| == |timings| && ClosedKept(timings, Close(timings, ts))
    ensures forall i :: 0 <= i < |timings| ==> Close(timings, ts)[i].finishedAt.Some?
    ensures forall limit :: InOrder(timings, limit) && limit <= ts ==> InOrder(Close(timings, ts), ts)
  {
  }

  lemma ApplyTimings(st: Status, r: Report, now: Moment)
    requires TimingsOk(st)
    ensures TimingsOk(Apply(st, r, now)) && ClosedKept(st.timings, Apply(st, r, now).timings)
  {
    ApplyIsNext(st, r, now);
    CloseKeeps(st.timings, r.timestamp);
    if st.phase != r.step {
      CloseKeeps(Close(st.timings, r.timestamp) + [Timing(r.step, r.timestamp, None)], r.timestamp);
    }
  }

  lemma ApplyInOrder(st: Status, r: Report, now: Moment, limit: int)
    requires TimingsOk(st) && InOrder(st.timings, limit) && limit <= r.timestamp
    ensures InOrder(Apply(st, r, now).timings, r.timestamp)
  {
    ApplyIsNext(st, r, now);
    CloseKeeps(st.timings, r.timestamp);
    if st.phase != r.step {
      var entered := Close(st.timings, r.timestamp) + [Timing(r.step, r.timestamp, None)];
      assert InOrder(entered, r.timestamp);
      CloseKeeps(entered, r.timestamp);
    } else {
      assert InOrder(st.timings, r.timestamp);
    }
  }

  /** After any reports only the last timing can be open and the phase is Failed or the last timing's;
      a timing that was closed after the first n reports has never changed since. */
  lemma {:induction false} TimingsGrow(ds: seq<Delivery>, n: nat)
    requires n <= |ds|
    ensures TimingsOk(Fold(EMPTY, ds)) && ClosedKept(Fold(EMPTY, ds[..n]).timings, Fold(EMPTY, ds).timings)
    decreases |ds|
  {
    if n == |ds| {
      assert ds[..n] == ds;
    }
    if ds != [] {
      var before, d := ds[..|ds| - 1], ds[|ds| - 1];
      if n < |ds| {
        assert before[..n] == ds[..n];
        TimingsGrow(before, n);
      } else {
        TimingsGrow(before, |before|);
      }
      ApplyTimings(Fold(EMPTY, before), d.report, d.now);
    }
  }

  ghost predicate ClockOk(ds: seq<Delivery>) {
    forall i, j :: 0 <= i < j < |ds| ==> ds[i].report.timestamp <= ds[j].report.timestamp
  }

  /** With non-decreasing timestamps the timings are ordered too. */
  lemma {:induction false} TimingsInOrder(ds: seq<Delivery>)
    requires ClockOk(ds)
    ensures ds != [] ==> InOrder(Fold(EMPTY, ds).timings, ds[|ds| - 1].report.timestamp)
    decreases |ds|
  {
    if ds != [] {
      var before, d := ds[..|ds| - 1], ds[|ds| - 1];
      TimingsInOrder(before);
      TimingsGrow(before, |before|);
      ApplyInOrder(Fold(EMPTY, before), d.report, d.now,
                   if before == [] then d.report.timestamp else before[|before| - 1].report.timestamp);
    }
  }

  // ----- repeated delivery -----

  // What entry i of work becomes when reported is upserted.
  ghost function Latest(work: seq<Partition>, i: nat, reported: seq<Partition>): Partition
    requires i < |work|
  {
    var n := work[i].number;
    if LastIndex(reported, n) < |reported| then reported[LastIndex(reported, n)] else work[i]
  }

  lemma {:induction false} UpsertInPlace(work: seq<Partition>, p: Partition)
    requires FirstIndex(work, p.number) < |work|
    requires forall i, j :: 0 <= i < j < |work| ==> work[i].number != work[j].number
    ensures |Upsert(work, p)| == |work|
    ensures forall i :: 0 <= i < |work| ==> Upsert(work, p)[i] == if work[i].number == p.number then p else work[i]
  {
  }

  lemma LatestStep(work: seq<Partition>, i: nat, p: Partition, rest: seq<Partition>, next: seq<Partition>)
    requires i < |work| == |next| && next[i] == if work[i].number == p.number then p else work[i]
    ensures Latest(next, i, rest) == Latest(work, i, [p] + rest)
  {
    LastIndexFront(p, rest, work[i].number);
  }

  // Upserting numbers already listed replaces each entry by its last report.
  lemma {:induction false} UpsertAgain(work: seq<Partition>, reported: seq<Partition>)
    requires forall i, j :: 0 <= i < j < |work| ==> work[i].number != work[j].number
    requires forall k :: 0 <= k < |reported| ==> FirstIndex(work, reported[k].number) < |work|
    ensures |UpsertAll(work, reported)| == |work|
    ensures forall i :: 0 <= i < |work| ==> UpsertAll(work, reported)[i] == Latest(work, i, reported)
    decreases |reported|
  {
    if reported != [] {
      var p, rest := reported[0], reported[1..];
      var next := Upsert(work, p);
      UpsertInPlace(work, p);
      assert forall i :: 0 <= i < |work| ==> next[i].number == work[i].number;
      forall k | 0 <= k < |rest|
        ensures FirstIndex(next, rest[k].number) < |next|
      {
        assert rest[k] == reported[k + 1];
        SameNumbersSameIndex(work, next, rest[k].number);
      }
      UpsertAgain(next, rest);
      assert reported == [p] + rest;
      forall i | 0 <= i < |work|
        ensures UpsertAll(work, reported)[i] == Latest(work, i, reported)
      {
        LatestStep(work, i, p, rest, next);
      }
    }
  }

  lemma {:induction false} SameNumbersSameIndex(a: seq<Partition>, b: seq<Partition>, n: int)
    requires |a| == |b| && forall i :: 0 <= i < |a| ==> a[i].number == b[i].number
    ensures FirstIndex(a, n) == FirstIndex(b, n)
  {
    if a != [] { SameNumbersSameIndex(a[1..], b[1..], n); }
  }

  lemma {:induction false} LastIndexFront(p: Partition, rest: seq<Partition>, n: int)
    ensures LastIndex([p] + rest, n) ==
            if LastIndex(rest, n) < |rest| then 1 + LastIndex(rest, n) else if p.number == n then 0 else 1 + |rest|
  {
    var all, k := [p] + rest, LastIndex(rest, n);
    if k < |rest| {
      LastIndexIs(all, n, k + 1);
    } else if p.number == n {
      LastIndexIs(all, n, 0);
    } else {
      assert forall i :: 0 <= i < |all| ==> all[i].number != n;
    }
  }

  // Upserting what was just upserted changes nothing.
  lemma {:induction false} UpsertAllTwice(list: seq<Partition>, reported: seq<Partition>)
    requires forall i, j :: 0 <= i < j < |list| ==> list[i].number != list[j].number
    ensures UpsertAll(UpsertAll(list, reported), reported) == UpsertAll(list, reported)
  {
    UniqueIsSummary(list);
    UpsertAllSummarizes(list, list, reported);
    ReportAgain(UpsertAll(list, reported), list, reported);
  }

  lemma {:induction false} ReportAgain(once: seq<Partition>, earlier: seq<Partition>, reported: seq<Partition>)
    requires IsSummary(once, earlier + reported)
    ensures UpsertAll(once, reported) == once
  {
    NumbersAreUnique(once, earlier + reported);
    ReportedAreListed(once, earlier, reported);
    UpsertAgain(once, reported);
    var again := UpsertAll(once, reported);
    forall i | 0 <= i < |once|
      ensures again[i] == once[i]
    {
      HeldIsReported(once[i], earlier, reported);
    }
  }

  lemma {:induction false} ReportedAreListed(once: seq<Partition>, earlier: seq<Partition>, reported: seq<Partition>)
    requires IsSummary(once, earlier + reported)
    ensures forall k :: 0 <= k < |reported| ==> FirstIndex(once, reported[k].number) < |once|
  {
    var all := earlier + reported;
    forall k | 0 <= k < |reported|
      ensures FirstIndex(once, reported[k].number) < |once|
    {
      assert all[|earlier| + k] == reported[k];
      assert Lists(once, all[|earlier| + k].number);
    }
  }

  lemma {:induction false} HeldIsReported(p: Partition, earlier: seq<Partition>, reported: seq<Partition>)
    requires HoldsLast(p, earlier + reported)
    ensures LastIndex(reported, p.number) < |reported| ==> reported[LastIndex(reported, p.number)] == p
  {
    var l := LastIndex(reported, p.number);
    if l < |reported| {
      LastIndexOfTail(earlier, reported, p.number);
      TailAt(earlier, reported, l);
    }
  }

  lemma TailAt(earlier: seq<Partition>, reported: seq<Partition>, l: nat)
    requires l < |reported|
    ensures (earlier + reported)[|earlier| + l] == reported[l]
  {
  }

  lemma UniqueIsSummary(list: seq<Partition>)
    requires forall i, j :: 0 <= i < j < |list| ==> list[i].number != list[j].number
    ensures IsSummary(list, list)
  {
    forall i | 0 <= i < |list|
      ensures LastIndex(list, list[i].number) == i && FirstIndex(list, list[i].number) == i
    {
    }
  }

  lemma {:induction false} LastIndexOfTail(a: seq<Partition>, b: seq<Partition>, n: int)
    requires LastIndex(b, n) < |b|
    ensures LastIndex(a + b, n) == |a| + LastIndex(b, n)
  {
    LastIndexIs(a + b, n, |a| + LastIndex(b, n));
  }

  // A status as some sequence of reports leaves it.
  ghost predicate IsFolded(st: Status) {
    TimingsOk(st) && forall i, j :: 0 <= i < j < |st.partitions| ==> st.partitions[i].number != st.partitions[j].number
  }

  lemma {:induction false} FoldIsFolded(ds: seq<Delivery>)
    ensures IsFolded(Fold(EMPTY, ds))
  {
    TimingsGrow(ds, |ds|);
    PartitionsSummarizeReports(ds);
    NumbersAreUnique(Fold(EMPTY, ds).partitions, AllReported(ds));
  }

  // The report sets the Succeeded condition.
  predicate Concludes(r: Report) {
    r.state.Failed? || (r.state.Succeeded? && r.step == PHASE_SUCCEEDED)
  }

  // st with the marks of one more receipt: its time, and on a condition set anew the generation then read.
  ghost function Again(st: Status, r: Report, now: Moment): Status {
    st.(lastProgressAt := Some(now.time),
        condition := if Concludes(r) && st.condition.Some?
                     then Some(st.condition.value.(observedGeneration := now.generation)) else st.condition)
  }

  /** Delivering a running or succeeded report twice is delivering it once, apart from lastProgressAt and the
      generation its condition observes. */
  lemma {:induction false} RepeatIsNoOp(ds: seq<Delivery>, r: Report, now: Moment, later: Moment)
    requires r.state.Running? || r.state.Succeeded? || r.state.Unknown?
    ensures var once := Apply(Fold(EMPTY, ds), r, now);
            Apply(once, r, later) == Again(once, r, later)
  {
    var st := Fold(EMPTY, ds);
    FoldIsFolded(ds);
    UpsertAllTwice(st.partitions, r.partitions);
    RepeatOnFolded(st, r, now, later);
  }

  lemma RepeatOnFolded(st: Status, r: Report, now: Moment, later: Moment)
    requires !r.state.Failed?
    requires UpsertAll(UpsertAll(st.partitions, r.partitions), r.partitions) == UpsertAll(st.partitions, r.partitions)
    ensures var once := Apply(st, r, now); Apply(once, r, later) == Again(once, r, later)
  {
    ApplyIsNext(st, r, now);
    var once := Apply(st, r, now);
    assert Close(Close(once.timings, r.timestamp), r.timestamp) == Close(once.timings, r.timestamp);
  }

  /** A repeated failed report keeps phase, partitions and condition; it adds one timing, closed at once, unless its
      step is Failed. */
  lemma {:induction false} RepeatedFailure(ds: seq<Delivery>, r: Report, now: Moment, later: Moment)
    requires r.state.Failed?
    ensures var once := Apply(Fold(EMPTY, ds), r, now);
            var added := if r.step == PHASE_FAILED then [] else [Timing(r.step, r.timestamp, Some(r.timestamp))];
            Apply(once, r, later) == Again(once, r, later).(timings := once.timings + added)
  {
    var st := Fold(EMPTY, ds);
    FoldIsFolded(ds);
    UpsertAllTwice(st.partitions, r.partitions);
    ApplyIsNext(st, r, now);
    var once := Apply(st, r, now);
    assert Close(once.timings, r.timestamp) == once.timings;
    ApplyIsNext(once, r, later);
    FailAgain(once, r, later);
  }

  lemma FailAgain(once: Status, r: Report, later: Moment)
    requires r.state.Failed? && once.phase == PHASE_FAILED && Close(once.timings, r.timestamp) == once.timings
    requires UpsertAll(once.partitions, r.partitions) == once.partitions
    requires once.condition.Some? && !once.condition.value.isTrue
    requires once.condition.value.reason == "DeployFailed"
    requires once.condition.value.message == MessageOr(r.message, "deploy failed")
    ensures var added := if r.step == PHASE_FAILED then [] else [Timing(r.step, r.timestamp, Some(r.timestamp))];
            Apply(once, r, later) == Again(once, r, later).(timings := once.timings + added)
  {
    ApplyIsNext(once, r, later);
    if r.step != PHASE_FAILED {
      var entered := once.timings + [Timing(r.step, r.timestamp, None)];
      assert Close(entered, r.timestamp) == once.timings + [Timing(r.step, r.timestamp, Some(r.timestamp))];
    } else {
      assert once.timings + [] == once.timings;
    }
  }

  // ----- the condition -----

  // Delivery l is the last one that concludes the run.
  ghost predicate IsLastConclusion(ds: seq<Delivery>, l: int) {
    && 0 <= l < |ds| && Concludes(ds[l].report)
    && (forall j :: l < j < |ds| ==> !Concludes(ds[j].report))
  }

  // Delivery f begins the stretch of equal outcomes that lasts to l.
  ghost predicate IsStretch(ds: seq<Delivery>, f: int, l: int) {
    && 0 <= f <= l < |ds| && Concludes(ds[f].report)
    && (forall j :: f <= j <= l && Concludes(ds[j].report) ==> SameOutcome(ds[j].report, ds[l].report))
    && (forall j :: 0 <= j < f && IsLastConclusion(ds[..f], j) ==> !SameOutcome(ds[j].report, ds[l].report))
  }

  ghost predicate SameOutcome(a: Report, b: Report) {
    a.state.Succeeded? <==> b.state.Succeeded?
  }

  // What a concluding report says of the run.
  ghost predicate Tells(c: Condition, d: Delivery) {
    && (c.isTrue <==> d.report.state.Succeeded?)
    && c.reason == (if d.report.state.Succeeded? then "DeploySucceeded" else "DeployFailed")
    && (d.report.message != "" ==> c.message == d.report.message)
    && (d.report.message == "" ==>
          c.message == if d.report.state.Succeeded? then "deploy completed successfully" else "deploy failed")
    && c.observedGeneration == d.now.generation
  }

  ghost predicate NoneConclude(ds: seq<Delivery>) {
    forall j :: 0 <= j < |ds| ==> !Concludes(ds[j].report)
  }

  ghost predicate IsVerdict(c: Condition, ds: seq<Delivery>, f: int, l: int) {
    IsLastConclusion(ds, l) && IsStretch(ds, f, l) && Tells(c, ds[l]) && c.since == ds[f].now.time
  }

  ghost predicate HasVerdict(c: Condition, ds: seq<Delivery>) {
    exists f, l :: IsVerdict(c, ds, f, l)
  }

  // How one report changes the condition.
  lemma ApplyCondition(st: Status, d: Delivery)
    ensures var c := Apply(st, d.report, d.now).condition;
            if !Concludes(d.report) then c == st.condition else
              && c.Some? && Tells(c.value, d)
              && c.value.since == if st.condition.Some? && (st.condition.value.isTrue <==> d.report.state.Succeeded?)
                                  then st.condition.value.since else d.now.time
  {
  }

  lemma PrefixSame(ds: seq<Delivery>, f: nat)
    requires f < |ds|
    ensures ds[..|ds| - 1][..f] == ds[..f]
  {
  }

  lemma QuietKeepsVerdict(c: Condition, ds: seq<Delivery>, f: int, l: int)
    requires ds != [] && IsVerdict(c, ds[..|ds| - 1], f, l) && !Concludes(ds[|ds| - 1].report)
    ensures IsVerdict(c, ds, f, l)
  {
    PrefixSame(ds, f);
  }

  // The same outcome again goes on with the stretch.
  lemma SameGoesOn(ds: seq<Delivery>, f: int, l: int)
    requires ds != [] && IsLastConclusion(ds[..|ds| - 1], l) && IsStretch(ds[..|ds| - 1], f, l)
    requires Concludes(ds[|ds| - 1].report) && SameOutcome(ds[|ds| - 1].report, ds[l].report)
    ensures IsLastConclusion(ds, |ds| - 1) && IsStretch(ds, f, |ds| - 1)
  {
    PrefixSame(ds, f);
    var before := ds[..|ds| - 1];
    forall j | f <= j <= |ds| - 1 && Concludes(ds[j].report)
      ensures SameOutcome(ds[j].report, ds[|ds| - 1].report)
    {
      if j < |ds| - 1 { assert before[j] == ds[j]; }
    }
  }

  // Another outcome, or the first, begins a stretch.
  lemma OtherBegins(ds: seq<Delivery>)
    requires ds != [] && Concludes(ds[|ds| - 1].report)
    requires forall l :: IsLastConclusion(ds[..|ds| - 1], l) ==> !SameOutcome(ds[l].report, ds[|ds| - 1].report)
    ensures IsLastConclusion(ds, |ds| - 1) && IsStretch(ds, |ds| - 1, |ds| - 1)
  {
  }

  lemma LastConclusionUnique(ds: seq<Delivery>, i: int, j: int)
    requires IsLastConclusion(ds, i) && IsLastConclusion(ds, j)
    ensures i == j
  {
  }

  /** After any reports the Succeeded condition is present exactly when some report concluded the run. It tells what the
      last concluding report said, and since when reports have concluded that way without a break. */
  lemma {:induction false} ConditionTellsConclusion(ds: seq<Delivery>)
    ensures Fold(EMPTY, ds).condition.None? <==> NoneConclude(ds)
    ensures Fold(EMPTY, ds).condition.Some? ==> HasVerdict(Fold(EMPTY, ds).condition.value, ds)
    decreases |ds|
  {
    if ds != [] {
      var before, d := ds[..|ds| - 1], ds[|ds| - 1];
      var st := Fold(EMPTY, before);
      ConditionTellsConclusion(before);
      ApplyCondition(st, d);
      if Concludes(d.report) {
        NextVerdict(ds, st);
      } else if st.condition.Some? {
        var f, l :| IsVerdict(st.condition.value, before, f, l);
        QuietKeepsVerdict(st.condition.value, ds, f, l);
      } else {
        assert forall j :: 0 <= j < |before| ==> before[j] == ds[j];
      }
    }
  }

  lemma NextVerdict(ds: seq<Delivery>, st: Status)
    requires ds != [] && Concludes(ds[|ds| - 1].report)
    requires st.condition.None? ==> NoneConclude(ds[..|ds| - 1])
    requires st.condition.Some? ==> HasVerdict(st.condition.value, ds[..|ds| - 1])
    ensures var c := Apply(st, ds[|ds| - 1].report, ds[|ds| - 1].now).condition;
            c.Some? && HasVerdict(c.value, ds)
  {
    var before, d := ds[..|ds| - 1], ds[|ds| - 1];
    var n := |ds| - 1;
    ApplyCondition(st, d);
    var c := Apply(st, d.report, d.now).condition.value;
    if st.condition.Some? {
      var f, l :| IsVerdict(st.condition.value, before, f, l);
      if SameOutcome(d.report, ds[l].report) {
        SameGoesOn(ds, f, l);
        assert IsVerdict(c, ds, f, n);
      } else {
        forall j | IsLastConclusion(before, j)
          ensures !SameOutcome(ds[j].report, d.report)
        {
          LastConclusionUnique(before, j, l);
        }
        OtherBegins(ds);
        assert IsVerdict(c, ds, n, n);
      }
    } else {
      OtherBegins(ds);
      assert IsVerdict(c, ds, n, n);
    }
  }

  /** The last report shows at once: its receipt time, and its step as the phase unless it failed. */
  lemma {:induction false} LastReportShows(ds: seq<Delivery>)
    requires ds != []
    ensures var st, d := Fold(EMPTY, ds), ds[|ds| - 1];
            && st.lastProgressAt == Some(d.now.time)
            && st.phase == if d.report.state.Failed? then "Failed" else d.report.step
  {
    ApplyIsNext(Fold(EMPTY, ds[..|ds| - 1]), ds[|ds| - 1].report, ds[|ds| - 1].now);
  }
}
