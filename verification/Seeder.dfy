// The seeder Deployment's grace-period machine, one instance per Image and Site.
module Seeder {
  import opened Common

  // Times and durations are nanoseconds.
  const SECOND: int := 1_000_000_000

  // An annotation value: an RFC 3339 time without fraction, or text that does not parse.
  datatype Annotation = Stamp(second: int) | Garbage

  datatype Deployment = Deployment(emptySince: Option<Annotation>, unreadySince: Option<Annotation>, available: nat,
                                   terminating: bool)

  const FRESH := Deployment(None, None, 0, false)

  // Format drops the fraction of a second; Parse reads back whole seconds.
  function Format(at: int): Annotation {
    Stamp(at / SECOND)
  }

  // parseSeederEmptySince
  function Parse(a: Option<Annotation>): Option<int> {
    if a.Some? && a.value.Stamp? then Some(a.value.second * SECOND) else None
  }

  lemma FormatTruncates(at: int)
    ensures Parse(Some(Format(at))).Some?
    ensures at - SECOND < Parse(Some(Format(at))).value <= at
  {
  }

  // How the API calls a reconcile may make turn out.
  datatype Calls = Calls(created: bool, foreign: bool, placed: bool, cancelled: bool, marked: bool, stamped: bool,
                         deleted: bool)

  // One reconcile of a Site: when, how many Machines demand the seeder, whether seeding is configured.
  datatype Reconcile = Reconcile(now: int, demand: nat, ready: bool, calls: Calls)

  datatype Result = Requeue(after: int) | Error

  // ----- the site step as a function -----

  datatype Outcome = Outcome(dep: Option<Deployment>, result: Result)

  // shutdownImageSeederDeployment
  function ShutdownStep(dep: Deployment, r: Reconcile, grace: int): Outcome {
    match Parse(dep.emptySince)
    case None =>
      if r.calls.stamped then Outcome(Some(dep.(emptySince := Some(Format(r.now)))), Requeue(grace))
        else Outcome(Some(dep), Error)
    case Some(since) =>
      if grace - (r.now - since) > 0 then Outcome(Some(dep), Requeue(grace - (r.now - since)))
      else if r.calls.deleted then Outcome(Some(dep.(terminating := true)), Requeue(0))
      else Outcome(Some(dep), Error)
  }

  // checkSeederUnready
  function UnreadyStep(dep: Deployment, r: Reconcile): Outcome {
    if dep.available > 0 then
      if dep.unreadySince.None? then Outcome(Some(dep), Requeue(0))
      else if r.calls.marked then Outcome(Some(dep.(unreadySince := None)), Requeue(0)) else Outcome(Some(dep), Error)
    else if dep.unreadySince.Some? then Outcome(Some(dep), Requeue(0))
    else if r.calls.marked then Outcome(Some(dep.(unreadySince := Some(Format(r.now)))), Requeue(0))
      else Outcome(Some(dep), Error)
  }

  // ensureImageSeederPlacement, cancelSeederShutdown, checkSeederUnready
  function DemandStep(dep: Deployment, r: Reconcile): Outcome {
    if !r.calls.placed then Outcome(Some(dep), Error)
    else if dep.emptySince.Some? && !r.calls.cancelled then Outcome(Some(dep), Error)
    else UnreadyStep(dep.(emptySince := None), r)
  }

  // reconcileImageSeederSite
  function SiteStep(dep: Option<Deployment>, r: Reconcile, grace: int): Outcome {
    match dep
    case Some(d) =>
      if d.terminating then Outcome(dep, Requeue(0))
      else if r.demand > 0 then DemandStep(d, r)
      else ShutdownStep(d, r, grace)
    case None =>
      if r.demand == 0 || !r.ready then Outcome(None, Requeue(0))
      else if r.calls.created then Outcome(Some(FRESH), Requeue(0))
      else if r.calls.foreign then Outcome(None, Requeue(0))
      else Outcome(None, Error)
  }

  // ----- the Deployment, changed in place -----

  class SeederDeployment {
    var emptySince: Option<Annotation>
    var unreadySince: Option<Annotation>
    var available: nat
    var terminating: bool

    ghost function View(): Deployment
      reads this
    {
      Deployment(emptySince, unreadySince, available, terminating)
    }

    constructor (d: Deployment)
      ensures View() == d
    {
      emptySince, unreadySince, available, terminating := d.emptySince, d.unreadySince, d.available, d.terminating;
    }

    /** stampSeederEmptySince: a refused patch leaves the stored object alone */
    method StampEmptySince(at: int, accepted: bool) returns (ok: bool)
      modifies this`emptySince
      ensures ok == accepted
      ensures View() == if accepted then old(View()).(emptySince := Some(Format(at))) else old(View())
    {
      ok := accepted;
      if ok {
        emptySince := Some(Format(at));
      }
    }

    /** cancelSeederShutdown */
    method CancelShutdown(accepted: bool) returns (ok: bool)
      modifies this`emptySince
      ensures ok == (old(emptySince).None? || accepted)
      ensures View() == if ok then old(View()).(emptySince := None) else old(View())
    {
      if emptySince.None? {
        return true;
      }
      ok := accepted;
      if ok {
        emptySince := None;
      }
    }

    /** checkSeederUnready */
    method CheckUnready(now: int, accepted: bool) returns (result: Result)
      modifies this`unreadySince
      ensures forall r: Reconcile :: r.now == now && r.calls.marked == accepted ==>
              UnreadyStep(old(View()), r) == Outcome(Some(View()), result)
    {
      if available > 0 {
        if unreadySince.Some? {
          if !accepted {
            return Error;
          }
          unreadySince := None;
        }
        return Requeue(0);
      }
      if unreadySince.None? {
        if !accepted {
          return Error;
        }
        unreadySince := Some(Format(now));
      }
      return Requeue(0);
    }

    /** shutdownImageSeederDeployment */
    method Shutdown(r: Reconcile, grace: int) returns (result: Result)
      modifies this`emptySince, this`terminating
      ensures ShutdownStep(old(View()), r, grace) == Outcome(Some(View()), result)
    {
      var since := Parse(emptySince);
      if since.None? {
        var ok := StampEmptySince(r.now, r.calls.stamped);
        if !ok {
          return Error;
        }
        return Requeue(grace);
      }
      var remaining := grace - (r.now - since.value);
      if remaining > 0 {
        return Requeue(remaining);
      }
      if !r.calls.deleted {
        return Error;
      }
      terminating := true;
      return Requeue(0);
    }

    /** The cases of reconcileImageSeederSite for a Deployment that exists. */
    method ReconcileExisting(r: Reconcile, grace: int) returns (result: Result)
      modifies this
      ensures SiteStep(Some(old(View())), r, grace) == Outcome(Some(View()), result)
    {
      if terminating {
        return Requeue(0);
      }
      if r.demand > 0 {
        if !r.calls.placed {
          return Error;
        }
        var ok := CancelShutdown(r.calls.cancelled);
        if !ok {
          return Error;
        }
        result := CheckUnready(r.now, r.calls.marked);
        return;
      }
      result := Shutdown(r, grace);
    }
  }

  // ----- merging the sites' results -----

  // minRequeue
  function MinRequeue(a: int, b: int): int {
    if a == 0 then b else if b == 0 then a else if a < b then a else b
  }

  // The smallest positive delay asked for, or zero.
  ghost predicate IsEarliest(merged: int, results: seq<Result>) {
    && (merged != 0 ==> merged > 0 && Requeue(merged) in results)
    && (forall i :: 0 <= i < |results| && results[i].Requeue? && results[i].after > 0 ==>
        0 < merged <= results[i].after)
  }

  // What reconcileImageSeeder returns: a failing Site or a failing condition update drops every delay.
  ghost predicate IsMerge(merged: Result, results: seq<Result>, recorded: bool) {
    && (merged.Error? <==> Error in results || !recorded)
    && (merged.Requeue? ==> IsEarliest(merged.after, results))
  }

  /** The loop of reconcileImageSeeder, over its Sites in any order; recorded says whether the condition update
      succeeds. */
  method MergeResults(results: seq<Result>, recorded: bool) returns (merged: Result)
    requires forall i :: 0 <= i < |results| && results[i].Requeue? ==> results[i].after >= 0
    ensures IsMerge(merged, results, recorded)
  {
    var after := 0;
    var failed := false;
    for i := 0 to |results|
      invariant failed <==> Error in results[..i]
      invariant after >= 0 && IsEarliest(after, results[..i])
    {
      assert results[..i + 1] == results[..i] + [results[i]];
      if results[i].Error? {
        failed := true;
        continue;
      }
      after := MinRequeue(after, results[i].after);
    }
    assert results[..|results|] == results;
    if failed {
      return Error;
    }
    merged := if recorded then Requeue(after) else Error;
  }

  /** The merged delay does not depend on the order the Sites are visited in. */
  lemma EarliestIsUnique(m1: int, m2: int, results1: seq<Result>, results2: seq<Result>)
    requires forall r :: r in results1 <==> r in results2
    requires IsEarliest(m1, results1) && IsEarliest(m2, results2)
    ensures m1 == m2
  {
    if m1 != 0 { assert Requeue(m1) in results2; }
    if m2 != 0 { assert Requeue(m2) in results1; }
  }

  // ----- runs of one Site -----

  // A reconcile, or something else happening to the Deployment: the garbage collector or
  // somebody removes it, its replicas come and go, its annotation is damaged.
  datatype Event = Reconciled(r: Reconcile) | Removed | Scaled(available: nat) | Damaged

  function After(dep: Option<Deployment>, e: Event, grace: int): Option<Deployment> {
    match e
    case Reconciled(r) => SiteStep(dep, r, grace).dep
    case Removed => None
    case Scaled(n) => if dep.Some? then Some(dep.value.(available := n)) else dep
    case Damaged => if dep.Some? then Some(dep.value.(emptySince := Some(Garbage))) else dep
  }

  // The Site's Deployment after the first n events.
  function At(events: seq<Event>, n: nat, grace: int): Option<Deployment>
    requires n <= |events|
  {
    if n == 0 then None else After(At(events, n - 1, grace), events[n - 1], grace)
  }

  // Event i stamps the Deployment empty.
  ghost predicate Stamps(events: seq<Event>, i: nat, grace: int)
    requires i < |events|
  {
    && events[i].Reconciled? && events[i].r.demand == 0 && events[i].r.calls.stamped
    && At(events, i, grace).Some? && !At(events, i, grace).value.terminating
    && Parse(At(events, i, grace).value.emptySince).None?
  }

  // Event i is a reconcile that saw demand and completed.
  ghost predicate SawDemand(events: seq<Event>, i: nat, grace: int)
    requires i < |events|
  {
    events[i].Reconciled? && events[i].r.demand > 0
      && SiteStep(At(events, i, grace), events[i].r, grace).result.Requeue?
  }

  // Event i is a reconcile that asks for the Deployment's deletion.
  ghost predicate AsksDelete(events: seq<Event>, i: nat, grace: int)
    requires i < |events|
  {
    && events[i].Reconciled? && events[i].r.demand == 0
    && At(events, i, grace).Some? && !At(events, i, grace).value.terminating
    && var since := Parse(At(events, i, grace).value.emptySince);
       since.Some? && grace - (events[i].r.now - since.value) <= 0
  }

  // Event i stamped what the Deployment shows now, and no completed reconcile saw demand since.
  ghost predicate Countdown(events: seq<Event>, n: nat, i: nat, grace: int)
    requires n <= |events|
  {
    && i < n && Stamps(events, i, grace)
    && At(events, n, grace).Some? && At(events, n, grace).value.emptySince == Some(Format(events[i].r.now))
    && (forall k :: i < k < n ==> !SawDemand(events, k, grace))
  }

  // A readable stamp was written by some reconcile of this run.
  lemma {:induction false} StampHasOrigin(events: seq<Event>, n: nat, grace: int) returns (i: nat)
    requires n <= |events| && At(events, n, grace).Some? && !At(events, n, grace).value.terminating
    requires Parse(At(events, n, grace).value.emptySince).Some?
    ensures Countdown(events, n, i, grace)
  {
    var before := At(events, n - 1, grace);
    var e := events[n - 1];
    if Stamps(events, n - 1, grace) {
      i := n - 1;
    } else {
      StampCarriedOver(before, e, grace);
      i := StampHasOrigin(events, n - 1, grace);
      assert !SawDemand(events, n - 1, grace);
    }
  }

  // A step that shows a readable stamp without writing one found it there, and did not complete on demand.
  lemma StampCarriedOver(before: Option<Deployment>, e: Event, grace: int)
    requires After(before, e, grace).Some? && !After(before, e, grace).value.terminating
    requires Parse(After(before, e, grace).value.emptySince).Some?
    requires !(e.Reconciled? && e.r.demand == 0 && e.r.calls.stamped && before.Some? && !before.value.terminating
               && Parse(before.value.emptySince).None?)
    ensures before.Some? && !before.value.terminating
    ensures before.value.emptySince == After(before, e, grace).value.emptySince
    ensures e.Reconciled? && e.r.demand > 0 ==> SiteStep(before, e.r, grace).result.Error?
  {
  }

  // Event j starts the Deployment's deletion.
  ghost predicate Deletes(events: seq<Event>, j: nat, grace: int)
    requires j < |events|
  {
    && At(events, j, grace).Some? && !At(events, j, grace).value.terminating
    && At(events, j + 1, grace).Some? && At(events, j + 1, grace).value.terminating
  }

  /** A Deployment's deletion starts only in a reconcile without demand, if an earlier one stamped it empty, no
      completed reconcile since saw demand, and more than the grace period less one second has passed since. */
  lemma DeletedOnlyAfterGrace(events: seq<Event>, j: nat, grace: int) returns (i: nat)
    requires j < |events| && Deletes(events, j, grace)
    ensures events[j].Reconciled? && events[j].r.demand == 0
    ensures i < j && Stamps(events, i, grace)
    ensures forall k :: i < k < j ==> !SawDemand(events, k, grace)
    ensures events[j].r.now - events[i].r.now > grace - SECOND
  {
    i := AskedOnlyAfterGrace(events, j, grace);
  }

  // The same of asking for it, whether or not the call succeeds.
  lemma AskedOnlyAfterGrace(events: seq<Event>, j: nat, grace: int) returns (i: nat)
    requires j < |events| && AsksDelete(events, j, grace)
    ensures i < j && Stamps(events, i, grace)
    ensures forall k :: i < k < j ==> !SawDemand(events, k, grace)
    ensures events[j].r.now - events[i].r.now > grace - SECOND
  {
    i := StampHasOrigin(events, j, grace);
    FormatTruncates(events[i].r.now);
  }

  /** What a reconcile with demand does to a live Deployment: it fails exactly when a call it needs does, and when it
      completes no countdown is left and the Deployment is marked unready exactly when no replica is available. */
  lemma DemandOutcome(d: Deployment, r: Reconcile, grace: int)
    requires !d.terminating && r.demand > 0
    ensures var o := SiteStep(Some(d), r, grace);
            && (o.result.Error? <==>
                  || !r.calls.placed
                  || (d.emptySince.Some? && !r.calls.cancelled)
                  || ((d.unreadySince.Some? <==> d.available > 0) && !r.calls.marked))
            && (o.result.Requeue? ==>
                  && o.result.after == 0 && o.dep.Some? && !o.dep.value.terminating
                  && o.dep.value.available == d.available
                  && o.dep.value.emptySince.None? && (o.dep.value.unreadySince.Some? <==> d.available == 0)
                  && (d.unreadySince.Some? && d.available == 0 ==> o.dep.value.unreadySince == d.unreadySince)
                  && (d.unreadySince.None? && d.available == 0 ==> o.dep.value.unreadySince == Some(Format(r.now))))
  {
  }

  /** A Deployment appears exactly in a reconcile that sees demand where there is none, with seeding configured and the
      create call succeeding; it appears without marks. */
  lemma CreatedOnDemand(events: seq<Event>, j: nat, grace: int)
    requires j < |events| && At(events, j, grace).None?
    ensures At(events, j + 1, grace).Some? <==>
            events[j].Reconciled? && events[j].r.demand > 0 && events[j].r.ready && events[j].r.calls.created
    ensures At(events, j + 1, grace).Some? ==>
            var d := At(events, j + 1, grace).value;
            d.emptySince.None? && d.unreadySince.None? && !d.terminating
  {
  }

  /** No Site asks for a negative delay, as merging expects. */
  lemma DelaysAreNatural(dep: Option<Deployment>, r: Reconcile, grace: int)
    requires grace > 0 && SiteStep(dep, r, grace).result.Requeue?
    ensures SiteStep(dep, r, grace).result.after >= 0
  {
  }

  // From event i on, up to event n, the Site sees no demand and nobody else touches the Deployment.
  ghost predicate LeftAlone(events: seq<Event>, i: nat, n: nat) {
    i <= n <= |events| && forall k :: i < k < n ==>
      (events[k].Reconciled? && events[k].r.demand == 0) || events[k].Scaled?
  }

  // While nobody asks for deletion, the stamp of event i stays.
  lemma {:induction false} StampStays(events: seq<Event>, i: nat, n: nat, grace: int)
    requires i < n && LeftAlone(events, i, n) && Stamps(events, i, grace)
    requires forall k :: i < k < n ==> !AsksDelete(events, k, grace)
    ensures At(events, n, grace).Some? && !At(events, n, grace).value.terminating
    ensures At(events, n, grace).value.emptySince == Some(Format(events[i].r.now))
    decreases n
  {
    if n > i + 1 {
      StampStays(events, i, n - 1, grace);
      assert !AsksDelete(events, n - 1, grace);
    }
  }

  // A Deployment being deleted stays so until it is gone.
  lemma {:induction false} TerminatingStays(events: seq<Event>, k: nat, n: nat, grace: int)
    requires k <= n <= |events| && At(events, k, grace).Some? && At(events, k, grace).value.terminating
    requires forall e :: k <= e < n ==> !events[e].Removed?
    ensures At(events, n, grace).Some? && At(events, n, grace).value.terminating
    decreases n
  {
    if k < n { TerminatingStays(events, k, n - 1, grace); }
  }

  /** With demand still absent and nobody interfering, a reconcile at or after stamp plus grace whose delete call
      succeeds leaves the Deployment being deleted, and so does every later event until it is gone. */
  lemma {:induction false} DeletedByDeadline(events: seq<Event>, i: nat, j: nat, n: nat, grace: int)
    requires i < j < n <= |events| && Stamps(events, i, grace) && LeftAlone(events, i, j + 1)
    requires events[j].Reconciled? && events[j].r.now >= events[i].r.now + grace && events[j].r.calls.deleted
    requires forall e :: j < e < n ==> !events[e].Removed?
    ensures At(events, n, grace).Some? && At(events, n, grace).value.terminating
  {
    if k :| i < k < j && Deletes(events, k, grace) {
      TerminatingStays(events, k + 1, j, grace);
    } else {
      StampStaysUndeleted(events, i, j, grace);
      FormatTruncates(events[i].r.now);
    }
    TerminatingStays(events, j + 1, n, grace);
  }

  // While no deletion has started, the stamp of event i stays.
  lemma {:induction false} StampStaysUndeleted(events: seq<Event>, i: nat, n: nat, grace: int)
    requires i < n && LeftAlone(events, i, n) && Stamps(events, i, grace)
    requires forall k :: i < k < n ==> !Deletes(events, k, grace)
    ensures At(events, n, grace).Some? && !At(events, n, grace).value.terminating
    ensures At(events, n, grace).value.emptySince == Some(Format(events[i].r.now))
    decreases n
  {
    if n > i + 1 {
      StampStaysUndeleted(events, i, n - 1, grace);
      assert !Deletes(events, n - 1, grace);
    }
  }

  /** Asked for, it has been by the first such reconcile, whether or not the call succeeds. */
  lemma AskedByDeadline(events: seq<Event>, i: nat, j: nat, grace: int)
    requires i < j < |events| && Stamps(events, i, grace) && LeftAlone(events, i, j + 1)
    requires events[j].Reconciled? && events[j].r.now >= events[i].r.now + grace
    ensures exists k :: i < k <= j && AsksDelete(events, k, grace)
  {
    if forall k :: i < k < j ==> !AsksDelete(events, k, grace) {
      StampStays(events, i, j, grace);
      FormatTruncates(events[i].r.now);
      assert AsksDelete(events, j, grace);
    }
  }

  // Event n is a reconcile that leaves a countdown running, with this result for its Site.
  ghost predicate Waits(events: seq<Event>, n: nat, grace: int, result: Result)
    requires n < |events|
  {
    && events[n].Reconciled? && events[n].r.demand == 0
    && At(events, n, grace).Some? && !At(events, n, grace).value.terminating
    && SiteStep(At(events, n, grace), events[n].r, grace).result == result && result.Requeue? && result.after != 0
  }

  /** The Site itself asks to be called back when its countdown is over, less at most the second its stamp drops.
      Merged with whatever the other Sites ask for, the requeue comes no later than stamp plus grace if and only if
      no Site fails and the condition is recorded; otherwise the delay is dropped and the reconcile returns an error. */
  lemma RequeueMeetsDeadline(events: seq<Event>, n: nat, grace: int, result: Result, results: seq<Result>,
                             recorded: bool, merged: Result) returns (i: nat)
    requires grace > 0
    requires n < |events| && Waits(events, n, grace, result)
    requires result in results && IsMerge(merged, results, recorded)
    ensures i <= n && Stamps(events, i, grace) && (i == n || Countdown(events, n, i, grace))
    ensures events[i].r.now + grace - SECOND < events[n].r.now + result.after <= events[i].r.now + grace
    ensures merged.Requeue? && 0 < merged.after && events[n].r.now + merged.after <= events[i].r.now + grace
            <==> Error !in results && recorded
  {
    var dep := At(events, n, grace).value;
    if Parse(dep.emptySince).None? {
      i := n;
    } else {
      i := StampHasOrigin(events, n, grace);
      FormatTruncates(events[i].r.now);
    }
  }
}
