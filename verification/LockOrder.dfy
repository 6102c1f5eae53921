// The mutexes of bootd's Machine informer, Subnet pushers, hostsfile loop and
// child supervision, taken and released step by step by any number of threads.
module LockOrder {
  // MACCache.mu, Dnsmasq.mu, Dnsmasq.readMu, SubnetDHCPCache.mu
  datatype Lock = CacheMu | SupervisorMu | ReadMu | SubnetMu

  datatype Op = Acquire(lock: Lock) | Release(lock: Lock) | Work

  // What a thread has still to do, and the locks it holds.
  datatype Thread = Thread(rest: seq<Op>, held: set<Lock>)

  type State = seq<Thread>

  // ----- the programs -----

  function Section(lock: Lock): seq<Op> {
    [Acquire(lock), Work, Release(lock)]
  }

  // onAdd, onUpdate, onDelete and Start: the sink is called with MACCache.mu held.
  function CacheEvent(): seq<Op> {
    [Acquire(CacheMu), Work] + Section(SupervisorMu) + [Work, Release(CacheMu)]
  }

  // The SubnetMember queries of SetReservations, one per candidate MAC.
  function MemberQueries(n: nat): seq<Op> {
    if n == 0 then [] else Section(CacheMu) + MemberQueries(n - 1)
  }

  // SubnetDHCPCache.push with n queries; the second section queues the releases found.
  function Push(n: nat, queues: bool): seq<Op> {
    Section(SubnetMu) + Section(SupervisorMu) + MemberQueries(n) + (if queues then Section(SupervisorMu) else []) +
      [Work]
  }

  // One tick of the hostsfile loop, checking the read counter waits times, with or without OnApplied.
  function Tick(waits: nat, reports: bool): seq<Op> {
    Section(SupervisorMu) + [Work] + Waits(waits) + (if reports then Section(SubnetMu) else [])
  }

  function Waits(n: nat): seq<Op> {
    if n == 0 then [] else Section(ReadMu) + Waits(n - 1)
  }

  // Recording the child, and noting a read. A Machine handler before sync takes MACCache.mu alone; Start's first
  // rendering, its startup filter and a child's exit are single sections of Dnsmasq.mu.
  function ChildStep(): seq<Op> {
    Section(SupervisorMu) + Section(ReadMu)
  }

  ghost predicate IsProgram(p: seq<Op>) {
    || p == CacheEvent()
    || (exists n, queues :: p == Push(n, queues))
    || (exists n, reports :: p == Tick(n, reports))
    || p == ChildStep()
    || p == Section(CacheMu)
    || p == Section(SupervisorMu)
  }

  // ----- what the programs take -----

  // The locks a program takes, in order.
  function Taken(p: seq<Op>): seq<Lock> {
    if p == [] then []
    else (if p[0].Acquire? then [p[0].lock] else []) + Taken(p[1..])
  }

  function Repeated(lock: Lock, n: nat): seq<Lock> {
    if n == 0 then [] else [lock] + Repeated(lock, n - 1)
  }

  lemma {:induction false} TakenAppend(p: seq<Op>, q: seq<Op>)
    ensures Taken(p + q) == Taken(p) + Taken(q)
    decreases |p|
  {
    if p == [] {
      assert p + q == q;
    } else {
      var head := if p[0].Acquire? then [p[0].lock] else [];
      assert (p + q)[0] == p[0] && (p + q)[1..] == p[1..] + q;
      TakenAppend(p[1..], q);
      JoinedLocks(head, Taken(p[1..]), Taken(q));
    }
  }

  lemma JoinedLocks(a: seq<Lock>, b: seq<Lock>, c: seq<Lock>)
    ensures a + (b + c) == (a + b) + c
  {
  }

  lemma SectionTakes(lock: Lock)
    ensures Taken(Section(lock)) == [lock]
  {
    var p := Section(lock);
    assert p[1..] == [Work, Release(lock)] && p[1..][1..] == [Release(lock)] && p[1..][1..][1..] == [];
    assert Taken([]) == [] && Taken([Release(lock)]) == [] && Taken([Work, Release(lock)]) == [];
  }

  lemma {:induction false} QueriesTake(n: nat)
    ensures Taken(MemberQueries(n)) == Repeated(CacheMu, n)
  {
    if n > 0 {
      QueriesTake(n - 1);
      SectionTakes(CacheMu);
      TakenAppend(Section(CacheMu), MemberQueries(n - 1));
    }
  }

  lemma {:induction false} WaitsTake(n: nat)
    ensures Taken(Waits(n)) == Repeated(ReadMu, n)
  {
    if n > 0 {
      WaitsTake(n - 1);
      SectionTakes(ReadMu);
      TakenAppend(Section(ReadMu), Waits(n - 1));
    }
  }

  lemma WorkTakesNothing()
    ensures Taken([Work]) == []
  {
    assert [Work][1..] == [];
  }

  /** A push takes the Subnet's mutex, then the supervisor's, then the cache's once per query, and the supervisor's
      again if it found something. */
  lemma {:induction false} PushTakes(n: nat, queues: bool)
    ensures Taken(Push(n, queues)) ==
            [SubnetMu, SupervisorMu] + Repeated(CacheMu, n) + (if queues then [SupervisorMu] else [])
  {
    var last := if queues then Section(SupervisorMu) else [];
    SectionTakes(SubnetMu);
    SectionTakes(SupervisorMu);
    QueriesTake(n);
    WorkTakesNothing();
    TakenAppend(Section(SubnetMu), Section(SupervisorMu));
    TakenAppend(Section(SubnetMu) + Section(SupervisorMu), MemberQueries(n));
    TakenAppend(Section(SubnetMu) + Section(SupervisorMu) + MemberQueries(n), last);
    TakenAppend(Section(SubnetMu) + Section(SupervisorMu) + MemberQueries(n) + last, [Work]);
  }

  /** A tick takes the supervisor's mutex, the read counter's once per look, and the Subnet's if it reports. */
  lemma {:induction false} TickTakes(n: nat, reports: bool)
    ensures Taken(Tick(n, reports)) == [SupervisorMu] + Repeated(ReadMu, n) + (if reports then [SubnetMu] else [])
  {
    var last := if reports then Section(SubnetMu) else [];
    SectionTakes(SupervisorMu);
    SectionTakes(SubnetMu);
    WaitsTake(n);
    WorkTakesNothing();
    TakenAppend(Section(SupervisorMu), [Work]);
    TakenAppend(Section(SupervisorMu) + [Work], Waits(n));
    TakenAppend(Section(SupervisorMu) + [Work] + Waits(n), last);
  }

  /** A cache update takes the supervisor's mutex inside its own: the one nesting there is. */
  lemma CacheEventTakes()
    ensures Taken(CacheEvent()) == [CacheMu, SupervisorMu]
    ensures exists i, j :: 0 < i < j < |CacheEvent()| && CacheEvent()[0] == Acquire(CacheMu)
                           && CacheEvent()[i] == Acquire(SupervisorMu) && CacheEvent()[j] == Release(CacheMu)
  {
    var head, tail := [Acquire(CacheMu), Work], [Work, Release(CacheMu)];
    SectionTakes(SupervisorMu);
    assert head[1..] == [Work] && tail[1..] == [Release(CacheMu)] && tail[1..][1..] == [];
    WorkTakesNothing();
    assert Taken([]) == [] && Taken(tail[1..]) == [];
    TakenAppend(head, Section(SupervisorMu));
    TakenAppend(head + Section(SupervisorMu), tail);
    assert CacheEvent()[2] == Acquire(SupervisorMu) && CacheEvent()[6] == Release(CacheMu);
  }

  // ----- steps -----

  ghost predicate IsFree(s: State, lock: Lock) {
    forall j :: 0 <= j < |s| ==> lock !in s[j].held
  }

  ghost predicate CanStep(s: State, i: nat) {
    i < |s| && s[i].rest != [] && (s[i].rest[0].Acquire? ==> IsFree(s, s[i].rest[0].lock))
  }

  ghost function Step(s: State, i: nat): State
    requires CanStep(s, i)
  {
    var t := s[i];
    s[i := Thread(t.rest[1..],
                  match t.rest[0]
                  case Acquire(l) => t.held + {l}
                  case Release(l) => t.held - {l}
                  case Work => t.held)]
  }

  ghost predicate IsRun(s: State, run: seq<nat>)
    decreases |run|
  {
    run == [] || (CanStep(s, run[0]) && IsRun(Step(s, run[0]), run[1..]))
  }

  ghost function End(s: State, run: seq<nat>): State
    requires IsRun(s, run)
    decreases |run|
  {
    if run == [] then s else End(Step(s, run[0]), run[1..])
  }

  ghost predicate IsStart(s: State) {
    forall i :: 0 <= i < |s| ==> s[i].held == {} && IsProgram(s[i].rest)
  }

  ghost predicate Finished(s: State) {
    forall i :: 0 <= i < |s| ==> s[i].rest == []
  }

  // ----- lock order -----

  // Only MACCache.mu may be held while taking another lock.
  function Rank(lock: Lock): nat {
    if lock == CacheMu then 1 else 0
  }

  // From here on the thread releases what it holds, ends holding nothing, and
  // takes a lock only of lower rank than all it holds.
  ghost predicate Disciplined(rest: seq<Op>, held: set<Lock>) {
    if rest == [] then held == {} else
      match rest[0]
      case Acquire(l) => l !in held && (forall h :: h in held ==> Rank(l) < Rank(h))
        && Disciplined(rest[1..], held + {l})
      case Release(l) => l in held && Disciplined(rest[1..], held - {l})
      case Work => Disciplined(rest[1..], held)
  }

  ghost predicate Inv(s: State) {
    && (forall i :: 0 <= i < |s| ==> Disciplined(s[i].rest, s[i].held))
    && (forall i, j :: 0 <= i < |s| && 0 <= j < |s| && i != j ==> s[i].held !! s[j].held)
  }

  lemma {:induction false} SectionDisciplined(lock: Lock, more: seq<Op>, held: set<Lock>)
    requires lock !in held && (forall h :: h in held ==> Rank(lock) < Rank(h)) && Disciplined(more, held)
    ensures Disciplined(Section(lock) + more, held)
  {
    var p := Section(lock) + more;
    assert p[1..][1..][1..] == more && p[0] == Acquire(lock) && p[1..][0] == Work && p[1..][1..][0] == Release(lock);
    assert held + {lock} - {lock} == held;
    assert Disciplined(p[1..][1..], held + {lock});
    assert Disciplined(p[1..], held + {lock});
  }

  lemma {:induction false} WorkDisciplined(more: seq<Op>, held: set<Lock>)
    requires Disciplined(more, held)
    ensures Disciplined([Work] + more, held)
  {
    assert ([Work] + more)[1..] == more;
  }

  lemma {:induction false} QueriesDisciplined(n: nat, more: seq<Op>)
    requires Disciplined(more, {})
    ensures Disciplined(MemberQueries(n) + more, {})
  {
    if n == 0 {
      assert MemberQueries(0) + more == more;
    } else {
      QueriesDisciplined(n - 1, more);
      SectionDisciplined(CacheMu, MemberQueries(n - 1) + more, {});
      assert MemberQueries(n) + more == Section(CacheMu) + (MemberQueries(n - 1) + more);
    }
  }

  lemma {:induction false} WaitsDisciplined(n: nat, more: seq<Op>)
    requires Disciplined(more, {})
    ensures Disciplined(Waits(n) + more, {})
  {
    if n == 0 {
      assert Waits(0) + more == more;
    } else {
      WaitsDisciplined(n - 1, more);
      SectionDisciplined(ReadMu, Waits(n - 1) + more, {});
      assert Waits(n) + more == Section(ReadMu) + (Waits(n - 1) + more);
    }
  }

  lemma CacheEventDisciplined()
    ensures Disciplined(CacheEvent(), {})
  {
    var tail := [Work, Release(CacheMu)];
    assert tail[1..] == [Release(CacheMu)] && tail[1..][1..] == [];
    assert {CacheMu} - {CacheMu} == {};
    assert Disciplined(tail[1..], {CacheMu});
    SectionDisciplined(SupervisorMu, tail, {CacheMu});
    WorkDisciplined(Section(SupervisorMu) + tail, {CacheMu});
    var p := CacheEvent();
    assert p[1..] == [Work] + (Section(SupervisorMu) + tail) && p[0] == Acquire(CacheMu);
    assert {} + {CacheMu} == {CacheMu};
  }

  lemma PushDisciplined(n: nat, queues: bool)
    ensures Disciplined(Push(n, queues), {})
  {
    WorkDisciplined([], {});
    var last := if queues then Section(SupervisorMu) + ([Work] + []) else [Work] + [];
    if queues { SectionDisciplined(SupervisorMu, [Work] + [], {}); }
    QueriesDisciplined(n, last);
    SectionDisciplined(SupervisorMu, MemberQueries(n) + last, {});
    SectionDisciplined(SubnetMu, Section(SupervisorMu) + (MemberQueries(n) + last), {});
    assert Push(n, queues) == Section(SubnetMu) + (Section(SupervisorMu) + (MemberQueries(n) + last));
  }

  lemma TickDisciplined(n: nat, reports: bool)
    ensures Disciplined(Tick(n, reports), {})
  {
    var last: seq<Op> := if reports then Section(SubnetMu) + [] else [];
    if reports { SectionDisciplined(SubnetMu, [], {}); }
    WaitsDisciplined(n, last);
    WorkDisciplined(Waits(n) + last, {});
    SectionDisciplined(SupervisorMu, [Work] + (Waits(n) + last), {});
    assert Tick(n, reports) == Section(SupervisorMu) + ([Work] + (Waits(n) + last));
  }

  lemma {:induction false} ProgramDisciplined(p: seq<Op>)
    requires IsProgram(p)
    ensures Disciplined(p, {})
  {
    if p == CacheEvent() {
      CacheEventDisciplined();
    } else if n, queues :| p == Push(n, queues) {
      PushDisciplined(n, queues);
    } else if n, reports :| p == Tick(n, reports) {
      TickDisciplined(n, reports);
    } else if p == ChildStep() {
      SectionDisciplined(ReadMu, [], {});
      SectionDisciplined(SupervisorMu, Section(ReadMu) + [], {});
      assert p == Section(SupervisorMu) + (Section(ReadMu) + []);
    } else {
      var lock := if p == Section(CacheMu) then CacheMu else SupervisorMu;
      SectionDisciplined(lock, [], {});
      assert p == Section(lock) + [];
    }
  }

  lemma StepKeeps(s: State, i: nat)
    requires Inv(s) && CanStep(s, i)
    ensures Inv(Step(s, i))
  {
    var t := Step(s, i);
    forall j, k | 0 <= j < |t| && 0 <= k < |t| && j != k
      ensures t[j].held !! t[k].held
    {
      assert s[j].held !! s[k].held;
    }
  }

  lemma {:induction false} RunKeeps(s: State, run: seq<nat>)
    requires Inv(s) && IsRun(s, run)
    ensures Inv(End(s, run)) && |End(s, run)| == |s|
    decreases |run|
  {
    if run != [] {
      StepKeeps(s, run[0]);
      RunKeeps(Step(s, run[0]), run[1..]);
    }
  }

  lemma StartInv(s: State)
    requires IsStart(s)
    ensures Inv(s)
  {
    forall i | 0 <= i < |s|
      ensures Disciplined(s[i].rest, s[i].held)
    {
      ProgramDisciplined(s[i].rest);
    }
  }

  // The thread that holds a lock is not finished.
  lemma HolderUnfinished(s: State, lock: Lock) returns (j: nat)
    requires Inv(s) && !IsFree(s, lock)
    ensures j < |s| && lock in s[j].held && s[j].rest != []
  {
    j :| 0 <= j < |s| && lock in s[j].held;
  }

  // Whoever holds a lock of lowest rank is not waiting.
  lemma LowHolderSteps(s: State, lock: Lock) returns (j: nat)
    requires Inv(s) && !IsFree(s, lock) && Rank(lock) == 0
    ensures CanStep(s, j) && lock in s[j].held
  {
    j := HolderUnfinished(s, lock);
  }

  lemma SomebodySteps(s: State, i: nat) returns (j: nat)
    requires Inv(s) && i < |s| && s[i].rest != []
    ensures CanStep(s, j)
  {
    if CanStep(s, i) {
      j := i;
    } else {
      var lock := s[i].rest[0].lock;
      if Rank(lock) == 0 {
        j := LowHolderSteps(s, lock);
      } else {
        j := HolderUnfinished(s, lock);
        if !CanStep(s, j) {
          j := LowHolderSteps(s, s[j].rest[0].lock);
        }
      }
    }
  }

  // ----- the theorems -----

  /** No deadlock: in every reachable state with unfinished work some thread can step. */
  lemma {:induction false} NoDeadlock(s: State, run: seq<nat>)
    requires IsStart(s) && IsRun(s, run)
    ensures Finished(End(s, run)) || exists j: nat :: CanStep(End(s, run), j)
  {
    StartInv(s);
    RunKeeps(s, run);
    var t := End(s, run);
    if i: nat :| i < |t| && t[i].rest != [] {
      var j := SomebodySteps(t, i);
    }
  }

  ghost function Remaining(s: State): nat {
    if s == [] then 0 else |s[0].rest| + Remaining(s[1..])
  }

  lemma {:induction false} StepShortens(s: State, i: nat, t: Thread)
    requires i < |s| && |t.rest| == |s[i].rest| - 1
    ensures Remaining(s[i := t]) == Remaining(s) - 1
  {
    if i == 0 {
      assert s[0 := t][1..] == s[1..];
    } else {
      assert s[i := t][1..] == s[1..][i - 1 := t];
      StepShortens(s[1..], i - 1, t);
    }
  }

  /** Whatever the schedule, a run has as many steps as there were operations, and then every thread is done. */
  lemma {:induction false} RunsAreBounded(s: State, run: seq<nat>)
    requires IsRun(s, run)
    ensures |run| + Remaining(End(s, run)) == Remaining(s)
    decreases |run|
  {
    if run != [] {
      var i := run[0];
      StepShortens(s, i, Step(s, i)[i]);
      assert Step(s, i) == s[i := Step(s, i)[i]];
      RunsAreBounded(Step(s, i), run[1..]);
    }
  }

  // The order the code avoids: asking SubnetMember with Dnsmasq.mu held.
  function UndisciplinedPush(): seq<Op> {
    [Acquire(SupervisorMu), Work] + Section(CacheMu) + [Release(SupervisorMu)]
  }

  /** With that order the informer and a pusher can block each other for good. */
  lemma OtherOrderDeadlocks() returns (s: State, run: seq<nat>)
    ensures s == [Thread(CacheEvent(), {}), Thread(UndisciplinedPush(), {})]
    ensures IsRun(s, run) && !Finished(End(s, run)) && !exists j: nat :: CanStep(End(s, run), j)
  {
    s := [Thread(CacheEvent(), {}), Thread(UndisciplinedPush(), {})];
    run := [0, 0, 1, 1];
    var p, q := CacheEvent(), UndisciplinedPush();
    var s1 := [Thread(p[1..], {CacheMu}), s[1]];
    var s2 := [Thread(p[1..][1..], {CacheMu}), s[1]];
    var s3 := [s2[0], Thread(q[1..], {SupervisorMu})];
    var s4 := [s2[0], Thread(q[1..][1..], {SupervisorMu})];
    assert {} + {CacheMu} == {CacheMu} && {} + {SupervisorMu} == {SupervisorMu};
    assert p[0] == Acquire(CacheMu) && p[1..][0] == Work && q[0] == Acquire(SupervisorMu) && q[1..][0] == Work;
    assert CanStep(s, 0) && Step(s, 0) == s1;
    assert CanStep(s1, 0) && Step(s1, 0) == s2;
    assert CanStep(s2, 1) && Step(s2, 1) == s3;
    assert CanStep(s3, 1) && Step(s3, 1) == s4;
    assert run[1..] == [0, 1, 1] && [0, 1, 1][1..] == [1, 1] && [1, 1][1..] == [1] && [1][1..] == [];
    assert IsRun(s4, []);
    assert IsRun(s3, [1]) && End(s3, [1]) == s4;
    assert IsRun(s2, [1, 1]) && End(s2, [1, 1]) == s4;
    assert IsRun(s1, [0, 1, 1]) && End(s1, [0, 1, 1]) == s4;
    assert s4[0].rest[0] == Acquire(SupervisorMu) && s4[1].rest[0] == Acquire(CacheMu);
    assert SupervisorMu in s4[1].held && CacheMu in s4[0].held;
    assert !IsFree(s4, SupervisorMu) && !IsFree(s4, CacheMu);
  }
}
