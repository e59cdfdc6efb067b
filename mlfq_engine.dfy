/** The MLFQ scheduling engine (`MLFQ`): the input is sorted by arrival, arrived
    processes are admitted to level 0 before every scan and after every slice,
    levels are scanned from 0 down, the head of a queue runs for
    `min(remaining, quantum)`, a finished process is completed and its metrics
    derived, an unfinished one is demoted (capped at the lowest level) and
    re-enqueued, and a scan that dispatched nothing advances the clock by 1.

    The preemption check after a slice only leaves the current level: the scan
    goes on with the next lower level, not with level 0, which is revisited on
    the next scan. */
module MlfqEngine {
  import opened Sorting
  import opened MlfqProcess
  import opened MlfqReport

  /** The arrival-time comparator of the initial sort. */
  predicate ArrivalLess(x: Proc, y: Proc) {
    x.info.arrival < y.info.arrival
  }

  lemma ArrivalLessIsStrictWeakOrder()
    ensures StrictWeakOrder(ArrivalLess)
  {
  }

  /** What the engine needs of its ladder: at least one level, every quantum
      positive, every queue empty. */
  ghost predicate ReadyLadder(qs: seq<LevelQueue>) {
    && |qs| > 0
    && PositiveQuanta(qs)
    && forall k :: 0 <= k < |qs| ==> qs[k].procs == []
  }

  /** The ladder with its queues emptied: levels, policies and quanta. */
  ghost function Rungs(qs: seq<LevelQueue>): (r: seq<LevelQueue>)
    ensures |r| == |qs|
  {
    seq(|qs|, k requires 0 <= k < |qs| => qs[k].(procs := []))
  }

  /** Same levels, policies and quanta; the contents may differ. */
  ghost predicate SameLadder(qs: seq<LevelQueue>, qs0: seq<LevelQueue>) {
    Rungs(qs) == Rungs(qs0)
  }

  /** Replacing the contents of one level keeps the ladder. */
  lemma SameLadderUpdate(qs: seq<LevelQueue>, k: int, q: seq<Proc>)
    requires 0 <= k < |qs|
    ensures SameLadder(qs[k := qs[k].(procs := q)], qs)
  {
    var qs' := qs[k := qs[k].(procs := q)];
    assert forall j :: 0 <= j < |qs| ==> Rungs(qs')[j] == Rungs(qs)[j];
  }

  lemma SameLadderQuantum(qs: seq<LevelQueue>, qs0: seq<LevelQueue>, k: int)
    requires SameLadder(qs, qs0) && 0 <= k < |qs|
    ensures qs[k].quantum == qs0[k].quantum
  {
    assert Rungs(qs)[k] == Rungs(qs0)[k];
  }

  /** Every level has a positive quantum. */
  ghost predicate PositiveQuanta(qs: seq<LevelQueue>) {
    forall k :: 0 <= k < |qs| ==> qs[k].quantum > 0
  }

  /** The quanta are part of the ladder's shape. */
  lemma SameLadderQuanta(qs: seq<LevelQueue>, qs0: seq<LevelQueue>)
    requires SameLadder(qs, qs0) && PositiveQuanta(qs0)
    ensures PositiveQuanta(qs)
  {
    forall k | 0 <= k < |qs|
      ensures qs[k].quantum > 0
    {
      SameLadderQuantum(qs, qs0, k);
    }
  }

  /** Two ladders of the same shape whose queues are all empty are equal. */
  lemma SameLadderEmpty(qs: seq<LevelQueue>, qs0: seq<LevelQueue>)
    requires SameLadder(qs, qs0)
    requires forall k :: 0 <= k < |qs| ==> qs[k].procs == []
    requires forall k :: 0 <= k < |qs0| ==> qs0[k].procs == []
    ensures qs == qs0
  {
    forall k | 0 <= k < |qs|
      ensures qs[k] == qs0[k]
    {
      assert Rungs(qs)[k] == Rungs(qs0)[k];
    }
  }

  /** What the engine needs of its input: freshly constructed processes with
      a burst that is not negative. */
  ghost predicate Admissible(ps: seq<Proc>) {
    forall j :: 0 <= j < |ps| ==> Fresh(ps[j]) && ps[j].info.burst >= 0
  }

  /** The sum of a sequence of slice lengths. The slices are plain integers,
      so this is not `SumOf`, which sums a measure over processes. */
  function Sum(s: seq<int>): int {
    if s == [] then 0 else Sum(s[..|s| - 1]) + s[|s| - 1]
  }

  /** The identities of every queued process, level by level. */
  ghost function Pending(qs: seq<LevelQueue>): multiset<ProcInfo> {
    if qs == [] then multiset{} else Pending(qs[..|qs| - 1]) + Bag(qs[|qs| - 1].procs)
  }

  /** The number of queued processes. */
  ghost function QueuedCount(qs: seq<LevelQueue>): nat {
    if qs == [] then 0 else QueuedCount(qs[..|qs| - 1]) + |qs[|qs| - 1].procs|
  }

  /** The remaining work of every queued process. */
  ghost function Backlog(qs: seq<LevelQueue>): int {
    if qs == [] then 0 else Backlog(qs[..|qs| - 1]) + Work(qs[|qs| - 1].procs)
  }

  /** The backlog is not negative when no queued remaining time is. */
  lemma {:induction false} BacklogNonNegative(qs: seq<LevelQueue>)
    requires forall k, j :: 0 <= k < |qs| && 0 <= j < |qs[k].procs| ==> qs[k].procs[j].remaining >= 0
    ensures Backlog(qs) >= 0
  {
    if qs != [] {
      var n := |qs| - 1;
      assert forall k :: 0 <= k < n ==> qs[..n][k] == qs[k];
      BacklogNonNegative(qs[..n]);
      WorkNonNegative(qs[n].procs);
    }
  }

  /** Appending `p` to queue `i` adds its identity, one to the count and its
      remaining time to the backlog. */
  lemma {:induction false} LadderPush(qs: seq<LevelQueue>, i: int, p: Proc)
    requires 0 <= i < |qs|
    ensures var qs' := qs[i := qs[i].Enqueue(p)];
            && Pending(qs') == Pending(qs) + multiset{p.info}
            && QueuedCount(qs') == QueuedCount(qs) + 1
            && Backlog(qs') == Backlog(qs) + p.remaining
  {
    var qs' := qs[i := qs[i].Enqueue(p)];
    var n := |qs| - 1;
    if i < n {
      var front := qs[..n][i := qs[i].Enqueue(p)];
      assert qs'[..n] == front;
      LadderPush(qs[..n], i, p);
      assert qs'[n] == qs[n];
      assert Pending(qs') == Pending(front) + Bag(qs[n].procs);
      assert Pending(qs) == Pending(qs[..n]) + Bag(qs[n].procs);
      MultisetSwap(Pending(qs[..n]), Bag(qs[n].procs), p.info);
    } else {
      LadderPushLast(qs, p);
    }
  }

  lemma LadderPushLast(qs: seq<LevelQueue>, p: Proc)
    requires qs != []
    ensures var n := |qs| - 1;
            var qs' := qs[n := qs[n].Enqueue(p)];
            && Pending(qs') == Pending(qs) + multiset{p.info}
            && QueuedCount(qs') == QueuedCount(qs) + 1
            && Backlog(qs') == Backlog(qs) + p.remaining
  {
    var n := |qs| - 1;
    var qs' := qs[n := qs[n].Enqueue(p)];
    var q := qs[n].procs;
    assert qs'[..n] == qs[..n];
    assert qs'[n].procs == q + [p];
    assert Pending(qs') == Pending(qs) + multiset{p.info} by {
      BagSnoc(q, p);
    }
    assert QueuedCount(qs') == QueuedCount(qs) + 1 by {
    }
    assert Backlog(qs') == Backlog(qs) + p.remaining by {
      assert (q + [p])[..|q|] == q;
    }
  }

  /** Removing the head of a non-empty queue `i` removes its identity, one
      from the count and its remaining time from the backlog. */
  lemma {:induction false} LadderPop(qs: seq<LevelQueue>, i: int)
    requires 0 <= i < |qs| && qs[i].procs != []
    ensures var qs' := qs[i := qs[i].(procs := qs[i].procs[1..])];
            var h := qs[i].procs[0];
            && Pending(qs) == Pending(qs') + multiset{h.info}
            && QueuedCount(qs) == QueuedCount(qs') + 1
            && Backlog(qs) == Backlog(qs') + h.remaining
  {
    var qs' := qs[i := qs[i].(procs := qs[i].procs[1..])];
    var h := qs[i].procs[0];
    var n := |qs| - 1;
    if i < n {
      var front := qs[..n][i := qs[i].(procs := qs[i].procs[1..])];
      assert qs'[..n] == front;
      assert qs'[n] == qs[n];
      LadderPop(qs[..n], i);
      var last := qs[n].procs;
      assert Pending(qs) == Pending(qs[..n]) + Bag(last);
      assert Pending(qs') == Pending(front) + Bag(last);
      assert Pending(qs[..n]) == Pending(front) + multiset{h.info};
      MultisetSwap(Pending(front), Bag(last), h.info);
      assert QueuedCount(qs) == QueuedCount(qs[..n]) + |last|;
      assert QueuedCount(qs') == QueuedCount(front) + |last|;
      assert Backlog(qs) == Backlog(qs[..n]) + Work(last);
      assert Backlog(qs') == Backlog(front) + Work(last);
    } else {
      LadderPopLast(qs);
    }
  }

  lemma LadderPopLast(qs: seq<LevelQueue>)
    requires qs != [] && qs[|qs| - 1].procs != []
    ensures var n := |qs| - 1;
            var qs' := qs[n := qs[n].(procs := qs[n].procs[1..])];
            var h := qs[n].procs[0];
            && Pending(qs) == Pending(qs') + multiset{h.info}
            && QueuedCount(qs) == QueuedCount(qs') + 1
            && Backlog(qs) == Backlog(qs') + h.remaining
  {
    var n := |qs| - 1;
    var qs' := qs[n := qs[n].(procs := qs[n].procs[1..])];
    var q := qs[n].procs;
    assert qs'[..n] == qs[..n];
    assert q == [q[0]] + q[1..];
    assert Pending(qs) == Pending(qs') + multiset{q[0].info} by {
      BagConcat([q[0]], q[1..]);
      BagOne(q[0]);
    }
    assert QueuedCount(qs) == QueuedCount(qs') + 1;
    assert Backlog(qs) == Backlog(qs') + q[0].remaining by {
      WorkConcat([q[0]], q[1..]);
      WorkOne(q[0]);
    }
  }

  /** Moving identities between two of three buckets keeps their total. */
  lemma Regroup(a: multiset<ProcInfo>, b: multiset<ProcInfo>, c: multiset<ProcInfo>,
                a': multiset<ProcInfo>, b': multiset<ProcInfo>, c': multiset<ProcInfo>, d: multiset<ProcInfo>)
    requires a + b + c == d && a + b + c == a' + b' + c'
    ensures a' + b' + c' == d
  {
  }

  /** Adding one identity to the middle bucket and to the total. */
  lemma RegroupGrow(a: multiset<ProcInfo>, b: multiset<ProcInfo>, c: multiset<ProcInfo>, d: multiset<ProcInfo>, x: ProcInfo)
    requires a + b + c == d
    ensures a + (b + multiset{x}) + c == d + multiset{x}
  {
  }

  lemma MultisetSwap(a: multiset<ProcInfo>, b: multiset<ProcInfo>, x: ProcInfo)
    ensures a + multiset{x} + b == a + b + multiset{x}
  {
  }

  /** A ladder holds no process exactly when every queue is empty, and then
      it holds no identities and no work. */
  lemma {:induction false} EmptyLadder(qs: seq<LevelQueue>)
    ensures (forall k :: 0 <= k < |qs| ==> qs[k].procs == []) <==> QueuedCount(qs) == 0
    ensures QueuedCount(qs) == 0 ==> Pending(qs) == multiset{} && Backlog(qs) == 0
  {
    if qs != [] {
      var n := |qs| - 1;
      EmptyLadder(qs[..n]);
      if QueuedCount(qs) == 0 {
        assert qs[n].procs == [];
        assert forall k :: 0 <= k < n ==> qs[..n][k] == qs[k];
      }
      if forall k :: 0 <= k < |qs| ==> qs[k].procs == [] {
        assert forall k :: 0 <= k < n ==> qs[..n][k].procs == [];
      }
    }
  }

  // ---------------------------------------------------------------------------
  // The engine's state and its invariant

  /** A queued process on level `k`: live, on the level of its queue, and
      either with work left or never dispatched (a zero burst). */
  ghost predicate Waiting(p: Proc, k: int, clock: int) {
    Live(p, clock) && p.level == k && (p.remaining > 0 || p.firstRun)
  }

  /** The engine's state: the ladder, how many sorted inputs have been
      admitted, the clock, the completed processes (`done`), the process being
      dispatched (none or one) and the total length of the slices run so far. */
  datatype EngineState = EngineState(
    queues: seq<LevelQueue>,
    next: int,
    clock: int,
    done: seq<Proc>,
    flight: seq<Proc>,
    executed: int)

  /** Everything admitted has arrived by `clock`. */
  ghost predicate Arrived(ps: seq<Proc>, next: int, clock: int) {
    0 <= next <= |ps| && forall j :: 0 <= j < next ==> ps[j].info.arrival <= clock
  }

  /** Every queued process sits on the level it records and is waiting. */
  ghost predicate QueuedWaiting(qs: seq<LevelQueue>, clock: int) {
    forall k, j :: 0 <= k < |qs| && 0 <= j < |qs[k].procs| ==> Waiting(qs[k].procs[j], k, clock)
  }

  /** The process being dispatched is live and on an existing level. */
  ghost predicate FlightLive(flight: seq<Proc>, levels: int, clock: int) {
    forall i :: 0 <= i < |flight| ==> Live(flight[i], clock) && 0 <= flight[i].level < levels
  }

  /** Every completed process satisfies the metric identities and completed
      by `clock`. */
  ghost predicate DoneFinished(done: seq<Proc>, clock: int) {
    forall i :: 0 <= i < |done| ==> Finished(done[i]) && done[i].completion <= clock
  }

  /** Every admitted process is exactly once either completed, queued or
      being dispatched, as identities and as a count. */
  ghost predicate Accounted(ps: seq<Proc>, st: EngineState) {
    && 0 <= st.next <= |ps|
    && Bag(st.done) + Pending(st.queues) + Bag(st.flight) == Bag(ps[..st.next])
    && |st.done| + QueuedCount(st.queues) + |st.flight| == st.next
  }

  /** Work is conserved: what has run plus what is left is the total. */
  ghost predicate Conserved(ps: seq<Proc>, st: EngineState) {
    && 0 <= st.next <= |ps|
    && st.executed + Backlog(st.queues) + Work(st.flight) + Work(ps[st.next..])
       == Work(ps)
  }

  /** The engine's invariant over the arrival-sorted input `ps`. */
  ghost predicate Inv(ps: seq<Proc>, st: EngineState) {
    && Admissible(ps)
    && Arrived(ps, st.next, st.clock)
    && QueuedWaiting(st.queues, st.clock)
    && FlightLive(st.flight, |st.queues|, st.clock)
    && DoneFinished(st.done, st.clock)
    && Accounted(ps, st)
    && Conserved(ps, st)
  }

  /** The termination measure: work left plus processes not yet completed. */
  ghost function Measure(ps: seq<Proc>, st: EngineState): int {
    Work(ps) - st.executed + (|ps| - |st.done|)
  }

  lemma MeasureBound(ps: seq<Proc>, st: EngineState)
    requires Inv(ps, st)
    ensures Measure(ps, st) >= 0
  {
    assert forall j :: 0 <= j < |ps[st.next..]| ==> ps[st.next..][j] == ps[st.next + j];
    WorkNonNegative(ps[st.next..]);
    WorkNonNegative(st.flight);
    BacklogNonNegative(st.queues);
  }

  /** A live process stays live as the clock advances. */
  lemma LiveLater(p: Proc, clock: int, later: int)
    requires Live(p, clock) && clock <= later
    ensures Live(p, later)
  {
  }

  /** Replacing one queue by waiting processes of its level keeps every
      queued process waiting. */
  lemma QueuedUpdate(qs: seq<LevelQueue>, clock: int, i: int, q: seq<Proc>)
    requires QueuedWaiting(qs, clock) && 0 <= i < |qs|
    requires forall j :: 0 <= j < |q| ==> Waiting(q[j], i, clock)
    ensures QueuedWaiting(qs[i := qs[i].(procs := q)], clock)
  {
  }

  /** Admitting one more input adds its identity to the admitted bag and
      moves its remaining time out of the unadmitted sum. */
  lemma AdmitStep(s: seq<Proc>, i: int)
    requires 0 <= i < |s|
    ensures Bag(s[..i + 1]) == Bag(s[..i]) + multiset{s[i].info}
    ensures Work(s[i..]) == s[i].remaining + Work(s[i + 1..])
  {
    assert s[..i + 1] == s[..i] + [s[i]];
    BagSnoc(s[..i], s[i]);
    assert s[i..] == [s[i]] + s[i + 1..];
    WorkConcat([s[i]], s[i + 1..]);
    WorkOne(s[i]);
  }

  /** Admitting the next input to the tail of level 0. */
  ghost function Enter(ps: seq<Proc>, st: EngineState): EngineState
    requires |st.queues| > 0 && 0 <= st.next < |ps|
  {
    st.(queues := st.queues[0 := st.queues[0].Enqueue(ps[st.next])], next := st.next + 1)
  }

  /** Admitting the next arrived input keeps the invariant. */
  lemma AdmitOne(ps: seq<Proc>, st: EngineState)
    requires Inv(ps, st) && |st.queues| > 0
    requires st.next < |ps| && ps[st.next].info.arrival <= st.clock
    ensures Inv(ps, Enter(ps, st))
  {
    var p := ps[st.next];
    var q0 := st.queues[0].procs;
    var st' := Enter(ps, st);
    assert st'.queues == st.queues[0 := st.queues[0].(procs := q0 + [p])];

    assert Waiting(p, 0, st.clock);
    QueuedUpdate(st.queues, st.clock, 0, q0 + [p]);

    LadderPush(st.queues, 0, p);
    AdmitBookkeeping(ps, st, st');
    ArrivedStep(ps, st.next, st.clock);
  }

  lemma ArrivedStep(ps: seq<Proc>, next: int, clock: int)
    requires Arrived(ps, next, clock) && next < |ps| && ps[next].info.arrival <= clock
    ensures Arrived(ps, next + 1, clock)
  {
  }

  /** The bookkeeping half of admission: the admitted input moves from the
      unadmitted suffix into the ladder. */
  lemma AdmitBookkeeping(ps: seq<Proc>, st: EngineState, st': EngineState)
    requires Accounted(ps, st) && Conserved(ps, st) && st.next < |ps|
    requires st'.done == st.done && st'.flight == st.flight && st'.executed == st.executed
    requires st'.next == st.next + 1
    requires Pending(st'.queues) == Pending(st.queues) + multiset{ps[st.next].info}
    requires QueuedCount(st'.queues) == QueuedCount(st.queues) + 1
    requires Backlog(st'.queues) == Backlog(st.queues) + ps[st.next].remaining
    ensures Accounted(ps, st') && Conserved(ps, st')
  {
    AdmitStep(ps, st.next);
    RegroupGrow(Bag(st.done), Pending(st.queues), Bag(st.flight), Bag(ps[..st.next]), ps[st.next].info);
  }

  /** Taking the head of a non-empty level `i` for dispatch. */
  lemma PopHead(ps: seq<Proc>, st: EngineState, i: int)
    requires Inv(ps, st) && st.flight == []
    requires 0 <= i < |st.queues| && st.queues[i].procs != []
    ensures Waiting(st.queues[i].procs[0], i, st.clock)
    ensures Inv(ps, Popped(st, i))
  {
    var q := st.queues[i].procs;
    var st' := Popped(st, i);
    assert Waiting(q[0], i, st.clock);
    QueuedUpdate(st.queues, st.clock, i, q[1..]);
    assert FlightLive(st'.flight, |st'.queues|, st'.clock);

    LadderPop(st.queues, i);
    BagOne(q[0]);
    Regroup(Bag(st.done), Pending(st.queues), Bag(st.flight),
            Bag(st.done), Pending(st'.queues), Bag(st'.flight), Bag(ps[..st.next]));
    assert Accounted(ps, st');

    WorkOne(q[0]);
    assert Conserved(ps, st');
  }

  /** Running the dispatched process for one slice of a positive quantum:
      the response time is recorded on the first dispatch, the clock and the
      executed total rise by the slice and the remaining time falls by it. */
  lemma RunSlice(ps: seq<Proc>, st: EngineState, quantum: int)
    requires Inv(ps, st) && |st.flight| == 1 && quantum > 0
    ensures var c := RecordResponse(st.flight[0], st.clock);
            var s := SliceLength(c.remaining, quantum);
            && 0 <= s <= quantum
            && (s == 0 <==> c.remaining == 0)
    ensures Inv(ps, Ran(st, quantum))
  {
    var p := st.flight[0];
    var c := RecordResponse(p, st.clock);
    var s := SliceLength(c.remaining, quantum);
    var c' := c.(remaining := c.remaining - s);
    var st' := Ran(st, quantum);
    SliceKeepsLive(p, st.clock, quantum);
    assert FlightLive(st'.flight, |st'.queues|, st'.clock);

    forall k, j | 0 <= k < |st.queues| && 0 <= j < |st.queues[k].procs|
      ensures Waiting(st.queues[k].procs[j], k, st'.clock)
    {
      LiveLater(st.queues[k].procs[j], st.clock, st'.clock);
    }
    assert QueuedWaiting(st'.queues, st'.clock);

    assert st.flight == [p];
    BagOne(p);
    BagOne(c');
    assert Accounted(ps, st');

    WorkOne(p);
    WorkOne(c');
    assert Conserved(ps, st');
  }

  /** Completing the dispatched process once its remaining time is 0. */
  lemma FinishFlight(ps: seq<Proc>, st: EngineState)
    requires Inv(ps, st) && |st.flight| == 1
    requires st.flight[0].remaining == 0 && !st.flight[0].firstRun
    ensures Inv(ps, Settled(st))
  {
    var p := st.flight[0];
    var d := Complete(p, st.clock);
    var st' := Settled(st);
    CompleteIsFinished(p, st.clock);
    assert DoneFinished(st'.done, st'.clock);

    assert st.flight == [p];
    BagSnoc(st.done, d);
    BagOne(p);
    assert Bag([]) == multiset{};
    Regroup(Bag(st.done), Pending(st.queues), Bag(st.flight),
            Bag(st'.done), Pending(st.queues), Bag(st'.flight), Bag(ps[..st.next]));
    assert Accounted(ps, st');

    WorkOne(p);
    assert Conserved(ps, st');
  }

  /** Demoting the unfinished dispatched process and appending it to the
      queue of its new level. */
  lemma RequeueFlight(ps: seq<Proc>, st: EngineState)
    requires Inv(ps, st) && |st.flight| == 1 && st.flight[0].remaining > 0
    ensures Inv(ps, Settled(st))
  {
    var p := st.flight[0];
    var c := Demote(p, |st.queues|);
    var q := st.queues[c.level].procs;
    var st' := Settled(st);
    assert st'.queues == st.queues[c.level := st.queues[c.level].(procs := q + [c])];

    assert Waiting(c, c.level, st.clock);
    QueuedUpdate(st.queues, st.clock, c.level, q + [c]);

    assert st.flight == [p];
    LadderPush(st.queues, c.level, c);
    BagOne(p);
    assert Bag([]) == multiset{};
    Regroup(Bag(st.done), Pending(st.queues), Bag(st.flight),
            Bag(st.done), Pending(st'.queues), Bag(st'.flight), Bag(ps[..st.next]));
    assert Accounted(ps, st');

    WorkOne(p);
    assert Conserved(ps, st');
  }

  /** The idle tick keeps the invariant. */
  lemma Tick(ps: seq<Proc>, st: EngineState)
    requires Inv(ps, st)
    ensures Inv(ps, st.(clock := st.clock + 1))
  {
    forall k, j | 0 <= k < |st.queues| && 0 <= j < |st.queues[k].procs|
      ensures Waiting(st.queues[k].procs[j], k, st.clock + 1)
    {
      LiveLater(st.queues[k].procs[j], st.clock, st.clock + 1);
    }
    forall i | 0 <= i < |st.flight|
      ensures Live(st.flight[i], st.clock + 1)
    {
      LiveLater(st.flight[i], st.clock, st.clock + 1);
    }
  }

  /** When every input has completed, every input was admitted, every queue
      is empty, the completed processes are the inputs, and the slices add up
      to the total burst. */
  lemma AllDone(ps: seq<Proc>, st: EngineState)
    requires Inv(ps, st) && st.flight == [] && |st.done| == |ps|
    ensures st.next == |ps|
    ensures forall k :: 0 <= k < |st.queues| ==> st.queues[k].procs == []
    ensures Bag(st.done) == Bag(ps)
    ensures st.executed == SumOf(ps, BurstOf)
  {
    assert Accounted(ps, st) && Conserved(ps, st);
    EmptyLadder(st.queues);
    assert ps[..|ps|] == ps;
    assert ps[|ps|..] == [];
    assert Infos([]) == [];
    WorkIsBurst(ps);
  }

  // ---------------------------------------------------------------------------
  // The steps of one dispatch, as functions of the state

  /** The ladder `qs` with `ps[lo..hi]` appended to level 0. */
  ghost function Admitted(qs: seq<LevelQueue>, ps: seq<Proc>, lo: int, hi: int): seq<LevelQueue>
    requires |qs| > 0 && 0 <= lo <= hi <= |ps|
  {
    qs[0 := qs[0].(procs := qs[0].procs + ps[lo..hi])]
  }

  lemma AdmittedNone(qs: seq<LevelQueue>, ps: seq<Proc>, lo: int)
    requires |qs| > 0 && 0 <= lo <= |ps|
    ensures Admitted(qs, ps, lo, lo) == qs
  {
    assert qs[0].procs + ps[lo..lo] == qs[0].procs;
  }

  lemma AdmittedStep(qs: seq<LevelQueue>, ps: seq<Proc>, lo: int, hi: int)
    requires |qs| > 0 && 0 <= lo <= hi < |ps|
    ensures var a := Admitted(qs, ps, lo, hi);
            a[0 := a[0].Enqueue(ps[hi])] == Admitted(qs, ps, lo, hi + 1)
  {
    var a := Admitted(qs, ps, lo, hi);
    assert ps[lo..hi + 1] == ps[lo..hi] + [ps[hi]];
    assert a[0].Enqueue(ps[hi]) == qs[0].(procs := qs[0].procs + ps[lo..hi + 1]);
  }

  /** Admission changes the contents of level 0 and nothing else. */
  lemma AdmittedShape(qs: seq<LevelQueue>, ps: seq<Proc>, lo: int, hi: int)
    requires |qs| > 0 && 0 <= lo <= hi <= |ps|
    ensures var a := Admitted(qs, ps, lo, hi);
            && SameLadder(a, qs)
            && a[0].procs == qs[0].procs + ps[lo..hi]
            && forall k :: 0 < k < |a| ==> a[k] == qs[k]
  {
    SameLadderUpdate(qs, 0, qs[0].procs + ps[lo..hi]);
  }

  /** Admitting the inputs in `[st.next, next)` one by one. */
  ghost function AdmittedUpTo(ps: seq<Proc>, st: EngineState, next: int): (r: EngineState)
    requires |st.queues| > 0 && 0 <= st.next <= next <= |ps|
    ensures r.(queues := st.queues, next := st.next) == st
    ensures |r.queues| == |st.queues| && r.next == next
    decreases next - st.next
  {
    if st.next == next then st else AdmittedUpTo(ps, Enter(ps, st), next)
  }

  /** Admitting one input in front of a batch is admitting the longer batch. */
  lemma AdmittedFront(qs: seq<LevelQueue>, ps: seq<Proc>, lo: int, hi: int)
    requires |qs| > 0 && 0 <= lo < hi <= |ps|
    ensures Admitted(qs[0 := qs[0].Enqueue(ps[lo])], ps, lo + 1, hi) == Admitted(qs, ps, lo, hi)
  {
    assert ps[lo..hi] == [ps[lo]] + ps[lo + 1..hi];
    assert qs[0].procs + ps[lo..hi] == (qs[0].procs + [ps[lo]]) + ps[lo + 1..hi];
  }

  /** One-by-one admission appends the batch to level 0 and moves `next`. */
  lemma {:induction false} AdmittedUpToShape(ps: seq<Proc>, st: EngineState, next: int)
    requires |st.queues| > 0 && 0 <= st.next <= next <= |ps|
    ensures AdmittedUpTo(ps, st, next) == st.(queues := Admitted(st.queues, ps, st.next, next), next := next)
    decreases next - st.next
  {
    if st.next == next {
      AdmittedNone(st.queues, ps, st.next);
    } else {
      AdmittedUpToShape(ps, Enter(ps, st), next);
      AdmittedFront(st.queues, ps, st.next, next);
    }
  }

  /** Dequeuing the head of level `i` for dispatch. */
  ghost function Popped(st: EngineState, i: int): EngineState
    requires 0 <= i < |st.queues| && st.queues[i].procs != []
  {
    st.(queues := st.queues[i := st.queues[i].(procs := st.queues[i].procs[1..])], flight := [st.queues[i].procs[0]])
  }

  /** Running the dispatched process for one slice of `quantum`. */
  ghost function Ran(st: EngineState, quantum: int): EngineState
    requires |st.flight| == 1
  {
    var c := RecordResponse(st.flight[0], st.clock);
    var s := SliceLength(c.remaining, quantum);
    st.(clock := st.clock + s, flight := [c.(remaining := c.remaining - s)], executed := st.executed + s)
  }

  /** Completing the dispatched process if it has no time left, otherwise
      demoting it and appending it to the queue of its new level. */
  ghost function Settled(st: EngineState): EngineState
    requires |st.flight| == 1 && 0 <= st.flight[0].level < |st.queues|
  {
    var f := st.flight[0];
    if f.remaining == 0 then
      st.(done := st.done + [Complete(f, st.clock)], flight := [])
    else
      var c := Demote(f, |st.queues|);
      st.(queues := st.queues[c.level := st.queues[c.level].Enqueue(c)], flight := [])
  }

  /** Admitting every input in `[st.next, next)`, all of which have arrived,
      keeps the invariant. */
  lemma {:induction false} AdmitMany(ps: seq<Proc>, st: EngineState, next: int)
    requires Inv(ps, st) && |st.queues| > 0 && st.next <= next <= |ps|
    requires forall j :: st.next <= j < next ==> ps[j].info.arrival <= st.clock
    ensures Inv(ps, AdmittedUpTo(ps, st, next))
    decreases next - st.next
  {
    if st.next < next {
      AdmitOne(ps, st);
      AdmitMany(ps, Enter(ps, st), next);
    }
  }

  /** Settling the dispatched process keeps the invariant. */
  lemma SettleKeeps(ps: seq<Proc>, st: EngineState)
    requires Inv(ps, st) && |st.flight| == 1 && !st.flight[0].firstRun
    ensures 0 <= st.flight[0].level < |st.queues|
    ensures Inv(ps, Settled(st))
  {
    if st.flight[0].remaining == 0 {
      FinishFlight(ps, st);
    } else {
      RequeueFlight(ps, st);
    }
  }

  /** The head of a non-empty level sits on that level. */
  lemma HeadLevel(ps: seq<Proc>, st: EngineState, i: int)
    requires Inv(ps, st) && 0 <= i < |st.queues| && st.queues[i].procs != []
    ensures st.queues[i].procs[0].level == i
  {
    assert QueuedWaiting(st.queues, st.clock);
    assert Waiting(st.queues[i].procs[0], i, st.clock);
  }

  /** One dispatch from the non-empty level `i` whose head sits on level `i`:
      dequeue the head, run one slice, admit the inputs in `[st.next, next)`
      that arrived meanwhile, then complete or demote the process. */
  ghost function Dispatched(ps: seq<Proc>, st: EngineState, i: int, quantum: int, next: int): EngineState
    requires 0 <= i < |st.queues| && st.queues[i].procs != [] && st.queues[i].procs[0].level == i
    requires 0 <= st.next <= next <= |ps|
  {
    Settled(AdmittedUpTo(ps, Ran(Popped(st, i), quantum), next))
  }

  /** A dispatch either runs a positive slice or completes the process, so
      the measure falls. */
  lemma DispatchProgress(ps: seq<Proc>, st: EngineState, i: int, quantum: int, next: int)
    requires 0 <= i < |st.queues| && st.queues[i].procs != [] && st.queues[i].procs[0].level == i
    requires 0 <= st.next <= next <= |ps| && quantum > 0 && st.queues[i].procs[0].remaining >= 0
    ensures Measure(ps, Dispatched(ps, st, i, quantum, next)) < Measure(ps, st)
  {
    var mid := Ran(Popped(st, i), quantum);
    var after := AdmittedUpTo(ps, mid, next);
    assert after.done == st.done && after.executed == mid.executed;
  }

  /** One whole dispatch keeps the invariant and lowers the measure. */
  lemma DispatchKeeps(ps: seq<Proc>, st: EngineState, i: int, quantum: int, next: int)
    requires Inv(ps, st) && st.flight == [] && quantum > 0
    requires 0 <= i < |st.queues| && st.queues[i].procs != [] && st.queues[i].procs[0].level == i
    requires st.next <= next <= |ps|
    requires forall j :: st.next <= j < next ==> ps[j].info.arrival <= Ran(Popped(st, i), quantum).clock
    ensures Inv(ps, Dispatched(ps, st, i, quantum, next))
    ensures Measure(ps, Dispatched(ps, st, i, quantum, next)) < Measure(ps, st)
  {
    var popped := Popped(st, i);
    PopHead(ps, st, i);
    var mid := Ran(popped, quantum);
    RunSlice(ps, popped, quantum);
    AdmitMany(ps, mid, next);
    SettleKeeps(ps, AdmittedUpTo(ps, mid, next));
    DispatchProgress(ps, st, i, quantum, next);
  }

  /** One whole dispatch keeps the shape of the ladder, leaves nothing in
      flight and moves the clock to the end of the slice. */
  lemma DispatchShape(ps: seq<Proc>, st: EngineState, i: int, quantum: int, next: int)
    requires Inv(ps, st) && st.flight == [] && quantum > 0
    requires 0 <= i < |st.queues| && st.queues[i].procs != [] && st.queues[i].procs[0].level == i
    requires st.next <= next <= |ps|
    ensures var r := Dispatched(ps, st, i, quantum, next);
            && SameLadder(r.queues, st.queues) && r.flight == [] && r.next == next
            && r.clock == Ran(Popped(st, i), quantum).clock >= st.clock
  {
    var popped := Popped(st, i);
    PopHead(ps, st, i);
    SameLadderUpdate(st.queues, i, st.queues[i].procs[1..]);
    var mid := Ran(popped, quantum);
    RunSlice(ps, popped, quantum);
    AdmittedUpToShape(ps, mid, next);
    AdmittedShape(mid.queues, ps, mid.next, next);
    var after := AdmittedUpTo(ps, mid, next);
    if after.flight[0].remaining != 0 {
      var c := Demote(after.flight[0], |after.queues|);
      SameLadderUpdate(after.queues, c.level, after.queues[c.level].procs + [c]);
    }
  }

  // ---------------------------------------------------------------------------
  // The engine as functions of the state

  /** Where admission from `from` stops at `clock`: the first input, in
      arrival order, that has not arrived yet, or the end of the input. */
  function Arrivals(ps: seq<Proc>, from: int, clock: int): (r: int)
    requires 0 <= from <= |ps|
    ensures from <= r <= |ps|
    ensures forall j :: from <= j < r ==> ps[j].info.arrival <= clock
    ensures r == |ps| || ps[r].info.arrival > clock
    decreases |ps| - from
  {
    if from == |ps| || ps[from].info.arrival > clock then from else Arrivals(ps, from + 1, clock)
  }

  /** Admission stops at exactly one place. */
  lemma ArrivalsUnique(ps: seq<Proc>, from: int, clock: int, next: int)
    requires 0 <= from <= next <= |ps|
    requires forall j :: from <= j < next ==> ps[j].info.arrival <= clock
    requires next == |ps| || ps[next].info.arrival > clock
    ensures next == Arrivals(ps, from, clock)
  {
  }

  /** The dispatch of the head of the non-empty level `i` with the level's
      quantum, admitting exactly the inputs that arrive by the end of the
      slice. */
  ghost function Served(ps: seq<Proc>, st: EngineState, i: int): (r: EngineState)
    requires Inv(ps, st) && st.flight == [] && PositiveQuanta(st.queues)
    requires 0 <= i < |st.queues| && st.queues[i].procs != []
    ensures Inv(ps, r) && r.flight == [] && SameLadder(r.queues, st.queues) && PositiveQuanta(r.queues)
    ensures r.clock >= st.clock && Measure(ps, r) < Measure(ps, st)
    ensures r.next == |ps| || ps[r.next].info.arrival > r.clock
  {
    HeadLevel(ps, st, i);
    var quantum := st.queues[i].quantum;
    var next := Arrivals(ps, st.next, Ran(Popped(st, i), quantum).clock);
    DispatchKeeps(ps, st, i, quantum, next);
    DispatchShape(ps, st, i, quantum, next);
    SameLadderQuanta(Dispatched(ps, st, i, quantum, next).queues, st.queues);
    Dispatched(ps, st, i, quantum, next)
  }

  /** Draining level `i`: its head is served until the level is empty, or,
      below level 0, until something waits on level 0 again. */
  ghost function Drained(ps: seq<Proc>, st: EngineState, i: int): (r: EngineState)
    requires Inv(ps, st) && st.flight == [] && PositiveQuanta(st.queues) && 0 <= i < |st.queues|
    ensures Inv(ps, r) && r.flight == [] && SameLadder(r.queues, st.queues) && PositiveQuanta(r.queues)
    decreases Measure(ps, st)
  {
    if st.queues[i].procs == [] then st
    else
      var b := Served(ps, st, i);
      MeasureBound(ps, st);
      if i != 0 && b.queues[0].procs != [] then b else Drained(ps, b, i)
  }

  /** Draining stops only when the level is empty or, below level 0, when
      level 0 has work; it does not move the clock back; it changes nothing
      when the level is empty, and otherwise consumes work and leaves the
      next input still to arrive. */
  lemma {:induction false} DrainedProgress(ps: seq<Proc>, st: EngineState, i: int)
    requires Inv(ps, st) && st.flight == [] && PositiveQuanta(st.queues) && 0 <= i < |st.queues|
    ensures var r := Drained(ps, st, i);
            && r.clock >= st.clock
            && (r.queues[i].procs == [] || (i != 0 && r.queues[0].procs != []))
            && (st.queues[i].procs == [] ==> r == st)
            && (st.queues[i].procs != [] ==> Measure(ps, r) < Measure(ps, st))
            && (st.queues[i].procs != [] ==> r.next == |ps| || ps[r.next].info.arrival > r.clock)
    decreases Measure(ps, st)
  {
    if st.queues[i].procs != [] {
      var b := Served(ps, st, i);
      MeasureBound(ps, st);
      if !(i != 0 && b.queues[0].procs != []) {
        DrainedProgress(ps, b, i);
      }
    }
  }

  /** One turn of draining: serve the head, then stop or go on. */
  lemma DrainedStep(ps: seq<Proc>, st: EngineState, i: int)
    requires Inv(ps, st) && st.flight == [] && PositiveQuanta(st.queues) && 0 <= i < |st.queues|
    requires st.queues[i].procs != []
    ensures var b := Served(ps, st, i);
            Drained(ps, st, i) == if i != 0 && b.queues[0].procs != [] then b else Drained(ps, b, i)
  {
  }

  /** Every level from `i` down is empty. */
  ghost predicate EmptyFrom(qs: seq<LevelQueue>, i: int) {
    forall k :: 0 <= k < |qs| && i <= k ==> qs[k].procs == []
  }

  /** The scan from level `i` down: each level is drained in turn. */
  ghost function Scanned(ps: seq<Proc>, st: EngineState, i: int): (r: EngineState)
    requires Inv(ps, st) && st.flight == [] && PositiveQuanta(st.queues) && 0 <= i <= |st.queues|
    ensures Inv(ps, r) && r.flight == [] && SameLadder(r.queues, st.queues) && PositiveQuanta(r.queues)
    decreases |st.queues| - i
  {
    if i == |st.queues| then st else Scanned(ps, Drained(ps, st, i), i + 1)
  }

  /** One level of the scan: drain level `i`, then scan on from `i + 1`. */
  lemma ScannedStep(ps: seq<Proc>, st: EngineState, i: int)
    requires Inv(ps, st) && st.flight == [] && PositiveQuanta(st.queues) && 0 <= i < |st.queues|
    ensures Scanned(ps, st, i) == Scanned(ps, Drained(ps, st, i), i + 1)
  {
  }

  /** The scan does not move the clock back; it changes nothing when every
      level from `i` down is empty, and otherwise consumes work and leaves
      the next input still to arrive. */
  lemma {:induction false} ScannedProgress(ps: seq<Proc>, st: EngineState, i: int)
    requires Inv(ps, st) && st.flight == [] && PositiveQuanta(st.queues) && 0 <= i <= |st.queues|
    ensures var r := Scanned(ps, st, i);
            && r.clock >= st.clock
            && (EmptyFrom(st.queues, i) ==> r == st)
            && (!EmptyFrom(st.queues, i) ==> Measure(ps, r) < Measure(ps, st))
    decreases |st.queues| - i
  {
    if i < |st.queues| {
      var d := Drained(ps, st, i);
      DrainedProgress(ps, st, i);
      ScannedProgress(ps, d, i + 1);
      if st.queues[i].procs == [] {
        assert EmptyFrom(st.queues, i) <==> EmptyFrom(d.queues, i + 1);
      } else {
        MeasureBound(ps, d);
      }
    }
  }

  /** The scan of a round, or the idle tick when every level is empty. */
  ghost function Turn(ps: seq<Proc>, st: EngineState): (r: EngineState)
    requires Inv(ps, st) && st.flight == [] && PositiveQuanta(st.queues)
    ensures Inv(ps, r) && r.flight == [] && SameLadder(r.queues, st.queues) && PositiveQuanta(r.queues)
  {
    if EmptyFrom(st.queues, 0) then
      Tick(ps, st);
      st.(clock := st.clock + 1)
    else Scanned(ps, st, 0)
  }

  /** The admission step of a round: every input that has arrived by the
      clock joins level 0, in arrival order. */
  ghost function Admission(ps: seq<Proc>, st: EngineState): (r: EngineState)
    requires Inv(ps, st) && |st.queues| > 0
    ensures Inv(ps, r) && SameLadder(r.queues, st.queues) && r.flight == st.flight
    ensures r.clock == st.clock && r.done == st.done && r.executed == st.executed && st.next <= r.next
    ensures r.queues[0].procs == st.queues[0].procs + ps[st.next..r.next]
    ensures forall k :: 0 < k < |r.queues| ==> r.queues[k] == st.queues[k]
    ensures r.next == |ps| || ps[r.next].info.arrival > r.clock
  {
    var next := Arrivals(ps, st.next, st.clock);
    AdmitMany(ps, st, next);
    AdmittedUpToShape(ps, st, next);
    AdmittedShape(st.queues, ps, st.next, next);
    AdmittedUpTo(ps, st, next)
  }

  /** One round of the engine loop: admission, then the scan or the idle
      tick. */
  ghost function Rounded(ps: seq<Proc>, st: EngineState): (r: EngineState)
    requires Inv(ps, st) && st.flight == [] && PositiveQuanta(st.queues) && |st.queues| > 0
    ensures Inv(ps, r) && r.flight == [] && SameLadder(r.queues, st.queues) && PositiveQuanta(r.queues)
  {
    var a := Admission(ps, st);
    SameLadderQuanta(a.queues, st.queues);
    Turn(ps, a)
  }

  /** A round that is not the last one either consumes work, or only ticks
      the clock while the next input has not arrived yet. */
  lemma RoundProgress(ps: seq<Proc>, st: EngineState)
    requires Inv(ps, st) && st.flight == [] && PositiveQuanta(st.queues) && |st.queues| > 0
    requires |st.done| < |ps|
    ensures var r := Rounded(ps, st);
            && r.clock >= st.clock
            && (Measure(ps, r) < Measure(ps, st)
                || (Measure(ps, r) == Measure(ps, st) && r.next == st.next < |ps| && r.clock == st.clock + 1
                    && ps[st.next].info.arrival > st.clock))
  {
    var a := Admission(ps, st);
    SameLadderQuanta(a.queues, st.queues);
    TurnProgress(ps, a);
    assert Measure(ps, a) == Measure(ps, st);
    if EmptyFrom(a.queues, 0) {
      IdleRound(ps, st, a);
    }
  }

  /** The scan or tick of a round: it does not move the clock back, and it
      consumes work unless every level is empty, when it only ticks. */
  lemma TurnProgress(ps: seq<Proc>, st: EngineState)
    requires Inv(ps, st) && st.flight == [] && PositiveQuanta(st.queues)
    ensures var r := Turn(ps, st);
            && r.clock >= st.clock
            && (EmptyFrom(st.queues, 0) ==> r == st.(clock := st.clock + 1))
            && (!EmptyFrom(st.queues, 0) ==> Measure(ps, r) < Measure(ps, st))
  {
    if !EmptyFrom(st.queues, 0) {
      ScannedProgress(ps, st, 0);
    }
  }

  /** A round whose admission leaves every level empty admitted nothing,
      and some input is still to arrive. */
  lemma IdleRound(ps: seq<Proc>, st: EngineState, a: EngineState)
    requires Inv(ps, st) && st.flight == [] && |st.queues| > 0 && |st.done| < |ps|
    requires a == Admission(ps, st) && EmptyFrom(a.queues, 0)
    ensures a.next == st.next < |ps| && ps[st.next].info.arrival > st.clock
  {
    assert a.queues[0].procs == [];
    assert |ps[st.next..a.next]| == 0;
    EmptyLadder(a.queues);
    assert Accounted(ps, a);
  }

  /** The engine loop: rounds until every input has completed. */
  ghost function Run(ps: seq<Proc>, st: EngineState): (r: EngineState)
    requires Inv(ps, st) && st.flight == [] && PositiveQuanta(st.queues) && |st.queues| > 0
    ensures Inv(ps, r) && r.flight == [] && SameLadder(r.queues, st.queues) && |r.done| >= |ps|
    decreases Measure(ps, st), if st.next < |ps| then ps[st.next].info.arrival - st.clock else 0
  {
    if |st.done| >= |ps| then st
    else
      RoundProgress(ps, st);
      MeasureBound(ps, st);
      Run(ps, Rounded(ps, st))
  }

  /** A round of the loop before every input has completed. */
  lemma RunStep(ps: seq<Proc>, st: EngineState)
    requires Inv(ps, st) && st.flight == [] && PositiveQuanta(st.queues) && |st.queues| > 0
    requires |st.done| < |ps|
    ensures Run(ps, st) == Run(ps, Rounded(ps, st))
  {
  }

  /** The engine loop ends with every input completed exactly once, every
      queue empty and the whole burst run. */
  lemma RunCompletes(ps: seq<Proc>, ladder: seq<LevelQueue>)
    requires ReadyLadder(ladder) && Inv(ps, EngineState(ladder, 0, 0, [], [], 0))
    ensures var r := Run(ps, EngineState(ladder, 0, 0, [], [], 0));
            && r.queues == ladder && r.next == |ps|
            && Bag(r.done) == Bag(ps)
            && (forall i :: 0 <= i < |r.done| ==> Finished(r.done[i]))
            && r.executed == SumOf(ps, BurstOf)
  {
    var r := Run(ps, EngineState(ladder, 0, 0, [], [], 0));
    assert Accounted(ps, r);
    AllDone(ps, r);
    SameLadderEmpty(r.queues, ladder);
    assert DoneFinished(r.done, r.clock);
  }

  // ---------------------------------------------------------------------------
  // The engine

  /** Admits, in sorted order, every not-yet-admitted process that has arrived
      by `clock` to the tail of level 0. */
  method AdmitArrivals(procs: array<Proc>, sched: Scheduler, next: int, clock: int) returns (next': int)
    requires |sched.queues| > 0 && 0 <= next <= procs.Length
    modifies sched
    ensures next <= next' <= procs.Length
    ensures forall j :: next <= j < next' ==> procs[j].info.arrival <= clock
    ensures next' == procs.Length || procs[next'].info.arrival > clock
    ensures sched.queues == Admitted(old(sched.queues), procs[..], next, next')
  {
    next' := next;
    AdmittedNone(sched.queues, procs[..], next);
    while next' < procs.Length && procs[next'].info.arrival <= clock
      invariant next <= next' <= procs.Length
      invariant forall j :: next <= j < next' ==> procs[j].info.arrival <= clock
      invariant sched.queues == Admitted(old(sched.queues), procs[..], next, next')
    {
      AdmittedStep(old(sched.queues), procs[..], next, next');
      sched.queues := sched.queues[0 := sched.queues[0].Enqueue(procs[next'])];
      next' := next' + 1;
    }
  }

  lemma SumSnoc(s: seq<int>, x: int)
    ensures Sum(s + [x]) == Sum(s) + x
  {
    assert (s + [x])[..|s|] == s;
  }

  /** One dispatch from the non-empty level `i` (the loop body of the scan):
      the head is dequeued, its response time is recorded on its first
      dispatch, it runs for `min(remaining, quantum)`, the processes that
      arrived meanwhile are admitted, and it either completes (appended to
      `done`) or is demoted and re-enqueued. The new state is exactly
      `Settled(AdmittedUpTo(Ran(Popped(...))))`. */
  method Dispatch(procs: array<Proc>, sched: Scheduler, i: int, next: int, clock: int, done: seq<Proc>,
                  ghost slices: seq<int>, ghost ps: seq<Proc>)
    returns (next': int, clock': int, done': seq<Proc>, finished: bool, ghost run: seq<int>)
    requires procs[..] == ps
    requires 0 <= i < |sched.queues| && sched.queues[i].procs != []
    requires sched.queues[i].procs[0].level == i && 0 <= next <= |ps|
    modifies sched
    ensures var st0 := EngineState(old(sched.queues), next, clock, done, [], Sum(slices));
            && clock' == Ran(Popped(st0, i), old(sched.queues[i].quantum)).clock
            && next <= next' <= |ps|
            && (forall j :: next <= j < next' ==> ps[j].info.arrival <= clock')
            && (next' == |ps| || ps[next'].info.arrival > clock')
            && EngineState(sched.queues, next', clock', done', [], Sum(run))
               == Dispatched(ps, st0, i, old(sched.queues[i].quantum), next')
    ensures SameLadder(sched.queues, old(sched.queues))
    ensures |done'| == |done| + (if finished then 1 else 0)
    ensures run == slices + [clock' - clock]
  {
    ghost var st0 := EngineState(sched.queues, next, clock, done, [], Sum(slices));
    var current := sched.queues[i].procs[0];
    var quantum := sched.queues[i].quantum;
    SameLadderUpdate(sched.queues, i, sched.queues[i].procs[1..]);
    sched.queues := sched.queues[i := sched.queues[i].(procs := sched.queues[i].procs[1..])];
    ghost var popped := sched.queues;

    current := RecordResponse(current, clock);
    var slice := SliceLength(current.remaining, quantum);
    clock' := clock + slice;
    current := current.(remaining := current.remaining - slice);
    run := slices + [slice];
    SumSnoc(slices, slice);
    ghost var mid := Ran(Popped(st0, i), quantum);
    assert mid == EngineState(sched.queues, next, clock', done, [current], Sum(run));

    next' := AdmitArrivals(procs, sched, next, clock');
    AdmittedUpToShape(ps, mid, next');
    ghost var after := AdmittedUpTo(ps, mid, next');
    assert after == EngineState(sched.queues, next', clock', done, [current], Sum(run));
    AdmittedShape(popped, ps, next, next');
    
    if current.remaining == 0 {
      current := Complete(current, clock');
      done' := done + [current];
      finished := true;
    } else {
      current := Demote(current, |sched.queues|);
      ghost var admitted := sched.queues;
      SameLadderUpdate(admitted, current.level, admitted[current.level].procs + [current]);
      sched.queues := sched.queues[current.level := sched.queues[current.level].Enqueue(current)];
      done' := done;
      finished := false;
    }
  }

  /** Drains level `i` (the `while` loop inside the scan): dispatches its
      head until it is empty, or, for a lower level, until a new arrival
      waits on level 0. The new state is `Drained`. `ran` tells whether
      anything was dispatched, which is the case exactly when the level was
      not empty on entry, since the loop then runs at least once. */
  method DrainLevel(procs: array<Proc>, sched: Scheduler, i: int, next: int, clock: int, done: seq<Proc>, completed: int,
                    ghost slices: seq<int>, ghost ps: seq<Proc>, ghost st0: EngineState)
    returns (next': int, clock': int, done': seq<Proc>, completed': int, ghost slices': seq<int>, ran: bool,
             ghost st: EngineState)
    requires procs[..] == ps && completed == |done| && 0 <= i < |sched.queues|
    requires st0 == EngineState(sched.queues, next, clock, done, [], Sum(slices))
    requires Inv(ps, st0) && (next == |ps| || ps[next].info.arrival > clock)
    requires PositiveQuanta(sched.queues)
    modifies sched
    ensures SameLadder(sched.queues, old(sched.queues)) && completed' == |done'|
    ensures st == EngineState(sched.queues, next', clock', done', [], Sum(slices'))
    ensures st == Drained(ps, st0, i) && clock' >= clock
    ensures sched.queues[i].procs == [] || (i != 0 && sched.queues[0].procs != [])
    ensures ran <==> st0.queues[i].procs != []
  {
    next', clock', done', completed', slices' := next, clock, done, completed, slices;
    st := st0;
    ran := !sched.queues[i].IsEmpty();
    ghost var target := Drained(ps, st0, i);
    DrainStart(ps, st0, i);
    while !sched.queues[i].IsEmpty()
      invariant completed' == |done'|
      invariant st == EngineState(sched.queues, next', clock', done', [], Sum(slices'))
      invariant DrainingTo(ps, st, i, old(sched.queues), target)
      decreases Measure(ps, st)
    {
      MeasureBound(ps, st);
      ghost var pre := st;
      next', clock', done', completed', slices', st := DrainStep(procs, sched, i, next', clock', done', completed', slices', ps, st);
      DrainOn(ps, pre, st, i, old(sched.queues), target);
      if !sched.queues[0].IsEmpty() && i != 0 {
        break;
      }
    }
    DrainedProgress(ps, st0, i);
  }

  /** Part of the way through draining level `i`: `st` is a state of the
      engine, on the ladder `ladder`, from which draining reaches `target`;
      once level `i` is empty, `st` is the target. */
  ghost predicate DrainingTo(ps: seq<Proc>, st: EngineState, i: int, ladder: seq<LevelQueue>, target: EngineState) {
    && Inv(ps, st) && st.flight == [] && PositiveQuanta(st.queues) && 0 <= i < |st.queues|
    && SameLadder(st.queues, ladder)
    && (st.next == |ps| || ps[st.next].info.arrival > st.clock)
    && Drained(ps, st, i) == target
    && (st.queues[i].procs == [] ==> st == target)
  }

  /** Draining starts from the state it is entered in. */
  lemma DrainStart(ps: seq<Proc>, st: EngineState, i: int)
    requires Inv(ps, st) && st.flight == [] && PositiveQuanta(st.queues) && 0 <= i < |st.queues|
    requires st.next == |ps| || ps[st.next].info.arrival > st.clock
    ensures DrainingTo(ps, st, i, st.queues, Drained(ps, st, i))
  {
  }

  /** Serving the head of level `i` part of the way through draining it
      either ends the draining (below level 0, when level 0 has work again)
      or leaves the draining still to go on from the new state. */
  lemma DrainOn(ps: seq<Proc>, pre: EngineState, st: EngineState, i: int, ladder: seq<LevelQueue>, target: EngineState)
    requires DrainingTo(ps, pre, i, ladder, target) && pre.queues[i].procs != []
    requires st == Served(ps, pre, i)
    ensures i != 0 && st.queues[0].procs != [] ==> st == target
    ensures !(i != 0 && st.queues[0].procs != []) ==> DrainingTo(ps, st, i, ladder, target)
  {
    DrainedStep(ps, pre, i);
    assert Rungs(st.queues) == Rungs(pre.queues) == Rungs(ladder);
    if st.queues[i].procs == [] {
      assert Drained(ps, st, i) == st;
    }
  }

  /** One turn of the drain loop: dispatches the head of the non-empty
      level `i` and counts it if it finished; the invariant is kept and the
      measure falls. */
  method DrainStep(procs: array<Proc>, sched: Scheduler, i: int, next: int, clock: int, done: seq<Proc>, completed: int,
                   ghost slices: seq<int>, ghost ps: seq<Proc>, ghost st0: EngineState)
    returns (next': int, clock': int, done': seq<Proc>, completed': int, ghost slices': seq<int>, ghost st: EngineState)
    requires procs[..] == ps && completed == |done| && 0 <= i < |sched.queues| && sched.queues[i].procs != []
    requires st0 == EngineState(sched.queues, next, clock, done, [], Sum(slices))
    requires Inv(ps, st0) && (next == |ps| || ps[next].info.arrival > clock)
    requires PositiveQuanta(sched.queues)
    modifies sched
    ensures SameLadder(sched.queues, old(sched.queues)) && completed' == |done'|
    ensures st == EngineState(sched.queues, next', clock', done', [], Sum(slices'))
    ensures Inv(ps, st) && (next' == |ps| || ps[next'].info.arrival > clock')
    ensures st == Served(ps, st0, i) && clock' >= clock
    ensures Measure(ps, st) < Measure(ps, st0)
  {
    ghost var quantum := sched.queues[i].quantum;
    HeadLevel(ps, st0, i);
    var finished;
    next', clock', done', finished, slices' := Dispatch(procs, sched, i, next, clock, done, slices, ps);
    ArrivalsUnique(ps, next, clock', next');
    DispatchKeeps(ps, st0, i, quantum, next');
    DispatchShape(ps, st0, i, quantum, next');
    st := Dispatched(ps, st0, i, quantum, next');
    completed' := completed;
    if finished {
      completed' := completed' + 1;
    }
  }

  /** Part of the way through the scan that started in `scan`: levels below
      `i` have been drained, and scanning on from `i` reaches what the whole
      scan reaches. */
  ghost predicate ScanningFrom(ps: seq<Proc>, scan: EngineState, st: EngineState, i: int, ladder: seq<LevelQueue>) {
    && Inv(ps, scan) && scan.flight == [] && PositiveQuanta(scan.queues)
    && Inv(ps, st) && st.flight == [] && PositiveQuanta(st.queues) && 0 <= i <= |st.queues|
    && SameLadder(st.queues, ladder)
    && (st.next == |ps| || ps[st.next].info.arrival > st.clock)
    && Scanned(ps, st, i) == Scanned(ps, scan, 0)
    && st.clock >= scan.clock
  }

  /** Every level above `i` is empty. */
  ghost predicate EmptyBefore(qs: seq<LevelQueue>, i: int) {
    forall k :: 0 <= k < |qs| && k < i ==> qs[k].procs == []
  }

  /** Draining level `i` part of the way through a scan leaves the scan to
      go on from level `i + 1`; it consumes work unless the level was
      empty, and then the state is unchanged. */
  lemma ScanOn(ps: seq<Proc>, scan: EngineState, pre: EngineState, st: EngineState, i: int, ladder: seq<LevelQueue>, dispatched: bool)
    requires ScanningFrom(ps, scan, pre, i, ladder) && i < |pre.queues|
    requires st == Drained(ps, pre, i)
    requires dispatched ==> Measure(ps, pre) < Measure(ps, scan)
    requires !dispatched ==> pre == scan && EmptyBefore(scan.queues, i)
    ensures ScanningFrom(ps, scan, st, i + 1, ladder)
    ensures dispatched || pre.queues[i].procs != [] ==> Measure(ps, st) < Measure(ps, scan)
    ensures !(dispatched || pre.queues[i].procs != []) ==> st == scan && EmptyBefore(scan.queues, i + 1)
  {
    ScannedStep(ps, pre, i);
    DrainedProgress(ps, pre, i);
    assert Rungs(st.queues) == Rungs(pre.queues) == Rungs(ladder);
  }

  /** One pass over the levels in priority order (the `for` loop of the
      engine), draining each in turn: the new state is the scan `Scanned`.
      `dispatched` tells whether anything was dispatched; if nothing was,
      every level was empty and the state is unchanged, otherwise the
      measure fell. */
  method ScanLevels(procs: array<Proc>, sched: Scheduler, next: int, clock: int, done: seq<Proc>, completed: int,
                    ghost slices: seq<int>, ghost ps: seq<Proc>, ghost scan: EngineState)
    returns (next': int, clock': int, done': seq<Proc>, completed': int, ghost slices': seq<int>, dispatched: bool,
             ghost st: EngineState)
    requires procs[..] == ps && completed == |done|
    requires scan == EngineState(sched.queues, next, clock, done, [], Sum(slices))
    requires Inv(ps, scan) && (next == |ps| || ps[next].info.arrival > clock)
    requires PositiveQuanta(sched.queues)
    modifies sched
    ensures SameLadder(sched.queues, old(sched.queues)) && completed' == |done'|
    ensures st == EngineState(sched.queues, next', clock', done', [], Sum(slices'))
    ensures Inv(ps, st) && (next' == |ps| || ps[next'].info.arrival > clock')
    ensures st == Scanned(ps, scan, 0) && clock' >= clock
    ensures dispatched ==> Measure(ps, st) < Measure(ps, scan)
    ensures !dispatched ==> st == scan && EmptyFrom(scan.queues, 0)
  {
    next', clock', done', completed', slices' := next, clock, done, completed, slices;
    st := scan;
    dispatched := false;
    for i := 0 to |sched.queues|
      invariant completed' == |done'|
      invariant st == EngineState(sched.queues, next', clock', done', [], Sum(slices'))
      invariant ScanningFrom(ps, scan, st, i, old(sched.queues))
      invariant dispatched ==> Measure(ps, st) < Measure(ps, scan)
      invariant !dispatched ==> st == scan && EmptyBefore(scan.queues, i)
    {
      var ran;
      ghost var pre := st;
      next', clock', done', completed', slices', ran, st := DrainLevel(procs, sched, i, next', clock', done', completed', slices', ps, st);
      ScanOn(ps, scan, pre, st, i, old(sched.queues), dispatched);
      dispatched := dispatched || ran;
    }
  }

  /** The admission step of a round: every input that has arrived by the
      clock joins level 0, in arrival order. */
  method AdmitStage(procs: array<Proc>, sched: Scheduler, next: int, clock: int, ghost ps: seq<Proc>, ghost st0: EngineState)
    returns (next': int, ghost st: EngineState)
    requires procs[..] == ps && |sched.queues| > 0
    requires st0.queues == sched.queues && st0.next == next && st0.clock == clock && Inv(ps, st0)
    modifies sched
    ensures SameLadder(sched.queues, old(sched.queues)) && |sched.queues| == |old(sched.queues)|
    ensures next <= next' <= |ps|
    ensures sched.queues[0].procs == old(sched.queues[0].procs) + ps[next..next']
    ensures st == st0.(queues := sched.queues, next := next') && st == Admission(ps, st0)
    ensures Inv(ps, st) && (next' == |ps| || ps[next'].info.arrival > clock)
  {
    next' := AdmitArrivals(procs, sched, next, clock);
    AdmitMany(ps, st0, next');
    AdmittedUpToShape(ps, st0, next');
    AdmittedShape(st0.queues, ps, st0.next, next');
    ArrivalsUnique(ps, next, clock, next');
    st := AdmittedUpTo(ps, st0, next');
  }

  /** The scan of a round followed, when no level had work, by the idle
      tick: the new state is `Turn`. */
  method ScanOrTick(procs: array<Proc>, sched: Scheduler, next: int, clock: int, done: seq<Proc>, completed: int,
                    ghost slices: seq<int>, ghost ps: seq<Proc>, ghost scan: EngineState)
    returns (next': int, clock': int, done': seq<Proc>, completed': int, ghost slices': seq<int>, ghost st: EngineState)
    requires procs[..] == ps && completed == |done|
    requires scan == EngineState(sched.queues, next, clock, done, [], Sum(slices))
    requires Inv(ps, scan) && (next == |ps| || ps[next].info.arrival > clock)
    requires PositiveQuanta(sched.queues)
    modifies sched
    ensures SameLadder(sched.queues, old(sched.queues)) && completed' == |done'|
    ensures st == EngineState(sched.queues, next', clock', done', [], Sum(slices'))
    ensures st == Turn(ps, scan) && clock' >= clock
  {
    var dispatched;
    next', clock', done', completed', slices', dispatched, st := ScanLevels(procs, sched, next, clock, done, completed, slices, ps, scan);
    if dispatched {
      ScannedProgress(ps, scan, 0);
    } else {
      Tick(ps, st);
      st := st.(clock := st.clock + 1);
      clock' := clock' + 1;
    }
  }

  /** One round of the engine loop: admit the arrivals, scan the levels,
      and tick the clock when no level had work. A round either consumes
      work or leaves everything but the clock as it was, with the next
      arrival still in the future. */
  method Round(procs: array<Proc>, sched: Scheduler, next: int, clock: int, done: seq<Proc>, completed: int,
               ghost slices: seq<int>, ghost ps: seq<Proc>, ghost ladder: seq<LevelQueue>, ghost st0: EngineState)
    returns (next': int, clock': int, done': seq<Proc>, completed': int, ghost slices': seq<int>, ghost st: EngineState)
    requires procs[..] == ps && completed == |done| && completed < |ps|
    requires SameLadder(sched.queues, ladder) && ReadyLadder(ladder) && PositiveQuanta(sched.queues)
    requires st0 == EngineState(sched.queues, next, clock, done, [], Sum(slices))
    requires Inv(ps, st0)
    modifies sched
    ensures SameLadder(sched.queues, ladder) && completed' == |done'|
    ensures st == EngineState(sched.queues, next', clock', done', [], Sum(slices'))
    ensures Inv(ps, st) && st == Rounded(ps, st0) && clock' >= clock
    ensures Measure(ps, st) < Measure(ps, st0)
         || (Measure(ps, st) == Measure(ps, st0) && next' == next < |ps| && clock' == clock + 1
             && ps[next].info.arrival > clock)
  {
    SameLadderQuanta(sched.queues, ladder);
    ghost var scan;
    next', scan := AdmitStage(procs, sched, next, clock, ps, st0);
    SameLadderQuanta(sched.queues, ladder);
    next', clock', done', completed', slices', st := ScanOrTick(procs, sched, next', clock, done, completed, slices, ps, scan);
    RoundProgress(ps, st0);
  }

  /** The engine loop: admits arrivals, scans the levels top-down and
      advances the clock by one tick when no level had work, until every
      process has completed. `done` holds the completed processes in
      completion order, which is what `Run` reaches; `slices` the length of
      every dispatched slice. */
  method Simulate(procs: array<Proc>, sched: Scheduler, ghost ps: seq<Proc>) returns (done: seq<Proc>, ghost slices: seq<int>)
    requires procs[..] == ps
    requires ReadyLadder(sched.queues)
    requires Inv(ps, EngineState(sched.queues, 0, 0, [], [], 0))
    modifies sched
    ensures sched.queues == old(sched.queues)
    ensures done == Run(ps, EngineState(old(sched.queues), 0, 0, [], [], 0)).done
    ensures Bag(done) == Bag(ps)
    ensures forall i :: 0 <= i < |done| ==> Finished(done[i])
    ensures Sum(slices) == SumOf(ps, BurstOf)
  {
    var clock, completed := 0, 0;
    var n := procs.Length;
    done := [];
    ghost var ladder := sched.queues;
    var next := 0;
    slices := [];
    ghost var st := EngineState(sched.queues, next, clock, done, [], Sum(slices));
    ghost var start := st;
    while completed < n
      invariant procs[..] == ps
      invariant SameLadder(sched.queues, ladder) && PositiveQuanta(sched.queues)
      invariant completed == |done|
      invariant st == EngineState(sched.queues, next, clock, done, [], Sum(slices))
      invariant Inv(ps, st) && Run(ps, st) == Run(ps, start)
      decreases Measure(ps, st), if next < n then ps[next].info.arrival - clock else 0
      modifies sched
    {
      MeasureBound(ps, st);
      RunStep(ps, st);
      next, clock, done, completed, slices, st := Round(procs, sched, next, clock, done, completed, slices, ps, ladder, st);
      SameLadderQuanta(sched.queues, ladder);
    }

    AllDone(ps, st);
    SameLadderEmpty(sched.queues, ladder);
    assert DoneFinished(done, clock);
  }

  /** The simulation half of `MLFQ`: sorts the input by arrival time, then
      runs the engine loop from the starting state. `done` is what `Run`
      completes, in completion order. */
  method Schedule(procs: array<Proc>, sched: Scheduler) returns (done: seq<Proc>, ghost slices: seq<int>)
    requires ReadyLadder(sched.queues)
    requires forall j :: 0 <= j < procs.Length ==> Fresh(procs[j]) && procs[j].info.burst >= 0
    modifies procs, sched
    ensures SortedBy(procs[..], ArrivalLess) && multiset(procs[..]) == old(multiset(procs[..]))
    ensures sched.queues == old(sched.queues)
    ensures Inv(procs[..], EngineState(sched.queues, 0, 0, [], [], 0))
    ensures done == Run(procs[..], EngineState(sched.queues, 0, 0, [], [], 0)).done
    ensures Bag(done) == Bag(old(procs[..]))
    ensures forall i :: 0 <= i < |done| ==> Finished(done[i])
    ensures Sum(slices) == SumOf(old(procs[..]), BurstOf)
  {
    ArrivalLessIsStrictWeakOrder();
    InsertionSort(procs, ArrivalLess);
    ghost var ps := procs[..];
    StartEngine(old(procs[..]), ps, sched.queues);
    done, slices := Simulate(procs, sched, ps);
    BagPermutation(ps, old(procs[..]));
    SumOfPermutation(ps, old(procs[..]), BurstOf);
  }

  /** Runs the MLFQ simulation over `procs` on the ladder `sched`, then builds
      the report (rows sorted by label, metric totals). The rows are the
      processes `Run` completes, reordered; `slices` records the length of
      every slice dispatched. */
  method Mlfq(procs: array<Proc>, sched: Scheduler) returns (rows: seq<Proc>, totals: Totals, ghost slices: seq<int>)
    requires ReadyLadder(sched.queues)
    requires forall j :: 0 <= j < procs.Length ==> Fresh(procs[j]) && procs[j].info.burst >= 0
    modifies procs, sched
    ensures SortedBy(procs[..], ArrivalLess) && multiset(procs[..]) == old(multiset(procs[..]))
    ensures sched.queues == old(sched.queues)
    ensures Inv(procs[..], EngineState(sched.queues, 0, 0, [], [], 0))
    ensures multiset(rows) == multiset(Run(procs[..], EngineState(sched.queues, 0, 0, [], [], 0)).done)
    ensures Bag(rows) == Bag(old(procs[..]))
    ensures forall i :: 0 <= i < |rows| ==> Finished(rows[i])
    ensures SortedBy(rows, TagLess)
    ensures totals == MetricTotals(rows)
    ensures Sum(slices) == SumOf(old(procs[..]), BurstOf)
  {
    var done;
    done, slices := Schedule(procs, sched);
    rows, totals := Report(done);
    ReportRows(done, rows);
  }

  /** The call `printResultados(done)`: the completed processes are copied
      into the vector the report sorts, then sorted by label and summed. */
  method Report(done: seq<Proc>) returns (rows: seq<Proc>, totals: Totals)
    ensures SortedBy(rows, TagLess) && multiset(rows) == multiset(done)
    ensures totals == MetricTotals(rows)
  {
    var report := new Proc[|done|](k requires 0 <= k < |done| => done[k]);
    assert report[..] == done;
    totals := PrintResults(report);
    rows := report[..];
    MetricTotalsPermutation(rows, done);
  }

  /** The report's rows are the completed processes, reordered: they keep
      their identities, their metrics and their totals. */
  lemma ReportRows(done: seq<Proc>, rows: seq<Proc>)
    requires multiset(rows) == multiset(done)
    requires forall i :: 0 <= i < |done| ==> Finished(done[i])
    ensures Bag(rows) == Bag(done)
    ensures forall i :: 0 <= i < |rows| ==> Finished(rows[i])
    ensures MetricTotals(rows) == MetricTotals(done)
  {
    BagPermutation(rows, done);
    MetricTotalsPermutation(rows, done);
    forall i | 0 <= i < |rows|
      ensures Finished(rows[i])
    {
      assert rows[i] in multiset(done);
    }
  }

  /** The engine's starting state satisfies the invariant: nothing admitted,
      the clock at 0, nothing run. */
  lemma StartEngine(input: seq<Proc>, ps: seq<Proc>, ladder: seq<LevelQueue>)
    requires forall j :: 0 <= j < |input| ==> Fresh(input[j]) && input[j].info.burst >= 0
    requires multiset(ps) == multiset(input)
    requires ReadyLadder(ladder)
    ensures Inv(ps, EngineState(ladder, 0, 0, [], [], 0))
  {
    forall j | 0 <= j < |ps|
      ensures Fresh(ps[j]) && ps[j].info.burst >= 0
    {
      assert ps[j] in multiset(input);
    }
    EmptyLadder(ladder);
    assert ps[..0] == [] && ps[0..] == ps;
    assert Infos([]) == [];
  }

  /** The reference ladder: four round-robin levels with quanta 3, 5, 6 and
      20. */
  method ReferenceScheduler() returns (s: Scheduler)
    ensures fresh(s)
    ensures ReadyLadder(s.queues) && |s.queues| == 4
    ensures forall k :: 0 <= k < 4 ==> s.queues[k].level == k && s.queues[k].policy == "RR"
    ensures s.queues[0].quantum == 3 && s.queues[1].quantum == 5
    ensures s.queues[2].quantum == 6 && s.queues[3].quantum == 20
  {
    s := new Scheduler();
    s.AddQueue(0, "RR", 3);
    s.AddQueue(1, "RR", 5);
    s.AddQueue(2, "RR", 6);
    s.AddQueue(3, "RR", 20);
  }
}
