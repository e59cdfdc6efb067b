/** The data model of the MLFQ simulator: a `proceso` with its fixed inputs and
    its runtime state, a level queue (`Cola`), the ladder of queues
    (`Scheduler`), the per-dispatch updates the engine applies to a process,
    and sums and identity bags over sequences of processes. */
module MlfqProcess {

  /** The fixed inputs of a process: tag (the label), burst time, arrival time, the
      initial queue hint and the priority (the last two are carried along but
      never affect scheduling). */
  datatype ProcInfo = ProcInfo(tag: string, burst: int, arrival: int, queueHint: int, priority: int)

  /** A process: its fixed inputs, the four metrics (completion, turnaround,
      waiting and response time), the remaining time, the current level and
      the first-dispatch flag. */
  datatype Proc = Proc(
    info: ProcInfo,
    completion: int,
    turnaround: int,
    waiting: int,
    response: int,
    remaining: int,
    level: int,
    firstRun: bool)

  /** A process as the constructor leaves it: nothing run yet. */
  predicate Fresh(p: Proc) {
    && p.remaining == p.info.burst
    && p.level == 0
    && p.firstRun
    && p.completion == 0 && p.turnaround == 0 && p.waiting == 0 && p.response == 0
  }

  /** The process constructor: all metrics zero, the whole burst still to run,
      level 0, not yet dispatched. */
  function NewProc(tag: string, burst: int, arrival: int, queueHint: int, priority: int): (p: Proc)
    ensures Fresh(p)
    ensures p.info == ProcInfo(tag, burst, arrival, queueHint, priority)
  {
    Proc(ProcInfo(tag, burst, arrival, queueHint, priority), 0, 0, 0, 0, burst, 0, true)
  }

  /** A level queue: a FIFO of process values with its level, policy tag and
      quantum. */
  datatype LevelQueue = LevelQueue(level: int, policy: string, quantum: int, procs: seq<Proc>) {

    predicate IsEmpty() {
      procs == []
    }

    function Enqueue(p: Proc): LevelQueue {
      this.(procs := procs + [p])
    }
  }

  /** The ladder of level queues, level 0 (highest priority) first. */
  class Scheduler {
    var queues: seq<LevelQueue>

    constructor ()
      ensures queues == []
    {
      queues := [];
    }

    /** Appends an empty queue with the given level, policy and quantum. */
    method AddQueue(level: int, policy: string, quantum: int)
      modifies this
      ensures queues == old(queues) + [LevelQueue(level, policy, quantum, [])]
    {
      queues := queues + [LevelQueue(level, policy, quantum, [])];
    }
  }

  // ---------------------------------------------------------------------------
  // What one dispatch does to the dispatched process

  /** On the first dispatch the response time is set to the clock (the
      absolute clock, not clock minus arrival) and the flag is cleared; later
      dispatches leave the process alone. */
  function RecordResponse(p: Proc, clock: int): (r: Proc)
    ensures !r.firstRun
    ensures r.response == (if p.firstRun then clock else p.response)
    ensures r.(response := p.response, firstRun := p.firstRun) == p
  {
    if p.firstRun then p.(response := clock, firstRun := false) else p
  }

  /** The response time is written once: a second dispatch does not move it. */
  lemma ResponseRecordedOnce(p: Proc, c1: int, c2: int)
    ensures RecordResponse(RecordResponse(p, c1), c2) == RecordResponse(p, c1)
  {
  }

  /** The slice a dispatch runs: `min(remaining, quantum)`. */
  function SliceLength(remaining: int, quantum: int): (s: int)
    ensures s <= remaining && s <= quantum
    ensures s == remaining || s == quantum
  {
    if remaining < quantum then remaining else quantum
  }

  /** A process that is not done moves one level down, unless it is already
      on the lowest of `levels` levels. Nothing else about it changes. */
  function Demote(p: Proc, levels: int): (r: Proc)
    ensures p.level <= r.level <= p.level + 1
    ensures r.level == p.level <==> p.level >= levels - 1
    ensures p.level <= levels - 1 ==> r.level <= levels - 1
    ensures r.(level := p.level) == p
  {
    if p.level < levels - 1 then p.(level := p.level + 1) else p
  }

  /** Completion at `clock`: completion time, then turnaround and waiting time
      derived from it. Only those three metrics change. */
  function Complete(p: Proc, clock: int): (r: Proc)
    ensures r.completion == clock
    ensures r.turnaround == r.completion - r.info.arrival && r.waiting == r.turnaround - r.info.burst
    ensures r.(completion := p.completion, turnaround := p.turnaround, waiting := p.waiting) == p
  {
    var tat := clock - p.info.arrival;
    p.(completion := clock, turnaround := tat, waiting := tat - p.info.burst)
  }

  /** A process that has been admitted and has not yet completed, at `clock`:
      the work it has done (`burst - remaining`) fits between its arrival and
      the clock, and, once dispatched, between its response time and the
      clock. */
  ghost predicate Live(p: Proc, clock: int) {
    && 0 <= p.remaining <= p.info.burst
    && p.info.arrival + (p.info.burst - p.remaining) <= clock
    && (p.firstRun ==> p.remaining == p.info.burst)
    && (!p.firstRun ==> p.info.arrival <= p.response && p.response + (p.info.burst - p.remaining) <= clock)
  }

  /** A completed process: the metric identities hold, waiting time is not
      negative, and the whole burst ran between response and completion. */
  ghost predicate Finished(p: Proc) {
    && p.remaining == 0
    && !p.firstRun
    && p.turnaround == p.completion - p.info.arrival
    && p.waiting == p.turnaround - p.info.burst
    && p.waiting >= 0
    && p.info.arrival <= p.response
    && p.response + p.info.burst <= p.completion
  }

  /** A live process whose remaining time has reached 0, completed at the
      current clock, satisfies every metric identity. */
  lemma CompleteIsFinished(p: Proc, clock: int)
    requires Live(p, clock) && !p.firstRun && p.remaining == 0
    ensures Finished(Complete(p, clock))
    ensures Complete(p, clock).completion >= p.info.arrival + p.info.burst
  {
  }

  /** One slice keeps a live process live at the advanced clock. */
  lemma SliceKeepsLive(p: Proc, clock: int, quantum: int)
    requires Live(p, clock) && quantum > 0
    ensures var q := RecordResponse(p, clock);
            var s := SliceLength(q.remaining, quantum);
            0 <= s && (s == 0 <==> p.remaining == 0) &&
            Live(q.(remaining := q.remaining - s), clock + s)
  {
  }

  // ---------------------------------------------------------------------------
  // Sums and identity bags over sequences of processes

  function BurstOf(p: Proc): int { p.info.burst }
  function ArrivalOf(p: Proc): int { p.info.arrival }
  function CompletionOf(p: Proc): int { p.completion }
  function TurnaroundOf(p: Proc): int { p.turnaround }
  function WaitingOf(p: Proc): int { p.waiting }
  function ResponseOf(p: Proc): int { p.response }

  /** The sum of `f` over `s`. */
  function SumOf(s: seq<Proc>, f: Proc -> int): int {
    if s == [] then 0 else SumOf(s[..|s| - 1], f) + f(s[|s| - 1])
  }

  lemma {:induction false} SumOfConcat(a: seq<Proc>, b: seq<Proc>, f: Proc -> int)
    ensures SumOf(a + b, f) == SumOf(a, f) + SumOf(b, f)
  {
    if b != [] {
      assert (a + b)[..|a + b| - 1] == a + b[..|b| - 1];
      SumOfConcat(a, b[..|b| - 1], f);
    } else {
      assert a + b == a;
    }
  }

  function RemainingOf(p: Proc): int { p.remaining }

  /** The work still to run: the remaining times of `s`, summed. */
  function Work(s: seq<Proc>): int {
    SumOf(s, RemainingOf)
  }

  lemma WorkOne(p: Proc)
    ensures Work([p]) == p.remaining
  {
    assert [p][..0] == [];
    assert SumOf([p], RemainingOf) == SumOf([], RemainingOf) + RemainingOf(p);
  }

  lemma WorkConcat(a: seq<Proc>, b: seq<Proc>)
    ensures Work(a + b) == Work(a) + Work(b)
  {
    SumOfConcat(a, b, RemainingOf);
  }

  /** Work is not negative when no remaining time is. */
  lemma {:induction false} WorkNonNegative(s: seq<Proc>)
    requires forall i :: 0 <= i < |s| ==> s[i].remaining >= 0
    ensures Work(s) >= 0
  {
    if s != [] {
      WorkNonNegative(s[..|s| - 1]);
    }
  }

  /** Before anything has run, the work is the total burst. */
  lemma {:induction false} WorkIsBurst(s: seq<Proc>)
    requires forall i :: 0 <= i < |s| ==> s[i].remaining == s[i].info.burst
    ensures Work(s) == SumOf(s, BurstOf)
  {
    if s != [] {
      WorkIsBurst(s[..|s| - 1]);
    }
  }

  /** Removing the last element of `a` and its match in `b` keeps two
      permutations of each other. */
  lemma PermutationSplit(a: seq<Proc>, b: seq<Proc>) returns (j: nat)
    requires multiset(a) == multiset(b) && a != []
    ensures j < |b| && b[j] == a[|a| - 1]
    ensures multiset(a[..|a| - 1]) == multiset(b[..j] + b[j + 1..])
  {
    var x := a[|a| - 1];
    var a' := a[..|a| - 1];
    assert a == a' + [x];
    assert x in multiset(b);
    j :| 0 <= j < |b| && b[j] == x;
    var b' := b[..j] + b[j + 1..];
    assert b == b[..j] + [x] + b[j + 1..];
    assert multiset(b) == multiset(b[..j]) + multiset{x} + multiset(b[j + 1..]);
    assert multiset(a) == multiset(a') + multiset{x};
    assert multiset(b') == multiset(b[..j]) + multiset(b[j + 1..]);
    assert multiset(a') == multiset(a) - multiset{x};
    assert multiset(b') == multiset(b) - multiset{x};
  }

  /** A sum does not depend on the order of its terms. */
  lemma {:induction false} SumOfPermutation(a: seq<Proc>, b: seq<Proc>, f: Proc -> int)
    requires multiset(a) == multiset(b)
    ensures SumOf(a, f) == SumOf(b, f)
    decreases |a|
  {
    if a == [] {
      assert |b| == |multiset(b)| == 0;
    } else {
      var j := PermutationSplit(a, b);
      var x := b[j];
      SumOfPermutation(a[..|a| - 1], b[..j] + b[j + 1..], f);
      SumOfConcat(b[..j], [x] + b[j + 1..], f);
      SumOfConcat([x], b[j + 1..], f);
      SumOfConcat(b[..j], b[j + 1..], f);
      assert b[..j] + ([x] + b[j + 1..]) == b;
    }
  }

  /** The identities (fixed inputs) of the processes in `s`, in order. */
  function Infos(s: seq<Proc>): (r: seq<ProcInfo>)
    ensures |r| == |s| && forall i :: 0 <= i < |s| ==> r[i] == s[i].info
  {
    seq(|s|, i requires 0 <= i < |s| => s[i].info)
  }

  /** The identities of the processes in `s`, as a multiset. */
  function Bag(s: seq<Proc>): multiset<ProcInfo> {
    multiset(Infos(s))
  }

  lemma BagConcat(a: seq<Proc>, b: seq<Proc>)
    ensures Bag(a + b) == Bag(a) + Bag(b)
  {
    assert Infos(a + b) == Infos(a) + Infos(b);
  }

  lemma BagSnoc(s: seq<Proc>, x: Proc)
    ensures Bag(s + [x]) == Bag(s) + multiset{x.info}
  {
    assert Infos(s + [x]) == Infos(s) + [x.info];
  }

  lemma BagOne(x: Proc)
    ensures Bag([x]) == multiset{x.info}
  {
    assert Infos([x]) == [x.info];
  }

  /** Permuting processes does not change their identities. */
  lemma {:induction false} BagPermutation(a: seq<Proc>, b: seq<Proc>)
    requires multiset(a) == multiset(b)
    ensures Bag(a) == Bag(b)
    decreases |a|
  {
    if a == [] {
      assert |b| == |multiset(b)| == 0;
    } else {
      var j := PermutationSplit(a, b);
      var x := b[j];
      var a', b' := a[..|a| - 1], b[..j] + b[j + 1..];
      BagPermutation(a', b');
      assert Infos(a) == Infos(a') + [x.info];
      assert Infos(b) == Infos(b[..j]) + [x.info] + Infos(b[j + 1..]);
      assert Infos(b') == Infos(b[..j]) + Infos(b[j + 1..]);
    }
  }
}
