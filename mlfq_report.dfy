/** The computing part of `printResultados`: the completed processes are sorted
    by label and the four metrics are summed. The averages (floating-point
    divisions) and the file writing are not part of this model. */
module MlfqReport {
  import opened Sorting
  import opened MlfqProcess

  /** The four sums the report accumulates before dividing: completion,
      turnaround, waiting and response time. */
  datatype Totals = Totals(completion: int, turnaround: int, waiting: int, response: int)

  /** The report's comparator: `a.etiqueta < b.etiqueta`. */
  predicate TagLess(x: Proc, y: Proc) {
    LexLess(x.info.tag, y.info.tag)
  }

  lemma TagLessIsStrictWeakOrder()
    ensures StrictWeakOrder(TagLess)
  {
    forall x: Proc, y: Proc
      ensures TagLess(x, y) ==> !TagLess(y, x)
    {
      LexLessAsymmetric(x.info.tag, y.info.tag);
    }
    forall x: Proc, y: Proc, z: Proc
      ensures !TagLess(y, x) && !TagLess(z, y) ==> !TagLess(z, x)
    {
      LexNotLessTransitive(x.info.tag, y.info.tag, z.info.tag);
    }
  }

  /** The four sums over a sequence of completed processes. */
  function MetricTotals(s: seq<Proc>): Totals {
    Totals(SumOf(s, CompletionOf), SumOf(s, TurnaroundOf), SumOf(s, WaitingOf), SumOf(s, ResponseOf))
  }

  /** The totals do not depend on the order of the rows, so the report's
      numbers do not depend on the order in which processes completed. */
  lemma MetricTotalsPermutation(a: seq<Proc>, b: seq<Proc>)
    requires multiset(a) == multiset(b)
    ensures MetricTotals(a) == MetricTotals(b)
  {
    SumOfPermutation(a, b, CompletionOf);
    SumOfPermutation(a, b, TurnaroundOf);
    SumOfPermutation(a, b, WaitingOf);
    SumOfPermutation(a, b, ResponseOf);
  }

  /** Over completed processes the totals keep the per-process identities:
      total turnaround is total completion minus total arrival, total waiting
      is total turnaround minus total burst and is not negative, and total
      response plus total burst does not exceed total completion. */
  lemma {:induction false} TotalsIdentities(s: seq<Proc>)
    requires forall i :: 0 <= i < |s| ==> Finished(s[i])
    ensures var t := MetricTotals(s);
            && t.turnaround == t.completion - SumOf(s, ArrivalOf)
            && t.waiting == t.turnaround - SumOf(s, BurstOf)
            && t.waiting >= 0
            && t.response + SumOf(s, BurstOf) <= t.completion
  {
    if s != [] {
      TotalsIdentities(s[..|s| - 1]);
    }
  }

  /** Sorts the completed processes by label and sums their metrics. */
  method PrintResults(done: array<Proc>) returns (t: Totals)
    modifies done
    ensures SortedBy(done[..], TagLess)
    ensures multiset(done[..]) == old(multiset(done[..]))
    ensures t == MetricTotals(old(done[..]))
  {
    TagLessIsStrictWeakOrder();
    InsertionSort(done, TagLess);
    var completion, turnaround, waiting, response := 0, 0, 0, 0;
    for k := 0 to done.Length
      invariant Totals(completion, turnaround, waiting, response) == MetricTotals(done[..k])
    {
      assert done[..k + 1][..k] == done[..k];
      completion := completion + done[k].completion;
      turnaround := turnaround + done[k].turnaround;
      waiting := waiting + done[k].waiting;
      response := response + done[k].response;
    }
    t := Totals(completion, turnaround, waiting, response);
    assert done[..done.Length] == done[..];
    MetricTotalsPermutation(done[..], old(done[..]));
  }
}
