/** The statistics of the analytics page (`useAnalytics`): counts by status
    and by priority, the completion rate, overdue and this-week counts, over
    the list the API client returns. */
module Analytics {
  import opened Wrappers
  import opened Tasks

  /** An object literal such as `{ pending: 3, 'in-progress': 1, completed: 2 }`
      as its entries, in the order `Object.entries` gives them. */
  type Entries = seq<(string, int)>

  /** `AnalyticsData`, without `averageCompletionTime`, which is random. */
  datatype AnalyticsData = AnalyticsData(
    totalTasks: int,
    completionRate: int,
    tasksThisWeek: int,
    overdueTasks: int,
    tasksByStatus: Entries,
    tasksByPriority: Entries)

  /** `defaultAnalytics`: every count zero. */
  const DefaultAnalytics: AnalyticsData := AnalyticsData(0, 0, 0, 0,
    [(Pending, 0), (InProgress, 0), (Completed, 0)],
    [(Low, 0), (Medium, 0), (High, 0), (Urgent, 0)])

  function SumValues(entries: Entries): int {
    if entries == [] then 0 else entries[0].1 + SumValues(entries[1..])
  }

  function Keys(entries: Entries): (r: seq<string>)
    ensures |r| == |entries|
    ensures forall i :: 0 <= i < |entries| ==> r[i] == entries[i].0
  {
    if entries == [] then [] else [entries[0].0] + Keys(entries[1..])
  }

  /** `record[key]`: the value of the first entry with that key. */
  function Lookup(entries: Entries, key: string): (r: Option<int>)
    ensures r.None? <==> key !in Keys(entries)
    ensures r.Some? ==> exists i :: 0 <= i < |entries| && entries[i] == (key, r.value)
  {
    if entries == [] then None
    else if entries[0].0 == key then Some(entries[0].1)
    else
      var r := Lookup(entries[1..], key);
      assert r.Some? ==> exists i :: 0 <= i < |entries[1..]| && entries[1..][i] == (key, r.value);
      assert Keys(entries) == [entries[0].0] + Keys(entries[1..]);
      r
  }

  function StatusEntries(ts: seq<Task>): Entries {
    [(Pending, |ByStatus(ts, Pending)|), (InProgress, |ByStatus(ts, InProgress)|),
     (Completed, |ByStatus(ts, Completed)|)]
  }

  function PriorityEntries(ts: seq<Task>): Entries {
    [(Low, |ByPriority(ts, Low)|), (Medium, |ByPriority(ts, Medium)|),
     (High, |ByPriority(ts, High)|), (Urgent, |ByPriority(ts, Urgent)|)]
  }

  lemma StatusEntriesSum(ts: seq<Task>)
    ensures Keys(StatusEntries(ts)) == [Pending, InProgress, Completed]
    ensures SumValues(StatusEntries(ts))
            == |ByStatus(ts, Pending)| + |ByStatus(ts, InProgress)| + |ByStatus(ts, Completed)|
  {
    var e := StatusEntries(ts);
    assert SumValues(e[2..]) == e[2].1 + SumValues(e[3..]);
    assert SumValues(e[1..]) == e[1].1 + SumValues(e[2..]);
    assert Keys(e[2..]) == [e[2].0] + Keys(e[3..]);
  }

  lemma PriorityEntriesSum(ts: seq<Task>)
    ensures Keys(PriorityEntries(ts)) == [Low, Medium, High, Urgent]
    ensures SumValues(PriorityEntries(ts))
            == |ByPriority(ts, Low)| + |ByPriority(ts, Medium)| + |ByPriority(ts, High)| + |ByPriority(ts, Urgent)|
  {
    var e := PriorityEntries(ts);
    assert SumValues(e[3..]) == e[3].1 + SumValues(e[4..]);
    assert SumValues(e[2..]) == e[2].1 + SumValues(e[3..]);
    assert SumValues(e[1..]) == e[1].1 + SumValues(e[2..]);
  }

  /** The metrics `calculateAnalytics` computes from a fetched list at
      instant `now` (milliseconds). */
  function ComputeAnalytics(ts: seq<Task>, now: int): (a: AnalyticsData)
    ensures a.totalTasks == |ts|
    ensures 0 <= a.completionRate <= 100
    ensures a.totalTasks == 0 ==> a.completionRate == 0
    ensures a.totalTasks > 0 ==> var c := |ByStatus(ts, Completed)|;
      2 * a.totalTasks * a.completionRate - a.totalTasks <= 200 * c < 2 * a.totalTasks * a.completionRate + a.totalTasks
    ensures a.overdueTasks == |Overdue(ts, now)| && 0 <= a.overdueTasks <= a.totalTasks
    ensures a.tasksThisWeek == |CreatedThisWeek(ts, now)| && 0 <= a.tasksThisWeek <= a.totalTasks
    ensures Keys(a.tasksByStatus) == [Pending, InProgress, Completed]
    ensures Keys(a.tasksByPriority) == [Low, Medium, High, Urgent]
    ensures SumValues(a.tasksByStatus) <= a.totalTasks
    ensures SumValues(a.tasksByStatus) == a.totalTasks <==> AllValidStatus(ts)
    ensures SumValues(a.tasksByPriority) <= a.totalTasks
    ensures SumValues(a.tasksByPriority) == a.totalTasks <==> AllValidPriority(ts)
  {
    var completed := |ByStatus(ts, Completed)|;
    StatusCountsSum(ts);
    PriorityCountsSum(ts);
    StatusEntriesSum(ts);
    PriorityEntriesSum(ts);
    PercentInRange(completed, |ts|);
    AnalyticsData(|ts|, Percent(completed, |ts|), |CreatedThisWeek(ts, now)|, |Overdue(ts, now)|,
                  StatusEntries(ts), PriorityEntries(ts))
  }

  /** Analytics of an empty list are the defaults. */
  lemma EmptyIsDefault(now: int)
    ensures ComputeAnalytics([], now) == DefaultAnalytics
  {
  }

  /** `useAnalytics()`: the current metrics and a loading flag. */
  class AnalyticsHook {
    var analytics: AnalyticsData
    var loading: bool

    constructor ()
      ensures analytics == DefaultAnalytics && loading
    {
      analytics := DefaultAnalytics;
      loading := true;
    }

    /** `calculateAnalytics()`: `fetched` is the API's list, `None` when the
        request throws, which keeps the previous metrics. */
    method CalculateAnalytics(fetched: Option<seq<Task>>, now: int)
      modifies this
      ensures !loading
      ensures analytics == if fetched.Some? then ComputeAnalytics(fetched.value, now) else old(analytics)
    {
      loading := true;
      if fetched.Some? {
        analytics := ComputeAnalytics(fetched.value, now);
      }
      loading := false;
    }
  }
}
