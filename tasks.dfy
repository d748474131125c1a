/** The `Task` record shared by both task stores, the order-preserving filter
    every query is built from, and the rounded percentage used by the
    statistics, the analytics and the charts. */
module Tasks {
  import opened Wrappers
  import Text

  /** A calendar date 'YYYY-MM-DD' as the number of days since 1970-01-01. */
  type Day = int

  const MsPerDay: int := 86_400_000

  /** `new Date('YYYY-MM-DD')` is midnight UTC of that day, in milliseconds. */
  function DayStart(d: Day): int {
    d * MsPerDay
  }

  /** The UTC calendar date of an instant, as its ISO date string names it. */
  function DayOf(now: int): (d: Day)
    ensures DayStart(d) <= now < DayStart(d + 1)
  {
    now / MsPerDay
  }

  /** An instant falls on exactly one day: the one whose start is at most
      the instant and whose successor's start is after it. */
  lemma DayOfUnique(now: int, d: Day)
    ensures DayOf(now) == d <==> DayStart(d) <= now < DayStart(d + 1)
  {
  }

  const Pending: string := "pending"
  const InProgress: string := "in-progress"
  const Completed: string := "completed"

  /** The first '-' of "in-progress" is at index 2 and becomes a space. */
  lemma InProgressDash()
    ensures Text.ReplaceFirst(InProgress, '-', ' ') == InProgress[2 := ' ']
  {
    assert Text.FirstIndex(InProgress, '-') == 2 by {
      assert InProgress[0] == 'i' && InProgress[1] == 'n' && InProgress[2] == '-';
    }
  }

  lemma InProgressSpaced()
    ensures Text.ReplaceFirst(InProgress, '-', ' ') == "in progress"
  {
    InProgressDash();
    SpacedText();
  }

  /** "pending" and "completed" have no '-' to replace. */
  lemma NoDashToReplace()
    ensures Text.ReplaceFirst(Pending, '-', ' ') == Pending
    ensures Text.ReplaceFirst(Completed, '-', ' ') == Completed
  {
    PendingNoDash();
    Text.ReplaceFirstAbsent(Pending, '-', ' ');
    CompletedNoDash();
    Text.ReplaceFirstAbsent(Completed, '-', ' ');
  }

  lemma PendingNoDash()
    ensures '-' !in Pending
  {
  }

  lemma CompletedNoDash()
    ensures '-' !in Completed
  {
  }

  lemma SpacedText()
    ensures InProgress[2 := ' '] == "in progress"
  {
  }

  /** The declared status type; nothing checks it at run time (records come
      from parsed JSON and from casts), so the model keeps the raw string. */
  predicate ValidStatus(s: string) {
    s == Pending || s == InProgress || s == Completed
  }

  const Low: string := "low"
  const Medium: string := "medium"
  const High: string := "high"
  const Urgent: string := "urgent"

  predicate ValidPriority(p: string) {
    p == Low || p == Medium || p == High || p == Urgent
  }

  /** One unit of work. `None` is a field that is absent (or, for `due`, the
      empty string a blank date input leaves, which every rule treats alike). */
  datatype Task = Task(
    id: int,
    title: string,
    description: Option<string>,
    status: string,
    priority: string,
    due: Option<Day>,
    created: Day,
    updated: Option<Day>,
    assignedTo: Option<string>,
    tags: Option<seq<string>>)

  /** `a` is `b` with some elements left out, the rest in their order. */
  predicate IsSubsequence<T(==)>(a: seq<T>, b: seq<T>)
    decreases |b|
  {
    if a == [] then true
    else if b == [] then false
    else if a[0] == b[0] then IsSubsequence(a[1..], b[1..])
    else IsSubsequence(a, b[1..])
  }

  /** `s.filter(p)`: the elements satisfying `p`, each as often as in `s`,
      in their original order. */
  function Filter<T(==, !new)>(s: seq<T>, p: T -> bool): (r: seq<T>)
    ensures |r| <= |s|
    ensures forall x :: x in r <==> x in s && p(x)
    ensures IsSubsequence(r, s)
  {
    if s == [] then []
    else
      var rest := Filter(s[1..], p);
      if p(s[0]) then
        assert ([s[0]] + rest)[1..] == rest;
        [s[0]] + rest
      else
        rest
  }

  /** The filter keeps every passing element as many times as it occurs and
      no failing one. */
  lemma {:induction false} FilterMultiplicity<T(!new)>(s: seq<T>, p: T -> bool, x: T)
    ensures multiset(Filter(s, p))[x] == if p(x) then multiset(s)[x] else 0
  {
    if s != [] {
      FilterMultiplicity(s[1..], p, x);
      assert s == [s[0]] + s[1..];
      assert multiset(s) == multiset{s[0]} + multiset(s[1..]);
      if p(s[0]) {
        assert multiset(Filter(s, p)) == multiset{s[0]} + multiset(Filter(s[1..], p));
      }
    }
  }

  /** A filter is a no-op exactly when every element passes. */
  lemma {:induction false} FilterKeepsAll<T(!new)>(s: seq<T>, p: T -> bool)
    ensures Filter(s, p) == s <==> forall x :: x in s ==> p(x)
  {
    if s != [] && forall x :: x in s ==> p(x) {
      FilterKeepsAll(s[1..], p);
      assert Filter(s, p) == [s[0]] + Filter(s[1..], p);
    }
  }

  /** A filter that no element passes gives the empty sequence. */
  lemma {:induction false} FilterNone<T(!new)>(s: seq<T>, p: T -> bool)
    requires forall x :: x in s ==> !p(x)
    ensures Filter(s, p) == []
  {
    if s != [] {
      assert s[0] in s;
      FilterNone(s[1..], p);
    }
  }

  function ByStatus(ts: seq<Task>, status: string): seq<Task> {
    Filter(ts, (t: Task) => t.status == status)
  }

  function ByPriority(ts: seq<Task>, priority: string): seq<Task> {
    Filter(ts, (t: Task) => t.priority == priority)
  }

  function WithId(ts: seq<Task>, id: int): seq<Task> {
    Filter(ts, (t: Task) => t.id == id)
  }

  function WithoutId(ts: seq<Task>, id: int): seq<Task> {
    Filter(ts, (t: Task) => t.id != id)
  }

  function WithInvalidStatus(ts: seq<Task>): seq<Task> {
    Filter(ts, (t: Task) => !ValidStatus(t.status))
  }

  function WithInvalidPriority(ts: seq<Task>): seq<Task> {
    Filter(ts, (t: Task) => !ValidPriority(t.priority))
  }

  /** A task is overdue when it has a due date whose midnight lies strictly
      before `now` and it is not completed. */
  predicate IsOverdue(t: Task, now: int) {
    t.due.Some? && DayStart(t.due.value) < now && t.status != Completed
  }

  function Overdue(ts: seq<Task>, now: int): seq<Task> {
    Filter(ts, (t: Task) => IsOverdue(t, now))
  }

  /** Created no earlier than seven days before `now`. */
  predicate IsThisWeek(t: Task, now: int) {
    DayStart(t.created) >= now - 7 * MsPerDay
  }

  function CreatedThisWeek(ts: seq<Task>, now: int): seq<Task> {
    Filter(ts, (t: Task) => IsThisWeek(t, now))
  }

  /** A filter by a weaker predicate keeps at least as many elements. */
  lemma {:induction false} FilterWeaker<T(!new)>(s: seq<T>, p: T -> bool, q: T -> bool)
    requires forall x :: p(x) ==> q(x)
    ensures |Filter(s, p)| <= |Filter(s, q)|
  {
    if s != [] {
      FilterWeaker(s[1..], p, q);
    }
  }

  /** Filters by two predicates no element satisfies together keep no more
      elements, between them, than the sequence has. */
  lemma {:induction false} FilterDisjoint<T(!new)>(s: seq<T>, p: T -> bool, q: T -> bool)
    requires forall x :: !(p(x) && q(x))
    ensures |Filter(s, p)| + |Filter(s, q)| <= |s|
  {
    if s != [] {
      FilterDisjoint(s[1..], p, q);
    }
  }

  /** A completed task is never overdue, so the overdue and the completed
      tasks together are at most all of them; as time passes the overdue
      list only grows and the this-week list only shrinks. */
  lemma OverdueAndThisWeek(ts: seq<Task>, now: int, later: int)
    requires now <= later
    ensures forall t :: t in Overdue(ts, now) ==> t.status != Completed
    ensures |Overdue(ts, now)| + |ByStatus(ts, Completed)| <= |ts|
    ensures |Overdue(ts, now)| <= |Overdue(ts, later)|
    ensures |CreatedThisWeek(ts, later)| <= |CreatedThisWeek(ts, now)|
  {
    FilterDisjoint(ts, (t: Task) => IsOverdue(t, now), (t: Task) => t.status == Completed);
    FilterWeaker(ts, (t: Task) => IsOverdue(t, now), (t: Task) => IsOverdue(t, later));
    FilterWeaker(ts, (t: Task) => IsThisWeek(t, later), (t: Task) => IsThisWeek(t, now));
  }

  /** The first record with that id, if any. */
  function FindById(ts: seq<Task>, id: int): (r: Option<Task>)
    ensures r.None? <==> forall t :: t in ts ==> t.id != id
    ensures r.Some? ==> r.value in ts && r.value.id == id
    ensures r.Some? ==> r.value == WithId(ts, id)[0]
  {
    if ts == [] then None
    else if ts[0].id == id then
      assert WithId(ts, id) == [ts[0]] + WithId(ts[1..], id);
      Some(ts[0])
    else
      assert WithId(ts, id) == WithId(ts[1..], id);
      FindById(ts[1..], id)
  }

  predicate AllValidStatus(ts: seq<Task>) {
    forall t :: t in ts ==> ValidStatus(t.status)
  }

  predicate AllValidPriority(ts: seq<Task>) {
    forall t :: t in ts ==> ValidPriority(t.priority)
  }

  /** Every record has exactly one status, so the three per-status filters and
      the records with some other status together have the size of the list. */
  lemma {:induction false} StatusPartition(ts: seq<Task>)
    ensures |ByStatus(ts, Pending)| + |ByStatus(ts, InProgress)| + |ByStatus(ts, Completed)|
            + |WithInvalidStatus(ts)| == |ts|
  {
    if ts != [] {
      StatusPartition(ts[1..]);
      var t, rest := ts[0], ts[1..];
      assert |ByStatus(ts, Pending)| == (if t.status == Pending then 1 else 0) + |ByStatus(rest, Pending)|;
      assert |ByStatus(ts, InProgress)| == (if t.status == InProgress then 1 else 0) + |ByStatus(rest, InProgress)|;
      assert |ByStatus(ts, Completed)| == (if t.status == Completed then 1 else 0) + |ByStatus(rest, Completed)|;
      assert |WithInvalidStatus(ts)| == (if ValidStatus(t.status) then 0 else 1) + |WithInvalidStatus(rest)|;
    }
  }

  /** The per-status counts add up to the total exactly when every record has
      one of the three statuses. */
  lemma StatusCountsSum(ts: seq<Task>)
    ensures |ByStatus(ts, Pending)| + |ByStatus(ts, InProgress)| + |ByStatus(ts, Completed)| <= |ts|
    ensures |ByStatus(ts, Pending)| + |ByStatus(ts, InProgress)| + |ByStatus(ts, Completed)| == |ts|
            <==> AllValidStatus(ts)
  {
    StatusPartition(ts);
    var bad := WithInvalidStatus(ts);
    if AllValidStatus(ts) {
      FilterNone(ts, (t: Task) => !ValidStatus(t.status));
    } else {
      var t :| t in ts && !ValidStatus(t.status);
      assert t in bad;
    }
  }

  lemma {:induction false} PriorityPartition(ts: seq<Task>)
    ensures |ByPriority(ts, Low)| + |ByPriority(ts, Medium)| + |ByPriority(ts, High)|
            + |ByPriority(ts, Urgent)| + |WithInvalidPriority(ts)| == |ts|
  {
    if ts != [] {
      PriorityPartition(ts[1..]);
      var t, rest := ts[0], ts[1..];
      assert |ByPriority(ts, Low)| == (if t.priority == Low then 1 else 0) + |ByPriority(rest, Low)|;
      assert |ByPriority(ts, Medium)| == (if t.priority == Medium then 1 else 0) + |ByPriority(rest, Medium)|;
      assert |ByPriority(ts, High)| == (if t.priority == High then 1 else 0) + |ByPriority(rest, High)|;
      assert |ByPriority(ts, Urgent)| == (if t.priority == Urgent then 1 else 0) + |ByPriority(rest, Urgent)|;
      assert |WithInvalidPriority(ts)| == (if ValidPriority(t.priority) then 0 else 1) + |WithInvalidPriority(rest)|;
    }
  }

  /** The per-priority counts add up to the total exactly when every record
      has one of the four priorities. */
  lemma PriorityCountsSum(ts: seq<Task>)
    ensures |ByPriority(ts, Low)| + |ByPriority(ts, Medium)| + |ByPriority(ts, High)| + |ByPriority(ts, Urgent)| <= |ts|
    ensures |ByPriority(ts, Low)| + |ByPriority(ts, Medium)| + |ByPriority(ts, High)| + |ByPriority(ts, Urgent)| == |ts|
            <==> AllValidPriority(ts)
  {
    PriorityPartition(ts);
    var bad := WithInvalidPriority(ts);
    if AllValidPriority(ts) {
      FilterNone(ts, (t: Task) => !ValidPriority(t.priority));
    } else {
      var t :| t in ts && !ValidPriority(t.priority);
      assert t in bad;
    }
  }

  /** The rounded percentage of `value` in `total`, zero for a total that is
      not positive; on exact rationals it is 100·value/total rounded half up, i.e.
      r − 1/2 ≤ 100·value/total < r + 1/2. */
  function Percent(value: int, total: int): (r: int)
    ensures total <= 0 ==> r == 0
    ensures total > 0 ==> 2 * total * r - total <= 200 * value < 2 * total * r + total
  {
    if total > 0 then
      var n, d := 200 * value + total, 2 * total;
      assert n == d * (n / d) + n % d && 0 <= n % d < d;
      n / d
    else 0
  }

  /** The rounding band pins the result down: no other integer lies in it. */
  lemma PercentUnique(value: int, total: int, r: int)
    requires total > 0
    requires 2 * total * r - total <= 200 * value < 2 * total * r + total
    ensures r == Percent(value, total)
  {
    var p := Percent(value, total);
    assert total * (r - p - 1) < 0;
    NegativeFactor(total, r - p - 1);
    assert total * (p - r - 1) < 0;
    NegativeFactor(total, p - r - 1);
  }

  lemma NegativeFactor(t: int, k: int)
    requires t > 0 && t * k < 0
    ensures k < 0
  {
    NonNegativeProduct(t, k);
  }

  lemma NonNegativeProduct(t: int, k: int)
    requires t >= 0
    ensures k >= 0 ==> t * k >= 0
  {
  }

  /** A share of a total is a percentage between 0 and 100. */
  lemma PercentInRange(value: int, total: int)
    requires 0 <= value <= total
    ensures 0 <= Percent(value, total) <= 100
  {
    if total > 0 {
      var r := Percent(value, total);
      Distribute(total, r);
      NegativeFactor(total, 2 * r - 202);
      NegativeFactor(total, -2 * r - 1);
    }
  }

  lemma Distribute(t: int, r: int)
    ensures 2 * t * r == 2 * (t * r)
    ensures t * (2 * r - 202) == 2 * (t * r) - 202 * t
    ensures t * (-2 * r - 1) == -2 * (t * r) - t
  {
  }
}
