/** The analytics page: bar colours by priority and status, the insight
    sentences, the summary counts, the two charts and the overdue banner,
    all computed from the analytics record. */
module AnalyticsPage {
  import opened Wrappers
  import opened Tasks
  import opened Analytics
  import opened ChartCard
  import Text

  /** `getPriorityColor` */
  function PriorityColor(priority: string): (c: string)
    ensures ValidPriority(priority) <==> c != "bg-gray-500"
  {
    if priority == Urgent then "bg-red-500"
    else if priority == High then "bg-orange-500"
    else if priority == Medium then "bg-yellow-500"
    else if priority == Low then "bg-green-500"
    else "bg-gray-500"
  }

  /** Each of the four priorities has a colour of its own. */
  lemma PriorityColorsDistinct(p: string, q: string)
    requires ValidPriority(p) && ValidPriority(q) && p != q
    ensures PriorityColor(p) != PriorityColor(q)
  {
  }

  /** `getStatusColor`: pending shares the grey of an unknown status. */
  function StatusColor(status: string): (c: string)
    ensures c == "bg-gray-500" <==> status != Completed && status != InProgress
  {
    if status == Completed then "bg-green-500"
    else if status == InProgress then "bg-blue-500"
    else "bg-gray-500"
  }

  datatype InsightKind = Goal | Time | Weekly

  const Excellent: string := " Excellent work!"
  const GoodProgress: string := " Good progress!"
  const RoomForImprovement: string := " Room for improvement!"
  const VeryEfficient: string := " Very efficient!"
  const GoodPace: string := " Good pace!"
  const BreakDown: string := " Consider breaking down larger tasks."
  const HighProductivity: string := " High productivity!"
  const Steady: string := " Steady progress!"
  const PlanMore: string := " Consider planning more tasks."

  /** `getInsightMessage(type, value)`: three bands per kind; a higher
      completion rate or weekly count, or a lower completion time, never
      gets a lesser message. */
  function InsightMessage(kind: InsightKind, value: int): (m: string)
    ensures kind == Goal ==> ((m == Excellent <==> value >= 80)
      && (m == GoodProgress <==> 60 <= value < 80) && (m == RoomForImprovement <==> value < 60))
    ensures kind == Time ==> ((m == VeryEfficient <==> value <= 3)
      && (m == GoodPace <==> 3 < value <= 7) && (m == BreakDown <==> value > 7))
    ensures kind == Weekly ==> ((m == HighProductivity <==> value >= 5)
      && (m == Steady <==> 2 <= value < 5) && (m == PlanMore <==> value < 2))
  {
    match kind
    case Goal => if value >= 80 then Excellent else if value >= 60 then GoodProgress else RoomForImprovement
    case Time => if value <= 3 then VeryEfficient else if value <= 7 then GoodPace else BreakDown
    case Weekly => if value >= 5 then HighProductivity else if value >= 2 then Steady else PlanMore
  }

  /** The rank of a message within its kind: 2 for the best band. */
  function Tier(kind: InsightKind, value: int): (t: nat)
    ensures t <= 2
  {
    var m := InsightMessage(kind, value);
    if m == Excellent || m == VeryEfficient || m == HighProductivity then 2
    else if m == GoodProgress || m == GoodPace || m == Steady then 1
    else 0
  }

  /** Improving the measure never lowers the message. */
  lemma InsightMonotone(kind: InsightKind, v: int, w: int)
    requires v <= w
    ensures kind != Time ==> Tier(kind, v) <= Tier(kind, w)
    ensures kind == Time ==> Tier(kind, w) <= Tier(kind, v)
  {
  }

  const GoalLead: string := "You're completing "
  const GoalMiddle: string := "% of your tasks."
  const WeeklyMiddle: string := " tasks created this week."

  /** The "Goal Achievement" card's text. */
  function GoalDescription(rate: int): string {
    GoalLead + Text.NumberText(rate) + GoalMiddle + InsightMessage(Goal, rate)
  }

  /** The goal card shows the rate where the number goes, and ends with the
      insight for that rate. */
  lemma GoalDescriptionShows(rate: int)
    ensures var d := GoalDescription(rate); var k := |Text.NumberText(rate)|;
      |GoalLead| + k <= |d| && Text.ReadNumber(d[|GoalLead|..|GoalLead| + k]) == rate
    ensures var d := GoalDescription(rate); var m := InsightMessage(Goal, rate);
      |m| <= |d| && d[|d| - |m|..] == m
  {
    var n := Text.NumberText(rate);
    var m := InsightMessage(Goal, rate);
    var d := GoalDescription(rate);
    assert d == GoalLead + n + (GoalMiddle + m);
    assert d[|GoalLead|..|GoalLead| + |n|] == n;
    assert d == (GoalLead + n + GoalMiddle) + m;
    Text.NumberTextRoundTrip(rate);
  }

  /** The "Weekly Trend" card's text. */
  function WeeklyDescription(count: int): string {
    Text.NumberText(count) + WeeklyMiddle + InsightMessage(Weekly, count)
  }

  /** The weekly card opens with the count and ends with its insight. */
  lemma WeeklyDescriptionShows(count: int)
    ensures var d := WeeklyDescription(count); var k := |Text.NumberText(count)|;
      k <= |d| && Text.ReadNumber(d[..k]) == count
    ensures var d := WeeklyDescription(count); var m := InsightMessage(Weekly, count);
      |m| <= |d| && d[|d| - |m|..] == m
  {
    var n := Text.NumberText(count);
    var m := InsightMessage(Weekly, count);
    var d := WeeklyDescription(count);
    assert d == n + (WeeklyMiddle + m);
    assert d[..|n|] == n;
    assert d == (n + WeeklyMiddle) + m;
    Text.NumberTextRoundTrip(count);
  }

  /** The "Completion Rate" metric card's value. */
  function CompletionRateText(rate: int): (t: string)
    ensures |t| >= 2 && t[|t| - 1] == '%'
    ensures Text.ReadNumber(t[..|t| - 1]) == rate
  {
    var n := Text.NumberText(rate);
    Text.NumberTextRoundTrip(rate);
    assert (n + "%")[..|n|] == n;
    n + "%"
  }

  /** `summaryData`: the total, then the three status counts read from the
      record with a missing key as 0. */
  function SummaryData(a: AnalyticsData): (s: seq<(string, int)>)
    ensures |s| == 4 && s[0] == ("Total Tasks", a.totalTasks)
    ensures s[1].0 == "To Do" && s[2].0 == "In Progress" && s[3].0 == "Completed"
    ensures Pending !in Keys(a.tasksByStatus) ==> s[1].1 == 0
    ensures Pending in Keys(a.tasksByStatus) ==> (Pending, s[1].1) in a.tasksByStatus
    ensures InProgress !in Keys(a.tasksByStatus) ==> s[2].1 == 0
    ensures InProgress in Keys(a.tasksByStatus) ==> (InProgress, s[2].1) in a.tasksByStatus
    ensures Completed !in Keys(a.tasksByStatus) ==> s[3].1 == 0
    ensures Completed in Keys(a.tasksByStatus) ==> (Completed, s[3].1) in a.tasksByStatus
  {
    [("Total Tasks", a.totalTasks),
     ("To Do", Lookup(a.tasksByStatus, Pending).GetOr(0)),
     ("In Progress", Lookup(a.tasksByStatus, InProgress).GetOr(0)),
     ("Completed", Lookup(a.tasksByStatus, Completed).GetOr(0))]
  }

  /** On computed analytics the summary shows the per-status counts, which
      add up to the total exactly when every task has a known status. */
  lemma SummaryOfComputed(ts: seq<Task>, now: int)
    ensures var s := SummaryData(ComputeAnalytics(ts, now));
      s[0].1 == |ts| && s[1].1 == |ByStatus(ts, Pending)|
      && s[2].1 == |ByStatus(ts, InProgress)| && s[3].1 == |ByStatus(ts, Completed)|
      && (s[1].1 + s[2].1 + s[3].1 == s[0].1 <==> AllValidStatus(ts))
  {
    StatusCountsSum(ts);
  }

  /** The status chart's labels: the first '-' of the key becomes a space. */
  function StatusLabel(key: string): string {
    Text.ReplaceFirst(key, '-', ' ')
  }

  /** The "Tasks by Priority" chart. */
  function PriorityChart(a: AnalyticsData): seq<ChartEntry> {
    ChartData(a.tasksByPriority, a.totalTasks, PriorityColor, None)
  }

  /** The "Tasks by Status" chart. */
  function StatusChart(a: AnalyticsData): seq<ChartEntry> {
    ChartData(a.tasksByStatus, a.totalTasks, StatusColor, Some(StatusLabel))
  }

  /** On computed analytics the status chart has the three status bars, in
      order and labelled for display, and its completed bar is the
      completion rate. */
  lemma StatusChartOfComputed(ts: seq<Task>, now: int)
    ensures var c := StatusChart(ComputeAnalytics(ts, now));
      |c| == 3 && c[0].caption == "pending" && c[1].caption == "in progress"
      && c[2].caption == "completed" && c[2].percentage == ComputeAnalytics(ts, now).completionRate
  {
    var a := ComputeAnalytics(ts, now);
    assert a.tasksByStatus == StatusEntries(ts) && a.totalTasks == |ts|;
    StatusLabels();
    CompletedBar(ts);
  }

  lemma StatusLabels()
    ensures StatusLabel(Pending) == "pending" && StatusLabel(InProgress) == "in progress"
    ensures StatusLabel(Completed) == "completed"
  {
    NoDashToReplace();
    InProgressLabel();
  }

  lemma InProgressLabel()
    ensures StatusLabel(InProgress) == "in progress"
  {
    InProgressSpaced();
  }

  lemma CompletedBar(ts: seq<Task>)
    ensures var c := ChartData(StatusEntries(ts), |ts|, StatusColor, Some(StatusLabel));
      |c| == 3 && c[0].caption == StatusLabel(Pending) && c[1].caption == StatusLabel(InProgress)
      && c[2].caption == StatusLabel(Completed) && c[2].percentage == Percent(|ByStatus(ts, Completed)|, |ts|)
  {
    var e := StatusEntries(ts);
    var c := ChartData(e, |ts|, StatusColor, Some(StatusLabel));
    assert e[2] == (Completed, |ByStatus(ts, Completed)|);
    if |ts| > 0 {
      PercentUnique(|ByStatus(ts, Completed)|, |ts|, c[2].percentage);
    }
  }

  /** On computed analytics every bar of both charts is between 0% and 100%. */
  lemma ChartsInRange(ts: seq<Task>, now: int)
    ensures forall e :: e in StatusChart(ComputeAnalytics(ts, now)) ==> 0 <= e.percentage <= 100
    ensures forall e :: e in PriorityChart(ComputeAnalytics(ts, now)) ==> 0 <= e.percentage <= 100
  {
    var a := ComputeAnalytics(ts, now);
    assert a.tasksByStatus == StatusEntries(ts) && a.tasksByPriority == PriorityEntries(ts);
    assert a.totalTasks == |ts|;
    StatusBarsInRange(ts);
    PriorityBarsInRange(ts);
  }

  lemma StatusBarsInRange(ts: seq<Task>)
    ensures forall e :: e in ChartData(StatusEntries(ts), |ts|, StatusColor, Some(StatusLabel)) ==> 0 <= e.percentage <= 100
  {
    StatusEntriesSum(ts);
    StatusCountsSum(ts);
    BarsInRange(StatusEntries(ts), |ts|, StatusColor, Some(StatusLabel));
  }

  lemma PriorityBarsInRange(ts: seq<Task>)
    ensures forall e :: e in ChartData(PriorityEntries(ts), |ts|, PriorityColor, None) ==> 0 <= e.percentage <= 100
  {
    PriorityEntriesSum(ts);
    PriorityCountsSum(ts);
    BarsInRange(PriorityEntries(ts), |ts|, PriorityColor, None);
  }

  const ReviewAdvice: string := " Consider reviewing and updating the due dates or completing these tasks soon."

  /** The "Action Required" text: shown only when something is overdue,
      with the plural for more than one. */
  function OverdueBanner(overdue: int): (b: Option<string>)
    ensures b.Some? <==> overdue > 0
  {
    if overdue > 0 then
      Some("You have " + Text.NumberText(overdue) + " overdue task" + (if overdue > 1 then "s" else "")
           + "." + ReviewAdvice)
    else None
  }

  /** The banner reads back the count it shows and is plural exactly when
      the count is above one. */
  lemma OverdueBannerCount(overdue: int)
    requires overdue > 0
    ensures var digits := Text.Decimal(overdue);
      var head := "You have " + digits + " overdue task";
      OverdueBanner(overdue).value[..|head|] == head
      && Text.DecimalValue(digits) == overdue
      && (OverdueBanner(overdue).value[|head|] == 's' <==> overdue > 1)
  {
    Text.DecimalRoundTrip(overdue);
    var head := "You have " + Text.Decimal(overdue) + " overdue task";
    var tail := "." + ReviewAdvice;
    var plural := if overdue > 1 then "s" else "";
    assert OverdueBanner(overdue).value == head + (plural + tail);
    assert tail[0] == '.';
    assert (plural + tail)[0] == 's' <==> overdue > 1;
  }
}
