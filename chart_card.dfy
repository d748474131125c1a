/** The bar chart card (`ChartCard`): one row per entry of a count record,
    with its label, count, rounded share of the total and colour, and a
    "No data available" note when the total is zero. */
module ChartCard {
  import opened Wrappers
  import opened Tasks
  import opened Analytics

  datatype ChartEntry = ChartEntry(caption: string, value: int, percentage: int, color: string)

  /** The label of a key: `formatLabel(key)`, the key itself when the prop
      is not given. */
  function Label(formatLabel: Option<string -> string>, key: string): string {
    match formatLabel
    case None => key
    case Some(f) => f(key)
  }

  /** `Object.entries(data).map(...)`: the rows, in entry order. */
  function ChartData(data: Entries, total: int, getColor: string -> string,
                     formatLabel: Option<string -> string>): (r: seq<ChartEntry>)
    ensures |r| == |data|
    ensures forall i :: 0 <= i < |data| ==>
      r[i].caption == Label(formatLabel, data[i].0) && r[i].value == data[i].1
      && r[i].color == getColor(data[i].0)
      && (total <= 0 ==> r[i].percentage == 0)
      && (total > 0 ==> 2 * total * r[i].percentage - total <= 200 * data[i].1 < 2 * total * r[i].percentage + total)
  {
    if data == [] then []
    else
      var (key, value) := data[0];
      [ChartEntry(Label(formatLabel, key), value, Percent(value, total), getColor(key))]
        + ChartData(data[1..], total, getColor, formatLabel)
  }

  /** Without `formatLabel` the labels are the keys. */
  lemma DefaultLabels(data: Entries, total: int, getColor: string -> string)
    ensures forall i :: 0 <= i < |data| ==> ChartData(data, total, getColor, None)[i].caption == data[i].0
  {
  }

  /** With a zero total every bar is empty. */
  lemma EmptyChart(data: Entries, getColor: string -> string, formatLabel: Option<string -> string>)
    ensures forall e :: e in ChartData(data, 0, getColor, formatLabel) ==> e.percentage == 0
  {
  }

  predicate NonNegativeValues(data: Entries) {
    forall i :: 0 <= i < |data| ==> data[i].1 >= 0
  }

  /** In a record of non-negative counts, each count is at most their sum. */
  lemma {:induction false} ValueAtMostSum(data: Entries, i: int)
    requires NonNegativeValues(data) && 0 <= i < |data|
    ensures 0 <= data[i].1 <= SumValues(data)
  {
    if i > 0 {
      ValueAtMostSum(data[1..], i - 1);
    } else {
      SumNonNegative(data[1..]);
    }
  }

  lemma {:induction false} SumNonNegative(data: Entries)
    requires NonNegativeValues(data)
    ensures SumValues(data) >= 0
  {
    if data != [] {
      SumNonNegative(data[1..]);
    }
  }

  /** When the counts add up to no more than the total, every bar's width is
      between 0% and 100%. */
  lemma BarsInRange(data: Entries, total: int, getColor: string -> string, formatLabel: Option<string -> string>)
    requires NonNegativeValues(data) && SumValues(data) <= total
    ensures forall e :: e in ChartData(data, total, getColor, formatLabel) ==> 0 <= e.percentage <= 100
  {
    var r := ChartData(data, total, getColor, formatLabel);
    forall e | e in r ensures 0 <= e.percentage <= 100 {
      var i :| 0 <= i < |r| && r[i] == e;
      if total > 0 {
        ValueAtMostSum(data, i);
        PercentInRange(data[i].1, total);
        PercentUnique(data[i].1, total, e.percentage);
      }
    }
  }
}
