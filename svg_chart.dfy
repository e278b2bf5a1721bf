/** Chart data and insights for the report email (src/lib/svg-chart.ts): a deduplicator keyed
    on age and dates, the choice of a primary metric, per-age-group sums sorted in descending
    order and cut to six groups, and the insight lines. Metric values are integers; `parseFloat`
    is modelled on integer text. */
module SvgChart {
  import opened Common
  import opened Json
  import opened Dedupe

  type Group = (string, int)

  datatype ChartData = ChartData(labels: seq<string>, values: seq<int>, title: string, kind: Option<string>)

  datatype Analysis = Analysis(insights: seq<string>, chart: ChartData)

  /** The TypeError `item.age` raises on a null item. */
  const NullAgeError := "Cannot read properties of null (reading 'age')"

  /** The metrics tried, in order, when choosing the primary one. */
  const AvailableMetrics: seq<string> :=
    ["spend", "clicks", "impressions", "reach", "conversions",
     "cost_per_conversion", "conversion_rate", "ctr", "cpc", "frequency"]

  const MaxGroups := 6

  function Min(a: int, b: int): int {
    if a < b then a else b
  }

  // ---------------------------------------------------------------------------------------
  // removeDuplicateData

  /** The deduplication key: `age`, `date_start` and `date_stop`, each defaulting to "". */
  function ChartKeyOf(item: Json): Option<string> {
    Some(StrOr(Prop(item, "age"), "") + "_" + StrOr(Prop(item, "date_start"), "") + "_"
         + StrOr(Prop(item, "date_stop"), ""))
  }

  /** `removeDuplicateData`: the first item of each key, in input order. A null item makes
      the property read throw. */
  method RemoveDuplicateData(data: seq<Json>) returns (r: Result<seq<Json>, string>)
    ensures r.Err? <==> JNull in data
    ensures r.Err? ==> r.error == NullAgeError
    ensures r.Ok? ==> r.value == Kept(data, ChartKeyOf, |data|)
  {
    if |data| == 0 {
      return Ok(data);
    }
    var seen: map<string, bool> := map[];
    var cleaned: seq<Json> := [];
    var i := 0;
    while i < |data|
      invariant 0 <= i <= |data|
      invariant JNull !in data[..i]
      invariant cleaned == Kept(data, ChartKeyOf, i)
      invariant seen.Keys == KeysOf(data, ChartKeyOf, i)
    {
      var item := data[i];
      if item.JNull? {
        return Err(NullAgeError);
      }
      var key := StrOr(Prop(item, "age"), "") + "_" + StrOr(Prop(item, "date_start"), "") + "_"
                 + StrOr(Prop(item, "date_stop"), "");
      FirstOfKeyBySeen(data, ChartKeyOf, i);
      if key !in seen {
        seen := seen[key := true];
        cleaned := cleaned + [item];
      }
      assert data[..i + 1] == data[..i] + [item];
      i := i + 1;
    }
    assert data[..i] == data;
    return Ok(cleaned);
  }

  /** Rows are dropped only as repeats: an input with pairwise different keys is returned
      as it is, and the output never repeats a key. */
  lemma RemoveDuplicateDataKeeps(data: seq<Json>)
    ensures DistinctKeys(data, ChartKeyOf) ==> Kept(data, ChartKeyOf, |data|) == data
    ensures DistinctKeys(Kept(data, ChartKeyOf, |data|), ChartKeyOf)
  {
    if DistinctKeys(data, ChartKeyOf) {
      KeptOfDistinct(data, ChartKeyOf, |data|);
      assert data[..|data|] == data;
    }
    KeptDistinct(data, ChartKeyOf, |data|);
  }

  /** Two rows whose ages differ are both kept, whatever their dates and metric values. */
  lemma DifferentAgesBothKept(a: Json, b: Json)
    requires Prop(a, "age") == Some(JStr("25-34")) && Prop(b, "age") == Some(JStr("35-44"))
    ensures Kept([a, b], ChartKeyOf, 2) == [a, b]
  {
    var ka := ChartKeyOf(a).value;
    var kb := ChartKeyOf(b).value;
    assert ka[..5] == "25-34" && kb[..5] == "35-44";
    assert FirstOfKey([a, b], ChartKeyOf, 1);
  }

  /** A later row with the same age and dates is dropped even when its metrics differ. */
  lemma LaterRepeatDropped(a: Json, b: Json)
    requires ChartKeyOf(a) == ChartKeyOf(b)
    ensures Kept([a, b], ChartKeyOf, 2) == [a]
  {
    var xs := [a, b];
    assert xs[0] == a && xs[1] == b;
    assert ChartKeyOf(xs[0]) == ChartKeyOf(xs[1]);
    assert !FirstOfKey(xs, ChartKeyOf, 1);
    assert FirstOfKey(xs, ChartKeyOf, 0);
  }

  // ---------------------------------------------------------------------------------------
  // extractMetricValue and extractAge

  /** `parseFloat(s) || 0` on integer text: NaN becomes 0. */
  function NumberText(s: string): int {
    match ParseInt(s)
    case Some(n) => n
    case None => 0
  }

  /** A string or number property as a number; other values are not read as numbers. */
  function RawNumber(v: Json): Option<int> {
    match v
    case JStr(s) => Some(NumberText(s))
    case JNum(n) => Some(n)
    case _ => None
  }

  /** `typeof value === 'object' && value` — a non-null object or array. */
  predicate NestedObject(p: Option<Json>) {
    p.Some? && Truthy(p.value) && IsObjectLike(p.value)
  }

  /** `extractMetricValue`: the top-level property when it is a string or a number, else the
      same property of a nested `metrics` object, else 0. */
  function ExtractMetricValue(point: Json, metric: string): int
    requires IsObjectLike(point)
  {
    var top := Prop(point, metric);
    if top.Some? && RawNumber(top.value).Some? then RawNumber(top.value).value
    else
      var nested := Prop(point, "metrics");
      if NestedObject(nested) then
        var inner := Prop(nested.value, metric);
        if inner.Some? && RawNumber(inner.value).Some? then RawNumber(inner.value).value else 0
      else 0
  }

  /** `extractAge`: a truthy top-level `age`, else a truthy `dimensions.age`, else "Unknown". */
  function ExtractAge(point: Json): string
    requires IsObjectLike(point)
  {
    var top := Prop(point, "age");
    if TruthyProp(top) then ToStr(top.value)
    else
      var dims := Prop(point, "dimensions");
      if NestedObject(dims) && TruthyProp(Prop(dims.value, "age")) then ToStr(Prop(dims.value, "age").value)
      else "Unknown"
  }

  /** The top-level field wins over the nested one, and a point carrying the metric nowhere
      contributes 0. */
  lemma ExtractMetricValueSources(point: Json, metric: string, v: int, w: int)
    requires point.JObj?
    ensures metric in point.fields && point.fields[metric] == JNum(v) ==> ExtractMetricValue(point, metric) == v
    ensures metric !in point.fields && "metrics" in point.fields && point.fields["metrics"] == JObj(map[metric := JNum(w)])
            ==> ExtractMetricValue(point, metric) == w
    ensures metric !in point.fields && "metrics" !in point.fields ==> ExtractMetricValue(point, metric) == 0
  {
  }

  // ---------------------------------------------------------------------------------------
  // processCleanedData: specification

  predicate AllObjects(points: seq<Json>) {
    forall i :: 0 <= i < |points| ==> IsObjectLike(points[i])
  }

  /** The index of the first row that is not an object. */
  function FirstNonObject(points: seq<Json>): (k: nat)
    requires !AllObjects(points)
    ensures k < |points| && !IsObjectLike(points[k])
    ensures forall i :: 0 <= i < k ==> IsObjectLike(points[i])
    decreases |points|
  {
    if !IsObjectLike(points[0]) then 0
    else
      assert !AllObjects(points[1..]) by {
        var j :| 0 <= j < |points| && !IsObjectLike(points[j]);
        assert points[1..][j - 1] == points[j];
      }
      1 + FirstNonObject(points[1..])
  }

  /** The TypeError of `metric in value` when `value` is a primitive. */
  function InOperatorError(metric: string, v: Json): string {
    "Cannot use 'in' operator to search for '" + metric + "' in " + ToStr(v)
  }

  /** Some row has a positive value for `metric`. */
  predicate HasPositive(points: seq<Json>, metric: string)
    requires AllObjects(points)
  {
    exists i :: 0 <= i < |points| && ExtractMetricValue(points[i], metric) > 0
  }

  /** The first metric of `ms` with a positive value in some row. */
  function FirstPositive(points: seq<Json>, ms: seq<string>): (r: Option<string>)
    requires AllObjects(points)
    decreases |ms|
  {
    if |ms| == 0 then None
    else if HasPositive(points, ms[0]) then Some(ms[0])
    else FirstPositive(points, ms[1..])
  }

  /** The primary metric: the first available metric present with a positive value, "spend" by default. */
  function PrimaryMetric(points: seq<Json>): string
    requires AllObjects(points)
  {
    match FirstPositive(points, AvailableMetrics)
    case Some(m) => m
    case None => "spend"
  }

  function UpperAscii(c: char): char {
    if 'a' <= c <= 'z' then (c as int - 32) as char else c
  }

  /** `metric.charAt(0).toUpperCase() + metric.slice(1)` for ASCII metric names. */
  function Capitalize(s: string): string {
    if s == [] then [] else [UpperAscii(s[0])] + s[1..]
  }

  function Title(metric: string): string {
    Capitalize(metric) + " by Age Group"
  }

  /** The per-age-group sums as a JavaScript Map: entries in first-insertion order. */
  function AddToGroup(groups: seq<Group>, age: string, v: int): seq<Group>
    decreases |groups|
  {
    if |groups| == 0 then [(age, v)]
    else if groups[0].0 == age then [(age, groups[0].1 + v)] + groups[1..]
    else [groups[0]] + AddToGroup(groups[1..], age, v)
  }

  /** `Map.get`. */
  function Lookup(groups: seq<Group>, age: string): Option<int>
    decreases |groups|
  {
    if |groups| == 0 then None
    else if groups[0].0 == age then Some(groups[0].1)
    else Lookup(groups[1..], age)
  }

  function LabelSet(groups: seq<Group>): set<string>
    decreases |groups|
  {
    if |groups| == 0 then {} else {groups[0].0} + LabelSet(groups[1..])
  }

  predicate DistinctLabels(groups: seq<Group>) {
    forall i, j :: 0 <= i < j < |groups| ==> groups[i].0 != groups[j].0
  }

  /** The map the `reduce` builds: each row's metric value added to its age group. */
  function Groups(points: seq<Json>, metric: string): seq<Group>
    requires AllObjects(points)
    decreases |points|
  {
    if |points| == 0 then []
    else
      var last := points[|points| - 1];
      AddToGroup(Groups(points[..|points| - 1], metric), ExtractAge(last), ExtractMetricValue(last, metric))
  }

  /** The reduce's running total over all rows. */
  function Total(points: seq<Json>, metric: string): int
    requires AllObjects(points)
    decreases |points|
  {
    if |points| == 0 then 0
    else Total(points[..|points| - 1], metric) + ExtractMetricValue(points[|points| - 1], metric)
  }

  /** The sum of the metric over the rows of one age group: what a group's value should be. */
  function GroupSum(points: seq<Json>, metric: string, age: string): int
    requires AllObjects(points)
    decreases |points|
  {
    if |points| == 0 then 0
    else
      var last := points[|points| - 1];
      GroupSum(points[..|points| - 1], metric, age) + (if ExtractAge(last) == age then ExtractMetricValue(last, metric) else 0)
  }

  /** The age groups present among the rows. */
  function Ages(points: seq<Json>): set<string>
    requires AllObjects(points)
    decreases |points|
  {
    if |points| == 0 then {} else Ages(points[..|points| - 1]) + {ExtractAge(points[|points| - 1])}
  }

  /** Insert after every entry whose value is at least as large: a stable descending sort
      built one entry at a time, as `sort(([,a], [,b]) => b - a)` orders the entries. */
  function InsertDesc(e: Group, s: seq<Group>): seq<Group>
    decreases |s|
  {
    if |s| == 0 then [e]
    else if s[0].1 < e.1 then [e] + s
    else [s[0]] + InsertDesc(e, s[1..])
  }

  function SortDesc(s: seq<Group>): seq<Group>
    decreases |s|
  {
    if |s| == 0 then [] else InsertDesc(s[|s| - 1], SortDesc(s[..|s| - 1]))
  }

  predicate NonIncreasing(s: seq<Group>) {
    forall i, j :: 0 <= i < j < |s| ==> s[i].1 >= s[j].1
  }

  /** The sorted groups cut to at most six (`slice(0, 6)`). */
  function TopGroups(groups: seq<Group>): seq<Group> {
    var s := SortDesc(groups);
    s[..Min(MaxGroups, |s|)]
  }

  function Labels(s: seq<Group>): (r: seq<string>)
    ensures |r| == |s| && forall i :: 0 <= i < |s| ==> r[i] == s[i].0
  {
    seq(|s|, i requires 0 <= i < |s| => s[i].0)
  }

  function Values(s: seq<Group>): (r: seq<int>)
    ensures |r| == |s| && forall i :: 0 <= i < |s| ==> r[i] == s[i].1
  {
    seq(|s|, i requires 0 <= i < |s| => s[i].1)
  }

  /** `x.toFixed(1)` for x = num / den, den > 0: the sign, then x rounded to tenths with
      ties going up. */
  function RoundTenths(num: nat, den: int): (t: nat)
    requires den > 0
    ensures (2 * t - 1) * den <= 20 * num < (2 * t + 1) * den
  {
    var t := (20 * num + den) / (2 * den);
    assert 2 * den * t <= 20 * num + den < 2 * den * (t + 1);
    t
  }

  function ToFixed1(num: int, den: int): string
    requires den > 0
  {
    var t := RoundTenths(if num < 0 then -num else num, den);
    (if num < 0 then "-" else "") + NatToString(t / 10) + "." + [DigitChar(t % 10)]
  }

  /** The share of the total, as a percentage with one decimal. */
  function Percent(value: int, total: int): string
    requires total > 0
  {
    ToFixed1(100 * value, total)
  }

  function TopLine(g: Group, total: int, metric: string): string
    requires total > 0
  {
    "\U{1F3AF} <b>" + g.0 + "</b> is your top-performing age group, accounting for <b>"
    + Percent(g.1, total) + "%</b> of total " + metric
  }

  function SecondLine(g: Group, total: int, metric: string): string
    requires total > 0
  {
    "\U{1F4C8} <b>" + g.0 + "</b> follows with <b>" + Percent(g.1, total) + "%</b> of " + metric
  }

  function NoDataLine(metric: string): string {
    "No " + metric + " data available for analysis"
  }

  /** The insight lines of lines 208-222. */
  function Insights(top: seq<Group>, total: int, metric: string): seq<string> {
    if |top| > 0 && total > 0 then
      [TopLine(top[0], total, metric)] + (if |top| > 1 then [SecondLine(top[1], total, metric)] else [])
    else [NoDataLine(metric)]
  }

  /** What `processCleanedData` returns, or the message of the TypeError it throws: the `in`
      operator fails on the first row that is not an object, always while looking for "spend"
      (the scan for "spend" reaches that row unless it stops at an earlier positive row, and
      then the reduce over "spend" reaches it). */
  function Process(points: seq<Json>): Result<Analysis, string> {
    if !AllObjects(points) then Err(InOperatorError("spend", points[FirstNonObject(points)]))
    else
      var metric := PrimaryMetric(points);
      var top := TopGroups(Groups(points, metric));
      Ok(Analysis(Insights(top, Total(points, metric), metric),
                  ChartData(Labels(top), Values(top), Title(metric), Some("bar"))))
  }

  // ---------------------------------------------------------------------------------------
  // Lemmas about the groups, the sort and the insights

  lemma {:induction false} LookupLabelSet(g: seq<Group>, l: string)
    ensures Lookup(g, l).Some? <==> l in LabelSet(g)
    decreases |g|
  {
    if |g| > 0 {
      LookupLabelSet(g[1..], l);
    }
  }

  lemma {:induction false} LabelSetIndex(g: seq<Group>, l: string)
    ensures l in LabelSet(g) <==> exists i :: 0 <= i < |g| && g[i].0 == l
    decreases |g|
  {
    if |g| > 0 {
      LabelSetIndex(g[1..], l);
      if l in LabelSet(g[1..]) {
        var i :| 0 <= i < |g[1..]| && g[1..][i].0 == l;
        assert g[i + 1].0 == l;
      }
      if exists i :: 0 <= i < |g| && g[i].0 == l {
        var i :| 0 <= i < |g| && g[i].0 == l;
        if i > 0 {
          assert g[1..][i - 1].0 == l;
        }
      }
    }
  }

  /** Adding to a group changes only that group's entry, appending it when it is new. */
  lemma {:induction false} AddToGroupSpec(g: seq<Group>, l: string, v: int)
    ensures forall l' :: l' != l ==> Lookup(AddToGroup(g, l, v), l') == Lookup(g, l')
    ensures Lookup(AddToGroup(g, l, v), l) == Some((if Lookup(g, l).Some? then Lookup(g, l).value else 0) + v)
    ensures LabelSet(AddToGroup(g, l, v)) == LabelSet(g) + {l}
    ensures DistinctLabels(g) ==> DistinctLabels(AddToGroup(g, l, v))
    decreases |g|
  {
    var r := AddToGroup(g, l, v);
    if |g| == 0 {
    } else if g[0].0 == l {
      assert r[1..] == g[1..];
    } else {
      AddToGroupSpec(g[1..], l, v);
      assert r[1..] == AddToGroup(g[1..], l, v);
      if DistinctLabels(g) {
        assert DistinctLabels(g[1..]) by {
          forall i, j | 0 <= i < j < |g[1..]| ensures g[1..][i].0 != g[1..][j].0 {
            assert g[1..][i] == g[i + 1] && g[1..][j] == g[j + 1];
          }
        }
        LabelSetIndex(g[1..], g[0].0);
        LabelSetIndex(r[1..], g[0].0);
        forall i, j | 0 <= i < j < |r| ensures r[i].0 != r[j].0 {
          if i == 0 {
            assert r[j] == r[1..][j - 1];
          } else {
            assert r[i] == r[1..][i - 1] && r[j] == r[1..][j - 1];
          }
        }
      }
    }
  }

  /** In a map without repeated labels, looking up an entry's label gives its value. */
  lemma {:induction false} LookupEntry(g: seq<Group>, i: nat)
    requires DistinctLabels(g) && i < |g|
    ensures Lookup(g, g[i].0) == Some(g[i].1)
    decreases |g|
  {
    if i > 0 {
      assert DistinctLabels(g[1..]) by {
        forall a, b | 0 <= a < b < |g[1..]| ensures g[1..][a].0 != g[1..][b].0 {
          assert g[1..][a] == g[a + 1] && g[1..][b] == g[b + 1];
        }
      }
      LookupEntry(g[1..], i - 1);
    }
  }

  /** The reduce groups every row by its age: no label twice, one label per age present, and
      each label mapped to its group's sum. */
  lemma {:induction false} GroupsSpec(points: seq<Json>, metric: string)
    requires AllObjects(points)
    ensures DistinctLabels(Groups(points, metric))
    ensures LabelSet(Groups(points, metric)) == Ages(points)
    ensures forall l :: l in Ages(points) ==> Lookup(Groups(points, metric), l) == Some(GroupSum(points, metric, l))
    decreases |points|
  {
    if |points| > 0 {
      var init := points[..|points| - 1];
      var last := points[|points| - 1];
      assert AllObjects(init) by {
        forall i | 0 <= i < |init| ensures IsObjectLike(init[i]) {
          assert init[i] == points[i];
        }
      }
      GroupsSpec(init, metric);
      var g := Groups(init, metric);
      var age, v := ExtractAge(last), ExtractMetricValue(last, metric);
      assert Groups(points, metric) == AddToGroup(g, age, v);
      assert Ages(points) == Ages(init) + {age};
      AddToGroupSpec(g, age, v);
      forall l | l in Ages(points)
        ensures Lookup(AddToGroup(g, age, v), l) == Some(GroupSum(points, metric, l))
      {
        assert GroupSum(points, metric, l) == GroupSum(init, metric, l) + (if age == l then v else 0);
        LookupLabelSet(g, l);
        if l !in Ages(init) {
          GroupSumAbsent(init, metric, l);
        }
      }
    }
  }

  /** A group no row belongs to sums to 0. */
  lemma {:induction false} GroupSumAbsent(points: seq<Json>, metric: string, age: string)
    requires AllObjects(points)
    requires age !in Ages(points)
    ensures GroupSum(points, metric, age) == 0
    decreases |points|
  {
    if |points| > 0 {
      GroupSumAbsent(points[..|points| - 1], metric, age);
    }
  }

  /** The group values add up to the total. */
  function SumValues(g: seq<Group>): int
    decreases |g|
  {
    if |g| == 0 then 0 else g[0].1 + SumValues(g[1..])
  }

  lemma {:induction false} SumValuesAdd(g: seq<Group>, l: string, v: int)
    ensures SumValues(AddToGroup(g, l, v)) == SumValues(g) + v
    decreases |g|
  {
    if |g| > 0 && g[0].0 != l {
      SumValuesAdd(g[1..], l, v);
    }
  }

  lemma {:induction false} GroupsTotal(points: seq<Json>, metric: string)
    requires AllObjects(points)
    ensures SumValues(Groups(points, metric)) == Total(points, metric)
    decreases |points|
  {
    if |points| > 0 {
      var last := points[|points| - 1];
      GroupsTotal(points[..|points| - 1], metric);
      SumValuesAdd(Groups(points[..|points| - 1], metric), ExtractAge(last), ExtractMetricValue(last, metric));
    }
  }

  lemma {:induction false} InsertDescMembers(e: Group, s: seq<Group>)
    ensures |InsertDesc(e, s)| == |s| + 1
    ensures multiset(InsertDesc(e, s)) == multiset(s) + multiset{e}
    ensures forall x :: x in InsertDesc(e, s) <==> x == e || x in s
    decreases |s|
  {
    if |s| > 0 && s[0].1 >= e.1 {
      InsertDescMembers(e, s[1..]);
      assert s == [s[0]] + s[1..];
    }
  }

  lemma {:induction false} InsertDescLabels(e: Group, s: seq<Group>)
    ensures LabelSet(InsertDesc(e, s)) == LabelSet(s) + {e.0}
    decreases |s|
  {
    var r := InsertDesc(e, s);
    if |s| > 0 && s[0].1 < e.1 {
      assert r[1..] == s;
    } else if |s| > 0 {
      InsertDescLabels(e, s[1..]);
      assert r[1..] == InsertDesc(e, s[1..]);
    }
  }

  lemma {:induction false} InsertDescSorted(e: Group, s: seq<Group>)
    requires NonIncreasing(s)
    ensures NonIncreasing(InsertDesc(e, s))
    decreases |s|
  {
    var r := InsertDesc(e, s);
    if |s| > 0 && s[0].1 >= e.1 {
      var tail := InsertDesc(e, s[1..]);
      InsertDescSorted(e, s[1..]);
      InsertDescMembers(e, s[1..]);
      assert r == [s[0]] + tail;
      forall j | 0 < j < |r| ensures s[0].1 >= r[j].1 {
        assert r[j] == tail[j - 1];
        assert r[j] in tail;
        if r[j] != e {
          var k :| 0 <= k < |s[1..]| && s[1..][k] == r[j];
          assert s[k + 1] == r[j];
        }
      }
      forall i, j | 0 <= i < j < |r| ensures r[i].1 >= r[j].1 {
        if i > 0 {
          assert r[i] == tail[i - 1] && r[j] == tail[j - 1];
        }
      }
    }
  }

  lemma {:induction false} InsertDescDistinct(e: Group, s: seq<Group>)
    requires DistinctLabels(s) && e.0 !in LabelSet(s)
    ensures DistinctLabels(InsertDesc(e, s))
    decreases |s|
  {
    var r := InsertDesc(e, s);
    if |s| > 0 {
      LabelSetIndex(s, e.0);
      if s[0].1 < e.1 {
        assert r == [e] + s;
        forall i, j | 0 <= i < j < |r| ensures r[i].0 != r[j].0 {
          assert r[j] == s[j - 1];
          if i > 0 {
            assert r[i] == s[i - 1];
          }
        }
      } else {
        var tail := InsertDesc(e, s[1..]);
        assert DistinctLabels(s[1..]) by {
          forall a, b | 0 <= a < b < |s[1..]| ensures s[1..][a].0 != s[1..][b].0 {
            assert s[1..][a] == s[a + 1] && s[1..][b] == s[b + 1];
          }
        }
        LabelSetIndex(s[1..], e.0);
        InsertDescDistinct(e, s[1..]);
        InsertDescLabels(e, s[1..]);
        LabelSetIndex(s[1..], s[0].0);
        LabelSetIndex(tail, s[0].0);
        assert r == [s[0]] + tail;
        forall i, j | 0 <= i < j < |r| ensures r[i].0 != r[j].0 {
          assert r[j] == tail[j - 1];
          if i > 0 {
            assert r[i] == tail[i - 1];
          }
        }
      }
    }
  }

  /** The sort is a permutation that orders the values from largest to smallest and keeps
      the labels. */
  lemma SortDescSpec(s: seq<Group>)
    ensures NonIncreasing(SortDesc(s))
    ensures multiset(SortDesc(s)) == multiset(s)
    ensures forall x :: x in SortDesc(s) <==> x in s
    ensures LabelSet(SortDesc(s)) == LabelSet(s)
    ensures DistinctLabels(s) ==> DistinctLabels(SortDesc(s))
  {
    SortDescSorted(s);
    SortDescMembers(s);
    SortDescLabels(s);
    if DistinctLabels(s) {
      SortDescDistinct(s);
    }
  }

  lemma {:induction false} SortDescSorted(s: seq<Group>)
    ensures NonIncreasing(SortDesc(s))
    decreases |s|
  {
    if |s| > 0 {
      SortDescSorted(s[..|s| - 1]);
      InsertDescSorted(s[|s| - 1], SortDesc(s[..|s| - 1]));
    }
  }

  lemma {:induction false} SortDescMembers(s: seq<Group>)
    ensures multiset(SortDesc(s)) == multiset(s)
    ensures forall x :: x in SortDesc(s) <==> x in s
    decreases |s|
  {
    if |s| > 0 {
      var init := s[..|s| - 1];
      var e := s[|s| - 1];
      SortDescMembers(init);
      InsertDescMembers(e, SortDesc(init));
      assert s == init + [e];
      assert multiset(s) == multiset(init) + multiset{e};
    }
  }

  lemma {:induction false} SortDescLabels(s: seq<Group>)
    ensures LabelSet(SortDesc(s)) == LabelSet(s)
    decreases |s|
  {
    if |s| > 0 {
      var init := s[..|s| - 1];
      var e := s[|s| - 1];
      SortDescLabels(init);
      InsertDescLabels(e, SortDesc(init));
      assert s == init + [e];
      LabelSetAppend(init, e);
    }
  }

  lemma {:induction false} SortDescDistinct(s: seq<Group>)
    requires DistinctLabels(s)
    ensures DistinctLabels(SortDesc(s))
    decreases |s|
  {
    if |s| > 0 {
      var init := s[..|s| - 1];
      var e := s[|s| - 1];
      assert DistinctLabels(init);
      SortDescDistinct(init);
      SortDescLabels(init);
      LabelSetIndex(init, e.0);
      InsertDescDistinct(e, SortDesc(init));
    }
  }

  lemma {:induction false} LabelSetAppend(s: seq<Group>, e: Group)
    ensures LabelSet(s + [e]) == LabelSet(s) + {e.0}
    decreases |s|
  {
    if |s| > 0 {
      assert (s + [e])[1..] == s[1..] + [e];
      LabelSetAppend(s[1..], e);
    }
  }

  /** Each kept group is an age of the rows with its sum of the metric. */
  lemma TopEntries(points: seq<Json>, metric: string)
    requires AllObjects(points)
    ensures var top := TopGroups(Groups(points, metric));
      forall i :: 0 <= i < |top| ==> top[i].0 in Ages(points) && top[i].1 == GroupSum(points, metric, top[i].0)
  {
    var g := Groups(points, metric);
    GroupsSpec(points, metric);
    SortDescMembers(g);
    var s := SortDesc(g);
    var top := TopGroups(g);
    forall i | 0 <= i < |top|
      ensures top[i].0 in Ages(points) && top[i].1 == GroupSum(points, metric, top[i].0)
    {
      assert top[i] == s[i];
      assert s[i] in g;
      var k :| 0 <= k < |g| && g[k] == s[i];
      LookupEntry(g, k);
      LabelSetIndex(g, g[k].0);
    }
  }

  /** With at most six ages, every age is charted. */
  lemma TopComplete(points: seq<Json>, metric: string)
    requires AllObjects(points) && |Ages(points)| <= MaxGroups
    ensures forall a :: a in Ages(points) ==> a in Labels(TopGroups(Groups(points, metric)))
  {
    var g := Groups(points, metric);
    GroupsSpec(points, metric);
    SortDescSpec(g);
    var s := SortDesc(g);
    DistinctLabelsCard(g);
    assert TopGroups(g) == s;
    forall a | a in Ages(points) ensures a in Labels(s) {
      LabelSetIndex(s, a);
      var i :| 0 <= i < |s| && s[i].0 == a;
      assert Labels(s)[i] == a;
    }
  }

  /** The kept groups are in descending order, at most six, with distinct ages. */
  lemma TopShape(points: seq<Json>, metric: string)
    requires AllObjects(points)
    ensures var top := TopGroups(Groups(points, metric));
      |top| <= MaxGroups && NonIncreasing(top) && DistinctLabels(top)
  {
    var g := Groups(points, metric);
    GroupsSpec(points, metric);
    SortDescSpec(g);
  }

  /** Six groups are kept when there are at least six ages, and all of them otherwise. */
  lemma TopCount(points: seq<Json>, metric: string)
    requires AllObjects(points)
    ensures |TopGroups(Groups(points, metric))| == Min(MaxGroups, |Ages(points)|)
  {
    var g := Groups(points, metric);
    GroupsSpec(points, metric);
    SortDescSpec(g);
    DistinctLabelsCard(g);
    assert |SortDesc(g)| == |multiset(SortDesc(g))| == |multiset(g)| == |g|;
  }

  /** An age that is cut off sums to no more than any kept group: the kept groups are the
      largest. */
  lemma TopLargest(points: seq<Json>, metric: string)
    requires AllObjects(points)
    ensures var top := TopGroups(Groups(points, metric));
      forall a, i :: a in Ages(points) && a !in Labels(top) && 0 <= i < |top| ==> GroupSum(points, metric, a) <= top[i].1
  {
    var g := Groups(points, metric);
    GroupsSpec(points, metric);
    SortDescSpec(g);
    var s := SortDesc(g);
    var top := TopGroups(g);
    forall a, i | a in Ages(points) && a !in Labels(top) && 0 <= i < |top|
      ensures GroupSum(points, metric, a) <= top[i].1
    {
      LabelSetIndex(s, a);
      var j :| 0 <= j < |s| && s[j].0 == a;
      forall x | 0 <= x < |top| ensures s[x].0 != a {
        assert top[x] == s[x] && Labels(top)[x] == top[x].0;
      }
      assert top[i] == s[i];
      assert s[j] in g;
      var k :| 0 <= k < |g| && g[k] == s[j];
      LookupEntry(g, k);
    }
  }

  /** The chart: one bar per age, in descending order of value, each bar an age of the rows
      carrying that age's sum of the primary metric; six bars when there are more ages, and
      then no age left out sums to more than a charted one. */
  lemma ChartSpec(points: seq<Json>)
    requires AllObjects(points)
    ensures var metric := PrimaryMetric(points);
      var chart := Process(points).value.chart;
      && |chart.labels| == |chart.values| <= MaxGroups
      && (forall i, j :: 0 <= i < j < |chart.labels| ==> chart.labels[i] != chart.labels[j])
      && (forall i, j :: 0 <= i < j < |chart.values| ==> chart.values[i] >= chart.values[j])
      && (forall i :: 0 <= i < |chart.labels| ==>
            chart.labels[i] in Ages(points) && chart.values[i] == GroupSum(points, metric, chart.labels[i]))
      && (|Ages(points)| <= MaxGroups ==> forall a :: a in Ages(points) ==> a in chart.labels)
      && |chart.labels| == Min(MaxGroups, |Ages(points)|)
      && (forall a, i :: a in Ages(points) && a !in chart.labels && 0 <= i < |chart.values| ==>
            GroupSum(points, metric, a) <= chart.values[i])
  {
    var metric := PrimaryMetric(points);
    var top := TopGroups(Groups(points, metric));
    assert Process(points).value.chart == ChartData(Labels(top), Values(top), Title(metric), Some("bar"));
    TopEntries(points, metric);
    TopShape(points, metric);
    if |Ages(points)| <= MaxGroups {
      TopComplete(points, metric);
    }
    TopCount(points, metric);
    TopLargest(points, metric);
  }

  /** A map without repeated labels has as many entries as labels. */
  lemma {:induction false} DistinctLabelsCard(g: seq<Group>)
    requires DistinctLabels(g)
    ensures |LabelSet(g)| == |g|
    decreases |g|
  {
    if |g| > 0 {
      assert DistinctLabels(g[1..]) by {
        forall a, b | 0 <= a < b < |g[1..]| ensures g[1..][a].0 != g[1..][b].0 {
          assert g[1..][a] == g[a + 1] && g[1..][b] == g[b + 1];
        }
      }
      DistinctLabelsCard(g[1..]);
      LabelSetIndex(g[1..], g[0].0);
    }
  }

  /** The primary metric is one of the available metrics; unless it is the default, it has a
      positive value in some row and no metric listed before it has one. */
  lemma PrimaryMetricSpec(points: seq<Json>)
    requires AllObjects(points)
    ensures PrimaryMetric(points) in AvailableMetrics
    ensures FirstPositive(points, AvailableMetrics).None? ==> PrimaryMetric(points) == "spend"
    ensures FirstPositive(points, AvailableMetrics).Some? ==>
      exists k :: 0 <= k < |AvailableMetrics| && AvailableMetrics[k] == PrimaryMetric(points)
        && HasPositive(points, AvailableMetrics[k])
        && forall j :: 0 <= j < k ==> !HasPositive(points, AvailableMetrics[j])
  {
    FirstPositiveSpec(points, AvailableMetrics);
  }

  lemma {:induction false} FirstPositiveSpec(points: seq<Json>, ms: seq<string>)
    requires AllObjects(points)
    ensures FirstPositive(points, ms).None? <==> forall j :: 0 <= j < |ms| ==> !HasPositive(points, ms[j])
    ensures FirstPositive(points, ms).Some? ==>
      exists k :: 0 <= k < |ms| && ms[k] == FirstPositive(points, ms).value
        && HasPositive(points, ms[k])
        && forall j :: 0 <= j < k ==> !HasPositive(points, ms[j])
    decreases |ms|
  {
    if |ms| > 0 && !HasPositive(points, ms[0]) {
      FirstPositiveSpec(points, ms[1..]);
      if FirstPositive(points, ms[1..]).Some? {
        var k :| 0 <= k < |ms[1..]| && ms[1..][k] == FirstPositive(points, ms).value
          && HasPositive(points, ms[1..][k]) && forall j :: 0 <= j < k ==> !HasPositive(points, ms[1..][j]);
        assert ms[k + 1] == ms[1..][k];
        forall j | 0 <= j < k + 1 ensures !HasPositive(points, ms[j]) {
          if j > 0 {
            assert ms[j] == ms[1..][j - 1];
          }
        }
      } else {
        forall j | 0 <= j < |ms| ensures !HasPositive(points, ms[j]) {
          if j > 0 {
            assert ms[j] == ms[1..][j - 1];
          }
        }
      }
    }
  }

  /** The insights are one "No data" line exactly when there is no group or the total is not
      positive; otherwise one line for the top group and one more when a second group exists. */
  lemma InsightsSpec(top: seq<Group>, total: int, metric: string)
    ensures var ins := Insights(top, total, metric);
      && (ins == [NoDataLine(metric)] <==> |top| == 0 || total <= 0)
      && (|top| > 0 && total > 0 ==> |ins| == Min(2, |top|) && ins[0] == TopLine(top[0], total, metric))
  {
    if |top| > 0 && total > 0 {
      var line := TopLine(top[0], total, metric);
      assert line[0] != NoDataLine(metric)[0];
    }
  }

  /** Processing fails exactly when some row is not an object. */
  lemma ProcessFailsOnPrimitives(points: seq<Json>)
    ensures Process(points).Err? <==> exists i :: 0 <= i < |points| && !IsObjectLike(points[i])
  {
  }

  // ---------------------------------------------------------------------------------------
  // processCleanedData: the loops

  /** The scan of lines 171-189: for each available metric in turn, look for a row with a
      positive value and stop at the first metric that has one. The `in` operator throws on
      the first row that is not an object when the scan reaches it. */
  method ScanPrimaryMetric(points: seq<Json>) returns (err: Option<string>, primaryMetric: string, chartTitle: string)
    ensures err.Some? ==> !AllObjects(points) && err.value == InOperatorError("spend", points[FirstNonObject(points)])
    ensures err.None? && AllObjects(points) ==> primaryMetric == PrimaryMetric(points)
    ensures err.None? && !AllObjects(points) ==> primaryMetric == "spend"
    ensures chartTitle == Title(primaryMetric)
  {
    err := None;
    primaryMetric := "spend";
    chartTitle := "Spend by Age Group";
    assert Capitalize("spend") == "Spend";
    if |points| > 0 {
      var m := 0;
      while m < |AvailableMetrics|
        invariant 0 <= m <= |AvailableMetrics|
        invariant primaryMetric == "spend" && chartTitle == Title("spend")
        invariant m > 0 ==> AllObjects(points)
        invariant m > 0 ==> FirstPositive(points, AvailableMetrics) == FirstPositive(points, AvailableMetrics[m..])
      {
        var metric := AvailableMetrics[m];
        var hasMetric := false;
        var k := 0;
        while k < |points|
          invariant 0 <= k <= |points|
          invariant forall i :: 0 <= i < k ==> IsObjectLike(points[i])
          invariant !hasMetric
          invariant forall i :: 0 <= i < k ==> ExtractMetricValue(points[i], metric) <= 0
        {
          if !IsObjectLike(points[k]) {
            FirstNonObjectIs(points, k);
            if m > 0 {
              assert false;
            }
            err := Some(InOperatorError(metric, points[k]));
            return;
          }
          if ExtractMetricValue(points[k], metric) > 0 {
            hasMetric := true;
            break;
          }
          k := k + 1;
        }
        if hasMetric {
          if AllObjects(points) {
            assert HasPositive(points, metric);
            assert AvailableMetrics[m..][0] == metric;
            primaryMetric := metric;
            chartTitle := Title(metric);
          }
          return;
        }
        assert AllObjects(points);
        assert !HasPositive(points, metric);
        assert AvailableMetrics[m..][1..] == AvailableMetrics[m + 1..];
        m := m + 1;
      }
      assert AvailableMetrics[m..] == [];
    } else {
      assert AllObjects(points);
      FirstPositiveSpec(points, AvailableMetrics);
    }
  }

  /** The `reduce` of lines 191-197: each row's value added to its age group in the map, and
      to the running total. */
  method SumByAge(points: seq<Json>, metric: string) returns (r: Result<(seq<Group>, int), string>)
    ensures r.Err? <==> !AllObjects(points)
    ensures r.Err? ==> r.error == InOperatorError(metric, points[FirstNonObject(points)])
    ensures r.Ok? ==> r.value == (Groups(points, metric), Total(points, metric))
  {
    var ageMetricMap: seq<Group> := [];
    var total := 0;
    var k := 0;
    while k < |points|
      invariant 0 <= k <= |points|
      invariant AllObjects(points[..k])
      invariant ageMetricMap == Groups(points[..k], metric)
      invariant total == Total(points[..k], metric)
    {
      var point := points[k];
      if !IsObjectLike(point) {
        assert forall i :: 0 <= i < k ==> points[i] == points[..k][i];
        FirstNonObjectIs(points, k);
        return Err(InOperatorError(metric, point));
      }
      var metricValue := ExtractMetricValue(point, metric);
      var ageGroup := ExtractAge(point);
      SumStep(points, k, metric);
      ageMetricMap := AddToGroup(ageMetricMap, ageGroup, metricValue);
      total := total + metricValue;
      k := k + 1;
    }
    assert points[..k] == points;
    return Ok((ageMetricMap, total));
  }

  /** One more row extends the groups and the total by that row. */
  lemma SumStep(points: seq<Json>, k: nat, metric: string)
    requires k < |points| && AllObjects(points[..k]) && IsObjectLike(points[k])
    ensures AllObjects(points[..k + 1])
    ensures Groups(points[..k + 1], metric)
      == AddToGroup(Groups(points[..k], metric), ExtractAge(points[k]), ExtractMetricValue(points[k], metric))
    ensures Total(points[..k + 1], metric) == Total(points[..k], metric) + ExtractMetricValue(points[k], metric)
  {
    var p := points[..k + 1];
    assert p[..k] == points[..k] && p[k] == points[k];
    assert AllObjects(p) by {
      forall i | 0 <= i < |p| ensures IsObjectLike(p[i]) {
        if i < k {
          assert p[i] == points[..k][i];
        }
      }
    }
  }

  /** `processCleanedData`: the scan, the reduce, the sort and slice, and the insight pushes. */
  method ProcessCleanedData(points: seq<Json>) returns (r: Result<Analysis, string>)
    ensures r == Process(points)
  {
    var err, primaryMetric, chartTitle := ScanPrimaryMetric(points);
    if err.Some? {
      return Err(err.value);
    }
    var sums := SumByAge(points, primaryMetric);
    if sums.Err? {
      return Err(sums.error);
    }
    assert AllObjects(points) && primaryMetric == PrimaryMetric(points);
    var ageMetricMap := sums.value.0;
    var totalMetricValue := sums.value.1;
    var sortedAgeGroups := TopGroups(ageMetricMap);
    var labels := Labels(sortedAgeGroups);
    var values := Values(sortedAgeGroups);

    var insights: seq<string> := [];
    if |sortedAgeGroups| > 0 && totalMetricValue > 0 {
      insights := insights + [TopLine(sortedAgeGroups[0], totalMetricValue, primaryMetric)];
      if |sortedAgeGroups| > 1 {
        insights := insights + [SecondLine(sortedAgeGroups[1], totalMetricValue, primaryMetric)];
      }
    } else {
      insights := insights + [NoDataLine(primaryMetric)];
    }
    assert insights == Insights(sortedAgeGroups, totalMetricValue, primaryMetric);
    r := Ok(Analysis(insights, ChartData(labels, values, chartTitle, Some("bar"))));
  }

  lemma FirstNonObjectIs(points: seq<Json>, k: nat)
    requires k < |points| && !IsObjectLike(points[k])
    requires forall i :: 0 <= i < k ==> IsObjectLike(points[i])
    ensures !AllObjects(points) && FirstNonObject(points) == k
  {
  }

  // ---------------------------------------------------------------------------------------
  // analyzeData and createInsightsHTML

  const NoDataAnalysis := Analysis(["No data available for visualization"], ChartData([], [], "No Data Available", None))

  /** Deduplicate then process a row array. */
  function DedupeThenProcess(rows: seq<Json>): Result<Analysis, string> {
    if JNull in rows then Err(NullAgeError) else Process(Kept(rows, ChartKeyOf, |rows|))
  }

  /** `analyzeData`: an array is analysed directly; otherwise its `data` property is, when that
      is a non-empty array; anything else gives the "No Data Available" chart. */
  function Analyze(data: Json): Result<Analysis, string> {
    if data.JArr? then DedupeThenProcess(data.items)
    else
      var actual := Prop(data, "data");
      if actual.None? || !actual.value.JArr? || |actual.value.items| == 0 then Ok(NoDataAnalysis)
      else DedupeThenProcess(actual.value.items)
  }

  method AnalyzeData(data: Json) returns (r: Result<Analysis, string>)
    ensures r == Analyze(data)
  {
    var rows: seq<Json>;
    if data.JArr? {
      rows := data.items;
    } else {
      var actual := Prop(data, "data");
      if actual.None? || !actual.value.JArr? || |actual.value.items| == 0 {
        return Ok(NoDataAnalysis);
      }
      rows := actual.value.items;
    }
    var cleaned := RemoveDuplicateData(rows);
    if cleaned.Err? {
      return Err(cleaned.error);
    }
    r := ProcessCleanedData(cleaned.value);
  }

  /** A value with no `data` array, or an empty one, yields no chart labels and the single
      "No data available for visualization" insight. */
  lemma AnalyzeWithoutData(data: Json)
    requires !data.JArr?
    requires Prop(data, "data").None? || !Prop(data, "data").value.JArr? || Prop(data, "data").value.items == []
    ensures Analyze(data).Ok?
    ensures Analyze(data).value.chart.labels == [] && Analyze(data).value.insights == ["No data available for visualization"]
  {
  }

  /** An empty row array still goes through processing: no groups, the default metric. */
  lemma AnalyzeEmptyArray()
    ensures Analyze(JArr([])) == Ok(Analysis([NoDataLine("spend")], ChartData([], [], "Spend by Age Group", Some("bar"))))
  {
    var rows: seq<Json> := [];
    assert Analyze(JArr([])) == DedupeThenProcess(rows);
    assert Kept(rows, ChartKeyOf, 0) == [];
    assert DedupeThenProcess(rows) == Process(rows);
    ProcessEmpty();
  }

  lemma ProcessEmpty()
    ensures Process([]) == Ok(Analysis([NoDataLine("spend")], ChartData([], [], "Spend by Age Group", Some("bar"))))
  {
    var rows: seq<Json> := [];
    assert AllObjects(rows);
    FirstPositiveSpec(rows, AvailableMetrics);
    assert PrimaryMetric(rows) == "spend";
    assert Groups(rows, "spend") == [] && Total(rows, "spend") == 0;
    assert SortDesc([]) == [];
    assert TopGroups([]) == [];
    var top: seq<Group> := [];
    assert TopGroups(Groups(rows, "spend")) == top;
    assert Process(rows) == Ok(Analysis(Insights(top, 0, "spend"), ChartData(Labels(top), Values(top), Title("spend"), Some("bar"))));
    assert Insights(top, 0, "spend") == [NoDataLine("spend")];
    assert Labels(top) == [] && Values(top) == [];
    SpendTitle();
  }

  lemma SpendTitle()
    ensures Title("spend") == "Spend by Age Group"
  {
    assert Capitalize("spend") == "Spend";
  }

  const InsightsOpen := "<div><h3>\U{1F4A1}&nbsp;Key Insights</h3><ul>"
  const InsightsClose := "</ul></div>"

  function ListItems(insights: seq<string>): string
    decreases |insights|
  {
    if |insights| == 0 then "" else "<li>" + insights[0] + "</li>" + ListItems(insights[1..])
  }

  /** `createInsightsHTML`: nothing for no insights, otherwise one list item per insight in a box. */
  function CreateInsightsHTML(insights: seq<string>): (html: string)
    ensures html == "" <==> insights == []
  {
    if |insights| == 0 then "" else InsightsOpen + ListItems(insights) + InsightsClose
  }

  /** Each insight becomes its own list item, in order. */
  lemma {:induction false} ListItemsAppend(a: seq<string>, b: seq<string>)
    ensures ListItems(a + b) == ListItems(a) + ListItems(b)
    decreases |a|
  {
    if |a| == 0 {
      assert a + b == b;
    } else {
      assert (a + b)[0] == a[0];
      assert (a + b)[1..] == a[1..] + b;
      ListItemsAppend(a[1..], b);
    }
  }
}
