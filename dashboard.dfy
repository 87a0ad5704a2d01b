/** The overview page (components/Dashboard.tsx): the headline statistics, the
    yearly chart series and the recent-report list, all derived afresh from the
    two lists App keeps. */
module Dashboard {
  import opened Types
  import Constants
  import App
  import AnalyzeArea

  /** The average AQI shown before any analysis has been made. */
  const DefaultAqi: real := 45.0

  /** A prediction above this probability counts as a high-risk alert,
      and a report above this score gets a red badge. */
  const AlertThreshold: int := 60

  /** How many recent reports the side panel lists. */
  const RecentLimit: nat := 5

  // ---------------------------------------------------------------------------
  // Headline statistics

  /** totalHistoricalCases: the sum of cases over every entry. */
  function TotalCases(h: seq<HistoricalEntry>): (n: int)
    ensures (forall k :: 0 <= k < |h| ==> h[k].cases >= 0) ==> n >= 0
  {
    if h == [] then 0 else h[0].cases + TotalCases(h[1..])
  }

  lemma {:induction false} TotalCasesAppend(a: seq<HistoricalEntry>, b: seq<HistoricalEntry>)
    ensures TotalCases(a + b) == TotalCases(a) + TotalCases(b)
    decreases |a|
  {
    if a == [] {
      assert a + b == b;
    } else {
      assert (a + b)[1..] == a[1..] + b;
      TotalCasesAppend(a[1..], b);
    }
  }

  /** Recording a result adds exactly its random case count to the total. */
  lemma TotalCasesAfterRecord(r: App.Records, res: AnalysisResult, cases: int)
    requires |res.predictions| > 0
    requires 0 <= cases < App.CaseBound
    ensures TotalCases(App.Record(r, res, cases).history) == TotalCases(r.history) + cases
  {
    var e := App.DerivedEntry(res, cases);
    TotalCasesAppend(r.history, [e]);
    assert [e][1..] == [];
  }

  /** The seed history holds 1840 cases. */
  lemma SeedTotalCases()
    ensures TotalCases(Constants.InitialHistoricalData()) == 1840
  {
    var h := Constants.InitialHistoricalData();
    var a, b := h[..5], h[5..];
    assert h == a + b;
    TotalCasesAppend(a, b);
    TotalCasesFive(a);
    TotalCasesFive(b);
  }

  lemma TotalCasesFive(h: seq<HistoricalEntry>)
    requires |h| == 5
    ensures TotalCases(h) == h[0].cases + h[1].cases + h[2].cases + h[3].cases + h[4].cases
  {
    var t1 := h[1..];
    var t2 := t1[1..];
    var t3 := t2[1..];
    var t4 := t3[1..];
    assert t1[0] == h[1] && t2[0] == h[2] && t3[0] == h[3] && t4[0] == h[4];
    assert t4[1..] == [];
    assert TotalCases(t4) == h[4].cases;
  }

  function SumAqi(rs: seq<AnalysisResult>): real
  {
    if rs == [] then 0.0 else rs[0].envData.aqi + SumAqi(rs[1..])
  }

  /** avgAQI before formatting: 45.0 with no results, otherwise the mean AQI. */
  function AverageAqi(rs: seq<AnalysisResult>): (a: real)
    ensures rs == [] ==> a == DefaultAqi
    ensures rs != [] ==> a * |rs| as real == SumAqi(rs)
  {
    if |rs| > 0 then SumAqi(rs) / |rs| as real else DefaultAqi
  }

  lemma {:induction false} SumAqiBounds(rs: seq<AnalysisResult>, lo: real, hi: real)
    requires forall k :: 0 <= k < |rs| ==> lo <= rs[k].envData.aqi <= hi
    ensures |rs| as real * lo <= SumAqi(rs) <= |rs| as real * hi
    decreases |rs|
  {
    if rs != [] {
      SumAqiBounds(rs[1..], lo, hi);
      assert |rs| as real * lo == (|rs| - 1) as real * lo + lo;
      assert |rs| as real * hi == (|rs| - 1) as real * hi + hi;
    }
  }

  /** The mean lies between the smallest and the largest AQI. */
  lemma AverageAqiWithinRange(rs: seq<AnalysisResult>, lo: real, hi: real)
    requires rs != []
    requires forall k :: 0 <= k < |rs| ==> lo <= rs[k].envData.aqi <= hi
    ensures lo <= AverageAqi(rs) <= hi
  {
    SumAqiBounds(rs, lo, hi);
  }

  /** The positions whose probability is above t: the items filter(p => p.probability > t) keeps. */
  function AboveIndices(ps: seq<DiseasePrediction>, t: int): set<int>
  {
    set k | 0 <= k < |ps| && ps[k].probability > t
  }

  /** Dropping the last prediction removes its position from the set, if it was there. */
  lemma AboveIndicesSnoc(ps: seq<DiseasePrediction>, t: int)
    requires ps != []
    ensures |AboveIndices(ps, t)| ==
      |AboveIndices(ps[..|ps| - 1], t)| + (if ps[|ps| - 1].probability > t then 1 else 0)
  {
    var n := |ps| - 1;
    var init := ps[..n];
    var whole, front := AboveIndices(ps, t), AboveIndices(init, t);
    forall k | 0 <= k < n ensures (k in whole <==> k in front) {
      assert init[k] == ps[k];
    }
    if ps[n].probability > t {
      assert whole == front + {n};
    } else {
      assert whole == front;
    }
  }

  /** How many predictions have a probability above t. */
  function CountAbove(ps: seq<DiseasePrediction>, t: int): (n: nat)
    ensures n == |AboveIndices(ps, t)|
    ensures n <= |ps|
    ensures n == 0 <==> forall k :: 0 <= k < |ps| ==> ps[k].probability <= t
    ensures n == |ps| <==> forall k :: 0 <= k < |ps| ==> ps[k].probability > t
    decreases |ps|
  {
    if ps == [] then 0
    else
      var init, last := ps[..|ps| - 1], ps[|ps| - 1];
      AboveIndicesSnoc(ps, t);
      assert forall k :: 0 <= k < |init| ==> init[k] == ps[k];
      CountAbove(init, t) + (if last.probability > t then 1 else 0)
  }

  /** highRiskCount: the alerts in the latest result, or 0 before any analysis. */
  function HighRiskCount(rs: seq<AnalysisResult>): (n: nat)
    ensures rs == [] ==> n == 0
    ensures rs != [] ==> n == |AboveIndices(rs[0].predictions, AlertThreshold)|
    ensures rs != [] ==> n <= |rs[0].predictions|
    ensures rs != [] ==>
      (n == 0 <==> forall k :: 0 <= k < |rs[0].predictions| ==> rs[0].predictions[k].probability <= AlertThreshold)
  {
    if rs == [] then 0 else CountAbove(rs[0].predictions, AlertThreshold)
  }

  /** After analysing the initial form, the dashboard shows two alerts. */
  lemma DefaultFormAlerts(location: string,
                          insightFor: (EnvironmentalData, string, seq<DiseasePrediction>) -> string,
                          id: string, timestamp: string, older: seq<AnalysisResult>)
    requires location != ""
    ensures var o := AnalyzeArea.Analyze(location, AnalyzeArea.DefaultForm, insightFor, id, timestamp);
      o.Analyzed? && HighRiskCount([o.result] + older) == 2
  {
    AnalyzeArea.DefaultFormPrediction();
    var o := AnalyzeArea.Analyze(location, AnalyzeArea.DefaultForm, insightFor, id, timestamp);
    assert ([o.result] + older)[0] == o.result;
    CountAboveThree(o.result.predictions, AlertThreshold);
  }

  lemma CountAboveThree(ps: seq<DiseasePrediction>, t: int)
    requires |ps| == 3
    ensures CountAbove(ps, t) == (if ps[0].probability > t then 1 else 0)
      + (if ps[1].probability > t then 1 else 0) + (if ps[2].probability > t then 1 else 0)
  {
    var p2 := ps[..2];
    var p1 := p2[..1];
    assert p2[0] == ps[0] && p2[1] == ps[1] && p1[0] == ps[0] && p1[..0] == [];
    assert CountAbove(p1, t) == if ps[0].probability > t then 1 else 0;
  }

  // ---------------------------------------------------------------------------
  // The chart's years

  predicate StrictlyIncreasing(ys: seq<int>)
  {
    forall i :: 0 < i < |ys| ==> ys[i - 1] < ys[i]
  }

  /** The years present in the history, as a set. */
  function YearSet(h: seq<HistoricalEntry>): set<int>
  {
    set k | 0 <= k < |h| :: h[k].year
  }

  /** Adds y to a strictly increasing list unless it is already there. */
  function InsertYear(y: int, ys: seq<int>): (r: seq<int>)
    requires StrictlyIncreasing(ys)
    ensures StrictlyIncreasing(r)
    ensures forall z :: z in r <==> z == y || z in ys
    ensures r != [] && (r[0] == y || (ys != [] && r[0] == ys[0]))
  {
    if ys == [] then [y]
    else if y == ys[0] then ys
    else if y < ys[0] then [y] + ys
    else
      assert ys == [ys[0]] + ys[1..];
      [ys[0]] + InsertYear(y, ys[1..])
  }

  /** years: every year present, each once, in ascending order. */
  function Years(h: seq<HistoricalEntry>): (ys: seq<int>)
    ensures StrictlyIncreasing(ys)
    ensures forall y :: y in ys <==> y in YearSet(h)
  {
    if h == [] then []
    else
      assert forall y :: y in YearSet(h) <==> y == h[0].year || y in YearSet(h[1..]) by {
        forall y ensures y in YearSet(h) <==> y == h[0].year || y in YearSet(h[1..]) {
          if y in YearSet(h) && y != h[0].year {
            var k :| 0 <= k < |h| && h[k].year == y;
            assert h[1..][k - 1] == h[k];
          }
          if y in YearSet(h[1..]) {
            var k :| 0 <= k < |h[1..]| && h[1..][k].year == y;
            assert h[k + 1] == h[1..][k];
          }
        }
      }
      InsertYear(h[0].year, Years(h[1..]))
  }

  /** JavaScript's String(n) for an integer: its decimal digits, with a minus sign if negative. */
  function Decimal(n: int): string
  {
    if n < 0 then "-" + Digits(-n) else Digits(n)
  }

  function Digits(n: nat): (s: string)
    ensures |s| >= 1
  {
    if n < 10 then [DigitChar(n)] else Digits(n / 10) + [DigitChar(n % 10)]
  }

  function DigitChar(d: nat): char
    requires d < 10
  {
    (48 + d) as char
  }

  /** The comparison a bare sort() uses: code-unit order, a proper prefix first. */
  function StringBefore(a: string, b: string): bool
  {
    if a == [] then b != []
    else if b == [] then false
    else if a[0] != b[0] then a[0] < b[0]
    else StringBefore(a[1..], b[1..])
  }

  lemma FourDigits(n: int)
    requires App.FourDigitYear(n)
    ensures Decimal(n) == [DigitChar(n / 1000), DigitChar(n / 100 % 10), DigitChar(n / 10 % 10), DigitChar(n % 10)]
  {
    assert n / 10 / 10 == n / 100;
    assert n / 100 / 10 == n / 1000;
    assert n / 10 % 10 < 10 && n / 100 % 10 < 10;
    assert Digits(n / 1000) == [DigitChar(n / 1000)];
    assert Digits(n / 100) == Digits(n / 1000) + [DigitChar(n / 100 % 10)];
    assert Digits(n / 10) == Digits(n / 100) + [DigitChar(n / 10 % 10)];
  }

  /** Strings that start alike compare as their tails do. */
  lemma StringBeforeStep(x: string, y: string)
    requires x != [] && y != []
    ensures StringBefore(x, y) <==> x[0] < y[0] || (x[0] == y[0] && StringBefore(x[1..], y[1..]))
  {
  }

  /** Four-character strings compare character by character. */
  lemma StringBeforeFour(x: string, y: string)
    requires |x| == 4 && |y| == 4
    ensures StringBefore(x, y) <==>
      x[0] < y[0] || (x[0] == y[0] && (x[1] < y[1] || (x[1] == y[1] && (x[2] < y[2] || (x[2] == y[2] && x[3] < y[3])))))
  {
    var x1, y1 := x[1..], y[1..];
    var x2, y2 := x1[1..], y1[1..];
    var x3, y3 := x2[1..], y2[1..];
    StringBeforeStep(x, y);
    StringBeforeStep(x1, y1);
    StringBeforeStep(x2, y2);
    StringBeforeStep(x3, y3);
    assert x3[1..] == [] && y3[1..] == [];
  }

  lemma DigitCharOrder(d: nat, e: nat)
    requires d < 10 && e < 10
    ensures DigitChar(d) < DigitChar(e) <==> d < e
    ensures DigitChar(d) == DigitChar(e) <==> d == e
  {
  }

  /** Numbers written with four digits compare digit by digit. */
  lemma DigitwiseOrder(a3: int, a2: int, a1: int, a0: int, b3: int, b2: int, b1: int, b0: int)
    requires 0 <= a2 < 10 && 0 <= a1 < 10 && 0 <= a0 < 10
    requires 0 <= b2 < 10 && 0 <= b1 < 10 && 0 <= b0 < 10
    ensures 1000 * a3 + 100 * a2 + 10 * a1 + a0 < 1000 * b3 + 100 * b2 + 10 * b1 + b0 <==>
      a3 < b3 || (a3 == b3 && (a2 < b2 || (a2 == b2 && (a1 < b1 || (a1 == b1 && a0 < b0)))))
  {
  }

  lemma DecimalDigits(n: int)
    requires App.FourDigitYear(n)
    ensures n == 1000 * (n / 1000) + 100 * (n / 100 % 10) + 10 * (n / 10 % 10) + n % 10
    ensures 1 <= n / 1000 < 10
  {
    var q1 := n / 10;
    var q2 := q1 / 10;
    assert n == 10 * q1 + n % 10;
    assert q1 == 10 * q2 + q1 % 10;
    assert q2 == 10 * (q2 / 10) + q2 % 10;
    assert q2 == n / 100 && q2 / 10 == n / 1000;
  }

  /** For four-digit years, comparing the decimal strings is comparing the numbers. */
  lemma FourDigitOrder(a: int, b: int)
    requires App.FourDigitYear(a) && App.FourDigitYear(b)
    ensures StringBefore(Decimal(a), Decimal(b)) <==> a < b
  {
    FourDigits(a);
    FourDigits(b);
    DecimalDigits(a);
    DecimalDigits(b);
    var a3, a2, a1, a0 := a / 1000, a / 100 % 10, a / 10 % 10, a % 10;
    var b3, b2, b1, b0 := b / 1000, b / 100 % 10, b / 10 % 10, b % 10;
    StringBeforeFour(Decimal(a), Decimal(b));
    DigitCharOrder(a3, b3);
    DigitCharOrder(a2, b2);
    DigitCharOrder(a1, b1);
    DigitCharOrder(a0, b0);
    DigitwiseOrder(a3, a2, a1, a0, b3, b2, b1, b0);
  }

  /** In the running application every year has four digits, so the numerically
      ascending years are also ascending as strings, which is the order sort() gives. */
  lemma YearsInStringOrder(h: seq<HistoricalEntry>)
    requires App.WellFormedHistory(h)
    ensures var ys := Years(h);
      forall i :: 0 < i < |ys| ==> StringBefore(Decimal(ys[i - 1]), Decimal(ys[i]))
  {
    var ys := Years(h);
    forall i | 0 < i < |ys| ensures StringBefore(Decimal(ys[i - 1]), Decimal(ys[i])) {
      assert ys[i - 1] in YearSet(h) && ys[i] in YearSet(h);
      FourDigitOrder(ys[i - 1], ys[i]);
    }
  }

  // ---------------------------------------------------------------------------
  // The chart rows

  /** One point of the area chart: a year and, per disease, a case count. */
  datatype ChartRow = ChartRow(year: int, cases: map<string, int>)

  /** historicalData.filter(d => d.year === year). */
  function EntriesIn(h: seq<HistoricalEntry>, y: int): (items: seq<HistoricalEntry>)
    ensures |items| <= |h|
    ensures forall k :: 0 <= k < |items| ==> items[k].year == y
    ensures forall e :: e in items <==> e in h && e.year == y
    decreases |h|
  {
    if h == [] then []
    else
      var init, last := h[..|h| - 1], h[|h| - 1];
      assert h == init + [last];
      EntriesIn(init, y) + (if last.year == y then [last] else [])
  }

  /** The filter works piecewise, so the kept entries stay in their order in h. */
  lemma {:induction false} EntriesInConcat(a: seq<HistoricalEntry>, b: seq<HistoricalEntry>, y: int)
    ensures EntriesIn(a + b, y) == EntriesIn(a, y) + EntriesIn(b, y)
    decreases |b|
  {
    if b == [] {
      assert a + b == a;
    } else {
      var init, last := b[..|b| - 1], b[|b| - 1];
      var tie := if last.year == y then [last] else [];
      assert b == init + [last];
      assert a + b == (a + init) + [last];
      EntriesInAppend(a + init, last, y);
      EntriesInAppend(init, last, y);
      EntriesInConcat(a, init, y);
      calc {
        EntriesIn(a + b, y);
        EntriesIn(a + init, y) + tie;
        (EntriesIn(a, y) + EntriesIn(init, y)) + tie;
        { App.ConcatAssoc(EntriesIn(a, y), EntriesIn(init, y), tie); }
        EntriesIn(a, y) + (EntriesIn(init, y) + tie);
        EntriesIn(a, y) + EntriesIn(b, y);
      }
    }
  }

  /** items.forEach(item => entry[item.disease] = item.cases): later items overwrite earlier ones. */
  function Overwrite(items: seq<HistoricalEntry>): (m: map<string, int>)
    ensures items != [] ==> var last := items[|items| - 1];
      last.disease in m && m[last.disease] == last.cases
    ensures forall d :: d in m ==> exists k :: 0 <= k < |items| && items[k].disease == d
    decreases |items|
  {
    if items == [] then map[]
    else
      var init, last := items[..|items| - 1], items[|items| - 1];
      assert forall k :: 0 <= k < |init| ==> init[k] == items[k];
      Overwrite(init)[last.disease := last.cases]
  }

  /** The reference reading: the position of the last entry for year y and disease d, or -1. */
  function LastMatch(h: seq<HistoricalEntry>, y: int, d: string): (k: int)
    ensures -1 <= k < |h|
    ensures k >= 0 ==> h[k].year == y && h[k].disease == d
    ensures forall j :: k < j < |h| ==> !(h[j].year == y && h[j].disease == d)
    decreases |h|
  {
    if h == [] then -1
    else if h[|h| - 1].year == y && h[|h| - 1].disease == d then |h| - 1
    else LastMatch(h[..|h| - 1], y, d)
  }

  lemma OverwriteAppend(items: seq<HistoricalEntry>, e: HistoricalEntry)
    ensures Overwrite(items + [e]) == Overwrite(items)[e.disease := e.cases]
  {
    assert (items + [e])[..|items|] == items;
  }

  /** A chart row: disease d is present exactly when some entry of that year names it,
      and then holds the cases of the last such entry. Nothing is summed. */
  lemma {:induction false} RowIsLastWrite(h: seq<HistoricalEntry>, y: int, d: string)
    ensures var row := Overwrite(EntriesIn(h, y));
      && (d in row <==> LastMatch(h, y, d) >= 0)
      && (d in row ==> row[d] == h[LastMatch(h, y, d)].cases)
    decreases |h|
  {
    if h != [] {
      var init, last := h[..|h| - 1], h[|h| - 1];
      RowIsLastWrite(init, y, d);
      if last.year == y {
        OverwriteAppend(EntriesIn(init, y), last);
      } else {
        assert EntriesIn(h, y) == EntriesIn(init, y) + [];
        assert EntriesIn(init, y) + [] == EntriesIn(init, y);
      }
      if !(last.year == y && last.disease == d) {
        assert LastMatch(h, y, d) == LastMatch(init, y, d);
        if LastMatch(init, y, d) >= 0 {
          assert h[LastMatch(init, y, d)] == init[LastMatch(init, y, d)];
        }
      }
    }
  }

  /** The keys of a row are exactly the diseases that have an entry for that year. */
  lemma RowKeys(h: seq<HistoricalEntry>, y: int, d: string)
    ensures d in Overwrite(EntriesIn(h, y)) <==> exists k :: 0 <= k < |h| && h[k].year == y && h[k].disease == d
  {
    RowIsLastWrite(h, y, d);
    var i := LastMatch(h, y, d);
    if exists k :: 0 <= k < |h| && h[k].year == y && h[k].disease == d {
      var k :| 0 <= k < |h| && h[k].year == y && h[k].disease == d;
      assert i >= k;
    }
  }

  /** The body of one chartData row: each item's cases stored under its disease, in order. */
  method ChartEntry(items: seq<HistoricalEntry>) returns (entry: map<string, int>)
    ensures entry == Overwrite(items)
  {
    entry := map[];
    var k := 0;
    while k < |items|
      invariant 0 <= k <= |items|
      invariant entry == Overwrite(items[..k])
    {
      assert items[..k + 1] == items[..k] + [items[k]];
      OverwriteAppend(items[..k], items[k]);
      entry := entry[items[k].disease := items[k].cases];
      k := k + 1;
    }
    assert items[..|items|] == items;
  }

  /** chartData: one row per year, in the order of years, each with that year's values. */
  method BuildChartData(h: seq<HistoricalEntry>) returns (rows: seq<ChartRow>)
    ensures |rows| == |Years(h)|
    ensures forall i :: 0 <= i < |rows| ==>
      rows[i].year == Years(h)[i] && rows[i].cases == Overwrite(EntriesIn(h, Years(h)[i]))
  {
    var years := Years(h);
    rows := [];
    var i := 0;
    while i < |years|
      invariant 0 <= i <= |years|
      invariant |rows| == i
      invariant forall j :: 0 <= j < i ==>
        rows[j].year == years[j] && rows[j].cases == Overwrite(EntriesIn(h, years[j]))
    {
      var year := years[i];
      var entry := ChartEntry(EntriesIn(h, year));
      rows := rows + [ChartRow(year, entry)];
      i := i + 1;
    }
  }

  /** A history with two entries for the same year and disease. */
  function DuplicateSample(): seq<HistoricalEntry>
  {
    [HistoricalEntry(2020, "Dengue", 100), HistoricalEntry(2020, "Dengue", 50),
     HistoricalEntry(2021, "Malaria", 30)]
  }

  lemma DuplicateSampleYears()
    ensures Years(DuplicateSample()) == [2020, 2021]
  {
    var h := DuplicateSample();
    assert h[1..][1..][1..] == [];
  }

  lemma EntriesInAppend(h: seq<HistoricalEntry>, e: HistoricalEntry, y: int)
    ensures EntriesIn(h + [e], y) == EntriesIn(h, y) + (if e.year == y then [e] else [])
  {
    assert (h + [e])[..|h|] == h;
  }

  /** For the duplicate sample the chart keeps the later count (50); it does not
      add the two up (150). */
  lemma ChartKeepsLastNotSum()
    ensures Overwrite(EntriesIn(DuplicateSample(), 2020)) == map["Dengue" := 50]
    ensures Overwrite(EntriesIn(DuplicateSample(), 2021)) == map["Malaria" := 30]
  {
    var h := DuplicateSample();
    var a, b, c := h[0], h[1], h[2];
    assert h == [a, b, c];
    SampleEntriesFirst(a, b, c);
    SampleEntriesSecond(a, b, c);
    OverwriteTwice(a, b);
    OverwriteOnce(c);
  }

  lemma SampleEntriesFirst(a: HistoricalEntry, b: HistoricalEntry, c: HistoricalEntry)
    requires a.year == 2020 && b.year == 2020 && c.year == 2021
    ensures EntriesIn([a, b, c], 2020) == [a, b]
  {
    var s1 := [] + [a];
    var s2 := s1 + [b];
    assert s1 == [a] && s2 == [a, b] && s2 + [c] == [a, b, c];
    EntriesInAppend([], a, 2020);
    EntriesInAppend(s1, b, 2020);
    assert EntriesIn(s2, 2020) == [a] + [b];
    EntriesInAppend(s2, c, 2020);
    assert EntriesIn(s2 + [c], 2020) == [a, b] + [];
  }

  lemma SampleEntriesSecond(a: HistoricalEntry, b: HistoricalEntry, c: HistoricalEntry)
    requires a.year == 2020 && b.year == 2020 && c.year == 2021
    ensures EntriesIn([a, b, c], 2021) == [c]
  {
    var s1 := [] + [a];
    var s2 := s1 + [b];
    assert s1 == [a] && s2 == [a, b] && s2 + [c] == [a, b, c];
    EntriesInAppend([], a, 2021);
    EntriesInAppend(s1, b, 2021);
    assert EntriesIn(s2, 2021) == [];
    EntriesInAppend(s2, c, 2021);
    assert EntriesIn(s2 + [c], 2021) == [] + [c];
  }

  lemma OverwriteOnce(a: HistoricalEntry)
    ensures Overwrite([a]) == map[a.disease := a.cases]
  {
    assert [a] == [] + [a];
    OverwriteAppend([], a);
  }

  lemma OverwriteTwice(a: HistoricalEntry, b: HistoricalEntry)
    requires a.disease == b.disease
    ensures Overwrite([a, b]) == map[b.disease := b.cases]
  {
    assert [a, b] == [a] + [b];
    OverwriteOnce(a);
    OverwriteAppend([a], b);
  }

  lemma {:induction false} IncreasingPairs(ys: seq<int>, i: int, j: int)
    requires StrictlyIncreasing(ys)
    requires 0 <= i < j < |ys|
    ensures ys[i] < ys[j]
    decreases j - i
  {
    if i + 1 < j {
      IncreasingPairs(ys, i + 1, j);
    }
  }

  /** Inserting a year that is already listed changes nothing. */
  lemma {:induction false} InsertYearPresent(y: int, ys: seq<int>)
    requires StrictlyIncreasing(ys) && y in ys
    ensures InsertYear(y, ys) == ys
    decreases |ys|
  {
    if ys[0] != y {
      var k :| 0 <= k < |ys| && ys[k] == y;
      IncreasingPairs(ys, 0, k);
      var tail := ys[1..];
      assert tail[k - 1] == y;
      assert InsertYear(y, ys) == [ys[0]] + InsertYear(y, tail);
      InsertYearPresent(y, tail);
      assert ys == [ys[0]] + tail;
    }
  }

  /** The seed history charts the years 2019 to 2023. */
  lemma SeedYears()
    ensures Years(Constants.InitialHistoricalData()) == [2019, 2020, 2021, 2022, 2023]
  {
    var h := Constants.InitialHistoricalData();
    assert h == h[..5] + h[5..];
    TwoRunsYears(h[..5], h[5..]);
  }

  /** Two runs of the years 2019 to 2023 chart just those five years. */
  lemma TwoRunsYears(a: seq<HistoricalEntry>, b: seq<HistoricalEntry>)
    requires |a| == 5 && |b| == 5
    requires forall k :: 0 <= k < 5 ==> a[k].year == 2019 + k && b[k].year == 2019 + k
    ensures Years(a + b) == [2019, 2020, 2021, 2022, 2023]
  {
    YearsOfRun(b, 2019);
    assert Run(2019, 5) == [2019, 2020, 2021, 2022, 2023];
    YearsAlreadyListed(a, b);
  }

  /** Prepending entries whose years are already charted leaves the years unchanged. */
  lemma {:induction false} YearsAlreadyListed(p: seq<HistoricalEntry>, t: seq<HistoricalEntry>)
    requires forall k :: 0 <= k < |p| ==> p[k].year in Years(t)
    ensures Years(p + t) == Years(t)
    decreases |p|
  {
    if p != [] {
      assert (p + t)[0] == p[0] && (p + t)[1..] == p[1..] + t;
      YearsAlreadyListed(p[1..], t);
      InsertYearPresent(p[0].year, Years(t));
    } else {
      assert p + t == t;
    }
  }

  /** The n consecutive years starting at y. */
  function Run(y: int, n: nat): (ys: seq<int>)
    ensures |ys| == n && (n > 0 ==> ys[0] == y)
    decreases n
  {
    if n == 0 then [] else [y] + Run(y + 1, n - 1)
  }

  /** Entries for consecutive years, in order, chart exactly those years. */
  lemma {:induction false} YearsOfRun(h: seq<HistoricalEntry>, y: int)
    requires forall k :: 0 <= k < |h| ==> h[k].year == y + k
    ensures Years(h) == Run(y, |h|)
    decreases |h|
  {
    if h != [] {
      var t := h[1..];
      assert forall k :: 0 <= k < |t| ==> t[k].year == (y + 1) + k by {
        forall k | 0 <= k < |t| ensures t[k].year == (y + 1) + k {
          assert t[k] == h[k + 1];
        }
      }
      YearsOfRun(t, y + 1);
    }
  }

  // ---------------------------------------------------------------------------
  // Recent reports

  /** recentResults.slice(0, 5): the first five results, in order. */
  function RecentReports(rs: seq<AnalysisResult>): (shown: seq<AnalysisResult>)
    ensures |shown| == if |rs| < RecentLimit then |rs| else RecentLimit
    ensures forall k :: 0 <= k < |shown| ==> shown[k] == rs[k]
  {
    if |rs| < RecentLimit then rs else rs[..RecentLimit]
  }

  /** A report's badge: red above a score of 60, green otherwise. */
  function ReportBadge(score: int): (t: Tone)
    ensures t == Red <==> score > AlertThreshold
    ensures t == Green <==> score <= AlertThreshold
  {
    if score > AlertThreshold then Red else Green
  }

  /** Once a result is recorded it heads the report list, followed by the older ones. */
  lemma NewestReportFirst(r: App.Records, res: AnalysisResult, cases: int)
    requires |res.predictions| > 0
    requires 0 <= cases < App.CaseBound
    ensures var shown := RecentReports(App.Record(r, res, cases).recent);
      && shown[0] == res
      && forall k :: 0 < k < |shown| ==> shown[k] == r.recent[k - 1]
  {
  }
}
