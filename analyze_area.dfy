/** The analysis panel (components/AnalyzeArea.tsx): how the entered metrics become
    three ranked disease predictions and a score, how a finished result is recorded,
    and the small classifiers and toggle of the prediction cards. */
module AnalyzeArea {
  import opened Types
  import App
  import RiskMeter

  /** The form's initial values. */
  const DefaultForm: EnvironmentalData := EnvironmentalData(45.0, 28.0, 65.0, 120.0, 1200.0)

  /** The highest probability any formula may report. */
  const ProbabilityCap: int := 95

  /** The message shown when the location field is empty. */
  const LocationPrompt: string := "Please enter a location"

  // ---------------------------------------------------------------------------
  // The three scoring rules

  /** Math.min(95, Math.floor(x)). */
  function CappedFloor(x: real): (p: int)
    ensures p <= ProbabilityCap
    ensures p == ProbabilityCap <==> x >= ProbabilityCap as real
    ensures p < ProbabilityCap ==> p as real <= x < p as real + 1.0
    ensures x >= 0.0 ==> p >= 0
  {
    if x.Floor < ProbabilityCap then x.Floor else ProbabilityCap
  }

  const DengueTips: seq<string> := ["Clear stagnant water", "Use mosquito repellents", "Wear long sleeves"]
  const RespiratoryTips: seq<string> := ["Avoid outdoor activity during peak smog", "Use N95 masks", "Use air purifiers indoors"]
  const TyphoidTips: seq<string> := ["Boil drinking water", "Maintain personal hygiene", "Avoid street food"]

  /** The Dengue literal: its probability from rainfall and humidity, Critical above
      200 mm of rain and High otherwise, trend Up. */
  function DengueCard(e: EnvironmentalData): (d: DiseasePrediction)
    ensures d.name == "Dengue" && d.trend == Up && d.preventionTips == DengueTips
    ensures d.probability == CappedFloor(e.rainfall / 3.0 + e.humidity / 2.0)
    ensures d.riskLevel == Critical <==> e.rainfall > 200.0
    ensures d.riskLevel == High <==> e.rainfall <= 200.0
  {
    DiseasePrediction("Dengue",
      CappedFloor(e.rainfall / 3.0 + e.humidity / 2.0),
      if e.rainfall > 200.0 then Critical else High,
      Up, DengueTips)
  }

  /** The respiratory literal: its probability from the AQI, High above an AQI of 100
      and Moderate otherwise, trend Up. */
  function RespiratoryCard(e: EnvironmentalData): (r: DiseasePrediction)
    ensures r.name == "Respiratory Distress" && r.trend == Up && r.preventionTips == RespiratoryTips
    ensures r.probability == CappedFloor(e.aqi * 1.5)
    ensures r.riskLevel == High <==> e.aqi > 100.0
    ensures r.riskLevel == Moderate <==> e.aqi <= 100.0
  {
    DiseasePrediction("Respiratory Distress",
      CappedFloor(e.aqi * 1.5),
      if e.aqi > 100.0 then High else Moderate,
      Up, RespiratoryTips)
  }

  /** The Typhoid literal: its probability from temperature and rainfall, always
      Moderate, trend Stable. */
  function TyphoidCard(e: EnvironmentalData): (t: DiseasePrediction)
    ensures t.name == "Typhoid" && t.trend == Stable && t.preventionTips == TyphoidTips
    ensures t.probability == CappedFloor(e.temperature + e.rainfall / 10.0)
    ensures t.riskLevel == Moderate
  {
    DiseasePrediction("Typhoid",
      CappedFloor(e.temperature + e.rainfall / 10.0),
      Moderate,
      Stable, TyphoidTips)
  }

  /** The prediction literals, in the order they are written. */
  function Cards(e: EnvironmentalData): (cs: seq<DiseasePrediction>)
    ensures |cs| == 3
    ensures cs[0] == DengueCard(e) && cs[1] == RespiratoryCard(e) && cs[2] == TyphoidCard(e)
    ensures forall k :: 0 <= k < 3 ==> TableIndex(cs[k].name) == k
  {
    [DengueCard(e), RespiratoryCard(e), TyphoidCard(e)]
  }

  /** Every probability is at most 95, and at least 0 when the inputs it reads are. */
  lemma CardBounds(e: EnvironmentalData)
    ensures forall k :: 0 <= k < 3 ==> Cards(e)[k].probability <= ProbabilityCap
    ensures e.rainfall >= 0.0 && e.humidity >= 0.0 ==> DengueCard(e).probability >= 0
    ensures e.aqi >= 0.0 ==> RespiratoryCard(e).probability >= 0
    ensures e.temperature >= 0.0 && e.rainfall >= 0.0 ==> TyphoidCard(e).probability >= 0
  {
  }

  // ---------------------------------------------------------------------------
  // The stable sort by descending probability

  /** Probabilities never increase from one prediction to the next. */
  predicate SortedByProbability(s: seq<DiseasePrediction>)
  {
    forall i :: 0 < i < |s| ==> s[i - 1].probability >= s[i].probability
  }

  /** ... hence never increase along the whole list. */
  lemma {:induction false} SortedPairs(s: seq<DiseasePrediction>, i: int, j: int)
    requires SortedByProbability(s)
    requires 0 <= i <= j < |s|
    ensures s[i].probability >= s[j].probability
    decreases j - i
  {
    if i < j {
      SortedPairs(s, i + 1, j);
    }
  }

  /** The predictions with probability v, in list order. */
  function WithProbability(s: seq<DiseasePrediction>, v: int): (r: seq<DiseasePrediction>)
    ensures |r| <= |s|
  {
    if s == [] then []
    else if s[0].probability == v then [s[0]] + WithProbability(s[1..], v)
    else WithProbability(s[1..], v)
  }

  lemma {:induction false} WithProbabilityAppend(a: seq<DiseasePrediction>, b: seq<DiseasePrediction>, v: int)
    ensures WithProbability(a + b, v) == WithProbability(a, v) + WithProbability(b, v)
    decreases |a|
  {
    if a == [] {
      assert a + b == b;
    } else {
      var ab := a + b;
      assert ab[0] == a[0];
      assert ab[1..] == a[1..] + b;
      WithProbabilityAppend(a[1..], b, v);
      if a[0].probability == v {
        assert WithProbability(ab, v) == [a[0]] + WithProbability(ab[1..], v);
        assert WithProbability(a, v) == [a[0]] + WithProbability(a[1..], v);
      } else {
        assert WithProbability(ab, v) == WithProbability(ab[1..], v);
        assert WithProbability(a, v) == WithProbability(a[1..], v);
      }
    }
  }

  /** A list in which every probability differs from v has nothing with probability v. */
  lemma {:induction false} WithProbabilityNone(s: seq<DiseasePrediction>, v: int)
    requires forall k :: 0 <= k < |s| ==> s[k].probability != v
    ensures WithProbability(s, v) == []
    decreases |s|
  {
    if s != [] {
      WithProbabilityNone(s[1..], v);
    }
  }

  /** Places x after every element whose probability is at least x's. */
  function Insert(x: DiseasePrediction, s: seq<DiseasePrediction>): (r: seq<DiseasePrediction>)
    requires SortedByProbability(s)
    ensures |r| == |s| + 1
    ensures SortedByProbability(r)
    ensures r[0] == x || (s != [] && r[0] == s[0])
  {
    if s == [] then [x]
    else if s[0].probability >= x.probability then
      var rest := Insert(x, s[1..]);
      assert s == [s[0]] + s[1..];
      [s[0]] + rest
    else
      [x] + s
  }

  /** Inserting keeps each tie group in order, with x last in its own group. */
  lemma {:induction false} InsertStable(x: DiseasePrediction, s: seq<DiseasePrediction>, v: int)
    requires SortedByProbability(s)
    ensures WithProbability(Insert(x, s), v)
         == WithProbability(s, v) + (if x.probability == v then [x] else [])
    decreases |s|
  {
    if s == [] {
      assert Insert(x, s) == [x];
      assert [x][1..] == [];
    } else if s[0].probability >= x.probability {
      var s0, tail := s[0], s[1..];
      var rest := Insert(x, tail);
      var t := Insert(x, s);
      assert t == [s0] + rest;
      assert t[0] == s0 && t[1..] == rest;
      InsertStable(x, tail, v);
      var tie := if x.probability == v then [x] else [];
      assert WithProbability(rest, v) == WithProbability(tail, v) + tie;
      if s0.probability == v {
        assert WithProbability(t, v) == [s0] + WithProbability(rest, v);
        assert WithProbability(s, v) == [s0] + WithProbability(tail, v);
        assert [s0] + (WithProbability(tail, v) + tie) == ([s0] + WithProbability(tail, v)) + tie;
      } else {
        assert WithProbability(t, v) == WithProbability(rest, v);
        assert WithProbability(s, v) == WithProbability(tail, v);
      }
    } else {
      assert Insert(x, s) == [x] + s;
      FrontStable(x, s, v);
    }
  }

  /** x placed in front of a sorted list whose first probability is below x's. */
  lemma FrontStable(x: DiseasePrediction, s: seq<DiseasePrediction>, v: int)
    requires SortedByProbability(s) && s != [] && s[0].probability < x.probability
    ensures WithProbability([x] + s, v)
         == WithProbability(s, v) + (if x.probability == v then [x] else [])
  {
    var t := [x] + s;
    assert t[0] == x && t[1..] == s;
    if x.probability == v {
      forall k | 0 <= k < |s| ensures s[k].probability != v {
        SortedPairs(s, 0, k);
      }
      WithProbabilityNone(s, v);
      assert WithProbability(t, v) == [x] + [];
    } else {
      assert WithProbability(t, v) == WithProbability(s, v);
      assert WithProbability(s, v) + [] == WithProbability(s, v);
    }
  }

  /** Array.prototype.sort with comparator b.probability - a.probability: a stable
      sort into non-increasing probability, here as insertion from left to right. */
  function SortByProbability(s: seq<DiseasePrediction>): (r: seq<DiseasePrediction>)
    ensures |r| == |s|
    ensures SortedByProbability(r)
    decreases |s|
  {
    if s == [] then []
    else
      var init, last := s[..|s| - 1], s[|s| - 1];
      assert s == init + [last];
      Insert(last, SortByProbability(init))
  }

  /** Inserting adds exactly x. */
  lemma {:induction false} InsertPermutes(x: DiseasePrediction, s: seq<DiseasePrediction>)
    requires SortedByProbability(s)
    ensures multiset(Insert(x, s)) == multiset(s) + multiset{x}
    decreases |s|
  {
    if s != [] && s[0].probability >= x.probability {
      InsertPermutes(x, s[1..]);
      assert s == [s[0]] + s[1..];
    }
  }

  /** The sorted list is a permutation of the input. */
  lemma {:induction false} SortPermutes(s: seq<DiseasePrediction>)
    ensures multiset(SortByProbability(s)) == multiset(s)
    decreases |s|
  {
    if s != [] {
      var init, last := s[..|s| - 1], s[|s| - 1];
      assert s == init + [last];
      SortPermutes(init);
      InsertPermutes(last, SortByProbability(init));
    }
  }

  /** Stability: for every probability value, the predictions that have it keep
      their original relative order. */
  lemma {:induction false} SortStable(s: seq<DiseasePrediction>, v: int)
    ensures WithProbability(SortByProbability(s), v) == WithProbability(s, v)
    decreases |s|
  {
    if s != [] {
      var init, last := s[..|s| - 1], s[|s| - 1];
      assert s == init + [last];
      SortStable(init, v);
      InsertStable(last, SortByProbability(init), v);
      WithProbabilityAppend(init, [last], v);
    }
  }

  /** The ranked predictions for the given metrics. */
  function Predict(e: EnvironmentalData): (r: seq<DiseasePrediction>)
    ensures |r| == 3
    ensures SortedByProbability(r)
    ensures multiset(r) == multiset(Cards(e))
  {
    SortPermutes(Cards(e));
    SortByProbability(Cards(e))
  }

  /** Where a disease's card stands in the literal table. */
  function TableIndex(name: string): int
  {
    if name == "Dengue" then 0
    else if name == "Respiratory Distress" then 1
    else if name == "Typhoid" then 2
    else 3
  }


  /** Equal probabilities appear in table order. */
  predicate TiesInTableOrder(r: seq<DiseasePrediction>)
  {
    forall i, j :: 0 <= i < j < |r| && r[i].probability == r[j].probability ==>
      TableIndex(r[i].name) < TableIndex(r[j].name)
  }

  lemma TiesInTableOrderThree(x: DiseasePrediction, y: DiseasePrediction, z: DiseasePrediction)
    requires x.probability == y.probability ==> TableIndex(x.name) < TableIndex(y.name)
    requires x.probability == z.probability ==> TableIndex(x.name) < TableIndex(z.name)
    requires y.probability == z.probability ==> TableIndex(y.name) < TableIndex(z.name)
    ensures TiesInTableOrder([x, y, z])
  {
  }

  lemma SortTwo(x: DiseasePrediction, y: DiseasePrediction)
    ensures SortByProbability([x, y]) == if x.probability >= y.probability then [x, y] else [y, x]
  {
    assert [x, y][..1] == [x] && [x][..0] == [];
    assert SortByProbability([x]) == [x];
    assert SortByProbability([x, y]) == Insert(y, [x]);
  }

  lemma SortThreeUnfold(x: DiseasePrediction, y: DiseasePrediction, z: DiseasePrediction)
    ensures SortByProbability([x, y, z]) == Insert(z, SortByProbability([x, y]))
  {
    assert [x, y, z][..2] == [x, y];
  }

  lemma InsertIntoTwo(z: DiseasePrediction, x: DiseasePrediction, y: DiseasePrediction)
    requires x.probability >= y.probability
    ensures Insert(z, [x, y]) ==
      if x.probability < z.probability then [z, x, y]
      else if y.probability < z.probability then [x, z, y]
      else [x, y, z]
  {
    if x.probability >= z.probability {
      assert [x, y][1..] == [y];
      assert Insert(z, [x, y]) == [x] + Insert(z, [y]);
      assert [y][1..] == [];
    }
  }

  /** Sorting three table entries, written out case by case. */
  lemma SortThree(d: DiseasePrediction, b: DiseasePrediction, t: DiseasePrediction)
    requires TableIndex(d.name) == 0 && TableIndex(b.name) == 1 && TableIndex(t.name) == 2
    ensures TiesInTableOrder(SortByProbability([d, b, t]))
  {
    SortTwo(d, b);
    SortThreeUnfold(d, b, t);
    if d.probability >= b.probability {
      InsertIntoTwo(t, d, b);
      if d.probability < t.probability {
        TiesInTableOrderThree(t, d, b);
      } else if b.probability < t.probability {
        TiesInTableOrderThree(d, t, b);
      } else {
        TiesInTableOrderThree(d, b, t);
      }
    } else {
      InsertIntoTwo(t, b, d);
      if b.probability < t.probability {
        TiesInTableOrderThree(t, b, d);
      } else if d.probability < t.probability {
        TiesInTableOrderThree(b, t, d);
      } else {
        TiesInTableOrderThree(b, d, t);
      }
    }
  }

  /** Ties keep the literal order Dengue, Respiratory Distress, Typhoid. */
  lemma PredictTieOrder(e: EnvironmentalData)
    ensures TiesInTableOrder(Predict(e))
  {
    SortThree(DengueCard(e), RespiratoryCard(e), TyphoidCard(e));
  }

  // ---------------------------------------------------------------------------
  // The aggregate score

  function Sum(ps: seq<DiseasePrediction>): int
  {
    if ps == [] then 0 else ps[0].probability + Sum(ps[1..])
  }

  /** Math.floor(sum / length): the floor of the mean probability. */
  function RiskScore(ps: seq<DiseasePrediction>): (s: int)
    requires |ps| > 0
    ensures s * |ps| <= Sum(ps) < (s + 1) * |ps|
  {
    Sum(ps) / |ps|
  }

  lemma {:induction false} SumBounds(ps: seq<DiseasePrediction>, lo: int, hi: int)
    requires forall k :: 0 <= k < |ps| ==> lo <= ps[k].probability <= hi
    ensures |ps| * lo <= Sum(ps) <= |ps| * hi
    decreases |ps|
  {
    if ps != [] {
      SumBounds(ps[1..], lo, hi);
      assert |ps| * lo == (|ps| - 1) * lo + lo;
      assert |ps| * hi == (|ps| - 1) * hi + hi;
    }
  }

  /** The score lies between the smallest and the largest probability. */
  lemma ScoreWithinRange(ps: seq<DiseasePrediction>, lo: int, hi: int)
    requires |ps| > 0
    requires forall k :: 0 <= k < |ps| ==> lo <= ps[k].probability <= hi
    ensures lo <= RiskScore(ps) <= hi
  {
    SumBounds(ps, lo, hi);
    var n, s := |ps|, RiskScore(ps);
    MulMonotone(s + 1, lo, n);
    MulMonotone(hi + 1, s, n);
  }

  /** Multiplying by a natural number keeps the order. */
  lemma MulMonotone(a: int, b: int, n: int)
    ensures a <= b && n >= 0 ==> a * n <= b * n
  {
    if a <= b && n >= 0 {
      assert b * n - a * n == (b - a) * n;
    }
  }

  // ---------------------------------------------------------------------------
  // handlePredict

  /** How handlePredict ends: an alert about the empty location, or a record. */
  datatype Outcome = LocationRequired(message: string) | Analyzed(result: AnalysisResult)

  /** The record handlePredict builds.  insightFor stands for getAIInsights; id and
      timestamp for the random id and the clock.  An empty location yields the alert. */
  function Analyze(location: string, e: EnvironmentalData,
                   insightFor: (EnvironmentalData, string, seq<DiseasePrediction>) -> string,
                   id: string, timestamp: string): (o: Outcome)
    ensures o.LocationRequired? <==> location == ""
    ensures o.LocationRequired? ==> o.message == LocationPrompt
    ensures o.Analyzed? ==>
      var r := o.result;
      && r.id == id && r.location == location && r.timestamp == timestamp && r.envData == e
      && |r.predictions| == 3
      && SortedByProbability(r.predictions)
      && multiset(r.predictions) == multiset(Cards(e))
      && TiesInTableOrder(r.predictions)
      && r.aiInsights == insightFor(e, location, r.predictions)
      && r.riskScore * 3 <= Sum(r.predictions) < (r.riskScore + 1) * 3
      && r.predictions[2].probability <= r.riskScore <= r.predictions[0].probability
      && r.riskScore <= ProbabilityCap
  {
    if location == "" then LocationRequired(LocationPrompt)
    else
      var predictions := Predict(e);
      var score := RiskScore(predictions);
      PredictScoreBounds(e);
      PredictTieOrder(e);
      Analyzed(AnalysisResult(id, timestamp := timestamp, location := location, envData := e,
        predictions := predictions, aiInsights := insightFor(e, location, predictions),
        riskScore := score))
  }

  /** The score of the sorted cards lies between the last and the first probability,
      and so never exceeds the cap. */
  lemma PredictScoreBounds(e: EnvironmentalData)
    ensures var ps := Predict(e);
      ps[2].probability <= RiskScore(ps) <= ps[0].probability <= ProbabilityCap
  {
    var ps := Predict(e);
    CardBounds(e);
    assert ps[0] in multiset(Cards(e));
    SortedPairs(ps, 0, 1);
    SortedPairs(ps, 0, 2);
    SortedPairs(ps, 1, 2);
    ScoreWithinRange(ps, ps[2].probability, ps[0].probability);
  }

  /** The form's initial values give Dengue 72, Respiratory Distress 67 and Typhoid 40,
      in that order, and a score of 59. */
  lemma DefaultFormPrediction()
    ensures var r := Predict(DefaultForm);
      && r == [DengueCard(DefaultForm), RespiratoryCard(DefaultForm), TyphoidCard(DefaultForm)]
      && r[0].name == "Dengue" && r[0].probability == 72
      && r[1].name == "Respiratory Distress" && r[1].probability == 67
      && r[2].name == "Typhoid" && r[2].probability == 40
      && RiskScore(r) == 59
  {
    var e := DefaultForm;
    var d, b, t := DengueCard(e), RespiratoryCard(e), TyphoidCard(e);
    DefaultFormCards();
    SortedThreeStays(d, b, t);
    var r := Predict(e);
    SumThree(r);
  }

  /** The three formulas on the form's initial values. */
  lemma DefaultFormCards()
    ensures DengueCard(DefaultForm).probability == 72
    ensures RespiratoryCard(DefaultForm).probability == 67
    ensures TyphoidCard(DefaultForm).probability == 40
  {
    var e := DefaultForm;
    assert (e.rainfall / 3.0 + e.humidity / 2.0).Floor == 72;
    assert (e.aqi * 1.5).Floor == 67;
    assert (e.temperature + e.rainfall / 10.0).Floor == 40;
  }

  /** Three predictions already in descending order stay where they are. */
  lemma SortedThreeStays(x: DiseasePrediction, y: DiseasePrediction, z: DiseasePrediction)
    requires x.probability >= y.probability >= z.probability
    ensures SortByProbability([x, y, z]) == [x, y, z]
  {
    SortTwo(x, y);
    SortThreeUnfold(x, y, z);
    InsertIntoTwo(z, x, y);
  }

  lemma SumThree(ps: seq<DiseasePrediction>)
    requires |ps| == 3
    ensures Sum(ps) == ps[0].probability + ps[1].probability + ps[2].probability
  {
    var t1 := ps[1..];
    var t2 := t1[1..];
    assert t1[0] == ps[1] && t2[0] == ps[2] && t2[1..] == [];
    assert Sum(t2) == ps[2].probability;
    assert Sum(t1) == ps[1].probability + ps[2].probability;
  }

  // ---------------------------------------------------------------------------
  // The prediction card

  /** The probability bar: red above 70, amber above 40, green otherwise. */
  function BarColor(p: int): (t: Tone)
    ensures t == Red <==> p > 70
    ensures t == Amber <==> 40 < p <= 70
    ensures t == Green <==> p <= 40
  {
    if p > 70 then Red else if p > 40 then Amber else Green
  }

  /** A higher probability never gets a less alarming bar. */
  lemma BarColorMonotone(p: int, q: int)
    requires p <= q
    ensures Severity(BarColor(p)) <= Severity(BarColor(q))
  {
  }

  /** At 70 the bar is still amber while the risk meter is already red; they agree
      on red from 71 on. */
  lemma BarAndMeterAt70()
    ensures BarColor(70) == Amber && RiskMeter.GetColor(70) == Red
    ensures forall p :: p > 70 ==> BarColor(p) == Red && RiskMeter.GetColor(p) == Red
  {
  }

  /** The risk badge: red for High and Critical, amber for Low and Moderate. */
  function BadgeColor(level: RiskLevel): (t: Tone)
    ensures t == Red <==> level == High || level == Critical
    ensures t == Amber <==> level == Low || level == Moderate
  {
    match level
    case High | Critical => Red
    case Low | Moderate => Amber
  }

  /** The "prevention tips" button of card name: collapse it when it is the one
      expanded, otherwise expand it (collapsing any other). */
  function ToggleTips(expanded: Option<string>, name: string): (next: Option<string>)
    ensures next == None <==> expanded == Some(name)
    ensures next != None ==> next == Some(name)
  {
    if expanded == Some(name) then None else Some(name)
  }

  /** Two clicks on the same card restore the state exactly when no other card was
      expanded to begin with. */
  lemma ToggleTipsTwice(expanded: Option<string>, name: string)
    ensures ToggleTips(ToggleTips(expanded, name), name) == expanded
        <==> expanded == None || expanded == Some(name)
  {
  }

  // ---------------------------------------------------------------------------
  // The panel's state

  /** The state the panel keeps across renders. */
  class AnalyzeState {
    var location: string
    var formData: EnvironmentalData
    var result: Option<AnalysisResult>
    var expandedTips: Option<string>

    /** The initial useState values. */
    constructor ()
      ensures location == "" && formData == DefaultForm
      ensures result == None && expandedTips == None
    {
      location := "";
      formData := DefaultForm;
      result := None;
      expandedTips := None;
    }

    /** The location field's onChange. */
    method SetLocation(s: string)
      modifies this
      ensures location == s
      ensures formData == old(formData) && result == old(result) && expandedTips == old(expandedTips)
    {
      location := s;
    }

    /** The metric fields' onChange (each replaces the whole form record). */
    method SetFormData(e: EnvironmentalData)
      modifies this
      ensures formData == e
      ensures location == old(location) && result == old(result) && expandedTips == old(expandedTips)
    {
      formData := e;
    }

    /** The prevention-tips button of the card named name. */
    method ClickTips(name: string)
      modifies this
      ensures expandedTips == ToggleTips(old(expandedTips), name)
      ensures location == old(location) && formData == old(formData) && result == old(result)
    {
      expandedTips := ToggleTips(expandedTips, name);
    }

    /** handlePredict: with an empty location, alert and change nothing; otherwise build
        the record once, keep it as result and hand it once to app's addResult.
        insightFor stands for getAIInsights, id and timestamp for the random id and
        the clock, cases for addResult's random case count. */
    method HandlePredict(app: App.AppState,
                         insightFor: (EnvironmentalData, string, seq<DiseasePrediction>) -> string,
                         id: string, timestamp: string, cases: int)
      returns (outcome: Outcome)
      requires app.Valid()
      requires 0 <= cases < App.CaseBound
      modifies this, app
      ensures app.Valid()
      ensures outcome == Analyze(old(location), old(formData), insightFor, id, timestamp)
      ensures outcome.LocationRequired? ==>
        result == old(result) && app.Contents() == old(app.Contents())
      ensures outcome.Analyzed? ==>
        && result == Some(outcome.result)
        && app.Contents() == App.Record(old(app.Contents()), outcome.result, cases)
      ensures location == old(location) && formData == old(formData)
      ensures expandedTips == old(expandedTips)
      ensures app.activeTab == old(app.activeTab) && app.isDark == old(app.isDark)
    {
      outcome := Analyze(location, formData, insightFor, id, timestamp);
      match outcome {
        case LocationRequired(_) =>
        case Analyzed(newResult) =>
          Publish(app, newResult, cases);
      }
    }

    /** setResult(newResult) followed by onAddResult(newResult). */
    method Publish(app: App.AppState, newResult: AnalysisResult, cases: int)
      requires app.Valid()
      requires |newResult.predictions| > 0
      requires 0 <= cases < App.CaseBound
      modifies this, app
      ensures app.Valid()
      ensures result == Some(newResult)
      ensures app.Contents() == App.Record(old(app.Contents()), newResult, cases)
      ensures location == old(location) && formData == old(formData)
      ensures expandedTips == old(expandedTips)
      ensures app.activeTab == old(app.activeTab) && app.isDark == old(app.isDark)
    {
      result := Some(newResult);
      app.AddResult(newResult, cases);
    }
  }

  /** An analysis of "Mumbai" with the initial form, end to end: one result and
      one entry more, the entry filed under the top prediction, Dengue. */
  method MumbaiSession(cases: int) returns (app: App.AppState, panel: AnalyzeState)
    requires 0 <= cases < App.CaseBound
    ensures app.Valid()
    ensures |app.recentResults| == 1 && |app.historicalData| == 11
    ensures app.historicalData[10] == HistoricalEntry(App.EntryYear, "Dengue", cases)
    ensures panel.result.Some? && panel.result.value.riskScore == 59
  {
    app := new App.AppState();
    panel := new AnalyzeState();
    panel.SetLocation("Mumbai");
    var outcome := panel.HandlePredict(app, (e, l, p) => "insight", "id", "now", cases);
    DefaultFormPrediction();
  }
}
