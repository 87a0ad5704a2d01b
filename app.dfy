/** The application shell (App.tsx): the two long-lived lists, the way a finished
    analysis is recorded into them, and which view a tab selects. */
module App {
  import opened Types
  import Constants

  /** The year every synthetic historical entry is filed under. */
  const EntryYear: int := 2024

  /** The exclusive upper bound of Math.floor(Math.random() * 500). */
  const CaseBound: int := 500

  /** The two lists addResult changes, together. */
  datatype Records = Records(recent: seq<AnalysisResult>, history: seq<HistoricalEntry>)

  /** Every year shown on the chart has four decimal digits. */
  predicate FourDigitYear(y: int)
  {
    1000 <= y <= 9999
  }

  /** The shape every historical entry of the running application has. */
  predicate WellFormedEntry(e: HistoricalEntry)
  {
    FourDigitYear(e.year) && e.cases >= 0
  }

  predicate WellFormedHistory(h: seq<HistoricalEntry>)
  {
    forall i :: 0 <= i < |h| ==> WellFormedEntry(h[i])
  }

  /** The entry addResult derives from a result: this year, the top disease, a random count. */
  function DerivedEntry(res: AnalysisResult, cases: int): (e: HistoricalEntry)
    requires |res.predictions| > 0
    requires 0 <= cases < CaseBound
    ensures WellFormedEntry(e)
    ensures e.year == EntryYear && e.disease == res.predictions[0].name
    ensures 0 <= e.cases < CaseBound
  {
    HistoricalEntry(EntryYear, res.predictions[0].name, cases)
  }

  /** What one addResult call does to the two lists: the result goes in front of the
      newest-first list and its derived entry at the back of the history. */
  function Record(r: Records, res: AnalysisResult, cases: int): (r': Records)
    requires |res.predictions| > 0
    requires 0 <= cases < CaseBound
    ensures |r'.recent| == |r.recent| + 1 && r'.recent[0] == res && r'.recent[1..] == r.recent
    ensures |r'.history| == |r.history| + 1 && r'.history[..|r.history|] == r.history
    ensures r'.history[|r.history|] == DerivedEntry(res, cases)
  {
    Records([res] + r.recent, r.history + [DerivedEntry(res, cases)])
  }

  /** An analysis as onAddResult receives it, with the random case count it draws. */
  datatype Submission = Submission(res: AnalysisResult, cases: int)

  predicate Admissible(s: Submission)
  {
    |s.res.predictions| > 0 && 0 <= s.cases < CaseBound
  }

  /** A list of submissions is admissible as a whole; its tail then is too. */
  predicate AllAdmissible(subs: seq<Submission>)
  {
    forall i :: 0 <= i < |subs| ==> Admissible(subs[i])
  }

  lemma TailAdmissible(subs: seq<Submission>)
    requires subs != [] && AllAdmissible(subs)
    ensures Admissible(subs[0]) && AllAdmissible(subs[1..])
  {
    forall i | 0 <= i < |subs| - 1 ensures Admissible(subs[1..][i]) {
      assert subs[1..][i] == subs[i + 1];
    }
  }

  /** addResult applied to each submission in turn. */
  function RecordAll(r: Records, subs: seq<Submission>): Records
    requires AllAdmissible(subs)
    decreases |subs|
  {
    if subs == [] then r
    else
      assert Admissible(subs[0]);
      RecordAll(Record(r, subs[0].res, subs[0].cases), subs[1..])
  }

  /** The submitted results, newest first. */
  function NewestFirst(subs: seq<Submission>): (rs: seq<AnalysisResult>)
    ensures |rs| == |subs|
  {
    if subs == [] then [] else NewestFirst(subs[1..]) + [subs[0].res]
  }

  lemma {:induction false} NewestFirstAt(subs: seq<Submission>, k: nat)
    requires k < |subs|
    ensures NewestFirst(subs)[k] == subs[|subs| - 1 - k].res
    decreases |subs|
  {
    if k < |subs| - 1 {
      NewestFirstAt(subs[1..], k);
    }
  }

  function Entries(subs: seq<Submission>): (es: seq<HistoricalEntry>)
    requires AllAdmissible(subs)
    ensures |es| == |subs|
    ensures forall i :: 0 <= i < |subs| ==> Admissible(subs[i]) && es[i] == DerivedEntry(subs[i].res, subs[i].cases)
  {
    if subs == [] then []
    else
      assert Admissible(subs[0]);
      [DerivedEntry(subs[0].res, subs[0].cases)] + Entries(subs[1..])
  }

  lemma ConcatAssoc<T>(a: seq<T>, b: seq<T>, c: seq<T>)
    ensures (a + b) + c == a + (b + c)
  {
  }

  /** After n calls the results are in front of the older ones, newest first. */
  lemma {:induction false} RecordAllRecent(r: Records, subs: seq<Submission>)
    requires AllAdmissible(subs)
    ensures RecordAll(r, subs).recent == NewestFirst(subs) + r.recent
    decreases |subs|
  {
    if subs != [] {
      var s0, tail := subs[0], subs[1..];
      TailAdmissible(subs);
      var r1 := Record(r, s0.res, s0.cases);
      assert r1.recent == [s0.res] + r.recent;
      assert RecordAll(r, subs).recent == RecordAll(r1, tail).recent;
      RecordAllRecent(r1, tail);
      var rt := NewestFirst(tail);
      assert NewestFirst(subs) == rt + [s0.res];
      ConcatAssoc(rt, [s0.res], r.recent);
    }
  }

  /** After n calls the derived entries follow the older ones, in call order. */
  lemma {:induction false} RecordAllHistory(r: Records, subs: seq<Submission>)
    requires AllAdmissible(subs)
    ensures RecordAll(r, subs).history == r.history + Entries(subs)
    decreases |subs|
  {
    if subs != [] {
      var s0, tail := subs[0], subs[1..];
      TailAdmissible(subs);
      var r1 := Record(r, s0.res, s0.cases);
      var e0 := DerivedEntry(s0.res, s0.cases);
      assert r1.history == r.history + [e0];
      assert RecordAll(r, subs).history == RecordAll(r1, tail).history;
      RecordAllHistory(r1, tail);
      assert Entries(subs) == [e0] + Entries(tail);
      ConcatAssoc(r.history, [e0], Entries(tail));
    }
  }

  /** Consequences of RecordAllRecent and RecordAllHistory: the sizes grow by n and the front of the
      result list is the latest submission. */
  lemma RecordAllGrowth(r: Records, subs: seq<Submission>)
    requires AllAdmissible(subs)
    ensures |RecordAll(r, subs).recent| == |r.recent| + |subs|
    ensures |RecordAll(r, subs).history| == |r.history| + |subs|
    ensures subs != [] ==> RecordAll(r, subs).recent[0] == subs[|subs| - 1].res
  {
    RecordAllRecent(r, subs);
    RecordAllHistory(r, subs);
    if subs != [] {
      NewestFirstAt(subs, 0);
    }
  }

  /** The seed history is well formed. */
  lemma SeedWellFormed()
    ensures WellFormedHistory(Constants.InitialHistoricalData())
  {
  }

  /** The views renderContent can show. */
  datatype View = DashboardView | AnalyzeView | UploadView | HistoryView | AboutView

  /** renderContent's switch on the active tab; an unknown tab falls back to the dashboard. */
  function ViewFor(tab: string): (v: View)
    ensures v == AnalyzeView <==> tab == "analyze"
    ensures v == UploadView <==> tab == "upload"
    ensures v == HistoryView <==> tab == "history"
    ensures v == AboutView <==> tab == "about"
    ensures v == DashboardView <==> tab !in {"analyze", "upload", "history", "about"}
  {
    match tab
    case "dashboard" => DashboardView
    case "analyze" => AnalyzeView
    case "upload" => UploadView
    case "history" => HistoryView
    case "about" => AboutView
    case _ => DashboardView
  }

  /** The state App keeps across renders. */
  class AppState {
    var activeTab: string
    var isDark: bool
    var recentResults: seq<AnalysisResult>
    var historicalData: seq<HistoricalEntry>

    ghost predicate Valid()
      reads this
    {
      WellFormedHistory(historicalData)
    }

    function Contents(): Records
      reads this
    {
      Records(recentResults, historicalData)
    }

    /** The initial useState values. */
    constructor ()
      ensures Valid()
      ensures activeTab == "dashboard" && !isDark
      ensures recentResults == [] && historicalData == Constants.InitialHistoricalData()
    {
      activeTab := "dashboard";
      isDark := false;
      recentResults := [];
      historicalData := Constants.InitialHistoricalData();
    }

    /** addResult: prepend the result and append its derived entry; nothing else changes.
        cases stands for Math.floor(Math.random() * 500). */
    method AddResult(res: AnalysisResult, cases: int)
      requires Valid()
      requires |res.predictions| > 0
      requires 0 <= cases < CaseBound
      modifies this
      ensures Valid()
      ensures Contents() == Record(old(Contents()), res, cases)
      ensures recentResults == [res] + old(recentResults)
      ensures historicalData == old(historicalData) + [DerivedEntry(res, cases)]
      ensures activeTab == old(activeTab) && isDark == old(isDark)
    {
      recentResults := [res] + recentResults;
      var newEntry := HistoricalEntry(EntryYear, res.predictions[0].name, cases);
      historicalData := historicalData + [newEntry];
    }

    /** The view renderContent shows for the current tab. */
    function CurrentView(): (v: View)
      reads this
      ensures v == AnalyzeView <==> activeTab == "analyze"
    {
      ViewFor(activeTab)
    }
  }

  /** The application starts on the dashboard with the seed history and no results. */
  method StartUp() returns (app: AppState)
    ensures fresh(app) && app.Valid()
    ensures app.CurrentView() == DashboardView
    ensures app.activeTab == "dashboard" && !app.isDark
    ensures app.recentResults == [] && app.historicalData == Constants.InitialHistoricalData()
    ensures |app.historicalData| == 10
  {
    app := new AppState();
  }
}
