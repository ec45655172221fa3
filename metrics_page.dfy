/** The Metrics page: the view model read from the route, the URL written back from it, the
    tree selection, the list of applications and the metrics subscription. */
module MetricsPage {
  import opened Wrappers
  import opened Text

  /** A `SelectViewModel<string>` for an application; `id` is null for the placeholder. */
  datatype Application = Application(id: Option<string>, name: string)

  /** The placeholder entry with a null id. */
  const SelectApplication := Application(None, "(Select a resource)")

  /** The selectable durations, in whole minutes. */
  const Durations: seq<nat> := [1, 5, 15, 30, 60, 180, 360, 720, 1440]

  /** The duration selected when the route names none of the above. */
  const DefaultDuration: nat := 5

  datatype Meter = Meter(meterName: string)

  datatype Instrument = Instrument(name: string, parent: Meter)

  /** What the `Data` of the selected tree item holds. */
  datatype TreeItemData = MeterItem(meter: Meter) | InstrumentItem(instrument: Instrument) | OtherItem | NoItem

  datatype ViewModel = ViewModel(
    selectedTreeItem: TreeItemData,
    selectedMeter: Option<Meter>,
    selectedInstrument: Option<Instrument>,
    selectedApplication: Application,
    selectedDuration: nat)

  /** The route and query parameters of the page; `durationMinutes` is 0 when the query has none. */
  datatype Query = Query(
    applicationInstanceId: Option<string>,
    meterName: Option<string>,
    instrumentName: Option<string>,
    durationMinutes: int)

  /** The `InvalidOperationException`s of `Single` and `SingleOrDefault`. */
  datatype LookupError = MoreThanOneMatch | NoMatch

  /** A live metrics subscription for one application id. */
  datatype Subscription = Subscription(applicationId: Option<string>)

  // ---------------------------------------------------------------------------
  // Reading the view model from the route
  // ---------------------------------------------------------------------------

  /** How many entries of `durations` have `minutes` whole minutes. */
  function DurationMatches(durations: seq<nat>, minutes: int): (r: nat)
    ensures r > 0 ==> minutes >= 0
  {
    if |durations| == 0 then 0
    else (if durations[0] == minutes then 1 else 0) + DurationMatches(durations[1..], minutes)
  }

  /** In a list without repetitions a value matches at most once, and exactly when it is listed. */
  lemma {:induction false} DurationMatchesDistinct(durations: seq<nat>, minutes: int)
    requires forall i, j :: 0 <= i < j < |durations| ==> durations[i] != durations[j]
    ensures DurationMatches(durations, minutes) == if exists i :: 0 <= i < |durations| && durations[i] == minutes then 1 else 0
  {
    if |durations| > 0 {
      var tail := durations[1..];
      DurationMatchesDistinct(tail, minutes);
      if durations[0] == minutes {
        forall i | 0 <= i < |tail| ensures tail[i] != minutes {
          assert tail[i] == durations[i + 1];
        }
      } else if exists i :: 0 <= i < |durations| && durations[i] == minutes {
        var i :| 0 <= i < |durations| && durations[i] == minutes;
        assert tail[i - 1] == minutes;
      }
    }
  }

  /** The duration selected by the route: `SingleOrDefault` of the entry whose whole minutes
      equal the route's, else `Single` of the five-minute entry; either throws on a repeated entry. */
  function SelectDuration(durationMinutes: int): (r: Result<nat, LookupError>)
    ensures r.Ok? ==> r.value in Durations && (r.value == durationMinutes || r.value == DefaultDuration)
  {
    DurationMatchesDistinct(Durations, durationMinutes);
    var c := DurationMatches(Durations, durationMinutes);
    if c >= 2 then Err(MoreThanOneMatch)
    else if c == 1 then Ok(durationMinutes as nat)
    else
      var d := DurationMatches(Durations, DefaultDuration);
      if d == 0 then Err(NoMatch) else if d >= 2 then Err(MoreThanOneMatch) else Ok(DefaultDuration)
  }

  /** A route duration that is one of the listed durations selects it; any other value (including
      the 0 of an absent query parameter) selects five minutes; the lookup never throws. */
  lemma DurationFromRoute(durationMinutes: int)
    ensures SelectDuration(durationMinutes) ==
            Ok(if durationMinutes >= 0 && durationMinutes as nat in Durations then durationMinutes as nat else DefaultDuration)
  {
    DurationMatchesDistinct(Durations, durationMinutes);
    DurationMatchesDistinct(Durations, DefaultDuration);
    assert Durations[1] == DefaultDuration;
    if durationMinutes >= 0 && durationMinutes as nat in Durations {
      var i :| 0 <= i < |Durations| && Durations[i] == durationMinutes as nat;
    }
  }

  /** The applications whose id equals `id`, in order. */
  function IdMatches(applications: seq<Application>, id: Option<string>): (r: seq<Application>)
    ensures forall k :: 0 <= k < |r| ==> r[k].id == id
    ensures |r| <= |applications|
  {
    if |applications| == 0 then []
    else (if applications[0].id == id then [applications[0]] else []) + IdMatches(applications[1..], id)
  }

  /** The matches are exactly the applications with that id. */
  lemma {:induction false} IdMatchesMembers(applications: seq<Application>, id: Option<string>)
    ensures forall a :: a in IdMatches(applications, id) ==> a in applications && a.id == id
    ensures forall a :: a in applications && a.id == id ==> a in IdMatches(applications, id)
    decreases |applications|
  {
    if |applications| > 0 {
      var tail := applications[1..];
      IdMatchesMembers(tail, id);
      assert applications == [applications[0]] + tail;
      assert IdMatches(applications, id) == (if applications[0].id == id then [applications[0]] else []) + IdMatches(tail, id);
    }
  }

  lemma {:induction false} IdMatchesFromPositions(applications: seq<Application>, id: Option<string>, i: nat, j: nat)
    requires i < j < |applications| && applications[i].id == id && applications[j].id == id
    ensures |IdMatches(applications, id)| >= 2
  {
    var tail := applications[1..];
    if i == 0 {
      IdMatchesMembers(tail, id);
      assert tail[j - 1] in tail;
      assert tail[j - 1] in IdMatches(tail, id);
      assert IdMatches(applications, id) == [applications[0]] + IdMatches(tail, id);
    } else {
      assert tail[i - 1] == applications[i] && tail[j - 1] == applications[j];
      IdMatchesFromPositions(tail, id, i - 1, j - 1);
    }
  }

  lemma {:induction false} IdMatchesToPosition(applications: seq<Application>, id: Option<string>)
    requires |IdMatches(applications, id)| >= 1
    ensures exists j :: 0 <= j < |applications| && applications[j].id == id
  {
    if applications[0].id != id {
      var tail := applications[1..];
      assert IdMatches(applications, id) == IdMatches(tail, id);
      IdMatchesToPosition(tail, id);
      var j :| 0 <= j < |tail| && tail[j].id == id;
      assert applications[j + 1] == tail[j];
    }
  }

  lemma {:induction false} IdMatchesToPositions(applications: seq<Application>, id: Option<string>)
    requires |IdMatches(applications, id)| >= 2
    ensures exists i, j :: 0 <= i < j < |applications| && applications[i].id == id && applications[j].id == id
  {
    var tail := applications[1..];
    if applications[0].id == id {
      assert IdMatches(applications, id) == [applications[0]] + IdMatches(tail, id);
      IdMatchesToPosition(tail, id);
      var j :| 0 <= j < |tail| && tail[j].id == id;
      assert applications[j + 1] == tail[j];
    } else {
      assert IdMatches(applications, id) == IdMatches(tail, id);
      IdMatchesToPositions(tail, id);
      var i, j :| 0 <= i < j < |tail| && tail[i].id == id && tail[j].id == id;
      assert applications[i + 1] == tail[i] && applications[j + 1] == tail[j];
    }
  }

  lemma NoTwoIds(applications: seq<Application>, id: Option<string>)
    requires |IdMatches(applications, id)| <= 1
    ensures !exists i, j :: 0 <= i < j < |applications| && applications[i].id == id && applications[j].id == id
  {
    if exists i, j :: 0 <= i < j < |applications| && applications[i].id == id && applications[j].id == id {
      var i, j :| 0 <= i < j < |applications| && applications[i].id == id && applications[j].id == id;
      IdMatchesFromPositions(applications, id, i, j);
    }
  }

  /** The application selected by the route: `SingleOrDefault` of the entry whose id equals the
      route's, else the placeholder; two entries with that id throw. */
  function SelectApplicationFor(applications: seq<Application>, id: Option<string>): (r: Result<Application, LookupError>)
    ensures r.Ok? && r.value != SelectApplication ==> r.value in applications && r.value.id == id
    ensures r.Ok? && (forall a :: a in applications ==> a.id != id) ==> r.value == SelectApplication
    ensures r.Ok? && (exists a :: a in applications && a.id == id) ==> r.value in applications && r.value.id == id
    ensures r.Err? <==> exists i, j :: 0 <= i < j < |applications| && applications[i].id == id && applications[j].id == id
  {
    var m := IdMatches(applications, id);
    if |m| >= 2 then IdMatchesToPositions(applications, id); Err(MoreThanOneMatch)
    else if |m| == 1 then
      NoTwoIds(applications, id);
      IdMatchesMembers(applications, id);
      assert m[0] in m;
      Ok(m[0])
    else
      NoTwoIds(applications, id);
      IdMatchesMembers(applications, id);
      Ok(SelectApplication)
  }

  /** `FirstOrDefault(i => i.Parent.MeterName == meterName)?.Parent`. */
  function FirstMeter(instruments: seq<Instrument>, meterName: string): (r: Option<Meter>)
    ensures r.None? <==> forall i :: 0 <= i < |instruments| ==> instruments[i].parent.meterName != meterName
    ensures r.Some? ==> exists i :: 0 <= i < |instruments| && instruments[i].parent == r.value &&
                                   (forall k :: 0 <= k < i ==> instruments[k].parent.meterName != meterName)
    ensures r.Some? ==> r.value.meterName == meterName
  {
    if |instruments| == 0 then None
    else if instruments[0].parent.meterName == meterName then Some(instruments[0].parent)
    else
      var r := FirstMeter(instruments[1..], meterName);
      if r.Some? then FirstMeterStep(instruments, meterName, r.value); r else r
  }

  lemma FirstMeterStep(instruments: seq<Instrument>, meterName: string, m: Meter)
    requires |instruments| > 0 && instruments[0].parent.meterName != meterName
    requires exists i :: 0 <= i < |instruments[1..]| && instruments[1..][i].parent == m &&
                         (forall k :: 0 <= k < i ==> instruments[1..][k].parent.meterName != meterName)
    ensures exists i :: 0 <= i < |instruments| && instruments[i].parent == m &&
                        (forall k :: 0 <= k < i ==> instruments[k].parent.meterName != meterName)
  {
    var i :| 0 <= i < |instruments[1..]| && instruments[1..][i].parent == m &&
             (forall k :: 0 <= k < i ==> instruments[1..][k].parent.meterName != meterName);
    assert instruments[i + 1].parent == m;
    forall k | 0 < k < i + 1
      ensures instruments[k].parent.meterName != meterName
    {
      assert instruments[k] == instruments[1..][k - 1];
    }
  }

  /** `GetViewModelFromQuery`, with the telemetry repository's `GetInstrumentsSummary` and
      `GetInstrument` given as functions. Yields the view model and the new `_instruments`. */
  function ViewModelFromQuery(
    applications: seq<Application>, q: Query,
    summary: string -> seq<Instrument>, getInstrument: (string, string, string) -> Option<Instrument>)
    : (r: Result<(ViewModel, Option<seq<Instrument>>), LookupError>)
    ensures r.Ok? ==> r.value.0.selectedTreeItem == NoItem
    ensures r.Ok? ==> (r.value.1.Some? <==> !IsNullOrEmpty(r.value.0.selectedApplication.id))
    ensures r.Ok? && r.value.0.selectedMeter.Some? ==>
              r.value.1.Some? && !IsNullOrEmpty(q.meterName) &&
              r.value.0.selectedMeter == FirstMeter(r.value.1.value, q.meterName.value)
    ensures r.Ok? && r.value.0.selectedInstrument.Some? ==>
              r.value.0.selectedMeter.Some? && !IsNullOrEmpty(q.instrumentName)
  {
    match SelectDuration(q.durationMinutes)
    case Err(e) => Err(e)
    case Ok(duration) =>
      match SelectApplicationFor(applications, q.applicationInstanceId)
      case Err(e) => Err(e)
      case Ok(app) =>
        var instruments := if !IsNullOrEmpty(app.id) then Some(summary(app.id.value)) else None;
        var meter := if instruments.Some? && !IsNullOrEmpty(q.meterName)
                     then FirstMeter(instruments.value, q.meterName.value) else None;
        var instrument := if meter.Some? && !IsNullOrEmpty(q.instrumentName)
                          then getInstrument(q.applicationInstanceId.value, q.meterName.value, q.instrumentName.value)
                          else None;
        Ok((ViewModel(NoItem, meter, instrument, app, duration), instruments))
  }

  /** A meter is selected only for an application that exists, whose instruments were read, and
      whose summary has an instrument of that meter; the instrument is the repository's answer
      for the route's application, meter and instrument names. */
  lemma SelectionFromRoute(
    applications: seq<Application>, q: Query,
    summary: string -> seq<Instrument>, getInstrument: (string, string, string) -> Option<Instrument>)
    requires ViewModelFromQuery(applications, q, summary, getInstrument).Ok?
    ensures var (vm, instruments) := ViewModelFromQuery(applications, q, summary, getInstrument).value;
            vm.selectedDuration in Durations &&
            (vm.selectedApplication == SelectApplication || vm.selectedApplication in applications) &&
            (vm.selectedMeter.Some? ==>
               vm.selectedApplication in applications && q.applicationInstanceId == vm.selectedApplication.id &&
               instruments == Some(summary(q.applicationInstanceId.value)) &&
               exists i :: 0 <= i < |instruments.value| && instruments.value[i].parent == vm.selectedMeter.value) &&
            (vm.selectedInstrument.Some? ==>
               Some(vm.selectedInstrument.value) == getInstrument(q.applicationInstanceId.value, q.meterName.value, q.instrumentName.value))
  {
    DurationFromRoute(q.durationMinutes);
  }

  // ---------------------------------------------------------------------------
  // Writing the URL from the view model
  // ---------------------------------------------------------------------------

  /** The path of `GetUriFromViewModel`; a null application id interpolates as the empty string. */
  function UriPath(vm: ViewModel): string {
    var app := vm.selectedApplication.id.GetOr("");
    if vm.selectedMeter.Some? then
      if vm.selectedInstrument.Some? then
        "/Metrics/" + app + "/Meter/" + vm.selectedMeter.value.meterName + "/Instrument/" + vm.selectedInstrument.value.name
      else "/Metrics/" + app + "/Meter/" + vm.selectedMeter.value.meterName
    else if vm.selectedApplication.id.Some? then "/Metrics/" + app
    else "/Metrics"
  }

  /** The query parameters of `GetUriFromViewModel`: `duration` unless it is the default. */
  function UriQuery(vm: ViewModel): (r: map<string, string>)
    ensures "duration" in r <==> vm.selectedDuration != DefaultDuration
    ensures r.Keys <= {"duration"}
  {
    if vm.selectedDuration != DefaultDuration then map["duration" := NatToDecimal(vm.selectedDuration)] else map[]
  }

  /** `GetUriFromViewModel`. */
  function GetUriFromViewModel(vm: ViewModel): (r: (string, map<string, string>))
    ensures |r.0| >= 8 && r.0[..8] == "/Metrics"
    ensures "duration" in r.1 <==> vm.selectedDuration != DefaultDuration
  {
    (UriPath(vm), UriQuery(vm))
  }

  /** The route segments a URL path splits into below `/Metrics`. */
  function RouteSegments(vm: ViewModel): seq<string> {
    var app := vm.selectedApplication.id.GetOr("");
    if vm.selectedMeter.Some? then
      if vm.selectedInstrument.Some? then
        [app, "Meter", vm.selectedMeter.value.meterName, "Instrument", vm.selectedInstrument.value.name]
      else [app, "Meter", vm.selectedMeter.value.meterName]
    else if vm.selectedApplication.id.Some? then [app]
    else []
  }

  /** Route parameters as the router reads them back from a path and query: the segments after
      `/Metrics/`, and the `duration` value parsed as an invariant integer (0 when absent or malformed). */
  function RouteFromUri(path: string, query: map<string, string>): (r: Query)
    ensures r.durationMinutes >= 0
    ensures "duration" !in query ==> r.durationMinutes == 0
    ensures r.meterName.Some? ==> r.applicationInstanceId.Some?
    ensures r.instrumentName.Some? ==> r.meterName.Some?
  {
    var s := Split(path, '/');
    var duration := if "duration" in query then ParseNat(query["duration"]).GetOr(0) else 0;
    Query(if |s| > 2 then Some(s[2]) else None,
          if |s| > 4 then Some(s[4]) else None,
          if |s| > 6 then Some(s[6]) else None,
          duration)
  }

  predicate NoSlash(s: string) {
    '/' !in s
  }

  /** A view model whose names contain no `/`. */
  predicate PathSafe(vm: ViewModel) {
    NoSlash(vm.selectedApplication.id.GetOr("")) &&
    (vm.selectedMeter.Some? ==> NoSlash(vm.selectedMeter.value.meterName)) &&
    (vm.selectedInstrument.Some? ==> NoSlash(vm.selectedInstrument.value.name))
  }

  /** Each segment preceded by a `/`. */
  function Slashed(segments: seq<string>): string {
    if |segments| == 0 then "" else "/" + segments[0] + Slashed(segments[1..])
  }

  lemma {:induction false} SplitSlashed(segments: seq<string>)
    requires forall i :: 0 <= i < |segments| ==> NoSlash(segments[i])
    ensures Split(Slashed(segments), '/') == [""] + segments
  {
    if |segments| > 0 {
      var rest := Slashed(segments[1..]);
      SplitSlashed(segments[1..]);
      assert Slashed(segments) == "/" + (segments[0] + rest);
      assert ("/" + (segments[0] + rest))[1..] == segments[0] + rest;
      SplitAfterPart(segments[0], '/', rest);
      assert segments[0] + "" == segments[0];
      assert segments == [segments[0]] + segments[1..];
    }
  }

  lemma UriPathIsSlashed(vm: ViewModel)
    ensures UriPath(vm) == Slashed(["Metrics"] + RouteSegments(vm))
  {
    var app := vm.selectedApplication.id.GetOr("");
    if vm.selectedMeter.Some? {
      if vm.selectedInstrument.Some? {
        SlashedInstrumentPath(app, vm.selectedMeter.value.meterName, vm.selectedInstrument.value.name);
      } else {
        SlashedMeterPath(app, vm.selectedMeter.value.meterName);
      }
    } else if vm.selectedApplication.id.Some? {
      assert Slashed([app]) == "/" + app;
      assert Slashed(["Metrics", app]) == "/Metrics" + Slashed([app]);
    } else {
      assert Slashed(["Metrics"]) == "/Metrics" + Slashed([]);
    }
  }

  lemma SlashedMeterPath(app: string, m: string)
    ensures "/Metrics/" + app + "/Meter/" + m == Slashed(["Metrics", app, "Meter", m])
  {
    assert Slashed([m]) == "/" + m;
    assert Slashed(["Meter", m]) == "/Meter" + Slashed([m]);
    assert Slashed([app, "Meter", m]) == "/" + app + Slashed(["Meter", m]);
    assert Slashed(["Metrics", app, "Meter", m]) == "/Metrics" + Slashed([app, "Meter", m]);
  }

  lemma SlashedInstrumentPath(app: string, m: string, i: string)
    ensures "/Metrics/" + app + "/Meter/" + m + "/Instrument/" + i ==
            Slashed(["Metrics", app, "Meter", m, "Instrument", i])
  {
    assert Slashed([i]) == "/" + i;
    assert Slashed(["Instrument", i]) == "/Instrument" + Slashed([i]);
    assert Slashed([m, "Instrument", i]) == "/" + m + Slashed(["Instrument", i]);
    assert Slashed(["Meter", m, "Instrument", i]) == "/Meter" + Slashed([m, "Instrument", i]);
    assert Slashed([app, "Meter", m, "Instrument", i]) == "/" + app + Slashed(["Meter", m, "Instrument", i]);
    assert Slashed(["Metrics", app, "Meter", m, "Instrument", i]) == "/Metrics" + Slashed([app, "Meter", m, "Instrument", i]);
  }

  /** The path is `/Metrics` followed by exactly the chosen selections, one per segment. */
  lemma UriPathSegments(vm: ViewModel)
    requires PathSafe(vm)
    ensures Split(UriPath(vm), '/') == ["", "Metrics"] + RouteSegments(vm)
  {
    UriPathIsSlashed(vm);
    SplitSlashed(["Metrics"] + RouteSegments(vm));
  }

  /** The URL names the view model's own selections: the router reads back its application id,
      meter name and instrument name (the instrument only below a meter), and its duration. */
  lemma UrlRoundTrip(vm: ViewModel)
    requires PathSafe(vm)
    requires vm.selectedDuration in Durations
    requires vm.selectedMeter.Some? ==> vm.selectedApplication.id.Some?
    ensures var q := RouteFromUri(UriPath(vm), UriQuery(vm));
            q.applicationInstanceId == vm.selectedApplication.id &&
            q.meterName == (if vm.selectedMeter.Some? then Some(vm.selectedMeter.value.meterName) else None) &&
            q.instrumentName == (if vm.selectedMeter.Some? && vm.selectedInstrument.Some?
                                 then Some(vm.selectedInstrument.value.name) else None) &&
            SelectDuration(q.durationMinutes) == Ok(vm.selectedDuration)
  {
    UriPathSegments(vm);
    QueryDurationRoundTrip(vm, UriPath(vm));
  }

  /** The `duration` query parameter reads back as the selected duration, whatever the path. */
  lemma QueryDurationRoundTrip(vm: ViewModel, path: string)
    requires vm.selectedDuration in Durations
    ensures SelectDuration(RouteFromUri(path, UriQuery(vm)).durationMinutes) == Ok(vm.selectedDuration)
  {
    var minutes := RouteFromUri(path, UriQuery(vm)).durationMinutes;
    if vm.selectedDuration != DefaultDuration {
      DecimalRoundTrip(vm.selectedDuration);
      assert minutes == vm.selectedDuration;
    } else {
      assert minutes == 0;
    }
    DurationFromRoute(minutes);
  }

  // ---------------------------------------------------------------------------
  // Tree selection and instrument updates
  // ---------------------------------------------------------------------------

  /** `HandleSelectedTreeItemChanged` on a view model whose tree item was just bound to `item`. */
  function SelectTreeItem(vm: ViewModel, item: TreeItemData): (r: ViewModel)
    ensures r.selectedTreeItem == item
    ensures r.selectedApplication == vm.selectedApplication && r.selectedDuration == vm.selectedDuration
  {
    match item
    case MeterItem(m) => vm.(selectedTreeItem := item, selectedMeter := Some(m), selectedInstrument := None)
    case InstrumentItem(i) => vm.(selectedTreeItem := item, selectedMeter := Some(i.parent), selectedInstrument := Some(i))
    case _ => vm.(selectedTreeItem := item, selectedMeter := None, selectedInstrument := None)
  }

  /** After a tree selection the instrument, if any, belongs to the selected meter; a meter
      on its own clears the instrument; anything else clears both; selecting again changes nothing. */
  lemma TreeSelectionConsistent(vm: ViewModel, item: TreeItemData)
    ensures var r := SelectTreeItem(vm, item);
            (r.selectedInstrument.Some? ==> r.selectedMeter == Some(r.selectedInstrument.value.parent)) &&
            (r.selectedMeter.Some? <==> item.MeterItem? || item.InstrumentItem?) &&
            (item.MeterItem? ==> r.selectedMeter == Some(item.meter) && r.selectedInstrument.None?) &&
            (item.InstrumentItem? ==> r.selectedInstrument == Some(item.instrument)) &&
            SelectTreeItem(r, item) == r
  {
  }

  /** The subscription callback's update of `_instruments` for application `applicationId`. */
  function InstrumentsAfterUpdate(current: Option<seq<Instrument>>, applicationId: Option<string>, latest: seq<Instrument>)
    : (r: Option<seq<Instrument>>)
    ensures r == current || r == Some(latest)
  {
    if !IsNullOrEmpty(applicationId) && (current.None? || |latest| > |current.value|) then Some(latest) else current
  }

  /** The instrument list the page shows never shrinks through a callback, and it is replaced
      exactly when there was none or the new summary is strictly larger. */
  lemma InstrumentsNeverShrink(current: Option<seq<Instrument>>, applicationId: Option<string>, latest: seq<Instrument>)
    requires !IsNullOrEmpty(applicationId)
    ensures var r := InstrumentsAfterUpdate(current, applicationId, latest);
            r.Some? &&
            (current.Some? ==> |r.value| >= |current.value|) &&
            (r == Some(latest) <==> current.None? || |latest| > |current.value| || current == Some(latest))
  {
  }

  // ---------------------------------------------------------------------------
  // The page
  // ---------------------------------------------------------------------------

  class Page {
    var applications: seq<Application>
    var instruments: Option<seq<Instrument>>
    var metricsSubscription: Option<Subscription>
    /** How many subscriptions the page has opened, so that a re-subscription is observable. */
    var subscriptionsOpened: nat
    /** `ViewModel`, null until the parameters are first set. */
    var viewModel: Option<ViewModel>
    /** `TracesRepository.ApplicationServiceId`. */
    var tracesApplicationServiceId: Option<string>

    /** The placeholder is the first application. */
    ghost predicate Valid()
      reads this
    {
      |applications| > 0 && applications[0] == SelectApplication
    }

    /** The application id `UpdateSubscription` subscribes to. */
    function SelectedApplicationId(): Option<string>
      reads this
    {
      (if viewModel.Some? then viewModel.value.selectedApplication else SelectApplication).id
    }

    /** `OnInitializedAsync`: the applications the repository knows, behind the placeholder. */
    constructor(known: seq<Application>)
      ensures Valid() && applications == [SelectApplication] + known
      ensures viewModel == None && instruments == None && tracesApplicationServiceId == None
      ensures metricsSubscription == Some(Subscription(None)) && subscriptionsOpened == 1
    {
      applications := [];
      instruments := None;
      metricsSubscription := None;
      subscriptionsOpened := 0;
      viewModel := None;
      tracesApplicationServiceId := None;
      new;
      UpdateApplications(known);
    }

    /** `UpdateSubscription`: subscribe afresh exactly when there is no subscription or it is for
        another application than the selected one. */
    method UpdateSubscription()
      modifies this
      ensures metricsSubscription == Some(Subscription(SelectedApplicationId()))
      ensures if old(metricsSubscription) == Some(Subscription(SelectedApplicationId()))
              then subscriptionsOpened == old(subscriptionsOpened)
              else subscriptionsOpened == old(subscriptionsOpened) + 1
      ensures applications == old(applications) && instruments == old(instruments) && viewModel == old(viewModel)
      ensures tracesApplicationServiceId == old(tracesApplicationServiceId)
    {
      var selectedApplication := SelectedApplicationId();
      if metricsSubscription.None? || metricsSubscription.value.applicationId != selectedApplication {
        metricsSubscription := Some(Subscription(selectedApplication));
        subscriptionsOpened := subscriptionsOpened + 1;
      }
    }

    /** `UpdateApplications`: the repository's applications, with the placeholder inserted at index 0. */
    method UpdateApplications(known: seq<Application>)
      modifies this
      ensures Valid() && applications == [SelectApplication] + known
      ensures metricsSubscription == Some(Subscription(SelectedApplicationId()))
      ensures if old(metricsSubscription) == Some(Subscription(old(SelectedApplicationId())))
              then subscriptionsOpened == old(subscriptionsOpened)
              else subscriptionsOpened == old(subscriptionsOpened) + 1
      ensures instruments == old(instruments) && viewModel == old(viewModel)
      ensures tracesApplicationServiceId == old(tracesApplicationServiceId)
    {
      applications := [SelectApplication] + known;
      UpdateSubscription();
    }

    /** `OnParametersSet`: read the view model from the route, then update the subscription.
        A failed lookup throws before anything is assigned. */
    method OnParametersSet(
      q: Query, summary: string -> seq<Instrument>, getInstrument: (string, string, string) -> Option<Instrument>)
      returns (error: Option<LookupError>)
      modifies this
      ensures match ViewModelFromQuery(old(applications), q, summary, getInstrument)
              case Err(e) =>
                error == Some(e) && viewModel == old(viewModel) && instruments == old(instruments) &&
                metricsSubscription == old(metricsSubscription) && subscriptionsOpened == old(subscriptionsOpened) &&
                tracesApplicationServiceId == old(tracesApplicationServiceId)
              case Ok((vm, summaryRead)) =>
                error == None && viewModel == Some(vm) && instruments == summaryRead &&
                tracesApplicationServiceId == vm.selectedApplication.id &&
                metricsSubscription == Some(Subscription(vm.selectedApplication.id)) &&
                subscriptionsOpened == old(subscriptionsOpened) + (if old(metricsSubscription) == metricsSubscription then 0 else 1)
      ensures applications == old(applications)
    {
      var r := ViewModelFromQuery(applications, q, summary, getInstrument);
      match r
      case Err(e) =>
        error := Some(e);
      case Ok((vm, summaryRead)) =>
        viewModel := Some(vm);
        tracesApplicationServiceId := vm.selectedApplication.id;
        instruments := summaryRead;
        UpdateSubscription();
        error := None;
    }

    /** `HandleSelectedTreeItemChanged` after the tree's selection was bound to `item`. */
    method HandleSelectedTreeItemChanged(item: TreeItemData)
      requires viewModel.Some?
      modifies this
      ensures viewModel == Some(SelectTreeItem(old(viewModel.value), item))
      ensures applications == old(applications) && instruments == old(instruments)
      ensures metricsSubscription == old(metricsSubscription) && subscriptionsOpened == old(subscriptionsOpened)
      ensures tracesApplicationServiceId == old(tracesApplicationServiceId)
    {
      viewModel := Some(SelectTreeItem(viewModel.value, item));
    }

    /** The metrics subscription's callback, given the repository's current summary for the
        subscribed application. */
    method OnNewMetrics(latest: seq<Instrument>)
      modifies this
      ensures instruments == (if metricsSubscription.Some?
                              then InstrumentsAfterUpdate(old(instruments), metricsSubscription.value.applicationId, latest)
                              else old(instruments))
      ensures applications == old(applications) && viewModel == old(viewModel)
      ensures metricsSubscription == old(metricsSubscription) && subscriptionsOpened == old(subscriptionsOpened)
      ensures tracesApplicationServiceId == old(tracesApplicationServiceId)
    {
      if metricsSubscription.Some? {
        var selectedApplication := metricsSubscription.value.applicationId;
        if !IsNullOrEmpty(selectedApplication) {
          if instruments.None? || |latest| > |instruments.value| {
            instruments := Some(latest);
          }
        }
      }
    }
  }
}
