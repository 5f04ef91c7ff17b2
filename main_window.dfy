/** The main window's data handling: the three grids refilled from the
    server, the dashboard counters, the new-alarm flags, the auto-refresh
    switch, the refreshes that depend on the selected site, the site-id box
    of the live-update tab, and the button that is disabled while its
    operation runs. Drawing, logging and the clock are left out; the
    services are passed to the handlers that use them, and what the server
    answers is a parameter. */
module MainWindowView {
  import opened Common
  import opened Text
  import opened Entities
  import opened MonitoringViewModels
  import opened Api
  import opened SignalR

  // ------------------------------------------------------- grid contents

  function SiteRowsOf(sites: seq<Site>): (rows: seq<SiteRow>)
    ensures |rows| == |sites|
    ensures forall i :: 0 <= i < |sites| ==> rows[i] == SiteRowOf(sites[i])
  {
    seq(|sites|, i requires 0 <= i < |sites| => SiteRowOf(sites[i]))
  }

  function SensorRowsOf(sensors: seq<Sensor>): (rows: seq<SensorRow>)
    ensures |rows| == |sensors|
    ensures forall i :: 0 <= i < |sensors| ==> rows[i] == SensorRowOf(sensors[i])
  {
    seq(|sensors|, i requires 0 <= i < |sensors| => SensorRowOf(sensors[i]))
  }

  function AlarmRowsOf(alarms: seq<Alarm>): (rows: seq<AlarmRow>)
    ensures |rows| == |alarms|
    ensures forall i :: 0 <= i < |alarms| ==> rows[i] == AlarmRowOf(alarms[i])
  {
    seq(|alarms|, i requires 0 <= i < |alarms| => AlarmRowOf(alarms[i]))
  }

  /** Every site view model's brush shows its status. */
  ghost predicate AllSitesValid(vms: seq<SiteViewModel>)
    reads vms
  {
    forall i :: 0 <= i < |vms| ==> vms[i].Valid()
  }

  /** Site view models nobody touched still show the same rows, as validly. */
  twostate lemma SitesUnchanged(vms: seq<SiteViewModel>)
    requires unchanged(vms)
    ensures Rows(vms) == old(Rows(vms)) && AllSitesValid(vms) == old(AllSitesValid(vms))
  {
  }

  /** Every sensor view model's brush shows its status. */
  ghost predicate AllSensorsValid(vms: seq<SensorViewModel>)
    reads vms
  {
    forall i :: 0 <= i < |vms| ==> vms[i].Valid()
  }

  /** No alarm view model is marked new. */
  ghost predicate NoneNew(vms: seq<AlarmViewModel>)
    reads vms
  {
    forall i :: 0 <= i < |vms| ==> !vms[i].isNew
  }

  /** `new SiteViewModel()` followed by `UpdateFromSite`. */
  method NewSiteViewModel(site: Site) returns (vm: SiteViewModel)
    ensures fresh(vm) && vm.Valid() && vm.Row() == SiteRowOf(site)
  {
    vm := new SiteViewModel();
    vm.UpdateFromSite(site);
  }

  /** `new SensorViewModel()` followed by `UpdateFromSensor`. */
  method NewSensorViewModel(sensor: Sensor) returns (vm: SensorViewModel)
    ensures fresh(vm) && vm.Valid() && vm.Row() == SensorRowOf(sensor)
  {
    vm := new SensorViewModel();
    vm.UpdateFromSensor(sensor);
  }

  /** `new AlarmViewModel()` followed by `UpdateFromAlarm`: not marked new. */
  method NewAlarmViewModel(alarm: Alarm) returns (vm: AlarmViewModel)
    ensures fresh(vm) && !vm.isNew && vm.Row() == AlarmRowOf(alarm)
  {
    vm := new AlarmViewModel();
    vm.UpdateFromAlarm(alarm);
  }

  /** One consistent view model per fetched site, in fetch order. */
  method SiteViewModelsOf(sites: seq<Site>) returns (vms: seq<SiteViewModel>)
    ensures AllSitesValid(vms)
    ensures Rows(vms) == SiteRowsOf(sites)
  {
    vms := [];
    var i := 0;
    while i < |sites|
      invariant 0 <= i <= |sites| && |vms| == i
      invariant AllSitesValid(vms)
      invariant Rows(vms) == SiteRowsOf(sites[..i])
    {
      var vm := NewSiteViewModel(sites[i]);
      assert (vms + [vm])[..i] == vms;
      vms := vms + [vm];
      i := i + 1;
    }
    assert sites[..i] == sites;
  }

  /** One consistent view model per fetched sensor, in fetch order. */
  method SensorViewModelsOf(sensors: seq<Sensor>) returns (vms: seq<SensorViewModel>)
    ensures AllSensorsValid(vms)
    ensures SensorRows(vms) == SensorRowsOf(sensors)
  {
    vms := [];
    var i := 0;
    while i < |sensors|
      invariant 0 <= i <= |sensors| && |vms| == i
      invariant AllSensorsValid(vms)
      invariant SensorRows(vms) == SensorRowsOf(sensors[..i])
    {
      var vm := NewSensorViewModel(sensors[i]);
      assert SensorRows(vms) == SensorRowsOf(sensors[..i]);
      assert SensorRowsOf(sensors[..i + 1]) == SensorRowsOf(sensors[..i]) + [SensorRowOf(sensors[i])];
      vms := vms + [vm];
      i := i + 1;
    }
    assert sensors[..i] == sensors;
  }

  /** One view model per fetched alarm, in fetch order; none is marked new. */
  method AlarmViewModelsOf(alarms: seq<Alarm>) returns (vms: seq<AlarmViewModel>)
    ensures NoneNew(vms)
    ensures AlarmRows(vms) == AlarmRowsOf(alarms)
  {
    vms := [];
    var i := 0;
    while i < |alarms|
      invariant 0 <= i <= |alarms| && |vms| == i
      invariant NoneNew(vms)
      invariant forall j :: 0 <= j < i ==> vms[j].Row() == AlarmRowOf(alarms[j])
    {
      var vm := NewAlarmViewModel(alarms[i]);
      vms := vms + [vm];
      i := i + 1;
    }
  }

  // ------------------------------------------------- dashboard counters

  /** How many rows have the given status. */
  function CountWithStatus(rows: seq<SiteRow>, status: string): (n: nat)
    ensures n <= |rows|
    ensures n == 0 <==> forall i :: 0 <= i < |rows| ==> rows[i].status != status
  {
    if rows == [] then 0
    else CountWithStatus(rows[1..], status) + (if rows[0].status == status then 1 else 0)
  }

  function SumTotalSensors(rows: seq<SiteRow>): int {
    if rows == [] then 0 else rows[0].totalSensors + SumTotalSensors(rows[1..])
  }

  function SumNormalSensors(rows: seq<SiteRow>): int {
    if rows == [] then 0 else rows[0].normalSensors + SumNormalSensors(rows[1..])
  }

  function SumAlarmSensors(rows: seq<SiteRow>): int {
    if rows == [] then 0 else rows[0].alarmSensors + SumAlarmSensors(rows[1..])
  }

  /** Over rows built from server records, the dashboard's active-alarm
      figure and the normal sensors add up to its total-sensor figure. */
  lemma {:induction false} DashboardSensorsAddUp(sites: seq<Site>)
    ensures SumNormalSensors(SiteRowsOf(sites)) + SumAlarmSensors(SiteRowsOf(sites))
         == SumTotalSensors(SiteRowsOf(sites))
  {
    if sites != [] {
      DashboardSensorsAddUp(sites[1..]);
      assert SiteRowsOf(sites)[1..] == SiteRowsOf(sites[1..]);
    }
  }

  /** The dashboard totals are sums over the sites the server sent. */
  lemma {:induction false} DashboardTotalsAreServerSums(sites: seq<Site>)
    ensures SumTotalSensors(SiteRowsOf(sites)) == SiteTotalSensors(sites)
    ensures SumAlarmSensors(SiteRowsOf(sites)) == SiteAlarmSensors(sites)
  {
    if sites != [] {
      DashboardTotalsAreServerSums(sites[1..]);
      assert SiteRowsOf(sites)[1..] == SiteRowsOf(sites[1..]);
    }
  }

  function SiteTotalSensors(sites: seq<Site>): int {
    if sites == [] then 0 else sites[0].totalSensors + SiteTotalSensors(sites[1..])
  }

  function SiteAlarmSensors(sites: seq<Site>): int {
    if sites == [] then 0 else sites[0].alarmSensors + SiteAlarmSensors(sites[1..])
  }

  /** How many alarm view models are marked new. */
  function NewAlarmCount(alarms: seq<AlarmViewModel>): (n: nat)
    reads alarms
    ensures n <= |alarms|
    ensures n == 0 <==> forall i :: 0 <= i < |alarms| ==> !alarms[i].isNew
  {
    if alarms == [] then 0
    else NewAlarmCount(alarms[1..]) + (if alarms[0].isNew then 1 else 0)
  }

  // ------------------------------------------- sensors of several sites

  /** The sensor list of every site, fetched one site after the other and
      concatenated in the order of `ids`. */
  function SensorsOfSites(ids: seq<int>, answer: int -> HttpOutcome<seq<Sensor>>): seq<Sensor> {
    if ids == [] then [] else SensorsOfSites(ids[..|ids| - 1], answer) + DataOrEmpty(answer(ids[|ids| - 1]))
  }

  /** Fetching the sites of two lists one after the other gives the two
      results one after the other. */
  lemma {:induction false} SensorsOfSitesAppend(a: seq<int>, b: seq<int>, answer: int -> HttpOutcome<seq<Sensor>>)
    ensures SensorsOfSites(a + b, answer) == SensorsOfSites(a, answer) + SensorsOfSites(b, answer)
  {
    if b != [] {
      SensorsOfSitesAppend(a, b[..|b| - 1], answer);
      assert (a + b)[..|a + b| - 1] == a + b[..|b| - 1];
    } else {
      assert a + b == a;
    }
  }

  /** With a single site, the all-sites refresh asks for and shows exactly
      what the refresh of that one site does. */
  lemma SensorsOfOneSite(id: int, answer: int -> HttpOutcome<seq<Sensor>>)
    ensures SensorsOfSites([id], answer) == DataOrEmpty(answer(id))
  {
    assert [id][..0] == [];
  }

  function SiteIds(rows: seq<SiteRow>): (ids: seq<int>)
    ensures |ids| == |rows|
    ensures forall i :: 0 <= i < |rows| ==> ids[i] == rows[i].id
  {
    seq(|rows|, i requires 0 <= i < |rows| => rows[i].id)
  }

  function SensorsPaths(ids: seq<int>): (paths: seq<string>)
    ensures |paths| == |ids|
    ensures forall i :: 0 <= i < |ids| ==> paths[i] == SensorsPath(ids[i])
  {
    seq(|ids|, i requires 0 <= i < |ids| => SensorsPath(ids[i]))
  }

  /** One more site fetched: one more request path and its answer appended. */
  lemma FetchStep(ids: seq<int>, i: int, answer: int -> HttpOutcome<seq<Sensor>>)
    requires 0 <= i < |ids|
    ensures SensorsPaths(ids[..i + 1]) == SensorsPaths(ids[..i]) + [SensorsPath(ids[i])]
    ensures SensorsOfSites(ids[..i + 1], answer) == SensorsOfSites(ids[..i], answer) + DataOrEmpty(answer(ids[i]))
  {
    assert ids[..i + 1][..i] == ids[..i];
  }

  /** The `foreach` over the site grid: one sensors request per site, the
      answers concatenated in site order. */
  method FetchSensorsOfSites(api: ApiService, ids: seq<int>, answer: int -> HttpOutcome<seq<Sensor>>)
      returns (fetched: seq<Sensor>)
    modifies api`requests
    ensures api.requests == old(api.requests) + SensorsPaths(ids)
    ensures fetched == SensorsOfSites(ids, answer)
  {
    fetched := [];
    var i := 0;
    while i < |ids|
      invariant 0 <= i <= |ids|
      invariant api.requests == old(api.requests) + SensorsPaths(ids[..i])
      invariant fetched == SensorsOfSites(ids[..i], answer)
    {
      var siteSensors := api.GetSensors(ids[i], answer(ids[i]));
      FetchStep(ids, i, answer);
      fetched := fetched + siteSensors;
      i := i + 1;
    }
    assert ids[..i] == ids;
  }

  // --------------------------------------------------- the site-id box

  /** What the site-id box of the live-update tab holds: nothing, text that
      does not parse, or the list of ids to subscribe to. */
  datatype SiteIdsInput = NoIds | BadIds | Ids(siteIds: seq<int>)

  /** Each comma-separated piece, trimmed, as an `int`; one piece that does
      not parse spoils the whole list. */
  function ParsePieces(pieces: seq<string>): (r: Option<seq<int>>)
    ensures r.Some? ==> |r.value| == |pieces|
    ensures r.Some? ==> forall k :: 0 <= k < |pieces| ==> ParseInt32(Trim(pieces[k])) == Some(r.value[k])
    ensures r.None? ==> exists k :: 0 <= k < |pieces| && ParseInt32(Trim(pieces[k])).None?
  {
    if pieces == [] then Some([])
    else
      match (ParseInt32(Trim(pieces[0])), ParsePieces(pieces[1..]))
      case (Some(n), Some(ns)) => Some([n] + ns)
      case (None, _) => None
      case (_, None) => None
  }

  /** The site ids typed into the box: blank text is no input; otherwise the
      trimmed text is split on ',' and every piece must parse. */
  function ParseSiteIds(text: string): (r: SiteIdsInput)
    ensures r == NoIds <==> Trim(text) == []
    ensures r.Ids? ==> |r.siteIds| == |Split(Trim(text), ',')|
    ensures r.Ids? ==> forall k :: 0 <= k < |r.siteIds| ==> IsInt32(r.siteIds[k])
  {
    var t := Trim(text);
    if t == [] then NoIds
    else
      match ParsePieces(Split(t, ','))
      case Some(ids) => Ids(ids)
      case None => BadIds
  }

  /** A non-blank entry is refused exactly when some trimmed piece does not
      parse; otherwise each id is the value of its piece. */
  lemma ParseSiteIdsMeaning(text: string)
    ensures ParseSiteIds(text) == BadIds <==> Trim(text) != [] && ParsePieces(Split(Trim(text), ',')).None?
    ensures ParseSiteIds(text).Ids? ==> forall k :: 0 <= k < |ParseSiteIds(text).siteIds| ==>
              ParseInt32(Trim(Split(Trim(text), ',')[k])) == Some(ParseSiteIds(text).siteIds[k])
  {
  }

  /** The ids rendered as decimal text and joined with ','. */
  function IdsText(ids: seq<int>): string
    requires |ids| >= 1
  {
    Join(seq(|ids|, i requires 0 <= i < |ids| => IntToString(ids[i])), ',')
  }

  /** The rendering of an `int` starts with a digit or '-' and ends with a
      digit, so it is its own trim and holds no ','. */
  lemma IntTextIsClean(n: int)
    ensures var s := IntToString(n);
      && !IsWhiteSpace(s[0]) && IsDigit(s[|s| - 1]) && ',' !in s && Trim(s) == s
  {
    var s := IntToString(n);
    if n < 0 {
      assert s[|s| - 1] == s[1..][|s| - 2];
    }
    if ',' in s {
      IntToStringChars(n, ',');
    }
    TrimOfTrimmed(s);
  }

  /** The first character of a join is the first piece's, the last is the last piece's. */
  lemma {:induction false} JoinEnds(pieces: seq<string>, sep: char)
    requires |pieces| >= 1
    requires forall k :: 0 <= k < |pieces| ==> pieces[k] != []
    ensures var j := Join(pieces, sep);
      && j != [] && j[0] == pieces[0][0] && j[|j| - 1] == pieces[|pieces| - 1][|pieces[|pieces| - 1]| - 1]
  {
    if |pieces| > 1 {
      JoinEnds(pieces[1..], sep);
    }
  }

  lemma {:induction false} ParsePiecesOfRenderings(ids: seq<int>, pieces: seq<string>)
    requires |pieces| == |ids|
    requires forall k :: 0 <= k < |ids| ==> IsInt32(ids[k]) && pieces[k] == IntToString(ids[k])
    ensures ParsePieces(pieces) == Some(ids)
  {
    if ids != [] {
      assert [ids[0]] + ids[1..] == ids;
      ParsePiecesOfRenderings(ids[1..], pieces[1..]);
      RenderingParses(ids[0]);
      assert ParseInt32(Trim(pieces[0])) == Some(ids[0]);
    }
  }

  /** One rendered id, trimmed, parses back to the id. */
  lemma RenderingParses(n: int)
    requires IsInt32(n)
    ensures ParseInt32(Trim(IntToString(n))) == Some(n)
  {
    IntTextIsClean(n);
    IntToStringParses(n);
  }

  /** Ids written back into the box, comma-separated, read back as the same list. */
  lemma ParseSiteIdsRoundTrip(ids: seq<int>)
    requires |ids| >= 1
    requires forall k :: 0 <= k < |ids| ==> IsInt32(ids[k])
    ensures ParseSiteIds(IdsText(ids)) == Ids(ids)
  {
    var pieces := seq(|ids|, i requires 0 <= i < |ids| => IntToString(ids[i]));
    forall k | 0 <= k < |ids|
      ensures pieces[k] != [] && ',' !in pieces[k]
    {
      IntTextIsClean(ids[k]);
    }
    IntTextIsClean(ids[0]);
    IntTextIsClean(ids[|ids| - 1]);
    JoinEnds(pieces, ',');
    var t := Join(pieces, ',');
    TrimOfTrimmed(t);
    SplitJoin(pieces, ',');
    ParsePiecesOfRenderings(ids, pieces);
  }

  /** Spaces around the whole entry do not matter. */
  lemma ParseSiteIdsIgnoresOuterSpace(text: string)
    ensures ParseSiteIds(Trim(text)) == ParseSiteIds(text)
  {
    var t := Trim(text);
    TrimOfTrimmed(t);
    assert Trim(t) == t;
  }

  /** What clicking Subscribe came to. */
  datatype SubscribeOutcome = NoInput | ParseError | Requested(ok: bool)

  // --------------------------------------------------------- the button

  class Button {
    var isEnabled: bool
    /** Every value `IsEnabled` has been given, oldest first. */
    var enabledHistory: seq<bool>

    constructor ()
      ensures isEnabled && enabledHistory == []
    {
      isEnabled, enabledHistory := true, [];
    }

    method SetEnabled(value: bool)
      modifies this
      ensures isEnabled == value && enabledHistory == old(enabledHistory) + [value]
    {
      isEnabled := value;
      enabledHistory := enabledHistory + [value];
    }
  }

  /** How an awaited operation ended. */
  datatype OperationOutcome = Completed | Faulted(message: string)

  /** Disable the button, run the operation, and enable the button again in
      a `finally`: a fault still reaches the caller, after the button is back. */
  method ExecuteWithButtonDisabled(button: Button, outcome: OperationOutcome) returns (fault: Option<string>)
    modifies button
    ensures button.isEnabled
    ensures button.enabledHistory == old(button.enabledHistory) + [false, true]
    ensures fault == (if outcome.Faulted? then Some(outcome.message) else None)
  {
    button.SetEnabled(false);
    fault := if outcome.Faulted? then Some(outcome.message) else None;
    button.SetEnabled(true);
  }

  // --------------------------------------------------------- the window

  const AutoRefreshOnLabel: string := "\U{23F1}\U{FE0F} Auto Refresh: ON"
  const AutoRefreshOffLabel: string := "\U{23F1}\U{FE0F} Auto Refresh: OFF"

  /** The four dashboard counters: sites, sites whose status is "normal",
      and the sums of the sites' sensor and alarm counts. */
  datatype Dashboard = Dashboard(totalSites: string, activeSites: string, totalSensors: string, activeAlarms: string)

  function DashboardOf(rows: seq<SiteRow>): Dashboard {
    Dashboard(IntToString(|rows|), IntToString(CountWithStatus(rows, "normal")),
              IntToString(SumTotalSensors(rows)), IntToString(SumAlarmSensors(rows)))
  }

  class MainWindow {
    var sites: seq<SiteViewModel>
    var sensors: seq<SensorViewModel>
    var alarms: seq<AlarmViewModel>
    /** The site whose sensors are shown; -1 before any selection. */
    var selectedSiteId: int
    var autoRefreshEnabled: bool
    var timerRunning: bool
    var autoRefreshLabel: string
    const subscribeButton: Button

    var dashboard: Dashboard
    var sensorCountText: string
    var alarmCountText: string
    var newAlarmCountText: string

    /** The auto-refresh timer runs exactly while auto-refresh is on. */
    ghost predicate TimerFollowsSwitch()
      reads this`autoRefreshEnabled, this`timerRunning
    {
      timerRunning == autoRefreshEnabled
    }

    constructor ()
      ensures sites == [] && sensors == [] && alarms == []
      ensures selectedSiteId == -1 && !autoRefreshEnabled && TimerFollowsSwitch()
      ensures subscribeButton.isEnabled
    {
      sites, sensors, alarms := [], [], [];
      selectedSiteId := -1;
      autoRefreshEnabled, timerRunning := false, false;
      autoRefreshLabel := AutoRefreshOffLabel;
      subscribeButton := new Button();
    }

    /** Recompute the dashboard counters from the site grid. */
    method UpdateDashboardSummary()
      modifies this`dashboard
      ensures dashboard == DashboardOf(old(Rows(sites)))
      ensures Rows(sites) == old(Rows(sites)) && AllSitesValid(sites) == old(AllSitesValid(sites))
    {
      dashboard := DashboardOf(Rows(sites));
    }

    /** Show how many alarms the grid holds and how many are marked new. */
    method UpdateAlarmCounts()
      modifies this`alarmCountText, this`newAlarmCountText
      ensures alarmCountText == IntToString(|alarms|)
      ensures newAlarmCountText == IntToString(old(NewAlarmCount(alarms)))
      ensures AlarmRows(alarms) == old(AlarmRows(alarms)) && NoneNew(alarms) == old(NoneNew(alarms))
    {
      alarmCountText := IntToString(|alarms|);
      newAlarmCountText := IntToString(NewAlarmCount(alarms));
    }

    /** Replace the site grid by one row per site the server sent, in the
        order sent, and recompute the dashboard. A failed request leaves
        the grid empty. */
    method RefreshSitesData(api: ApiService, answer: HttpOutcome<seq<Site>>)
      modifies this`sites, this`dashboard, api`requests
      ensures api.requests == old(api.requests) + [SitesPath]
      ensures Rows(sites) == SiteRowsOf(DataOrEmpty(answer)) && AllSitesValid(sites)
      ensures dashboard == DashboardOf(SiteRowsOf(DataOrEmpty(answer)))
    {
      var fetched := api.GetSites(answer);
      sites := SiteViewModelsOf(fetched);
      UpdateDashboardSummary();
    }

    /** Replace the sensor grid: with a site id, by that site's sensors;
        without one, by the sensors of every site in the site grid, fetched
        site by site and listed in site-grid order. */
    method RefreshSensorsData(api: ApiService, siteId: Option<int>, answer: int -> HttpOutcome<seq<Sensor>>)
      modifies this`sensors, this`sensorCountText, api`requests
      ensures siteId.Some? ==>
        && api.requests == old(api.requests) + [SensorsPath(siteId.value)]
        && SensorRows(sensors) == SensorRowsOf(DataOrEmpty(answer(siteId.value)))
        && sensorCountText == IntToString(|DataOrEmpty(answer(siteId.value))|)
      ensures siteId.None? ==>
        var ids := SiteIds(old(Rows(sites)));
        && api.requests == old(api.requests) + SensorsPaths(ids)
        && SensorRows(sensors) == SensorRowsOf(SensorsOfSites(ids, answer))
        && sensorCountText == IntToString(|SensorsOfSites(ids, answer)|)
      ensures AllSensorsValid(sensors)
      ensures Rows(sites) == old(Rows(sites)) && AllSitesValid(sites) == old(AllSitesValid(sites))
    {
      var fetched: seq<Sensor>;
      if siteId.Some? {
        fetched := api.GetSensors(siteId.value, answer(siteId.value));
      } else {
        fetched := FetchSensorsOfSites(api, SiteIds(Rows(sites)), answer);
      }
      SitesUnchanged(sites);
      ShowSensors(fetched);
    }

    /** Refill the sensor grid with one row per sensor, in order, and show the count. */
    method ShowSensors(fetched: seq<Sensor>)
      modifies this`sensors, this`sensorCountText
      ensures SensorRows(sensors) == SensorRowsOf(fetched) && AllSensorsValid(sensors)
      ensures sensorCountText == IntToString(|fetched|)
      ensures Rows(sites) == old(Rows(sites)) && AllSitesValid(sites) == old(AllSitesValid(sites))
    {
      sensors := SensorViewModelsOf(fetched);
      sensorCountText := IntToString(|fetched|);
      SitesUnchanged(sites);
    }

    /** Replace the alarm grid by the 100 most recent alarms and recount.
        Nothing in the client marks an alarm new, so the new count is 0. */
    method RefreshAlarmsData(api: ApiService, answer: HttpOutcome<seq<Alarm>>)
      modifies this`alarms, this`alarmCountText, this`newAlarmCountText, api`requests
      ensures api.requests == old(api.requests) + [AlarmsPath(None, DefaultAlarmLimit)]
      ensures AlarmRows(alarms) == AlarmRowsOf(DataOrEmpty(answer)) && NoneNew(alarms)
      ensures alarmCountText == IntToString(|alarms|) && newAlarmCountText == IntToString(0)
    {
      var fetched := api.GetAlarms(None, DefaultAlarmLimit, answer);
      alarms := AlarmViewModelsOf(fetched);
      assert NewAlarmCount(alarms) == 0;
      UpdateAlarmCounts();
    }

    /** Unmark every alarm and recount: the total stays, the new count is 0. */
    method ClearNewAlarms()
      modifies alarms, this`alarmCountText, this`newAlarmCountText
      ensures AlarmRows(alarms) == old(AlarmRows(alarms)) && NoneNew(alarms)
      ensures alarmCountText == IntToString(|alarms|) && newAlarmCountText == IntToString(0)
    {
      var i := 0;
      while i < |alarms|
        invariant 0 <= i <= |alarms|
        invariant forall j :: 0 <= j < i ==> !alarms[j].isNew
        invariant forall j :: 0 <= j < |alarms| ==> alarms[j].Row() == old(alarms[j].Row())
      {
        alarms[i].SetIsNew(false);
        i := i + 1;
      }
      UpdateAlarmCounts();
    }

    /** Flip auto-refresh; the timer is started or stopped to match and the
        button says which. */
    method ToggleAutoRefresh()
      requires TimerFollowsSwitch()
      modifies this`autoRefreshEnabled, this`timerRunning, this`autoRefreshLabel
      ensures TimerFollowsSwitch()
      ensures autoRefreshEnabled == !old(autoRefreshEnabled)
      ensures autoRefreshLabel == if autoRefreshEnabled then AutoRefreshOnLabel else AutoRefreshOffLabel
    {
      autoRefreshEnabled := !autoRefreshEnabled;
      if autoRefreshEnabled {
        timerRunning := true;
        autoRefreshLabel := AutoRefreshOnLabel;
      } else {
        timerRunning := false;
        autoRefreshLabel := AutoRefreshOffLabel;
      }
    }

    /** The timer tick: refresh the sites, then the selected site's sensors
        if a site is selected. */
    method AutoRefreshTick(api: ApiService, sitesAnswer: HttpOutcome<seq<Site>>,
                           sensorsAnswer: int -> HttpOutcome<seq<Sensor>>)
      modifies this`sites, this`dashboard, this`sensors, this`sensorCountText, api`requests
      ensures Rows(sites) == SiteRowsOf(DataOrEmpty(sitesAnswer)) && AllSitesValid(sites)
      ensures dashboard == DashboardOf(SiteRowsOf(DataOrEmpty(sitesAnswer)))
      ensures selectedSiteId > 0 ==>
        && api.requests == old(api.requests) + [SitesPath, SensorsPath(selectedSiteId)]
        && SensorRows(sensors) == SensorRowsOf(DataOrEmpty(sensorsAnswer(selectedSiteId)))
        && sensorCountText == IntToString(|DataOrEmpty(sensorsAnswer(selectedSiteId))|)
      ensures selectedSiteId <= 0 ==> api.requests == old(api.requests) + [SitesPath] && sensors == old(sensors)
    {
      RefreshSitesData(api, sitesAnswer);
      ghost var rows, requested := Rows(sites), api.requests;
      if selectedSiteId > 0 {
        RefreshSensorsData(api, Some(selectedSiteId), sensorsAnswer);
        assert api.requests == requested + [SensorsPath(selectedSiteId)];
      }
      assert Rows(sites) == rows;
    }

    /** A live sensor update only refreshes the selected site's sensors,
        and nothing when no site is selected. */
    method UpdateSensorFromRealTimeData(api: ApiService, sensorsAnswer: int -> HttpOutcome<seq<Sensor>>)
      modifies this`sensors, this`sensorCountText, api`requests
      ensures selectedSiteId > 0 ==>
        && api.requests == old(api.requests) + [SensorsPath(selectedSiteId)]
        && SensorRows(sensors) == SensorRowsOf(DataOrEmpty(sensorsAnswer(selectedSiteId)))
      ensures selectedSiteId <= 0 ==> api.requests == old(api.requests) && sensors == old(sensors)
    {
      if selectedSiteId > 0 {
        RefreshSensorsData(api, Some(selectedSiteId), sensorsAnswer);
      }
    }

    /** Refresh Sensors: the selected site's sensors, or every site's when none is selected. */
    method RefreshSensorsClick(api: ApiService, sensorsAnswer: int -> HttpOutcome<seq<Sensor>>)
      modifies this`sensors, this`sensorCountText, api`requests
      ensures var ids := if selectedSiteId > 0 then [selectedSiteId] else SiteIds(old(Rows(sites)));
        && api.requests == old(api.requests) + SensorsPaths(ids)
        && SensorRows(sensors) == SensorRowsOf(SensorsOfSites(ids, sensorsAnswer))
    {
      if selectedSiteId > 0 {
        SensorsOfOneSite(selectedSiteId, sensorsAnswer);
        assert SensorsPaths([selectedSiteId]) == [SensorsPath(selectedSiteId)];
      }
      RefreshSensorsData(api, if selectedSiteId > 0 then Some(selectedSiteId) else None, sensorsAnswer);
    }

    /** Choosing a site in the grid or the filter box selects it and shows its sensors. */
    method SelectSite(api: ApiService, selected: Option<int>, sensorsAnswer: int -> HttpOutcome<seq<Sensor>>)
      modifies this`selectedSiteId, this`sensors, this`sensorCountText, api`requests
      ensures selected.None? ==>
        selectedSiteId == old(selectedSiteId) && sensors == old(sensors) && api.requests == old(api.requests)
      ensures selected.Some? ==>
        && selectedSiteId == selected.value
        && api.requests == old(api.requests) + [SensorsPath(selected.value)]
        && SensorRows(sensors) == SensorRowsOf(DataOrEmpty(sensorsAnswer(selected.value)))
    {
      if selected.Some? {
        selectedSiteId := selected.value;
        RefreshSensorsData(api, selected, sensorsAnswer);
      }
    }

    /** Subscribe: with the button disabled meanwhile, read the site ids and,
        only when all of them parse, ask the hub to subscribe to them. */
    method SubscribeClick(hub: SignalRService, text: string, invokeSucceeds: bool) returns (result: SubscribeOutcome)
      modifies subscribeButton, hub`calls
      ensures subscribeButton.isEnabled
      ensures subscribeButton.enabledHistory == old(subscribeButton.enabledHistory) + [false, true]
      ensures result == SubscribeResult(ParseSiteIds(text), old(hub.IsConnected()), invokeSucceeds)
      ensures hub.calls == old(hub.calls) + SubscribeCalls(ParseSiteIds(text), old(hub.IsConnected()))
    {
      var input := ParseSiteIds(text);
      ghost var connected := hub.IsConnected();
      subscribeButton.SetEnabled(false);
      assert hub.IsConnected() == connected;
      result := RequestSubscription(hub, input, invokeSucceeds);
      subscribeButton.SetEnabled(true);
    }
  }

  /** The outcome of Subscribe for the parsed input: only a parsed list
      reaches the hub, and the request succeeds only on a connected hub. */
  function SubscribeResult(input: SiteIdsInput, connected: bool, invokeSucceeds: bool): (r: SubscribeOutcome)
    ensures r == NoInput <==> input == NoIds
    ensures r == ParseError <==> input == BadIds
    ensures r.Requested? ==> (r.ok <==> connected && invokeSucceeds)
  {
    match input
    case NoIds => NoInput
    case BadIds => ParseError
    case Ids(_) => Requested(connected && invokeSucceeds)
  }

  /** What Subscribe asks of the hub: the parsed list, and only when it parsed
      and the hub is connected. */
  function SubscribeCalls(input: SiteIdsInput, connected: bool): (calls: seq<HubCall>)
    ensures calls != [] <==> input.Ids? && connected
    ensures calls != [] ==> calls == [Invoke("SubscribeToSites", input.siteIds)]
  {
    if input.Ids? && connected then [Invoke("SubscribeToSites", input.siteIds)] else []
  }

  method RequestSubscription(hub: SignalRService, input: SiteIdsInput, invokeSucceeds: bool) returns (result: SubscribeOutcome)
    modifies hub`calls
    ensures result == SubscribeResult(input, old(hub.IsConnected()), invokeSucceeds)
    ensures hub.calls == old(hub.calls) + SubscribeCalls(input, old(hub.IsConnected()))
  {
    if input.Ids? {
      var ok := hub.SubscribeToSites(input.siteIds, invokeSucceeds);
      result := Requested(ok);
    } else if input == NoIds {
      result := NoInput;
    } else {
      result := ParseError;
    }
  }

  /** Why the login inputs were refused. */
  datatype LoginInputError = NoService | MissingCredentials

  /** The login form is accepted only with a service to log in through, a
      user name that is not blank and a non-empty password. */
  function ValidateLoginInputs(serviceAvailable: bool, usernameText: string, password: string): (r: Option<LoginInputError>)
    ensures r.None? <==> serviceAvailable && Trim(usernameText) != [] && password != []
    ensures !serviceAvailable ==> r == Some(NoService)
  {
    if !serviceAvailable then Some(NoService)
    else if Trim(usernameText) == [] || password == [] then Some(MissingCredentials)
    else None
  }
}
