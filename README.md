# Gas and fire monitoring client: a verified model of its core

The client is a WPF desktop application. Operators use it to watch gas and
fire detectors installed at sites across Romania. It logs in to a REST
server, fills three grids (sites, sensors, alarms) and a dashboard from the
server's answers, and listens on a SignalR hub for live updates. It shows the
sites on two maps: a Romania map of counties and a county map of site
markers.

This Dafny project models the logic behind those screens:

- **Status classification.** A site status text is shown as an icon, a
  brush or a marker size. A sensor status code is shown as normal, one of two
  alarm levels or a fault. The sites of a county roll up into a county status,
  with the precedence error, then alarm, then normal, then offline.
- **Property-change gate.** `SetProperty` stores a value only when it
  differs and reports whether it did. Every status setter recomputes its
  appearance only on a real change.
- **Map navigation.** The current view, selected county and selected site
  form a state machine, and the breadcrumb trail is rebuilt from that state.
- **Live-update channel.** Connect has a reentrancy guard. Status
  notifications and hub requests go to logs. The subscribed-site list is
  written only by the server's confirmation and replayed on reconnect.
- **Request client.** The login session and its bearer header, the request
  paths, and the empty-list fallback of every query.
- **View collections.** The grids are replaced in fetch order. Map entries
  are filtered by county and refreshed by id. The "new" flags of alarms are
  cleared. Site ids typed as comma-separated text are parsed. Hovering over a
  county brightens its colour, saturating at 255. The dashboard, county and
  overview counters are modelled too.

Modules follow the source files:

| module | file |
|---|---|
| `Common` | shared vocabulary: options, colours and brushes, icons, ticks |
| `Text` | decimal rendering and parsing, trimming, splitting and joining |
| `Entities` | `basic_models.dfy` |
| `MonitoringViewModels` | `monitoring_view_models.dfy` |
| `MapViewModels` | `map_view_models.dfy` |
| `RomaniaMap` | `romania_map_view.dfy` |
| `CountyMap` | `county_map_view.dfy` |
| `SignalR` | `signalr_service.dfy` |
| `Api` | `api_service.dfy` |
| `MainWindowView` | `main_window.dfy` |

Objects the source updates in place are classes, with `modifies` clauses on
their methods. These are the view models, the two map controls, both
services and the main window. The two map controls keep their private
collections as sequences of values, because no other code holds them.
Switches, filters, counts and sums are functions, each with lemmas that state
what it means.

### Modelling conventions

- A `DateTime` is a tick count (100 ns).
- The clock is a `now` parameter.
- `(int)` of a `TotalMinutes`, `TotalHours` or `TotalDays` value truncates
  toward zero (`TruncDiv`).
- Brushes are ARGB colour values.
- Emoji icons are tags of the `Icon` datatype.
- Doubles are `real`.
- Awaited results are parameters of the operation that awaits them:
  - an HTTP response, as a status code and a deserialized body, or an
    exception;
  - whether the hub started, stopped or accepted an invocation;
  - per-site sensor answers, as a function from site id to response.
- Requests sent to the server and the hub are appended to a log field (`requests`, `calls`).
- Raised events are appended to a log field (`notifications`).

### Behaviour of the source worth knowing

- A new county, site marker or sensor view model starts with an appearance
  that its own initial status would not give. A county starts Gray/Black at
  1.0; "offline" would give semi-transparent gray/DarkGray at 1.5. The setter
  does not fire when the value is already the default. The invariants of
  these classes allow exactly this initial look (`LooksRight`,
  `MarkerFollows`, `SensorViewModel.Valid`).
- Nothing in the client sets an alarm's `IsNew` flag: alarms arrive with the
  flag false and `UpdateFromAlarm` never touches it. So after every refresh
  the new-alarm counter is 0, as the contract of
  `MainWindowView.MainWindow.RefreshAlarmsData` states.
- A negative sensor status code is shown as a fault (the `_` arm of the
  switches), although neither `HasAlarm` nor `HasError` holds for it
  (`SensorLevelMatchesFlags`).
- A failed or faulted request empties the grid it refreshes, because every
  `Get*` call falls back to an empty list.

## Model

| member | source | states |
|---|---|---|
| Common.TruncDivOdd | Models/Entities/BasicModels.cs:64 | the `(int)` cast of an elapsed time truncates toward zero: negating the dividend negates the quotient |
| Text.IntToString | Views/MainWindow.xaml.cs:234-237 | `int.ToString()` is non-empty, starts with '-' exactly for negatives, and is otherwise all decimal digits |
| Text.NatToStringValue | Views/MainWindow.xaml.cs:234-237 | the digits of a rendered natural number denote that number |
| Text.ParseInt32 | Views/MainWindow.xaml.cs:851 | `int.Parse` succeeds only on an optional sign followed by at least one digit and nothing else; on such text it gives the signed value when that is in the Int32 range, and fails (overflow) when it is not |
| Text.IntToStringParses | Views/MainWindow.xaml.cs:851 | parsing the rendering of any Int32 gives it back |
| Text.TrimStart | Views/MainWindow.xaml.cs:839 | the result is a suffix of the text, every character removed is white space, and the result does not start with white space |
| Text.TrimEnd | Views/MainWindow.xaml.cs:839 | the result is a prefix of the text, every character removed is white space, and the result does not end with white space |
| Text.Trim | Views/MainWindow.xaml.cs:839 | `Trim` leaves no white space at either end, and the result is the text with only its leading and trailing white space removed |
| Text.TrimOfTrimmed | Views/MainWindow.xaml.cs:839 | text with no white space at its ends is its own trim |
| Text.Split | Views/MainWindow.xaml.cs:850 | `Split(',')` gives at least one piece and no piece holds the separator |
| Text.JoinSplit | Views/MainWindow.xaml.cs:850 | joining the pieces of a split with the separator restores the text |
| Text.SplitJoin | Views/MainWindow.xaml.cs:850 | splitting a join of separator-free pieces gives the pieces back |
| Entities.NewSite | Models/Entities/BasicModels.cs:12-23 | a default `Site` has status "offline", empty name and county, and zero counts |
| Entities.FiveMinuteCutoff | Models/Entities/BasicModels.cs:44 | `IsOnline` holds one tick before five minutes and not at five minutes, and once offline a sensor stays offline as time passes |
| Entities.Sensor.HasError | Models/Entities/BasicModels.cs:46 | a fault is never an alarm at the same time |
| Entities.SensorFlags | Models/Entities/BasicModels.cs:45-46 | `HasAlarm` and `HasError` never hold together, neither holds for status 0 or below, and one of them holds iff the status is positive |
| Entities.Alarm.MinutesAgo | Models/Entities/BasicModels.cs:64 | whole minutes elapsed, truncated toward zero, for both past and future timestamps |
| Entities.NewUserInfo | Models/Entities/BasicModels.cs:70-78 | a default `UserInfo` has an empty token, hence is not logged in, and no allowed counties or sites |
| MonitoringViewModels.SetProperty | Models/ViewModels/MonitoringViewModels.cs:25-31 | reports a change iff the values differ; then the field holds the new value, otherwise it is untouched |
| MonitoringViewModels.StatusIcon | Models/ViewModels/MonitoringViewModels.cs:118-124 | the black dot exactly for statuses other than normal, alarm and error |
| MonitoringViewModels.SiteStatusBrush | Models/ViewModels/MonitoringViewModels.cs:126-135 | Gray exactly for statuses other than normal, alarm and error |
| MonitoringViewModels.SiteIconAndBrushAgree | Models/ViewModels/MonitoringViewModels.cs:118-135 | two statuses get the same icon iff they get the same brush |
| MonitoringViewModels.SiteRowOf | Models/ViewModels/MonitoringViewModels.cs:137-148 | normal plus alarm sensors equal the site's total, error sensors are 0, and identity and status are copied |
| MonitoringViewModels.SiteViewModel.constructor | Models/ViewModels/MonitoringViewModels.cs:39-48 | a new site view model is "offline" with zero counts and its brush shows its status |
| MonitoringViewModels.SiteViewModel.SetStatus | Models/ViewModels/MonitoringViewModels.cs:68-78 | the status takes the value, the brush keeps showing the status, and an unchanged status leaves the brush alone |
| MonitoringViewModels.SiteViewModel.UpdateFromSite | Models/ViewModels/MonitoringViewModels.cs:137-148 | afterwards the view model shows exactly the row of the record and its brush shows the new status |
| MonitoringViewModels.SensorLevelOf | Models/ViewModels/MonitoringViewModels.cs:259-276 | code 0 is normal, and every code outside 0..2 (negatives included) is a fault |
| MonitoringViewModels.SensorStatusIcon | Models/ViewModels/MonitoringViewModels.cs:259-265 | every code gets one of the four sensor icons |
| MonitoringViewModels.SensorStatusBrush | Models/ViewModels/MonitoringViewModels.cs:267-276 | every code gets one of Green, Orange, Red, DarkRed |
| MonitoringViewModels.SensorIconBrushFollowLevel | Models/ViewModels/MonitoringViewModels.cs:259-276 | two codes share an icon iff they share a level, and share a brush iff they share a level |
| MonitoringViewModels.SensorLevelMatchesFlags | Models/ViewModels/MonitoringViewModels.cs:259-265 | for codes 0 and above the on-screen level agrees with `HasAlarm`/`HasError`; a negative code shows as a fault with neither flag set |
| MonitoringViewModels.DetectorTypeName | Models/ViewModels/MonitoringViewModels.cs:294-304 | "Unknown" exactly for codes outside 1..4 |
| MonitoringViewModels.DetectorTypeNamesDistinct | Models/ViewModels/MonitoringViewModels.cs:294-304 | distinct known codes get distinct names |
| MonitoringViewModels.SensorRowOf | Models/ViewModels/MonitoringViewModels.cs:278-292 | the row copies identity, status and time, and names the detector type |
| MonitoringViewModels.SensorViewModel.constructor | Models/ViewModels/MonitoringViewModels.cs:156-168 | a new sensor view model has status 0 and the Gray brush |
| MonitoringViewModels.SensorViewModel.SetStatus | Models/ViewModels/MonitoringViewModels.cs:218-228 | the status takes the value; the brush is recomputed iff the value differs |
| MonitoringViewModels.SensorViewModel.CopyDetails | Models/ViewModels/MonitoringViewModels.cs:280-291 | every field other than the status is copied from the record |
| MonitoringViewModels.SensorViewModel.UpdateFromSensor | Models/ViewModels/MonitoringViewModels.cs:278-292 | afterwards the view model shows the record's row, and the brush changes only if the status did |
| MonitoringViewModels.TimeAgoOf | Models/ViewModels/MonitoringViewModels.cs:367-379 | "just now" iff under a minute (the future included); otherwise truncated minutes in 1..59, hours in 1..23, or days, each bracketing the elapsed time |
| MonitoringViewModels.TimeAgoMonotone | Models/ViewModels/MonitoringViewModels.cs:367-379 | an older alarm never lands in a finer bucket than a newer one |
| MonitoringViewModels.TimeAgoMinutesAgreeWithAlarm | Models/ViewModels/MonitoringViewModels.cs:373-374 | in the minutes bucket the count equals the alarm record's `MinutesAgo` |
| MonitoringViewModels.AlarmViewModel.BackgroundBrush | Models/ViewModels/MonitoringViewModels.cs:365 | LightYellow iff the alarm is marked new |
| MonitoringViewModels.AlarmViewModel.constructor | Models/ViewModels/MonitoringViewModels.cs:312-318 | a new alarm view model is empty and not marked new |
| MonitoringViewModels.AlarmViewModel.UpdateFromAlarm | Models/ViewModels/MonitoringViewModels.cs:381-389 | the row becomes the record's and `IsNew` is untouched |
| MonitoringViewModels.AlarmViewModel.SetIsNew | Models/ViewModels/MonitoringViewModels.cs:356-360 | the flag takes the value |
| MapViewModels.CountyAppearance | Models/ViewModels/MapViewModels.cs:102-129 | the fill is solid with alpha 180, and the border is thicker than 1.5 exactly for alarm and error |
| MapViewModels.CountyAppearanceFollowsIcon | Models/ViewModels/MapViewModels.cs:88-129 | two statuses look alike iff they share an icon, and an error county is outlined more heavily than an alarm county |
| MapViewModels.InCounty | Models/ViewModels/MapViewModels.cs:133 | the filter keeps only rows of the county and never grows the list |
| MapViewModels.InCountyMembers | Models/ViewModels/MapViewModels.cs:133 | a row is kept iff it is in the collection and its county matches |
| MapViewModels.InCountyAppend | Models/ViewModels/MapViewModels.cs:133 | filtering a concatenation is the concatenation of the filtered parts, so every row of the county is kept once and in its original order |
| MapViewModels.CountStatusPositive | Models/ViewModels/MapViewModels.cs:136-138 | a status count is positive iff some row has that status |
| MapViewModels.CountStatusBound | Models/ViewModels/MapViewModels.cs:135-138 | normal, alarm and error counts together never exceed the total |
| MapViewModels.CountyStatusOf | Models/ViewModels/MapViewModels.cs:140-148 | the result is one of error, alarm, normal, offline |
| MapViewModels.CountyStatusMeaning | Models/ViewModels/MapViewModels.cs:131-149 | the county is "error" iff one of its sites is; "alarm" iff one is in alarm and none in error; "offline" iff none is normal, alarm or error |
| MapViewModels.RecountMeaning | Models/ViewModels/MapViewModels.cs:131-149 | the total is the number of the county's sites, the counts fit in it, the status follows the counts, and the look invariant is kept |
| MapViewModels.RecountIdempotent | Models/ViewModels/MapViewModels.cs:131-149 | recounting twice against the same sites equals recounting once |
| MapViewModels.CountyViewModel.constructor | Models/ViewModels/MapViewModels.cs:17-25 | a new county is offline, empty, and in the initial Gray/Black look |
| MapViewModels.CountyViewModel.SetStatus | Models/ViewModels/MapViewModels.cs:33-43 | the look is recomputed iff the status changes |
| MapViewModels.CountyViewModel.UpdateFromSites | Models/ViewModels/MapViewModels.cs:131-149 | the new state is the recount of the old one against the grid's rows, and the look invariant holds |
| MapViewModels.NewOfflineCounty | Models/ViewModels/MapViewModels.cs:449-454 | the object initializer gives a fresh offline county with 0 sites |
| MapViewModels.MarkerAppearance | Models/ViewModels/MapViewModels.cs:264-274 | the marker fill is the site brush of the same status |
| MapViewModels.MarkerSizeBySeverity | Models/ViewModels/MapViewModels.cs:264-274 | marker size grows strictly: unknown, normal, alarm, error |
| MapViewModels.RefreshedMeaning | Models/ViewModels/MapViewModels.cs:276-285 | a refresh copies identity, status and counts, keeps coordinates and canvas position, keeps the marker invariant, and is idempotent |
| MapViewModels.SiteMapViewModel.constructor | Models/ViewModels/MapViewModels.cs:157-168 | a new marker is offline with the Gray, size-12 default marker |
| MapViewModels.SiteMapViewModel.SetStatus | Models/ViewModels/MapViewModels.cs:200-210 | the marker is recomputed iff the status changes |
| MapViewModels.SiteMapViewModel.UpdateFromSite | Models/ViewModels/MapViewModels.cs:276-285 | the new state is the refresh of the old state from the row |
| MapViewModels.Breadcrumb.TextBrush | Models/ViewModels/MapViewModels.cs:327 | Blue iff clickable |
| MapViewModels.Breadcrumb.Cursor | Models/ViewModels/MapViewModels.cs:328 | the hand cursor iff clickable |
| MapViewModels.Crumbs | Models/ViewModels/MapViewModels.cs:397-431 | 1 to 3 crumbs, Romania first, one more for a county and one more for a positive site id, and the last leads to the deepest selection |
| MapViewModels.CrumbsClickable | Models/ViewModels/MapViewModels.cs:397-431 | in every reachable state all crumbs but the last are links, and the last is not a link iff it names the level on screen |
| MapViewModels.MapNavigationViewModel.OneViewVisible | Models/ViewModels/MapViewModels.cs:370-372 | exactly one of the three views is visible |
| MapViewModels.MapNavigationViewModel.constructor | Models/ViewModels/MapViewModels.cs:336-343 | navigation starts on Romania with no county and site id -1 |
| MapViewModels.MapNavigationViewModel.UpdateBreadcrumbs | Models/ViewModels/MapViewModels.cs:397-431 | the trail is rebuilt from the navigation state |
| MapViewModels.MapNavigationViewModel.NavigateToRomania | Models/ViewModels/MapViewModels.cs:374-380 | from any state: Romania view, county cleared, site id -1, a single non-clickable crumb |
| MapViewModels.MapNavigationViewModel.NavigateToCounty | Models/ViewModels/MapViewModels.cs:382-388 | from any state: County view of the given county with site id reset to -1, and its trail |
| MapViewModels.MapNavigationViewModel.NavigateToSite | Models/ViewModels/MapViewModels.cs:390-395 | from any state: Site view of the given id, the selected county kept, and its trail |
| MapViewModels.MapNavigationViewModel.NewOfflineCounties | Models/ViewModels/MapViewModels.cs:446-455 | one fresh offline county per name, in order |
| MapViewModels.MapNavigationViewModel.InitializeCounties | Models/ViewModels/MapViewModels.cs:433-456 | the counties become the 42 names in array order, each offline with 0 sites |
| RomaniaMap.MapCountyNamesDistinct | Views/Controls/RomaniaMapView.xaml.cs:88-93 | the ten county names the map lists are distinct |
| RomaniaMap.CountActive | Views/Controls/RomaniaMapView.xaml.cs:152 | at most as many active counties as counties |
| RomaniaMap.CountActiveMeaning | Views/Controls/RomaniaMapView.xaml.cs:152 | the active figure is positive iff some county is not offline, and equals the number of counties iff none is offline |
| RomaniaMap.OverviewOf | Views/Controls/RomaniaMapView.xaml.cs:149-163 | the figures are the number of counties, the active count, the site sum and the alarm sum, and the alarm figure is red iff there is an alarm |
| RomaniaMap.FirstNamed | Views/Controls/RomaniaMapView.xaml.cs:70 | the first index with that name, or none iff the name is absent |
| RomaniaMap.WithStatusMeaning | Views/Controls/RomaniaMapView.xaml.cs:68-81 | the county takes the status, total and alarm count, normal sites are the rest, and the look invariant is kept |
| RomaniaMap.Brighten | Views/Controls/RomaniaMapView.xaml.cs:186-192 | each channel rises by at most 30 and by exactly 30 unless clipped at 255, and the alpha is kept |
| RomaniaMap.Highlighted | Views/Controls/RomaniaMapView.xaml.cs:184-197 | the stroke is kept, the thickness rises by one, and a solid fill stays solid |
| RomaniaMap.BrightenInjectiveBelowClip | Views/Controls/RomaniaMapView.xaml.cs:186-192 | below the clipping point two colours that brighten alike were alike |
| RomaniaMap.NewCounties | Views/Controls/RomaniaMapView.xaml.cs:95-104 | one new offline county per name, in order |
| RomaniaMap.InitialOverview | Views/Controls/RomaniaMapView.xaml.cs:85-109 | Prahova normal with 8 normal sites, Gorj alarm with 1 alarm and 1 normal site, the rest offline; the overview shows 10, 2, 10, 1 in red |
| RomaniaMap.OfflineCountiesAddNothing | Views/Controls/RomaniaMapView.xaml.cs:151-154 | offline counties with no sites add nothing to any figure |
| RomaniaMap.RecountAll | Views/Controls/RomaniaMapView.xaml.cs:50-54 | every county is recounted against the same sites |
| RomaniaMap.Paint | Views/Controls/RomaniaMapView.xaml.cs:111-128 | painting never adds or removes a shape |
| RomaniaMap.RepaintedShowsEachCounty | Views/Controls/RomaniaMapView.xaml.cs:50-54 | with unique names, every county's shape ends up with that county's look and other shapes keep theirs |
| RomaniaMap.DeclaredShapes | Views/Controls/RomaniaMapView.xaml.cs:130-147 | there is one shape exactly for each listed county |
| RomaniaMap.RomaniaMapView.CountyStatesOf | Views/Controls/RomaniaMapView.xaml.cs:95-104 | the loop builds one new offline county per name |
| RomaniaMap.RomaniaMapView.constructor | Views/Controls/RomaniaMapView.xaml.cs:34-38 | names are unique, the counties hold the two sample statuses, the overview matches, and only Prahova and Gorj are repainted |
| RomaniaMap.RomaniaMapView.UpdateCountyAppearance | Views/Controls/RomaniaMapView.xaml.cs:111-128 | the county's shape, if any, takes its look |
| RomaniaMap.RomaniaMapView.UpdateOverviewStatistics | Views/Controls/RomaniaMapView.xaml.cs:149-163 | the overview is recomputed from the counties |
| RomaniaMap.RomaniaMapView.SetCountyStatus | Views/Controls/RomaniaMapView.xaml.cs:68-81 | only the first county with that name changes, its shape and the overview follow, and an unknown name changes nothing |
| RomaniaMap.RomaniaMapView.RecountCounties | Views/Controls/RomaniaMapView.xaml.cs:50-54 | every county recounted in list order, each shape repainted |
| RomaniaMap.RomaniaMapView.UpdateCountyStatus | Views/Controls/RomaniaMapView.xaml.cs:45-63 | all counties recounted against the grid, shapes repainted, overview refreshed, names still unique |
| RomaniaMap.RomaniaMapView.MouseEnter | Views/Controls/RomaniaMapView.xaml.cs:176-199 | the fill is saved and the shape highlighted; a name without a shape changes nothing |
| RomaniaMap.RomaniaMapView.MouseLeave | Views/Controls/RomaniaMapView.xaml.cs:201-209 | the saved fill is put back and the thickness drops by one |
| RomaniaMap.RomaniaMapView.Hover | Views/Controls/RomaniaMapView.xaml.cs:176-209 | entering then leaving a county restores every shape |
| RomaniaMap.SumSitesOfRecount | Views/Controls/RomaniaMapView.xaml.cs:153 | after a recount the site total is the sum of the per-county filter sizes |
| RomaniaMap.SumInCountyCountsEachSiteOnce | Views/Controls/RomaniaMapView.xaml.cs:153 | with unique county names, the per-county site totals add up to the number of sites whose county is on the map: no site is counted twice |
| RomaniaMap.OverviewCountsMapSites | Views/Controls/RomaniaMapView.xaml.cs:153 | after every county is recounted against the grid, as `UpdateCountyStatus` does, the overview's site total is the number of grid sites whose county is on the map |
| CountyMap.Coordinates | Views/Controls/CountyMapView.xaml.cs:109-139 | the table entry for a known name; otherwise latitude 44.9 with longitude 26.0 in Prahova and 23.3 elsewhere |
| CountyMap.CoordinatesPlacement | Views/Controls/CountyMapView.xaml.cs:113-138 | every site lies between 44.85 and 44.94 latitude, and unknown sites of a county share one point |
| CountyMap.CountyOutline | Views/Controls/CountyMapView.xaml.cs:141-153 | Prahova and Gorj get their own polygons, every other county the rectangle |
| CountyMap.LoadedSites | Views/Controls/CountyMapView.xaml.cs:55-65 | one entry per row, in order |
| CountyMap.LoadedSitesOnePerCountySite | Views/Controls/CountyMapView.xaml.cs:52-65 | one entry per site of the county, in grid order, with its id, name and status |
| CountyMap.StatisticsBound | Views/Controls/CountyMapView.xaml.cs:253-264 | the three status counters together never exceed the total |
| CountyMap.LoadedStatusCount | Views/Controls/CountyMapView.xaml.cs:256-258 | each status count over the loaded entries equals the count over the rows they were loaded from |
| CountyMap.LoadedStatisticsMatchCounty | Views/Controls/CountyMapView.xaml.cs:253-264 | after a load the counters equal the county view model's counts |
| CountyMap.FirstWithId | Views/Controls/CountyMapView.xaml.cs:91 | the index of the first row with the id, or -1 iff none has it |
| CountyMap.RefreshedSites | Views/Controls/CountyMapView.xaml.cs:89-97 | each entry is refreshed on its own, and the length is kept |
| CountyMap.RefreshKeepsEntries | Views/Controls/CountyMapView.xaml.cs:89-97 | length, order, ids and positions are kept, each entry takes the first matching row's status, and unmatched entries are untouched |
| CountyMap.RefreshIdempotent | Views/Controls/CountyMapView.xaml.cs:85-105 | refreshing twice from the same grid equals refreshing once |
| CountyMap.CountyMapView.constructor | Views/Controls/CountyMapView.xaml.cs:29-37 | no county and no sites |
| CountyMap.CountyMapView.LoadCountySites | Views/Controls/CountyMapView.xaml.cs:44-80 | county, title, one entry per county site in grid order, outline, and counters that show the entries |
| CountyMap.CountyMapView.LoadSites | Views/Controls/CountyMapView.xaml.cs:55-65 | the loop builds exactly the loaded entries |
| CountyMap.CountyMapView.SetSiteCoordinates | Views/Controls/CountyMapView.xaml.cs:109-139 | the coordinates become those of the lookup |
| CountyMap.CountyMapView.RefreshSiteStatus | Views/Controls/CountyMapView.xaml.cs:85-105 | the entries become their refresh from the grid, and the counters show them |
| CountyMap.CountyMapView.UpdateCountyStatistics | Views/Controls/CountyMapView.xaml.cs:253-264 | the four counters show total, normal, alarm and error counts |
| SignalR.StateName | Services/SignalRService.cs:58 | the name is "Connected" iff the state is |
| SignalR.AuthorizationFor | Services/SignalRService.cs:93-96 | a header iff the token is present and non-empty, and then it is "Bearer " plus the token |
| SignalR.SignalRService.constructor | Services/SignalRService.cs:23-24 | no connection, not connecting, nothing subscribed, empty logs |
| SignalR.SignalRService.ConnectionState | Services/SignalRService.cs:58 | "Connected" iff `IsConnected` |
| SignalR.SignalRService.BeginConnect | Services/SignalRService.cs:80-106 | while connecting or connected nothing starts and the answer is `IsConnected`; otherwise the guard is set and a connection built with the bearer header is started |
| SignalR.SignalRService.FinishConnect | Services/SignalRService.cs:106-122 | the result and the notification report whether start succeeded, and the guard is cleared on both paths |
| SignalR.SignalRService.ConnectAsync | Services/SignalRService.cs:78-123 | a guarded call changes nothing and returns `IsConnected`; otherwise one start, one notification, the guard back to false |
| SignalR.SignalRService.DisconnectAsync | Services/SignalRService.cs:128-146 | with a connection: one stop and a "disconnected" notification even if stopping fails; without one nothing happens |
| SignalR.SignalRService.OnConnectionClosed | Services/SignalRService.cs:165-169 | not connected afterwards, and "disconnected" is notified |
| SignalR.SignalRService.OnReconnecting | Services/SignalRService.cs:171-175 | not connected while reconnecting, and "disconnected" is notified |
| SignalR.SignalRService.OnReconnected | Services/SignalRService.cs:177-187 | connected is notified, then the hub is asked to subscribe to exactly the confirmed sites, with no call when there are none |
| SignalR.SignalRService.OnSensorUpdate | Services/SignalRService.cs:191-211 | the update is forwarded with its arrival time |
| SignalR.SignalRService.OnNewAlarm | Services/SignalRService.cs:213-233 | the alarm is forwarded with its arrival time |
| SignalR.SignalRService.OnSubscriptionUpdated | Services/SignalRService.cs:235-240 | the server's list replaces the subscribed sites and is forwarded |
| SignalR.SignalRService.SubscribeToSites | Services/SignalRService.cs:247-266 | true iff connected and the call went through; no hub call unless connected; the subscribed list is not touched |
| SignalR.SignalRService.UnsubscribeFromSites | Services/SignalRService.cs:271-289 | true iff connected and the call went through; no hub call unless connected |
| SignalR.ConcurrentConnect | Services/SignalRService.cs:80-85 | a second connect during the first starts nothing and answers false; one start in all |
| Api.DataOrEmpty | Services/ApiService.cs:114-133 | a non-empty list only from a 2xx response whose body and data are present, and then exactly that data; a failure, an exception or a null body or data gives the empty list |
| Api.SensorsPathParses | Services/ApiService.cs:143 | the sensors path names the site it was built for |
| Api.AlarmsPathParses | Services/ApiService.cs:171-179 | the alarm path carries exactly the site id, when given, and the limit |
| Api.AllAlarmsPathParses | Services/ApiService.cs:178 | the path without a site id reads back as only the limit |
| Api.SiteAlarmsPathParses | Services/ApiService.cs:174 | the path with a site id reads back as that id and the limit |
| Api.ApiService.constructor | Services/ApiService.cs:23-33 | no session, no header, no requests |
| Api.ApiService.TestConnection | Services/ApiService.cs:42-53 | one health request; true iff a 2xx status came back |
| Api.ApiService.Login | Services/ApiService.cs:58-105 | success iff 2xx with success and data; only then the session and bearer header change; failures keep the old session and report a connection error, a server error, or for a 2xx refusal the server's message or else "Login failed" |
| Api.ApiService.Logout | Services/ApiService.cs:205-209 | no session and no header, hence not logged in, whatever the state before |
| Api.ApiService.GetSites | Services/ApiService.cs:110-134 | one sites request; the data or the empty list |
| Api.ApiService.GetSensors | Services/ApiService.cs:139-162 | one request to the site's sensors path; the data or the empty list |
| Api.ApiService.GetAlarms | Services/ApiService.cs:167-200 | one request to the alarm path for the site and limit; the data or the empty list |
| MainWindowView.NewSiteViewModel | Views/MainWindow.xaml.cs:149-150 | a fresh site view model showing the record's row |
| MainWindowView.NewSensorViewModel | Views/MainWindow.xaml.cs:194-195 | a fresh sensor view model showing the record's row |
| MainWindowView.NewAlarmViewModel | Views/MainWindow.xaml.cs:218-219 | a fresh alarm view model showing the record, not marked new |
| MainWindowView.SiteViewModelsOf | Views/MainWindow.xaml.cs:146-152 | one consistent view model per fetched site, in fetch order |
| MainWindowView.SensorViewModelsOf | Views/MainWindow.xaml.cs:191-197 | one consistent view model per fetched sensor, in fetch order |
| MainWindowView.AlarmViewModelsOf | Views/MainWindow.xaml.cs:215-221 | one view model per fetched alarm, in fetch order, none marked new |
| MainWindowView.CountWithStatus | Views/MainWindow.xaml.cs:235 | at most the number of rows, and 0 iff no row has the status |
| MainWindowView.DashboardSensorsAddUp | Views/MainWindow.xaml.cs:236-237 | over grid rows built from records, normal plus alarm sensors equal total sensors |
| MainWindowView.DashboardTotalsAreServerSums | Views/MainWindow.xaml.cs:236-237 | the dashboard sums equal the sums over the records the server sent |
| MainWindowView.NewAlarmCount | Views/MainWindow.xaml.cs:243 | at most the number of alarms, and 0 iff none is marked new |
| MainWindowView.SensorsOfSitesAppend | Views/MainWindow.xaml.cs:180-188 | fetching two lists of sites one after the other concatenates their sensors |
| MainWindowView.SensorsOfOneSite | Views/MainWindow.xaml.cs:175-188 | the all-sites fetch over one site equals the single-site fetch |
| MainWindowView.FetchSensorsOfSites | Views/MainWindow.xaml.cs:180-188 | one sensors request per site in order, and the answers concatenated in site order |
| MainWindowView.ParsePieces | Views/MainWindow.xaml.cs:850-852 | a list iff every trimmed piece parses, and then the ids piece by piece; otherwise some piece fails |
| MainWindowView.ParseSiteIds | Views/MainWindow.xaml.cs:839-852 | no input iff the trimmed text is empty; otherwise one Int32 per comma-separated piece |
| MainWindowView.ParseSiteIdsMeaning | Views/MainWindow.xaml.cs:839-852 | a parse error iff the trimmed text is not empty and some trimmed comma-separated piece fails to parse; otherwise each id is the value its trimmed piece parses to |
| MainWindowView.ParsePiecesOfRenderings | Views/MainWindow.xaml.cs:850-852 | the renderings of Int32 ids parse back to the ids |
| MainWindowView.ParseSiteIdsRoundTrip | Views/MainWindow.xaml.cs:839-852 | ids written comma-separated into the box read back as the same list |
| MainWindowView.ParseSiteIdsIgnoresOuterSpace | Views/MainWindow.xaml.cs:839 | spaces around the whole entry do not matter |
| MainWindowView.Button.SetEnabled | Views/MainWindow.xaml.cs:882 | the button takes the value and the value is logged |
| MainWindowView.ExecuteWithButtonDisabled | Views/MainWindow.xaml.cs:878-889 | the button is disabled, then enabled again, even when the operation faults, and the fault reaches the caller |
| MainWindowView.MainWindow.constructor | Views/MainWindow.xaml.cs:27-38 | empty grids, no selection (-1), auto-refresh off with the timer stopped |
| MainWindowView.MainWindow.UpdateDashboardSummary | Views/MainWindow.xaml.cs:232-238 | the counters show site count, normal sites, and the sums of total and alarm sensors |
| MainWindowView.MainWindow.UpdateAlarmCounts | Views/MainWindow.xaml.cs:240-244 | the counters show the number of alarms and of those marked new |
| MainWindowView.MainWindow.RefreshSitesData | Views/MainWindow.xaml.cs:139-167 | one sites request; the grid holds one consistent row per fetched site in order (empty on failure) and the dashboard shows them |
| MainWindowView.MainWindow.RefreshSensorsData | Views/MainWindow.xaml.cs:169-206 | with an id, only that site is fetched; without, every grid site in grid order, concatenated; the grid and count show the result; the site grid is left as it was |
| MainWindowView.MainWindow.ShowSensors | Views/MainWindow.xaml.cs:190-199 | the sensor grid holds one consistent row per sensor, in order, and the count shows them; the site grid is left as it was |
| MainWindowView.MainWindow.RefreshAlarmsData | Views/MainWindow.xaml.cs:208-230 | one request for the 100 latest alarms; one row per alarm in order, none new, so the new count shows 0 |
| MainWindowView.MainWindow.ClearNewAlarms | Views/MainWindow.xaml.cs:323-331 | every flag cleared, the rows and the total unchanged, the new count 0 |
| MainWindowView.MainWindow.ToggleAutoRefresh | Views/MainWindow.xaml.cs:284-300 | the switch flips, the timer runs iff it is on, and the button says which |
| MainWindowView.MainWindow.AutoRefreshTick | Views/MainWindow.xaml.cs:246-256 | the site grid becomes one consistent row per site the server sent, and the dashboard follows; the selected site's sensors, and their count, are refreshed only when a positive id is selected, after the sites |
| MainWindowView.MainWindow.UpdateSensorFromRealTimeData | Views/MainWindow.xaml.cs:756-771 | a live update refreshes the selected site's sensors, and does nothing with no selection |
| MainWindowView.MainWindow.RefreshSensorsClick | Views/MainWindow.xaml.cs:268-274 | the selected site's sensors, or every grid site's when none is selected |
| MainWindowView.MainWindow.SelectSite | Views/MainWindow.xaml.cs:302-321 | a chosen site becomes the selection and its sensors are shown; no choice changes nothing |
| MainWindowView.MainWindow.SubscribeClick | Views/MainWindow.xaml.cs:835-871 | the button goes off and on again, the outcome follows the parsed input, and the hub is asked only for a parsed list while connected |
| MainWindowView.SubscribeResult | Views/MainWindow.xaml.cs:841-864 | no input iff the box is blank, a parse error iff the entry is malformed, and otherwise success iff connected and the call went through |
| MainWindowView.SubscribeCalls | Views/MainWindow.xaml.cs:856-858 | a hub call iff the list parsed and the hub is connected, and then exactly that list |
| MainWindowView.RequestSubscription | Views/MainWindow.xaml.cs:847-869 | the outcome and the hub calls for an already parsed input |
| MainWindowView.ValidateLoginInputs | Views/MainWindow.xaml.cs:394-412 | accepted iff there is a service, the trimmed user name is not empty and the password is not empty; no service is reported first |

## Left out

- HTTP transport and JSON: `HttpClient`, serialization, timeouts and the login request body are not modelled. Each awaited response is a parameter. A JSON `null` body or `data` is `None`.
- The `HubConnection` library: building the URL, handler registration, the automatic-reconnect delays and `Dispose`/`DisposeAsync` are not modelled. The hub's state is a value, and whether start, stop or invoke succeeds is a parameter.
- Server message bodies are kept as their text. The client never parses them either.
- Concurrency: `Dispatcher.Invoke`, `Task.Run`, `DispatcherTimer` and overlapping refreshes are not modelled. Each handler is one sequential step.
- `SignalR.SignalRService.ConnectAsync` is split at its `await` into `BeginConnect` and `FinishConnect`, so a connect that interleaves with another can be stated (`ConcurrentConnect`). Other interleavings are not modelled.
- Floating-point map geometry is not modelled: `UpdateMapPosition`, `PositionSitesOnMap`, the padding and bounds. Doubles are `real`, with no rounding.
- Drawing is not modelled: markers, labels, tooltips (`ToolTipText`), marker hover resizing, `UpdateSiteMarker` and `PointCollection.Parse`. The county outline is its points text.
- `FindCountyElement` becomes a map from county name to shape look. Distinct brush objects that are equal colours are not told apart.
- `PropertyChanged` notifications are not modelled. `SetProperty` reports the change but raises nothing.
- Log text, status bar and timestamps are not modelled: `LogMessage`, `LogRealTimeMessage`, `SitesLastUpdateText`, `Display*Table`.
- `MonitoringViewModels.TimeAgoOf` gives the bucket and count of `GetTimeAgoText`. The exact text is `TimeAgoText`, which no lemma covers.
- Text formats are not modelled: `TimestampText`, `LastUpdateText`, `DisplayValue`, `OnlineStatus`.
- Int32 arithmetic is unbounded here. `NormalSensors = Total - Alarm` and the dashboard and overview sums do not wrap or throw on overflow.
- `Text.ParseInt32` models `int.Parse` as an optional sign followed by decimal digits. Culture rules and inner white space are not modelled.
- `MainWindowView.MainWindow.RefreshSensorsData`: when the API service is null, `_apiService!` throws, and the catch path that logs this is not modelled. The services are passed to the handlers that use them, so they are never null. This also covers the null-service branch of `Subscribe_Click`.
- `MainWindowView.ValidateLoginInputs` takes a boolean for "a service exists". The log messages are not modelled.
- The try/catch wrappers of `UpdateCountyStatus`, `LoadCountySites`, `RefreshSiteStatus` and the `Refresh*Data` methods are not modelled. Their bodies cannot throw in the model.
- `MapViewModels.SiteMapViewModel.UpdateFromSite` takes the grid row, which holds the site view model's current values, rather than the object.
- `CountyViewModel.Name` is a constant set at creation, as the object initializers do.
- `MonitoringDashboardViewModel`, `App.xaml.cs` and `Configuration/AppSettings.cs` are not modelled. They are startup wiring and properties with no behaviour.
- Map wiring in `MainWindow` is not modelled: `SetupMapNavigation`, `UpdateMapViews`, `UpdateMapStatistics`, `ShowCountyDetail`, `ShowRomaniaOverview`. Neither are the click events `CountyClicked` and `SiteClicked`, which only forward to the map operations modelled above.
- `MainWindow` connection handlers are not modelled: `UpdateConnectionStatus`, `SetTabsEnabled`, `TestConnection_Click`, `UpdateServerSettings`, `PerformLogin`, the SignalR connect/disconnect buttons and `OnClosed`. They are wiring around `ApiService` and `SignalRService` operations that are modelled.
- `AddNewAlarmFromRealTimeData` only re-runs `RefreshAlarmsData`, which is modelled.
- The site-filter combo box and the grid selection share `SelectSite`. The combo box echo of the selection is not modelled.
