/** The view models behind the two maps: a county on the Romania map, a site
    marker on a county map, the breadcrumb trail and the navigation state. */
module MapViewModels {
  import opened Common
  import opened MonitoringViewModels
  import Text

  // ------------------------------------------------------------- counties

  /** How a county shape is painted. */
  datatype CountyLook = CountyLook(fill: Brush, stroke: Brush, thickness: real)

  /** The look of a new CountyViewModel, before any status change. */
  const DefaultCountyLook: CountyLook := CountyLook(Gray, Black, 1.0)

  /** `UpdateBrushes`: a semi-transparent fill, a dark stroke of the same hue
      and a thicker border for alarms and errors. */
  function CountyAppearance(status: string): (look: CountyLook)
    ensures look.fill.Solid? && look.fill.color.a == 180
    ensures look.thickness >= 1.5
    ensures look.thickness > 1.5 <==> status == "alarm" || status == "error"
  {
    match status
    case "normal" => CountyLook(Solid(Argb(180, 0, 255, 0)), DarkGreen, 1.5)
    case "alarm" => CountyLook(Solid(Argb(180, 255, 165, 0)), DarkOrange, 2.5)
    case "error" => CountyLook(Solid(Argb(180, 255, 0, 0)), DarkRed, 3.0)
    case _ => CountyLook(Solid(Argb(180, 128, 128, 128)), DarkGray, 1.5)
  }

  /** The county look and the status icon classify statuses the same way;
      an error county is outlined more heavily than an alarm county. */
  lemma CountyAppearanceFollowsIcon(s1: string, s2: string)
    ensures CountyAppearance(s1) == CountyAppearance(s2) <==> StatusIcon(s1) == StatusIcon(s2)
    ensures CountyAppearance("error").thickness > CountyAppearance("alarm").thickness
  {
  }

  /** The sites of one county, in their original order (`Where(s => s.County == name)`). */
  function InCounty(rows: seq<SiteRow>, county: string): (r: seq<SiteRow>)
    ensures |r| <= |rows|
    ensures forall k :: 0 <= k < |r| ==> r[k].county == county
  {
    if rows == [] then []
    else
      var rest := InCounty(rows[1..], county);
      if rows[0].county == county then [rows[0]] + rest else rest
  }

  /** Filtering keeps exactly the rows of the county. */
  lemma {:induction false} InCountyMembers(rows: seq<SiteRow>, county: string, x: SiteRow)
    ensures x in InCounty(rows, county) <==> x in rows && x.county == county
  {
    if rows != [] {
      InCountyMembers(rows[1..], county, x);
      assert rows == [rows[0]] + rows[1..];
    }
  }

  /** Filtering a concatenation filters each part: with the one-row case of
      the definition, every row of the county is kept exactly once, in order. */
  lemma {:induction false} InCountyAppend(a: seq<SiteRow>, b: seq<SiteRow>, county: string)
    ensures InCounty(a + b, county) == InCounty(a, county) + InCounty(b, county)
  {
    if a != [] {
      assert (a + b)[1..] == a[1..] + b;
      InCountyAppend(a[1..], b, county);
    } else {
      assert a + b == b;
    }
  }

  /** How many rows have the given status. */
  function CountStatus(rows: seq<SiteRow>, status: string): nat {
    if rows == [] then 0
    else (if rows[0].status == status then 1 else 0) + CountStatus(rows[1..], status)
  }

  /** A status is counted at least once exactly when some row has it. */
  lemma {:induction false} CountStatusPositive(rows: seq<SiteRow>, status: string)
    ensures CountStatus(rows, status) > 0 <==> exists x :: x in rows && x.status == status
  {
    if rows != [] {
      CountStatusPositive(rows[1..], status);
      assert rows == [rows[0]] + rows[1..];
    }
  }

  /** Normal, alarm and error sites together never outnumber the sites. */
  lemma {:induction false} CountStatusBound(rows: seq<SiteRow>)
    ensures CountStatus(rows, "normal") + CountStatus(rows, "alarm") + CountStatus(rows, "error") <= |rows|
  {
    if rows != [] {
      CountStatusBound(rows[1..]);
    }
  }

  /** The status `UpdateFromSites` derives from the counts: error wins over
      alarm, alarm over normal, and no counted site at all means offline. */
  function CountyStatusOf(normalSites: int, alarmSites: int, errorSites: int): (s: string)
    ensures s in {"error", "alarm", "normal", "offline"}
  {
    if errorSites > 0 then "error"
    else if alarmSites > 0 then "alarm"
    else if normalSites > 0 then "normal"
    else "offline"
  }

  /** What the county status means in terms of the sites of the county: it
      is the most severe status any of its sites has, and "offline" when
      none of them is normal, in alarm or in error. */
  lemma CountyStatusMeaning(rows: seq<SiteRow>, county: string)
    ensures var c := InCounty(rows, county);
      var s := CountyStatusOf(CountStatus(c, "normal"), CountStatus(c, "alarm"), CountStatus(c, "error"));
      && (s == "error" <==> exists x :: x in rows && x.county == county && x.status == "error")
      && (s == "alarm" <==>
            (exists x :: x in rows && x.county == county && x.status == "alarm")
            && !(exists x :: x in rows && x.county == county && x.status == "error"))
      && (s == "offline" <==> !(exists x :: x in rows && x.county == county && IsKnownStatus(x.status)))
  {
    var c := InCounty(rows, county);
    CountStatusPositive(c, "normal");
    CountStatusPositive(c, "alarm");
    CountStatusPositive(c, "error");
    forall x
      ensures x in c <==> x in rows && x.county == county
    {
      InCountyMembers(rows, county, x);
    }
  }

  /** What a CountyViewModel holds, as a value. */
  datatype CountyState = CountyState(
    name: string, status: string,
    totalSites: int, normalSites: int, alarmSites: int, errorSites: int, look: CountyLook)

  /** A county view model as created: offline, no sites, the initial look. */
  function NewCounty(name: string): CountyState {
    CountyState(name, "offline", 0, 0, 0, 0, DefaultCountyLook)
  }

  /** The invariant of a county view model, on its value: the look follows
      the status, or the status never left its initial "offline" and the
      look is still the initial Gray/Black one, which differs from the look
      of "offline" itself. */
  predicate LooksRight(st: CountyState) {
    st.look == CountyAppearance(st.status) || (st.status == "offline" && st.look == DefaultCountyLook)
  }

  /** The state `UpdateFromSites` leaves behind: the county's sites recounted,
      the status derived from the counts, the look repainted only if the
      status changed. */
  function Recount(st: CountyState, rows: seq<SiteRow>): (r: CountyState)
    ensures r.name == st.name
  {
    var c := InCounty(rows, st.name);
    var n, a, e := CountStatus(c, "normal"), CountStatus(c, "alarm"), CountStatus(c, "error");
    var s := CountyStatusOf(n, a, e);
    CountyState(st.name, s, |c|, n, a, e, if s == st.status then st.look else CountyAppearance(s))
  }

  /** A recount holds the county's site total, counts that fit in it, the
      status the counts call for, and keeps the view model invariant. */
  lemma RecountMeaning(st: CountyState, rows: seq<SiteRow>)
    ensures var r := Recount(st, rows);
      && r.totalSites == |InCounty(rows, st.name)|
      && r.normalSites + r.alarmSites + r.errorSites <= r.totalSites
      && r.status == CountyStatusOf(r.normalSites, r.alarmSites, r.errorSites)
      && (LooksRight(st) ==> LooksRight(r))
  {
    CountStatusBound(InCounty(rows, st.name));
  }

  /** Recounting against the same sites a second time changes nothing. */
  lemma RecountIdempotent(st: CountyState, rows: seq<SiteRow>)
    ensures Recount(Recount(st, rows), rows) == Recount(st, rows)
  {
  }

  class CountyViewModel {
    /** Set once, by the object initializer that creates the county. */
    const name: string
    var status: string
    var totalSites: int
    var normalSites: int
    var alarmSites: int
    var errorSites: int
    var look: CountyLook

    ghost predicate Valid()
      reads this
    {
      LooksRight(State())
    }

    function Icon(): Icon
      reads this
    {
      StatusIcon(status)
    }

    function State(): CountyState
      reads this
    {
      CountyState(name, status, totalSites, normalSites, alarmSites, errorSites, look)
    }

    constructor (name: string)
      ensures Valid() && State() == NewCounty(name)
    {
      this.name, status := name, "offline";
      totalSites, normalSites, alarmSites, errorSites := 0, 0, 0, 0;
      look := DefaultCountyLook;
    }

    /** The `Status` setter: the look is recomputed only on a real change. */
    method SetStatus(value: string)
      requires Valid()
      modifies this`status, this`look
      ensures Valid() && status == value
      ensures look == if old(status) == value then old(look) else CountyAppearance(value)
    {
      var changed;
      status, changed := SetProperty(status, value);
      if changed {
        look := CountyAppearance(status);
      }
    }

    /** Recount the county's sites in the grid's collection and derive the
        county status from the counts. */
    method UpdateFromSites(sites: seq<SiteViewModel>)
      requires Valid()
      modifies this
      ensures Valid() && State() == Recount(old(State()), Rows(sites))
    {
      ghost var before := State();
      ghost var rows := Rows(sites);
      var countySites := InCounty(Rows(sites), name);
      totalSites := |countySites|;
      normalSites := CountStatus(countySites, "normal");
      alarmSites := CountStatus(countySites, "alarm");
      errorSites := CountStatus(countySites, "error");
      var newStatus;
      if errorSites > 0 {
        newStatus := "error";
      } else if alarmSites > 0 {
        newStatus := "alarm";
      } else if normalSites > 0 {
        newStatus := "normal";
      } else {
        newStatus := "offline";
      }
      assert newStatus == CountyStatusOf(normalSites, alarmSites, errorSites);
      SetStatus(newStatus);
      assert State() == Recount(before, rows);
    }
  }

  /** One county view model per name, in order, each a new offline county. */
  ghost predicate OfflineCounties(cs: seq<CountyViewModel>, names: seq<string>)
    reads set c | c in cs
  {
    |cs| == |names| && forall i :: 0 <= i < |cs| ==> cs[i].Valid() && cs[i].State() == NewCounty(names[i])
  }

  /** `new CountyViewModel { Name = name, Status = "offline", TotalSites = 0 }`,
      as both county lists are filled. */
  method NewOfflineCounty(name: string) returns (county: CountyViewModel)
    ensures fresh(county) && county.Valid() && county.State() == NewCounty(name)
  {
    county := new CountyViewModel(name);
    county.SetStatus("offline");
    county.totalSites := 0;
  }

  // ---------------------------------------------------------- site markers

  /** How a site marker is drawn. */
  datatype Marker = Marker(fill: Brush, size: real)

  /** The marker of a new SiteMapViewModel, before any status change. */
  const DefaultMarker: Marker := Marker(Gray, 12.0)

  /** `UpdateAppearance`: the more severe the status, the bigger the marker. */
  function MarkerAppearance(status: string): (m: Marker)
    ensures m.fill == SiteStatusBrush(status)
  {
    match status
    case "normal" => Marker(Green, 12.0)
    case "alarm" => Marker(Orange, 15.0)
    case "error" => Marker(Red, 18.0)
    case _ => Marker(Gray, 10.0)
  }

  /** Marker size grows strictly with severity: unknown, normal, alarm, error. */
  lemma MarkerSizeBySeverity(s: string)
    ensures !IsKnownStatus(s) ==> MarkerAppearance(s).size < MarkerAppearance("normal").size
    ensures MarkerAppearance("normal").size < MarkerAppearance("alarm").size < MarkerAppearance("error").size
  {
  }

  /** The marker follows the status, except the initial (Gray, 12) marker of
      a view model whose status never left "offline". */
  predicate MarkerFollows(status: string, marker: Marker) {
    marker == MarkerAppearance(status) || (status == "offline" && marker == DefaultMarker)
  }

  /** What a SiteMapViewModel holds, as a value. */
  datatype MapSite = MapSite(
    id: int, name: string, county: string, latitude: real, longitude: real,
    status: string, totalSensors: int, alarmSensors: int, mapX: real, mapY: real, marker: Marker)

  /** A new SiteMapViewModel: every field at its default, "offline", the initial marker. */
  const NewMapSite: MapSite := MapSite(0, "", "", 0.0, 0.0, "offline", 0, 0, 0.0, 0.0, DefaultMarker)

  /** The state `UpdateFromSite` leaves behind: the grid row's identity,
      status and counts copied, the marker redrawn only if the status
      changed, the coordinates and the canvas position untouched. */
  function Refreshed(m: MapSite, row: SiteRow): MapSite {
    m.(id := row.id, name := row.name, county := row.county, status := row.status,
       totalSensors := row.totalSensors, alarmSensors := row.alarmSensors,
       marker := if row.status == m.status then m.marker else MarkerAppearance(row.status))
  }

  /** Refreshing takes the row's identity and status, keeps the position,
      keeps the marker invariant, and a second refresh from the same row
      changes nothing. */
  lemma RefreshedMeaning(m: MapSite, row: SiteRow)
    ensures var r := Refreshed(m, row);
      && r.id == row.id && r.name == row.name && r.county == row.county && r.status == row.status
      && r.totalSensors == row.totalSensors && r.alarmSensors == row.alarmSensors
      && r.latitude == m.latitude && r.longitude == m.longitude && r.mapX == m.mapX && r.mapY == m.mapY
      && (MarkerFollows(m.status, m.marker) ==> MarkerFollows(r.status, r.marker))
      && Refreshed(r, row) == r
  {
  }

  class SiteMapViewModel {
    var id: int
    var name: string
    var county: string
    var latitude: real
    var longitude: real
    var status: string
    var totalSensors: int
    var alarmSensors: int
    var mapX: real
    var mapY: real
    var marker: Marker

    ghost predicate Valid()
      reads this`status, this`marker
    {
      MarkerFollows(status, marker)
    }

    function State(): MapSite
      reads this
    {
      MapSite(id, name, county, latitude, longitude, status, totalSensors, alarmSensors, mapX, mapY, marker)
    }

    constructor ()
      ensures Valid() && State() == NewMapSite
    {
      id, name, county, status := 0, "", "", "offline";
      latitude, longitude, mapX, mapY := 0.0, 0.0, 0.0, 0.0;
      totalSensors, alarmSensors := 0, 0;
      marker := DefaultMarker;
    }

    /** The `Status` setter: the marker is recomputed only on a real change. */
    method SetStatus(value: string)
      requires Valid()
      modifies this`status, this`marker
      ensures Valid() && status == value
      ensures marker == if old(status) == value then old(marker) else MarkerAppearance(value)
    {
      var changed;
      status, changed := SetProperty(status, value);
      if changed {
        marker := MarkerAppearance(status);
      }
    }

    /** Copy the grid row (the site view model's current values). */
    method UpdateFromSite(site: SiteRow)
      requires Valid()
      modifies this
      ensures Valid() && State() == Refreshed(old(State()), site)
    {
      id, name, county := site.id, site.name, site.county;
      SetStatus(site.status);
      totalSensors, alarmSensors := site.totalSensors, site.alarmSensors;
    }
  }

  // ---------------------------------------------------------- breadcrumbs

  /** What a breadcrumb navigates to when clicked. */
  datatype NavTarget = ToRomania | ToCounty(county: string) | ToSite(siteId: int)

  datatype Breadcrumb = Breadcrumb(text: string, isClickable: bool, target: NavTarget)
  {
    function TextBrush(): (b: Brush)
      ensures b == Blue <==> isClickable
    {
      if isClickable then Blue else Black
    }

    function Cursor(): (c: string)
      ensures c == "Hand" <==> isClickable
    {
      if isClickable then "Hand" else "Arrow"
    }
  }

  const RomaniaCrumbText: string := "\U{1F5FA}\U{FE0F} Romania"

  function CountyCrumbText(county: string): string {
    "\U{1F4CD} " + county
  }

  function SiteCrumbText(siteId: int): string {
    "\U{1F3ED} Site " + Text.IntToString(siteId)
  }

  /** The trail for a navigation state: Romania always, the county when one
      is selected, the site when a positive id is selected. */
  function Crumbs(view: string, county: string, siteId: int): (r: seq<Breadcrumb>)
    ensures 1 <= |r| <= 3 && r[0].target == ToRomania
    ensures |r| == 1 + (if county != "" then 1 else 0) + (if siteId > 0 then 1 else 0)
    ensures r[|r| - 1].target == (if siteId > 0 then ToSite(siteId) else if county != "" then ToCounty(county) else ToRomania)
  {
    [Breadcrumb(RomaniaCrumbText, view != "Romania", ToRomania)]
    + (if county != "" then [Breadcrumb(CountyCrumbText(county), view != "County", ToCounty(county))] else [])
    + (if siteId > 0 then [Breadcrumb(SiteCrumbText(siteId), false, ToSite(siteId))] else [])
  }

  /** The navigation states the view model can be in. */
  ghost predicate NavigationState(view: string, county: string, siteId: int) {
    && (view == "Romania" || view == "County" || view == "Site")
    && (view == "Romania" ==> county == "" && siteId == -1)
    && (view == "County" ==> siteId == -1)
  }

  /** In every reachable navigation state the trail's crumbs are links,
      except the last, which is not a link exactly when it names the level on
      screen (a County view with no county, or a Site view with no positive
      id, ends with a link to the level above). */
  lemma CrumbsClickable(view: string, county: string, siteId: int)
    requires NavigationState(view, county, siteId)
    ensures var r := Crumbs(view, county, siteId);
      && (forall k :: 0 <= k < |r| - 1 ==> r[k].isClickable)
      && (!r[|r| - 1].isClickable <==>
            view == "Romania" || (view == "County" && county != "") || (view == "Site" && siteId > 0))
  {
  }

  /** The 42 counties of Romania (Bucharest included) in the order the map lists them. */
  const RomanianCounties: seq<string> := [
    "Alba", "Arad", "Argeș", "Bacău", "Bihor", "Bistrița-Năsăud", "Botoșani", "Brașov",
    "Brăila", "Buzău", "Caraș-Severin", "Călărași", "Cluj", "Constanța", "Covasna",
    "Dâmbovița", "Dolj", "Galați", "Giurgiu", "Gorj", "Harghita", "Hunedoara", "Ialomița",
    "Iași", "Ilfov", "Maramureș", "Mehedinți", "Mureș", "Neamț", "Olt", "Prahova",
    "Satu Mare", "Sălaj", "Sibiu", "Suceava", "Teleorman", "Timiș", "Tulcea", "Vaslui",
    "Vâlcea", "Vrancea", "București"]

  class MapNavigationViewModel {
    var currentView: string
    var selectedCounty: string
    var selectedSiteId: int
    var counties: seq<CountyViewModel>
    var breadcrumbs: seq<Breadcrumb>

    /** The state is one of the navigation states and the trail, once built,
        describes it. */
    ghost predicate Valid()
      reads this
    {
      && NavigationState(currentView, selectedCounty, selectedSiteId)
      && (breadcrumbs == [] || breadcrumbs == Crumbs(currentView, selectedCounty, selectedSiteId))
    }

    predicate IsRomaniaViewVisible()
      reads this
    {
      currentView == "Romania"
    }

    predicate IsCountyViewVisible()
      reads this
    {
      currentView == "County"
    }

    predicate IsSiteViewVisible()
      reads this
    {
      currentView == "Site"
    }

    /** Exactly one of the three views is visible. */
    lemma OneViewVisible()
      requires Valid()
      ensures IsRomaniaViewVisible() || IsCountyViewVisible() || IsSiteViewVisible()
      ensures !(IsRomaniaViewVisible() && IsCountyViewVisible())
      ensures !(IsRomaniaViewVisible() && IsSiteViewVisible())
      ensures !(IsCountyViewVisible() && IsSiteViewVisible())
    {
    }

    constructor ()
      ensures Valid() && currentView == "Romania" && selectedCounty == "" && selectedSiteId == -1
      ensures counties == [] && breadcrumbs == []
    {
      currentView, selectedCounty, selectedSiteId := "Romania", "", -1;
      counties, breadcrumbs := [], [];
    }

    method UpdateBreadcrumbs()
      modifies this`breadcrumbs
      ensures breadcrumbs == Crumbs(currentView, selectedCounty, selectedSiteId)
    {
      var trail := [Breadcrumb(RomaniaCrumbText, currentView != "Romania", ToRomania)];
      if selectedCounty != "" {
        trail := trail + [Breadcrumb(CountyCrumbText(selectedCounty), currentView != "County", ToCounty(selectedCounty))];
      }
      if selectedSiteId > 0 {
        trail := trail + [Breadcrumb(SiteCrumbText(selectedSiteId), false, ToSite(selectedSiteId))];
      }
      breadcrumbs := trail;
    }

    method NavigateToRomania()
      modifies this`currentView, this`selectedCounty, this`selectedSiteId, this`breadcrumbs
      ensures Valid() && currentView == "Romania" && selectedCounty == "" && selectedSiteId == -1
      ensures breadcrumbs == [Breadcrumb(RomaniaCrumbText, false, ToRomania)]
    {
      currentView := "Romania";
      selectedCounty := "";
      selectedSiteId := -1;
      UpdateBreadcrumbs();
    }

    method NavigateToCounty(countyName: string)
      modifies this`currentView, this`selectedCounty, this`selectedSiteId, this`breadcrumbs
      ensures Valid() && currentView == "County" && selectedCounty == countyName && selectedSiteId == -1
      ensures breadcrumbs == Crumbs("County", countyName, -1)
    {
      currentView := "County";
      selectedCounty := countyName;
      selectedSiteId := -1;
      UpdateBreadcrumbs();
    }

    /** The county selection is kept, so the trail still leads through it. */
    method NavigateToSite(siteId: int)
      modifies this`currentView, this`selectedSiteId, this`breadcrumbs
      ensures Valid() && currentView == "Site" && selectedSiteId == siteId
      ensures selectedCounty == old(selectedCounty)
      ensures breadcrumbs == Crumbs("Site", old(selectedCounty), siteId)
    {
      currentView := "Site";
      selectedSiteId := siteId;
      UpdateBreadcrumbs();
    }

    /** One fresh, offline view model per name, in order. */
    static method NewOfflineCounties(names: seq<string>) returns (cs: seq<CountyViewModel>)
      ensures forall i :: 0 <= i < |cs| ==> fresh(cs[i])
      ensures OfflineCounties(cs, names)
    {
      cs := [];
      var i := 0;
      while i < |names|
        invariant 0 <= i <= |names| && |cs| == i
        invariant forall k :: 0 <= k < i ==> fresh(cs[k])
        invariant forall k :: 0 <= k < i ==> cs[k].Valid() && cs[k].State() == NewCounty(names[k])
      {
        var county := NewOfflineCounty(names[i]);
        cs := cs + [county];
        i := i + 1;
      }
    }

    /** Replace the county list by one fresh, offline view model per county. */
    method InitializeCounties()
      modifies this`counties
      ensures forall i :: 0 <= i < |counties| ==> fresh(counties[i])
      ensures OfflineCounties(counties, RomanianCounties)
    {
      counties := NewOfflineCounties(RomanianCounties);
    }
  }
}
