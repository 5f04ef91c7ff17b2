/** The county map control: the sites of one county placed on a canvas, with
    per-status counters. The canvas drawing itself (markers, labels, the
    projection of coordinates onto the canvas) is not modelled. */
module CountyMap {
  import opened Common
  import opened Text
  import opened MonitoringViewModels
  import opened MapViewModels

  // ------------------------------------------------------------ coordinates

  /** The sample coordinates (latitude, longitude) of the known sites. */
  const SiteCoordinates: map<string, (real, real)> := map[
    "SondaMorEni" := (44.9344, 26.0137),
    "SondaArb" := (44.8567, 25.9876),
    "SondaBerPH01" := (44.9123, 26.0456),
    "ParcMorMic" := (44.9012, 26.0234),
    "PanouHurezani" := (44.8925, 23.3731),
    "PanouZatreni" := (44.9123, 23.3456),
    "ParcBatrani" := (44.8789, 26.0123),
    "ParcCartojani" := (44.8678, 25.9987),
    "ParcTintea" := (44.8901, 26.0345),
    "StatieLucacesti" := (44.9234, 26.0567)]

  /** `SetSiteCoordinates`: a known site gets its table entry, any other site
      latitude 44.9 and the longitude of the county being shown (26.0 for
      Prahova, 23.3 for every other county). */
  function Coordinates(name: string, currentCounty: string): (c: (real, real))
    ensures name in SiteCoordinates ==> c == SiteCoordinates[name]
    ensures name !in SiteCoordinates ==> c.0 == 44.9
    ensures name !in SiteCoordinates && currentCounty == "Prahova" ==> c.1 == 26.0
    ensures name !in SiteCoordinates && currentCounty != "Prahova" ==> c.1 == 23.3
  {
    if name in SiteCoordinates then SiteCoordinates[name]
    else (44.9, if currentCounty == "Prahova" then 26.0 else 23.3)
  }

  /** Every site lands in the same small band of latitudes, and two unknown
      sites of the same county land on the same point. */
  lemma CoordinatesPlacement(name: string, other: string, currentCounty: string)
    ensures 44.85 <= Coordinates(name, currentCounty).0 <= 44.94
    ensures name !in SiteCoordinates && other !in SiteCoordinates ==>
              Coordinates(name, currentCounty) == Coordinates(other, currentCounty)
  {
  }

  // ---------------------------------------------------------- outline

  const PrahovaOutline: string := "100,100 700,120 750,300 700,500 150,480 80,300"
  const GorjOutline: string := "100,150 650,170 680,400 620,520 120,500 60,350"
  const DefaultOutline: string := "100,100 700,100 700,500 100,500"

  /** `UpdateCountyBackground`: the polygon points drawn behind the sites. */
  function CountyOutline(county: string): (points: string)
    ensures points == PrahovaOutline <==> county == "Prahova"
    ensures points == GorjOutline <==> county == "Gorj"
    ensures points == DefaultOutline <==> county != "Prahova" && county != "Gorj"
  {
    match county
    case "Prahova" => PrahovaOutline
    case "Gorj" => GorjOutline
    case _ => DefaultOutline
  }

  // ---------------------------------------------------------- loading

  /** The map entry `LoadCountySites` builds for one site of the county: a
      new view model updated from the row, then placed by `Coordinates`. */
  function LoadedSite(row: SiteRow, county: string): MapSite {
    var m := Refreshed(NewMapSite, row);
    var c := Coordinates(m.name, county);
    m.(latitude := c.0, longitude := c.1)
  }

  function LoadedSites(rows: seq<SiteRow>, county: string): (r: seq<MapSite>)
    ensures |r| == |rows|
    ensures forall k :: 0 <= k < |rows| ==> r[k] == LoadedSite(rows[k], county)
  {
    seq(|rows|, k requires 0 <= k < |rows| => LoadedSite(rows[k], county))
  }

  /** After a load there is one entry per site of the county, in the grid's
      order, each with that site's identity and status, and every entry
      belongs to the county. */
  lemma LoadedSitesOnePerCountySite(rows: seq<SiteRow>, county: string)
    ensures var c := InCounty(rows, county);
      var r := LoadedSites(c, county);
      && |r| == |c|
      && (forall k :: 0 <= k < |r| ==>
            r[k].id == c[k].id && r[k].name == c[k].name && r[k].status == c[k].status && r[k].county == county)
  {
  }

  // ---------------------------------------------------------- statistics

  /** How many map entries have the given status. */
  function CountMapStatus(sites: seq<MapSite>, status: string): nat {
    if sites == [] then 0
    else (if sites[0].status == status then 1 else 0) + CountMapStatus(sites[1..], status)
  }

  /** The four county counters: total, normal, alarm and error sites. */
  datatype SiteCounts = SiteCounts(total: int, normal: int, alarm: int, error: int)

  function StatisticsOf(sites: seq<MapSite>): SiteCounts {
    SiteCounts(|sites|, CountMapStatus(sites, "normal"), CountMapStatus(sites, "alarm"),
               CountMapStatus(sites, "error"))
  }

  /** The three status counters together never exceed the total. */
  lemma {:induction false} StatisticsBound(sites: seq<MapSite>)
    ensures var s := StatisticsOf(sites);
      0 <= s.normal && 0 <= s.alarm && 0 <= s.error && s.normal + s.alarm + s.error <= s.total
  {
    if sites != [] {
      StatisticsBound(sites[1..]);
    }
  }

  /** Right after a load, the county map counts what the county's view model
      counts from the same grid. */
  lemma {:induction false} LoadedStatusCount(c: seq<SiteRow>, county: string, status: string)
    ensures CountMapStatus(LoadedSites(c, county), status) == CountStatus(c, status)
  {
    if c != [] {
      LoadedStatusCount(c[1..], county, status);
      assert LoadedSites(c, county)[1..] == LoadedSites(c[1..], county);
    }
  }

  lemma LoadedStatisticsMatchCounty(rows: seq<SiteRow>, county: string)
    ensures var c := InCounty(rows, county);
      StatisticsOf(LoadedSites(c, county))
        == SiteCounts(|c|, CountStatus(c, "normal"), CountStatus(c, "alarm"), CountStatus(c, "error"))
  {
    var c := InCounty(rows, county);
    LoadedStatusCount(c, county, "normal");
    LoadedStatusCount(c, county, "alarm");
    LoadedStatusCount(c, county, "error");
  }

  // ---------------------------------------------------------- refreshing

  /** `FirstOrDefault(s => s.Id == id)`: the index of the first row with that
      id, or -1 when there is none. */
  function FirstWithId(rows: seq<SiteRow>, id: int): (k: int)
    ensures -1 <= k < |rows|
    ensures k >= 0 ==> rows[k].id == id && forall j :: 0 <= j < k ==> rows[j].id != id
    ensures k < 0 ==> forall j :: 0 <= j < |rows| ==> rows[j].id != id
  {
    if rows == [] then -1
    else if rows[0].id == id then 0
    else
      var k := FirstWithId(rows[1..], id);
      if k < 0 then -1 else k + 1
  }

  /** One entry after `RefreshSiteStatus`: updated from the first row with
      its id, untouched when there is none. */
  function RefreshedEntry(m: MapSite, rows: seq<SiteRow>): MapSite {
    var k := FirstWithId(rows, m.id);
    if k < 0 then m else Refreshed(m, rows[k])
  }

  function RefreshedSites(sites: seq<MapSite>, rows: seq<SiteRow>): (r: seq<MapSite>)
    ensures |r| == |sites|
    ensures forall i :: 0 <= i < |sites| ==> r[i] == RefreshedEntry(sites[i], rows)
  {
    seq(|sites|, i requires 0 <= i < |sites| => RefreshedEntry(sites[i], rows))
  }

  /** A refresh keeps the list's length and order: every entry keeps its id
      and its position on the map, takes the status of the first row with
      that id, and an entry no row matches is unchanged. */
  lemma RefreshKeepsEntries(sites: seq<MapSite>, rows: seq<SiteRow>)
    ensures var r := RefreshedSites(sites, rows);
      && |r| == |sites|
      && (forall i :: 0 <= i < |sites| ==>
            r[i].id == sites[i].id && r[i].latitude == sites[i].latitude && r[i].longitude == sites[i].longitude
            && r[i].mapX == sites[i].mapX && r[i].mapY == sites[i].mapY)
      && (forall i :: 0 <= i < |sites| && FirstWithId(rows, sites[i].id) >= 0 ==>
            r[i].status == rows[FirstWithId(rows, sites[i].id)].status)
      && (forall i :: 0 <= i < |sites| && (forall x :: x in rows ==> x.id != sites[i].id) ==>
            r[i] == sites[i])
  {
    forall i | 0 <= i < |sites|
      ensures RefreshedSites(sites, rows)[i].id == sites[i].id
    {
      var k := FirstWithId(rows, sites[i].id);
      if k >= 0 {
        RefreshedMeaning(sites[i], rows[k]);
      }
    }
  }

  /** Refreshing twice from the same grid is the same as refreshing once. */
  lemma RefreshIdempotent(sites: seq<MapSite>, rows: seq<SiteRow>)
    ensures RefreshedSites(RefreshedSites(sites, rows), rows) == RefreshedSites(sites, rows)
  {
    var r := RefreshedSites(sites, rows);
    forall i | 0 <= i < |sites|
      ensures RefreshedEntry(r[i], rows) == r[i]
    {
      var k := FirstWithId(rows, sites[i].id);
      if k >= 0 {
        RefreshedMeaning(sites[i], rows[k]);
      }
    }
  }

  // ---------------------------------------------------------- the control

  class CountyMapView {
    var currentCounty: string
    var title: string
    /** The map view models, as values: the collection is private to the
        control, so no other code holds them. */
    var sites: seq<MapSite>
    var outline: string
    var totalText: string
    var normalText: string
    var alarmText: string
    var errorText: string

    constructor ()
      ensures currentCounty == "" && sites == []
    {
      currentCounty, title, sites, outline := "", "", [], "";
      totalText, normalText, alarmText, errorText := "", "", "", "";
    }

    /** The counters show the statistics of the current entries. */
    ghost predicate ShowsStatistics()
      reads this
    {
      var s := StatisticsOf(sites);
      && totalText == IntToString(s.total) && normalText == IntToString(s.normal)
      && alarmText == IntToString(s.alarm) && errorText == IntToString(s.error)
    }

    /** Show the sites of one county: filter the grid by county, build one
        map entry per site, pick the outline and recount. */
    method LoadCountySites(countyName: string, allSites: seq<SiteViewModel>)
      modifies this
      ensures currentCounty == countyName
      ensures title == "\U{1F4CD} " + countyName + " County - Sites Overview"
      ensures sites == LoadedSites(InCounty(old(Rows(allSites)), countyName), countyName)
      ensures outline == CountyOutline(countyName)
      ensures ShowsStatistics()
    {
      currentCounty := countyName;
      title := "\U{1F4CD} " + countyName + " County - Sites Overview";
      var countySites := InCounty(Rows(allSites), countyName);
      var loaded := LoadSites(countySites);
      sites := loaded;
      outline := CountyOutline(countyName);
      UpdateCountyStatistics();
    }

    /** The loop of `LoadCountySites`. */
    method LoadSites(countySites: seq<SiteRow>) returns (loaded: seq<MapSite>)
      ensures loaded == LoadedSites(countySites, currentCounty)
    {
      loaded := [];
      var i := 0;
      while i < |countySites|
        invariant 0 <= i <= |countySites|
        invariant loaded == LoadedSites(countySites[..i], currentCounty)
      {
        var siteMap := new SiteMapViewModel();
        siteMap.UpdateFromSite(countySites[i]);
        SetSiteCoordinates(siteMap);
        loaded := loaded + [siteMap.State()];
        i := i + 1;
      }
    }

    /** Place a map view model by its name, in the county being shown. */
    method SetSiteCoordinates(site: SiteMapViewModel)
      modifies site`latitude, site`longitude
      ensures (site.latitude, site.longitude) == Coordinates(site.name, currentCounty)
    {
      if site.name in SiteCoordinates {
        var (lat, lon) := SiteCoordinates[site.name];
        site.latitude := lat;
        site.longitude := lon;
      } else {
        site.latitude := 44.9;
        site.longitude := if currentCounty == "Prahova" then 26.0 else 23.3;
      }
    }

    /** Update every entry from the first grid row with its id, then recount. */
    method RefreshSiteStatus(allSites: seq<SiteViewModel>)
      modifies this`sites, this`totalText, this`normalText, this`alarmText, this`errorText
      ensures sites == RefreshedSites(old(sites), old(Rows(allSites)))
      ensures ShowsStatistics()
    {
      var rows := Rows(allSites);
      var i := 0;
      while i < |sites|
        invariant 0 <= i <= |sites| == |old(sites)|
        invariant forall j :: 0 <= j < i ==> sites[j] == RefreshedEntry(old(sites)[j], rows)
        invariant forall j :: i <= j < |sites| ==> sites[j] == old(sites)[j]
      {
        var k := FirstWithId(rows, sites[i].id);
        if k >= 0 {
          sites := sites[i := Refreshed(sites[i], rows[k])];
        }
        i := i + 1;
      }
      UpdateCountyStatistics();
    }

    /** `UpdateCountyStatistics`: write the four counters. */
    method UpdateCountyStatistics()
      modifies this`totalText, this`normalText, this`alarmText, this`errorText
      ensures ShowsStatistics()
    {
      totalText := IntToString(|sites|);
      normalText := IntToString(CountMapStatus(sites, "normal"));
      alarmText := IntToString(CountMapStatus(sites, "alarm"));
      errorText := IntToString(CountMapStatus(sites, "error"));
    }
  }
}
