/** The Romania map control: one shape per county it draws, the county view
    models behind them, the overview statistics and the hover highlight. */
module RomaniaMap {
  import opened Common
  import opened MonitoringViewModels
  import opened MapViewModels

  /** The counties this map draws, in the order it lists them. */
  const MapCountyNames: seq<string> :=
    ["Prahova", "Gorj", "Alba", "Arad", "Argeș", "Bacău", "Bihor", "Brașov", "Cluj", "București"]

  predicate DistinctNames(names: seq<string>) {
    forall i, j :: 0 <= i < j < |names| ==> names[i] != names[j]
  }

  lemma MapCountyNamesDistinct()
    ensures DistinctNames(MapCountyNames)
  {
  }

  /** The four overview figures and the colour of the alarm figure. */
  datatype Overview = Overview(
    totalCounties: int, activeCounties: int, totalSites: int, totalAlarms: int, alarmsForeground: Brush)

  /** The counties whose status is not "offline". */
  function CountActive(states: seq<CountyState>): (n: nat)
    ensures n <= |states|
  {
    if states == [] then 0
    else (if states[0].status != "offline" then 1 else 0) + CountActive(states[1..])
  }

  /** Some county is active exactly when the figure is positive, and every
      county is active exactly when the figure is the number of counties. */
  lemma {:induction false} CountActiveMeaning(states: seq<CountyState>)
    ensures CountActive(states) > 0 <==> exists c :: c in states && c.status != "offline"
    ensures CountActive(states) == |states| <==> forall c :: c in states ==> c.status != "offline"
  {
    if states != [] {
      CountActiveMeaning(states[1..]);
      assert states == [states[0]] + states[1..];
    }
  }

  function SumSites(states: seq<CountyState>): int {
    if states == [] then 0 else states[0].totalSites + SumSites(states[1..])
  }

  function SumAlarms(states: seq<CountyState>): int {
    if states == [] then 0 else states[0].alarmSites + SumAlarms(states[1..])
  }

  /** `UpdateOverviewStatistics`: the alarm figure is red exactly when there is an alarm. */
  function OverviewOf(states: seq<CountyState>): (o: Overview)
    ensures o.totalCounties == |states| && 0 <= o.activeCounties <= |states|
    ensures o.alarmsForeground == Red <==> o.totalAlarms > 0
    ensures o.activeCounties == CountActive(states) && o.totalSites == SumSites(states)
    ensures o.totalAlarms == SumAlarms(states)
  {
    var alarms := SumAlarms(states);
    Overview(|states|, CountActive(states), SumSites(states), alarms, if alarms > 0 then Red else Green)
  }

  function Names(states: seq<CountyState>): (r: seq<string>)
    ensures |r| == |states| && forall i :: 0 <= i < |states| ==> r[i] == states[i].name
  {
    seq(|states|, i requires 0 <= i < |states| => states[i].name)
  }

  /** The index of the first name equal to the given one (`FirstOrDefault`). */
  function FirstNamed(names: seq<string>, name: string): (r: Option<nat>)
    ensures r.Some? ==> r.value < |names| && names[r.value] == name
    ensures r.Some? ==> forall k :: 0 <= k < r.value ==> names[k] != name
    ensures r.None? <==> name !in names
  {
    if names == [] then None
    else if names[0] == name then Some(0)
    else match FirstNamed(names[1..], name)
      case None => None
      case Some(k) => Some(k + 1)
  }

  /** The state `SetCountyStatus` gives a county: what the `Status`,
      `TotalSites`, `AlarmSites` and `NormalSites` setters leave behind. */
  function WithStatus(st: CountyState, status: string, totalSites: int, alarmSites: int): (r: CountyState)
    ensures r.name == st.name
  {
    st.(status := status, totalSites := totalSites, alarmSites := alarmSites,
        normalSites := totalSites - alarmSites,
        look := if st.status == status then st.look else CountyAppearance(status))
  }

  /** The county takes exactly the given status and counts, with normal
      sites the rest of the total, and keeps the view model invariant. */
  lemma WithStatusMeaning(st: CountyState, status: string, totalSites: int, alarmSites: int)
    ensures var r := WithStatus(st, status, totalSites, alarmSites);
      && r.status == status && r.totalSites == totalSites && r.alarmSites == alarmSites
      && r.normalSites + r.alarmSites == r.totalSites && r.errorSites == st.errorSites
      && (LooksRight(st) ==> LooksRight(r))
  {
  }

  /** Each channel brightened by 30 and clipped at 255; the opacity is kept. */
  function Brighten(c: Color): (r: Color)
    ensures r.a == c.a
    ensures c.r <= r.r <= c.r + 30 && c.g <= r.g <= c.g + 30 && c.b <= r.b <= c.b + 30
    ensures r.r < 255 ==> r.r == c.r + 30
    ensures r.g < 255 ==> r.g == c.g + 30
    ensures r.b < 255 ==> r.b == c.b + 30
  {
    Argb(c.a, Min255(c.r + 30), Min255(c.g + 30), Min255(c.b + 30))
  }

  function Min255(x: int): Byte
    requires x >= 0
  {
    if x < 255 then x else 255
  }

  /** What hovering does to a shape's look: a solid fill is brightened and the outline thickened by one. */
  function Highlighted(look: CountyLook): (r: CountyLook)
    ensures r.stroke == look.stroke && r.thickness == look.thickness + 1.0
    ensures r.fill.Solid? <==> look.fill.Solid?
  {
    look.(fill := if look.fill.Solid? then Solid(Brighten(look.fill.color)) else look.fill,
          thickness := look.thickness + 1.0)
  }

  /** Below the clipping point brightening is reversible: two colours that
      brighten alike were alike. */
  lemma BrightenInjectiveBelowClip(c1: Color, c2: Color)
    requires c1.r < 226 && c1.g < 226 && c1.b < 226 && c2.r < 226 && c2.g < 226 && c2.b < 226
    requires Brighten(c1) == Brighten(c2)
    ensures c1 == c2
  {
  }

  /** One freshly created county per name. */
  function NewCounties(names: seq<string>): (r: seq<CountyState>)
    ensures |r| == |names| && forall k :: 0 <= k < |names| ==> r[k] == NewCounty(names[k])
  {
    seq(|names|, k requires 0 <= k < |names| => NewCounty(names[k]))
  }

  /** The county states right after construction: all as created, except
      the two demonstration counties Prahova and Gorj. */
  const InitialCountyStates: seq<CountyState> :=
    NewCounties(MapCountyNames)
      [0 := WithStatus(NewCounty("Prahova"), "normal", 8, 0)]
      [1 := WithStatus(NewCounty("Gorj"), "alarm", 2, 1)]

  /** A fresh map: Prahova normal with 8 normal sites, Gorj in alarm with
      1 alarm and 1 normal site, every other county offline and empty; the
      overview shows 10 counties, 2 active, 10 sites and one alarm, in red. */
  lemma InitialOverview()
    ensures InitialCountyStates[0] == CountyState("Prahova", "normal", 8, 8, 0, 0, CountyAppearance("normal"))
    ensures InitialCountyStates[1] == CountyState("Gorj", "alarm", 2, 1, 1, 0, CountyAppearance("alarm"))
    ensures forall k :: 2 <= k < |InitialCountyStates| ==> InitialCountyStates[k] == NewCounty(MapCountyNames[k])
    ensures OverviewOf(InitialCountyStates) == Overview(10, 2, 10, 1, Red)
  {
    var s := InitialCountyStates;
    var rest := s[2..];
    assert s[1..][1..] == rest;
    OfflineCountiesAddNothing(rest);
    assert SumSites(s[1..]) == 2 && SumAlarms(s[1..]) == 1 && CountActive(s[1..]) == 1;
  }

  /** Counties that are offline with no sites add nothing to any figure. */
  lemma {:induction false} OfflineCountiesAddNothing(states: seq<CountyState>)
    requires forall i :: 0 <= i < |states| ==>
               states[i].status == "offline" && states[i].totalSites == 0 && states[i].alarmSites == 0
    ensures CountActive(states) == 0 && SumSites(states) == 0 && SumAlarms(states) == 0
  {
    if states != [] {
      OfflineCountiesAddNothing(states[1..]);
    }
  }

  /** Every county recounted against the same sites. */
  function RecountAll(states: seq<CountyState>, rows: seq<SiteRow>): (r: seq<CountyState>)
    ensures |r| == |states| && forall k :: 0 <= k < |states| ==> r[k] == Recount(states[k], rows)
  {
    seq(|states|, k requires 0 <= k < |states| => Recount(states[k], rows))
  }

  /** One county's look painted onto its shape, when it has one. */
  function Paint(shapes: map<string, CountyLook>, st: CountyState): (r: map<string, CountyLook>)
    ensures r.Keys == shapes.Keys
  {
    if st.name in shapes then shapes[st.name := st.look] else shapes
  }

  /** Every county's look painted in turn, first to last. */
  function Repainted(shapes: map<string, CountyLook>, states: seq<CountyState>): (r: map<string, CountyLook>)
    ensures r.Keys == shapes.Keys
  {
    if states == [] then shapes else Paint(Repainted(shapes, states[..|states| - 1]), states[|states| - 1])
  }

  /** With unique county names, after repainting every county's shape shows
      that county's look and every other shape keeps its own. */
  lemma {:induction false} RepaintedShowsEachCounty(shapes: map<string, CountyLook>, states: seq<CountyState>)
    requires DistinctNames(Names(states))
    ensures forall k :: 0 <= k < |states| && states[k].name in shapes ==>
              Repainted(shapes, states)[states[k].name] == states[k].look
    ensures forall n :: n in shapes && n !in Names(states) ==> Repainted(shapes, states)[n] == shapes[n]
  {
    if states != [] {
      var front, last := states[..|states| - 1], states[|states| - 1];
      assert Names(front) == Names(states)[..|states| - 1];
      RepaintedShowsEachCounty(shapes, front);
      var before := Repainted(shapes, front);
      forall k | 0 <= k < |states| && states[k].name in shapes
        ensures Repainted(shapes, states)[states[k].name] == states[k].look
      {
        if k < |states| - 1 {
          assert states[k] == front[k] && Names(states)[k] != Names(states)[|states| - 1];
          assert Repainted(shapes, states)[states[k].name] == before[states[k].name];
        }
      }
    }
  }

  /** The shapes as the control declares them, all in one look. */
  function DeclaredShapes(initial: CountyLook): (m: map<string, CountyLook>)
    ensures m.Keys == set n | n in MapCountyNames
  {
    map n | n in MapCountyNames :: initial
  }

  class RomaniaMapView {
    /** The county view models, as values: the collection is private to
        the control, so no other code holds them. */
    var counties: seq<CountyState>
    /** How each county outline the map draws looks, by county name: the
        names `FindCountyElement` knows, each with its own shape. */
    var shapes: map<string, CountyLook>
    /** The fill saved by the last hover. */
    var originalFill: Brush
    var overview: Overview

    /** County names are unique. */
    ghost predicate Valid()
      reads this`counties
    {
      DistinctNames(Names(counties))
    }

    /** One county view model per name, as created and set offline. */
    static method CountyStatesOf(names: seq<string>) returns (cs: seq<CountyState>)
      ensures cs == NewCounties(names)
    {
      cs := [];
      var i := 0;
      while i < |names|
        invariant 0 <= i <= |names| && cs == NewCounties(names[..i])
      {
        var county := NewOfflineCounty(names[i]);
        cs := cs + [county.State()];
        i := i + 1;
      }
      assert names[..i] == names;
    }

    /** Build one county per name, then the two demonstration statuses of
        `InitializeCountyData`: Prahova normal with 8 sites, Gorj in alarm
        with 1 of 2 sites. `initial` is the look the shapes are declared with. */
    constructor (initial: CountyLook)
      ensures Valid()
      ensures counties == InitialCountyStates && overview == OverviewOf(InitialCountyStates)
      ensures shapes == DeclaredShapes(initial)["Prahova" := CountyAppearance("normal")]["Gorj" := CountyAppearance("alarm")]
    {
      var cs := CountyStatesOf(MapCountyNames);
      counties := cs;
      shapes := DeclaredShapes(initial);
      originalFill := LightGray;
      overview := OverviewOf(cs);
      new;
      assert Names(cs) == MapCountyNames;
      MapCountyNamesDistinct();
      assert FirstNamed(MapCountyNames, "Prahova") == Some(0);
      SetCountyStatus("Prahova", "normal", 8, 0);
      assert Names(counties) == MapCountyNames;
      assert FirstNamed(MapCountyNames, "Gorj") == Some(1);
      SetCountyStatus("Gorj", "alarm", 2, 1);
    }

    /** `UpdateCountyAppearance`: paint the county's shape, if it has one, with its look. */
    method UpdateCountyAppearance(county: CountyState)
      modifies this`shapes
      ensures shapes == Paint(old(shapes), county)
    {
      if county.name in shapes {
        shapes := shapes[county.name := county.look];
      }
    }

    method UpdateOverviewStatistics()
      modifies this`overview
      ensures overview == OverviewOf(counties)
    {
      overview := OverviewOf(counties);
    }

    /** Give the first county of that name the status and counts, repaint its
        shape and refresh the overview; an unknown name changes nothing. */
    method SetCountyStatus(countyName: string, status: string, totalSites: int, alarmSites: int)
      requires Valid()
      modifies this`counties, this`overview, this`shapes
      ensures Valid()
      ensures match FirstNamed(Names(old(counties)), countyName)
        case None => counties == old(counties) && overview == old(overview) && shapes == old(shapes)
        case Some(i) =>
          && counties == old(counties)[i := WithStatus(old(counties)[i], status, totalSites, alarmSites)]
          && shapes == Paint(old(shapes), counties[i])
          && overview == OverviewOf(counties)
    {
      var found := FirstNamed(Names(counties), countyName);
      if found.Some? {
        var i := found.value;
        counties := counties[i := WithStatus(counties[i], status, totalSites, alarmSites)];
        assert Names(counties) == Names(old(counties));
        UpdateCountyAppearance(counties[i]);
        UpdateOverviewStatistics();
      }
    }

    /** The loop of `UpdateCountyStatus`: each county recounted and its shape repainted, in list order. */
    method RecountCounties(rows: seq<SiteRow>)
      requires Valid()
      modifies this`counties, this`shapes
      ensures Valid()
      ensures counties == RecountAll(old(counties), rows)
      ensures shapes == Repainted(old(shapes), counties)
    {
      var i := 0;
      while i < |counties|
        invariant 0 <= i <= |counties| && |counties| == |old(counties)|
        invariant forall k :: 0 <= k < i ==> counties[k] == Recount(old(counties)[k], rows)
        invariant forall k :: i <= k < |counties| ==> counties[k] == old(counties)[k]
        invariant shapes == Repainted(old(shapes), counties[..i])
      {
        ghost var prev := counties;
        counties := counties[i := Recount(counties[i], rows)];
        assert counties[..i + 1][..i] == prev[..i];
        UpdateCountyAppearance(counties[i]);
        i := i + 1;
      }
      assert counties == counties[..i];
      assert Names(counties) == Names(old(counties));
    }

    /** Recount every county against the grid's sites, repaint its shape,
        then refresh the overview. */
    method UpdateCountyStatus(sites: seq<SiteViewModel>)
      requires Valid()
      modifies this`counties, this`overview, this`shapes
      ensures Valid()
      ensures counties == RecountAll(old(counties), Rows(sites))
      ensures shapes == Repainted(old(shapes), counties)
      ensures overview == OverviewOf(counties)
    {
      RecountCounties(Rows(sites));
      UpdateOverviewStatistics();
    }

    /** Hover over a county: remember its fill and highlight it; a name
        without a shape changes nothing. */
    method MouseEnter(name: string)
      modifies this`originalFill, this`shapes
      ensures name in old(shapes) ==>
                originalFill == old(shapes[name].fill) && shapes == old(shapes)[name := Highlighted(old(shapes[name]))]
      ensures name !in old(shapes) ==> shapes == old(shapes) && originalFill == old(originalFill)
    {
      if name in shapes {
        originalFill := shapes[name].fill;
        shapes := shapes[name := Highlighted(shapes[name])];
      }
    }

    /** Leaving a county: put the remembered fill back and thin the outline again. */
    method MouseLeave(name: string)
      modifies this`shapes
      ensures name in old(shapes) ==>
                shapes == old(shapes)[name := old(shapes[name]).(fill := originalFill, thickness := old(shapes[name]).thickness - 1.0)]
      ensures name !in old(shapes) ==> shapes == old(shapes)
    {
      if name in shapes {
        var look := shapes[name];
        shapes := shapes[name := look.(fill := originalFill, thickness := look.thickness - 1.0)];
      }
    }

    /** Entering and then leaving a county gives it back its look. */
    method Hover(name: string)
      modifies this`originalFill, this`shapes
      ensures shapes == old(shapes)
    {
      MouseEnter(name);
      MouseLeave(name);
    }
  }

  /** How many of the rows belong to one of the named counties. */
  function CountInCounties(rows: seq<SiteRow>, names: seq<string>): nat {
    if rows == [] then 0
    else (if rows[0].county in names then 1 else 0) + CountInCounties(rows[1..], names)
  }

  /** How many names equal the given one. */
  function Occurrences(names: seq<string>, n: string): nat {
    if names == [] then 0 else (if names[0] == n then 1 else 0) + Occurrences(names[1..], n)
  }

  lemma {:induction false} OccurrencesDistinct(names: seq<string>, n: string)
    requires DistinctNames(names)
    ensures Occurrences(names, n) == if n in names then 1 else 0
  {
    if names != [] {
      OccurrencesDistinct(names[1..], n);
      assert forall j :: 0 <= j < |names| - 1 ==> names[1..][j] == names[j + 1] != names[0];
    }
  }

  /** The per-county totals of a list of counties, summed. */
  function SumInCounty(rows: seq<SiteRow>, names: seq<string>): nat {
    if names == [] then 0 else |InCounty(rows, names[0])| + SumInCounty(rows, names[1..])
  }

  lemma {:induction false} SumInCountyStep(r: SiteRow, rows: seq<SiteRow>, names: seq<string>)
    ensures SumInCounty([r] + rows, names) == Occurrences(names, r.county) + SumInCounty(rows, names)
  {
    if names != [] {
      SumInCountyStep(r, rows, names[1..]);
      assert ([r] + rows)[1..] == rows;
    }
  }

  /** When county names are unique, the county totals add up to the number
      of sites that lie in one of the counties: no site is counted twice. */
  lemma {:induction false} SumInCountyCountsEachSiteOnce(rows: seq<SiteRow>, names: seq<string>)
    requires DistinctNames(names)
    ensures SumInCounty(rows, names) == CountInCounties(rows, names)
  {
    if rows == [] {
      SumInCountyEmpty(names);
    } else {
      SumInCountyCountsEachSiteOnce(rows[1..], names);
      SumInCountyStep(rows[0], rows[1..], names);
      OccurrencesDistinct(names, rows[0].county);
      assert [rows[0]] + rows[1..] == rows;
    }
  }

  lemma {:induction false} SumInCountyEmpty(names: seq<string>)
    ensures SumInCounty([], names) == 0
  {
    if names != [] {
      SumInCountyEmpty(names[1..]);
    }
  }

  lemma {:induction false} SumSitesOfRecount(states: seq<CountyState>, rows: seq<SiteRow>, after: seq<CountyState>)
    requires |after| == |states|
    requires forall i :: 0 <= i < |states| ==> after[i] == Recount(states[i], rows)
    ensures SumSites(after) == SumInCounty(rows, Names(states))
  {
    if states != [] {
      SumSitesOfRecount(states[1..], rows, after[1..]);
      assert Names(states)[1..] == Names(states[1..]);
    }
  }

  /** After `UpdateCountyStatus` the overview's site total is the number of
      grid sites whose county is on the map. */
  lemma OverviewCountsMapSites(before: seq<CountyState>, rows: seq<SiteRow>, after: seq<CountyState>)
    requires DistinctNames(Names(before))
    requires |after| == |before|
    requires forall i :: 0 <= i < |before| ==> after[i] == Recount(before[i], rows)
    ensures OverviewOf(after).totalSites == CountInCounties(rows, Names(before))
  {
    SumSitesOfRecount(before, rows, after);
    SumInCountyCountsEachSiteOnce(rows, Names(before));
  }
}
