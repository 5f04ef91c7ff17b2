/** The data-binding view models of the dashboard: the change-gated property
    setter every view model uses, and the site, sensor and alarm rows with
    their status icons, brushes and derived texts. */
module MonitoringViewModels {
  import opened Common
  import opened Entities
  import Text

  /** `BaseViewModel.SetProperty`: the field (passed by reference, here in and
      out) takes the new value only when it differs, and the result says
      whether it did. The change notification it raises is not modelled. */
  method SetProperty<T(==)>(field: T, value: T) returns (stored: T, changed: bool)
    ensures changed <==> field != value
    ensures changed ==> stored == value
    ensures !changed ==> stored == field
  {
    if field == value {
      return field, false;
    }
    return value, true;
  }

  // ---------------------------------------------------------------- sites

  /** The site status texts the server uses besides "offline". */
  predicate IsKnownStatus(status: string) {
    status == "normal" || status == "alarm" || status == "error"
  }

  /** The icon of a site (or county) status; any unknown text, "offline"
      included, shows the black dot. */
  function StatusIcon(status: string): (icon: Icon)
    ensures icon == Dot <==> !IsKnownStatus(status)
    ensures icon != Warning
  {
    match status
    case "normal" => Check
    case "alarm" => Siren
    case "error" => Cross
    case _ => Dot
  }

  /** The brush of a site row in the grid. */
  function SiteStatusBrush(status: string): (b: Brush)
    ensures b == Gray <==> !IsKnownStatus(status)
  {
    match status
    case "normal" => Green
    case "alarm" => Orange
    case "error" => Red
    case _ => Gray
  }

  /** Icon and brush tell apart exactly the same statuses. */
  lemma SiteIconAndBrushAgree(s1: string, s2: string)
    ensures StatusIcon(s1) == StatusIcon(s2) <==> SiteStatusBrush(s1) == SiteStatusBrush(s2)
  {
  }

  /** What a SiteViewModel shows, as a value. */
  datatype SiteRow = SiteRow(
    id: int, name: string, county: string, status: string,
    totalSensors: int, normalSensors: int, alarmSensors: int, errorSensors: int,
    lastUpdate: int)

  /** The row `SiteViewModel.UpdateFromSite` produces from a server record. */
  function SiteRowOf(site: Site): (r: SiteRow)
    ensures r.normalSensors + r.alarmSensors == site.totalSensors && r.errorSensors == 0
    ensures r.id == site.id && r.name == site.name && r.county == site.county && r.status == site.status
  {
    SiteRow(site.id, site.name, site.county, site.status, site.totalSensors,
            site.totalSensors - site.alarmSensors, site.alarmSensors, 0, site.lastUpdate)
  }

  class SiteViewModel {
    var id: int
    var name: string
    var county: string
    var status: string
    var totalSensors: int
    var normalSensors: int
    var alarmSensors: int
    var errorSensors: int
    var lastUpdate: int
    var statusBrush: Brush

    /** The brush always shows the current status: it starts Gray with the
        status "offline" and the status setter repaints it on every change. */
    ghost predicate Valid()
      reads this`status, this`statusBrush
    {
      statusBrush == SiteStatusBrush(status)
    }

    function Row(): SiteRow
      reads this
    {
      SiteRow(id, name, county, status, totalSensors, normalSensors, alarmSensors, errorSensors, lastUpdate)
    }

    function Icon(): Icon
      reads this
    {
      StatusIcon(status)
    }

    constructor ()
      ensures Valid()
      ensures Row() == SiteRow(0, "", "", "offline", 0, 0, 0, 0, 0)
    {
      id, name, county, status := 0, "", "", "offline";
      totalSensors, normalSensors, alarmSensors, errorSensors := 0, 0, 0, 0;
      lastUpdate := 0;
      statusBrush := Gray;
    }

    /** The `Status` setter: the brush is recomputed only on a real change. */
    method SetStatus(value: string)
      requires Valid()
      modifies this`status, this`statusBrush
      ensures Valid() && status == value
      ensures old(status) == value ==> statusBrush == old(statusBrush)
    {
      var changed;
      status, changed := SetProperty(status, value);
      if changed {
        statusBrush := SiteStatusBrush(status);
      }
    }

    method UpdateFromSite(site: Site)
      requires Valid()
      modifies this
      ensures Valid()
      ensures Row() == SiteRowOf(site)
    {
      id := site.id;
      name := site.name;
      county := site.county;
      SetStatus(site.status);
      totalSensors := site.totalSensors;
      normalSensors := site.totalSensors - site.alarmSensors;
      alarmSensors := site.alarmSensors;
      errorSensors := 0;
      lastUpdate := site.lastUpdate;
    }
  }

  /** The rows of a collection of site view models, in collection order. */
  function Rows(sites: seq<SiteViewModel>): (rows: seq<SiteRow>)
    reads sites
    ensures |rows| == |sites|
  {
    if sites == [] then [] else Rows(sites[..|sites| - 1]) + [sites[|sites| - 1].Row()]
  }

  // -------------------------------------------------------------- sensors

  /** How a sensor status code is classified on screen. */
  datatype SensorLevel = Normal | AlarmLevel1 | AlarmLevel2 | Fault

  /** 0 normal, 1 and 2 alarm levels, every other code (negative ones too) a fault. */
  function SensorLevelOf(status: int): (l: SensorLevel)
    ensures l == Fault <==> status < 0 || status > 2
    ensures l == Normal <==> status == 0
  {
    if status == 0 then Normal
    else if status == 1 then AlarmLevel1
    else if status == 2 then AlarmLevel2
    else Fault
  }

  function SensorStatusIcon(status: int): (icon: Icon)
    ensures icon in {Check, Warning, Siren, Cross}
  {
    match status
    case 0 => Check
    case 1 => Warning
    case 2 => Siren
    case _ => Cross
  }

  function SensorStatusBrush(status: int): (b: Brush)
    ensures b in {Green, Orange, Red, DarkRed}
  {
    match status
    case 0 => Green
    case 1 => Orange
    case 2 => Red
    case _ => DarkRed
  }

  /** The icon switch and the brush switch classify codes the same way:
      both are functions of the level, and the level is recovered from each. */
  lemma SensorIconBrushFollowLevel(a: int, b: int)
    ensures SensorStatusIcon(a) == SensorStatusIcon(b) <==> SensorLevelOf(a) == SensorLevelOf(b)
    ensures SensorStatusBrush(a) == SensorStatusBrush(b) <==> SensorLevelOf(a) == SensorLevelOf(b)
  {
  }

  /** For codes of 0 and above the on-screen level agrees with the record's
      flags; a negative code shows as a fault although neither flag is set. */
  lemma SensorLevelMatchesFlags(s: Sensor)
    ensures s.status >= 0 ==> (s.HasAlarm() <==> SensorLevelOf(s.status) in {AlarmLevel1, AlarmLevel2})
    ensures s.status >= 0 ==> (s.HasError() <==> SensorLevelOf(s.status) == Fault)
    ensures s.status < 0 ==> SensorLevelOf(s.status) == Fault && !s.HasAlarm() && !s.HasError()
  {
  }

  /** `GetDetectorTypeName`: total over all codes. */
  function DetectorTypeName(detectorType: int): (name: string)
    ensures name == "Unknown" <==> detectorType < 1 || detectorType > 4
  {
    match detectorType
    case 1 => "Gas"
    case 2 => "Flame"
    case 3 => "Manual Call"
    case 4 => "Smoke"
    case _ => "Unknown"
  }

  /** Different known detector codes get different names. */
  lemma DetectorTypeNamesDistinct(a: int, b: int)
    requires 1 <= a <= 4 && 1 <= b <= 4 && a != b
    ensures DetectorTypeName(a) != DetectorTypeName(b)
  {
  }

  /** What a SensorViewModel shows, as a value. */
  datatype SensorRow = SensorRow(
    id: int, siteId: int, siteName: string, channelId: string, tagName: string,
    detectorTypeName: string, processValue: real, currentValue: real,
    status: int, statusText: string, units: string, lastUpdated: int)

  /** The row `SensorViewModel.UpdateFromSensor` produces from a server record. */
  function SensorRowOf(s: Sensor): (r: SensorRow)
    ensures r.detectorTypeName == DetectorTypeName(s.detectorType)
    ensures r.status == s.status && r.lastUpdated == s.lastUpdated && r.id == s.id && r.siteId == s.siteId
  {
    SensorRow(s.id, s.siteId, s.siteName, s.channelId, s.tagName, DetectorTypeName(s.detectorType),
              s.processValue, s.currentValue, s.status, s.statusText, s.units, s.lastUpdated)
  }

  class SensorViewModel {
    var id: int
    var siteId: int
    var siteName: string
    var channelId: string
    var tagName: string
    var detectorTypeName: string
    var processValue: real
    var currentValue: real
    var status: int
    var statusText: string
    var units: string
    var lastUpdated: int
    var statusBrush: Brush

    /** The brush follows the status code, except that a view model whose
        status never left its initial 0 still has its initial Gray brush
        (the setter repaints only on a change, and Gray is not the brush of 0). */
    ghost predicate Valid()
      reads this`status, this`statusBrush
    {
      statusBrush == SensorStatusBrush(status) || (status == 0 && statusBrush == Gray)
    }

    function Row(): SensorRow
      reads this
    {
      SensorRow(id, siteId, siteName, channelId, tagName, detectorTypeName,
                processValue, currentValue, status, statusText, units, lastUpdated)
    }

    function Icon(): Icon
      reads this
    {
      SensorStatusIcon(status)
    }

    /** `IsOnline`, with `now` for the clock. */
    predicate IsOnline(now: int)
      reads this
    {
      UpdatedWithinFiveMinutes(lastUpdated, now)
    }

    constructor ()
      ensures Valid() && status == 0 && statusBrush == Gray
    {
      id, siteId, siteName, channelId, tagName, detectorTypeName := 0, 0, "", "", "", "";
      processValue, currentValue := 0.0, 0.0;
      status, statusText, units, lastUpdated := 0, "", "", 0;
      statusBrush := Gray;
    }

    /** The `Status` setter: the brush is recomputed only on a real change. */
    method SetStatus(value: int)
      requires Valid()
      modifies this`status, this`statusBrush
      ensures Valid() && status == value
      ensures statusBrush == if old(status) == value then old(statusBrush) else SensorStatusBrush(value)
    {
      var changed;
      status, changed := SetProperty(status, value);
      if changed {
        statusBrush := SensorStatusBrush(status);
      }
    }

    /** Every field `UpdateFromSensor` copies except the status. */
    method CopyDetails(sensor: Sensor)
      modifies this`id, this`siteId, this`siteName, this`channelId, this`tagName, this`detectorTypeName
      modifies this`processValue, this`currentValue, this`statusText, this`units, this`lastUpdated
      ensures id == sensor.id && siteId == sensor.siteId && siteName == sensor.siteName && channelId == sensor.channelId
      ensures tagName == sensor.tagName && detectorTypeName == DetectorTypeName(sensor.detectorType)
      ensures processValue == sensor.processValue && currentValue == sensor.currentValue
      ensures statusText == sensor.statusText && units == sensor.units && lastUpdated == sensor.lastUpdated
    {
      id, siteId, siteName, channelId := sensor.id, sensor.siteId, sensor.siteName, sensor.channelId;
      tagName, detectorTypeName := sensor.tagName, DetectorTypeName(sensor.detectorType);
      processValue, currentValue := sensor.processValue, sensor.currentValue;
      statusText, units, lastUpdated := sensor.statusText, sensor.units, sensor.lastUpdated;
    }

    method UpdateFromSensor(sensor: Sensor)
      requires Valid()
      modifies this
      ensures Valid()
      ensures Row() == SensorRowOf(sensor)
      ensures statusBrush == if old(status) == sensor.status then old(statusBrush) else SensorStatusBrush(sensor.status)
    {
      SetStatus(sensor.status);
      CopyDetails(sensor);
    }
  }

  function SensorRows(sensors: seq<SensorViewModel>): (rows: seq<SensorRow>)
    reads sensors
    ensures |rows| == |sensors|
    ensures forall i :: 0 <= i < |sensors| ==> rows[i] == sensors[i].Row()
  {
    seq(|sensors|, i reads sensors requires 0 <= i < |sensors| => sensors[i].Row())
  }

  // --------------------------------------------------------------- alarms

  /** How long ago an alarm happened, in the largest unit that is below its limit. */
  datatype TimeAgo = JustNow | MinutesAgo(minutes: int) | HoursAgo(hours: int) | DaysAgo(days: int)

  /** `GetTimeAgoText`'s buckets for an elapsed tick count: under a minute
      (including a time in the future) "just now", then whole minutes under an
      hour, whole hours under a day, else whole days; every count truncated. */
  function TimeAgoOf(elapsed: int): (t: TimeAgo)
    ensures t == JustNow <==> elapsed < TicksPerMinute
    ensures t.MinutesAgo? ==>
              1 <= t.minutes < 60 && t.minutes * TicksPerMinute <= elapsed < (t.minutes + 1) * TicksPerMinute
    ensures t.HoursAgo? ==>
              1 <= t.hours < 24 && t.hours * TicksPerHour <= elapsed < (t.hours + 1) * TicksPerHour
    ensures t.DaysAgo? ==>
              1 <= t.days && t.days * TicksPerDay <= elapsed < (t.days + 1) * TicksPerDay
  {
    if elapsed < TicksPerMinute then JustNow
    else if elapsed < 60 * TicksPerMinute then MinutesAgo(TruncDiv(elapsed, TicksPerMinute))
    else if elapsed < 24 * TicksPerHour then HoursAgo(TruncDiv(elapsed, TicksPerHour))
    else DaysAgo(TruncDiv(elapsed, TicksPerDay))
  }

  /** The order of the buckets. */
  function Rank(t: TimeAgo): nat {
    match t
    case JustNow => 0
    case MinutesAgo(_) => 1
    case HoursAgo(_) => 2
    case DaysAgo(_) => 3
  }

  /** An older alarm never lands in a finer bucket than a newer one. */
  lemma TimeAgoMonotone(e1: int, e2: int)
    requires e1 <= e2
    ensures Rank(TimeAgoOf(e1)) <= Rank(TimeAgoOf(e2))
  {
  }

  /** Within the minutes bucket the count is the alarm record's MinutesAgo. */
  lemma TimeAgoMinutesAgreeWithAlarm(a: Alarm, now: int)
    requires TicksPerMinute <= now - a.timestamp < 60 * TicksPerMinute
    ensures TimeAgoOf(now - a.timestamp) == MinutesAgo(a.MinutesAgo(now))
  {
  }

  function TimeAgoText(t: TimeAgo): string {
    match t
    case JustNow => "Just now"
    case MinutesAgo(m) => Text.IntToString(m) + "m ago"
    case HoursAgo(h) => Text.IntToString(h) + "h ago"
    case DaysAgo(d) => Text.IntToString(d) + "d ago"
  }

  /** What an AlarmViewModel shows, as a value (the `IsNew` flag apart). */
  datatype AlarmRow = AlarmRow(
    id: int, siteId: int, siteName: string, sensorTag: string, alarmMessage: string, timestamp: int)

  function AlarmRowOf(a: Alarm): AlarmRow {
    AlarmRow(a.id, a.siteId, a.siteName, a.sensorTag, a.alarmMessage, a.timestamp)
  }

  class AlarmViewModel {
    var id: int
    var siteId: int
    var siteName: string
    var sensorTag: string
    var alarmMessage: string
    var timestamp: int
    var isNew: bool

    function Row(): AlarmRow
      reads this
    {
      AlarmRow(id, siteId, siteName, sensorTag, alarmMessage, timestamp)
    }

    /** Highlighted exactly while the alarm is marked new. */
    function BackgroundBrush(): (b: Brush)
      reads this
      ensures b == LightYellow <==> isNew
    {
      if isNew then LightYellow else Transparent
    }

    function TimeAgoTextAt(now: int): string
      reads this
    {
      TimeAgoText(TimeAgoOf(now - timestamp))
    }

    constructor ()
      ensures Row() == AlarmRow(0, 0, "", "", "", 0) && !isNew
    {
      id, siteId, siteName, sensorTag, alarmMessage, timestamp := 0, 0, "", "", "", 0;
      isNew := false;
    }

    /** Copies the record; the client-side `IsNew` flag is left alone. */
    method UpdateFromAlarm(alarm: Alarm)
      modifies this
      ensures Row() == AlarmRowOf(alarm)
      ensures isNew == old(isNew)
    {
      id := alarm.id;
      siteId := alarm.siteId;
      siteName := alarm.siteName;
      sensorTag := alarm.sensorTag;
      alarmMessage := alarm.alarmMessage;
      timestamp := alarm.timestamp;
    }

    method SetIsNew(value: bool)
      modifies this`isNew
      ensures isNew == value
    {
      var changed;
      isNew, changed := SetProperty(isNew, value);
    }
  }

  function AlarmRows(alarms: seq<AlarmViewModel>): (rows: seq<AlarmRow>)
    reads alarms
    ensures |rows| == |alarms|
    ensures forall i :: 0 <= i < |alarms| ==> rows[i] == alarms[i].Row()
  {
    seq(|alarms|, i reads alarms requires 0 <= i < |alarms| => alarms[i].Row())
  }
}
