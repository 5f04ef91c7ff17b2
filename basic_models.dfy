/** The records the server sends (sites, sensors, alarms, the logged-in user
    and the response envelope) with their computed properties. Times are
    DateTime tick counts and `now` stands for `DateTime.UtcNow`. */
module Entities {
  import opened Common

  /** A monitored location with its sensor counts; a new Site is "offline". */
  datatype Site = Site(
    id: int, name: string, county: string,
    latitude: real, longitude: real,
    status: string, totalSensors: int, alarmSensors: int, lastUpdate: int)

  /** `new Site()`: every field at its default, the status "offline". */
  function NewSite(): (s: Site)
    ensures s.status == "offline" && s.name == "" && s.county == ""
    ensures s.id == 0 && s.totalSensors == 0 && s.alarmSensors == 0
  {
    Site(0, "", "", 0.0, 0.0, "offline", 0, 0, 0)
  }

  /** A sensor is online while its last update is less than five minutes old;
      an update exactly five minutes old already counts as offline. */
  predicate UpdatedWithinFiveMinutes(lastUpdated: int, now: int) {
    now - lastUpdated < 5 * TicksPerMinute
  }

  /** The cut-off falls exactly at five minutes, and a sensor that has gone
      offline stays offline until it is updated again. */
  lemma FiveMinuteCutoff(lastUpdated: int, now: int, later: int)
    requires now <= later
    ensures UpdatedWithinFiveMinutes(lastUpdated, lastUpdated + 5 * TicksPerMinute - 1)
    ensures !UpdatedWithinFiveMinutes(lastUpdated, lastUpdated + 5 * TicksPerMinute)
    ensures !UpdatedWithinFiveMinutes(lastUpdated, now) ==> !UpdatedWithinFiveMinutes(lastUpdated, later)
  {
  }

  /** A detector: status 0 is normal, 1 and 2 are alarm levels, above 2 a fault. */
  datatype Sensor = Sensor(
    id: int, siteId: int, siteName: string, channelId: string, tagName: string,
    detectorType: int, processValue: real, currentValue: real,
    status: int, statusText: string, units: string, lastUpdated: int)
  {
    predicate IsOnline(now: int) {
      UpdatedWithinFiveMinutes(lastUpdated, now)
    }

    predicate HasAlarm() {
      status > 0 && status <= 2
    }

    /** A fault; never at the same time as an alarm. */
    predicate HasError()
      ensures HasError() ==> !HasAlarm()
    {
      status > 2
    }
  }

  /** An alarm event raised by the server for one sensor of one site. */
  datatype Alarm = Alarm(
    id: int, siteId: int, siteName: string, sensorTag: string,
    alarmMessage: string, rawMessage: string, timestamp: int)
  {
    /** Whole minutes elapsed since the alarm, truncated toward zero (so an
        alarm stamped in the future counts as 0 until a full minute ahead). */
    function MinutesAgo(now: int): (m: int)
      ensures now - timestamp >= 0 ==> m >= 0 && m * TicksPerMinute <= now - timestamp < (m + 1) * TicksPerMinute
      ensures now - timestamp < 0 ==> m <= 0 && (m - 1) * TicksPerMinute < now - timestamp <= m * TicksPerMinute
    {
      TruncDiv(now - timestamp, TicksPerMinute)
    }
  }

  /** The session the server returns on login. */
  datatype UserInfo = UserInfo(
    username: string, role: string, token: string,
    allowedCounties: seq<string>, allowedSites: seq<int>)
  {
    predicate IsLoggedIn() {
      token != ""
    }
  }

  /** `new UserInfo()`: empty fields, hence not logged in. */
  function NewUserInfo(): (u: UserInfo)
    ensures !u.IsLoggedIn()
    ensures u.allowedCounties == [] && u.allowedSites == []
  {
    UserInfo("", "", "", [], [])
  }

  /** The server's response envelope; a JSON null `message` or `data` is `None`. */
  datatype ApiResponse<T> = ApiResponse(success: bool, message: Option<string>, data: Option<T>, count: int)

  /** Status 0 or below raises neither flag; the two flags never hold together. */
  lemma SensorFlags(s: Sensor)
    ensures !(s.HasAlarm() && s.HasError())
    ensures s.status <= 0 ==> !s.HasAlarm() && !s.HasError()
    ensures s.HasAlarm() || s.HasError() <==> s.status > 0
  {
  }
}
