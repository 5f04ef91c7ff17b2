/** The request client: the login session with its bearer header, the
    request paths, and the empty-list fallback of every query. HTTP and JSON
    are abstracted: each request's outcome (a status code with the
    deserialized body, or an exception) is a parameter. */
module Api {
  import opened Common
  import opened Text
  import opened Entities

  /** What awaiting one request gave: a response with its status code, the
      status code's name and the deserialized body (`None` for a JSON
      `null`), or an exception with its message. */
  datatype HttpOutcome<T> =
    | Responded(statusCode: int, statusName: string, body: Option<ApiResponse<T>>)
    | Threw(message: string)

  /** `IsSuccessStatusCode`: a 2xx status. */
  predicate IsSuccessStatusCode(statusCode: int) {
    200 <= statusCode <= 299
  }

  /** `apiResponse?.Data ?? new List<T>()` after a successful status, and the
      empty list after a failed status or an exception. */
  function DataOrEmpty<T>(outcome: HttpOutcome<seq<T>>): (r: seq<T>)
    ensures r != [] ==> outcome.Responded? && IsSuccessStatusCode(outcome.statusCode)
                        && outcome.body.Some? && outcome.body.value.data.Some?
    ensures (outcome.Responded? && IsSuccessStatusCode(outcome.statusCode) && outcome.body.Some?
             && outcome.body.value.data.Some?) ==> r == outcome.body.value.data.value
  {
    match outcome
    case Threw(_) => []
    case Responded(code, _, body) =>
      if IsSuccessStatusCode(code) && body.Some? && body.value.data.Some? then body.value.data.value else []
  }

  // ---------------------------------------------------------- request paths

  const LoginPath: string := "/api/auth/login"
  const HealthPath: string := "/api/health"
  const SitesPath: string := "/api/site"
  const SensorsPrefix: string := "/api/sensor/site/"
  const AlarmsBase: string := "/api/alarm"

  function SensorsPath(siteId: int): string {
    SensorsPrefix + IntToString(siteId)
  }

  /** The alarm query: the site id first when there is one, the limit always. */
  function AlarmsPath(siteId: Option<int>, limit: int): string {
    if siteId.Some? then AlarmsBase + "?siteId=" + IntToString(siteId.value) + "&limit=" + IntToString(limit)
    else AlarmsBase + "?limit=" + IntToString(limit)
  }

  /** The site id a sensors path asks for. */
  function SensorsSiteId(path: string): Option<int> {
    if StartsWith(path, SensorsPrefix) then ParseInt32(path[|SensorsPrefix|..]) else None
  }

  /** One `name=value` query parameter with an `int` value. */
  function QueryParameter(p: string): Option<(string, int)> {
    var kv := Split(p, '=');
    if |kv| == 2 && ParseInt32(kv[1]).Some? then Some((kv[0], ParseInt32(kv[1]).value)) else None
  }

  /** The site id and limit an alarm path asks for. */
  function AlarmsQuery(path: string): Option<(Option<int>, int)> {
    var parts := Split(path, '?');
    if |parts| != 2 || parts[0] != AlarmsBase then None
    else
      var ps := Split(parts[1], '&');
      if |ps| == 1 then
        match QueryParameter(ps[0])
        case Some((name, limit)) => if name == "limit" then Some((None, limit)) else None
        case None => None
      else if |ps| == 2 then
        match (QueryParameter(ps[0]), QueryParameter(ps[1]))
        case (Some((n1, id)), Some((n2, limit))) =>
          if n1 == "siteId" && n2 == "limit" then Some((Some(id), limit)) else None
        case _ => None
      else None
  }

  /** The sensors path names the site it was built for. */
  lemma SensorsPathParses(siteId: int)
    requires IsInt32(siteId)
    ensures SensorsSiteId(SensorsPath(siteId)) == Some(siteId)
  {
    var path := SensorsPath(siteId);
    assert path[|SensorsPrefix|..] == IntToString(siteId);
    IntToStringParses(siteId);
  }

  /** A query parameter renders and reads back. */
  lemma QueryParameterParses(name: string, v: int)
    requires IsInt32(v) && '=' !in name
    ensures QueryParameter(name + "=" + IntToString(v)) == Some((name, v))
  {
    if '=' in IntToString(v) {
      IntToStringChars(v, '=');
    }
    SplitTwo(name, '=', IntToString(v));
    IntToStringParses(v);
  }

  /** The alarm path carries exactly the site id and the limit it was built from. */
  lemma AlarmsPathParses(siteId: Option<int>, limit: int)
    requires IsInt32(limit) && (siteId.Some? ==> IsInt32(siteId.value))
    ensures AlarmsQuery(AlarmsPath(siteId, limit)) == Some((siteId, limit))
  {
    if siteId.Some? {
      SiteAlarmsPathParses(siteId.value, limit);
    } else {
      AllAlarmsPathParses(limit);
    }
  }

  lemma AllAlarmsPathParses(limit: int)
    requires IsInt32(limit)
    ensures AlarmsQuery(AlarmsPath(None, limit)) == Some((None, limit))
  {
    var l := IntToString(limit);
    if '?' in l { IntToStringChars(limit, '?'); }
    if '&' in l { IntToStringChars(limit, '&'); }
    assert "limit" + "=" == "limit=";
    QueryParameterParses("limit", limit);
    var lp := "limit=" + l;
    assert "?limit=" == ['?'] + "limit=";
    assert AlarmsPath(None, limit) == AlarmsBase + ['?'] + lp;
    SplitTwo(AlarmsBase, '?', lp);
    SplitNoSeparator(lp, '&');
  }

  lemma SiteAlarmsPathParses(siteId: int, limit: int)
    requires IsInt32(limit) && IsInt32(siteId)
    ensures AlarmsQuery(AlarmsPath(Some(siteId), limit)) == Some((Some(siteId), limit))
  {
    SiteAlarmsPathSplits(siteId, limit);
    assert "limit" + "=" == "limit=";
    QueryParameterParses("limit", limit);
    assert "siteId" + "=" == "siteId=";
    QueryParameterParses("siteId", siteId);
  }

  /** The pieces the alarm path with a site id splits into. */
  lemma SiteAlarmsPathSplits(siteId: int, limit: int)
    ensures var ip := "siteId=" + IntToString(siteId);
      var lp := "limit=" + IntToString(limit);
      && Split(AlarmsPath(Some(siteId), limit), '?') == [AlarmsBase, ip + ['&'] + lp]
      && Split(ip + ['&'] + lp, '&') == [ip, lp]
  {
    var l := IntToString(limit);
    if '?' in l { IntToStringChars(limit, '?'); }
    if '&' in l { IntToStringChars(limit, '&'); }
    var i := IntToString(siteId);
    if '?' in i { IntToStringChars(siteId, '?'); }
    if '&' in i { IntToStringChars(siteId, '&'); }
    var ip := "siteId=" + i;
    var lp := "limit=" + l;
    AlarmsPathShape(i, l);
    SplitTwo(AlarmsBase, '?', ip + ['&'] + lp);
    SplitTwo(ip, '&', lp);
  }

  /** Regrouping the alarm path with a site id around its two separators. */
  lemma AlarmsPathShape(i: string, l: string)
    ensures AlarmsBase + "?siteId=" + i + "&limit=" + l
         == AlarmsBase + ['?'] + ("siteId=" + i + ['&'] + ("limit=" + l))
  {
    assert "?siteId=" == ['?'] + "siteId=";
    assert "&limit=" == ['&'] + "limit=";
  }

  // ---------------------------------------------------------- the client

  class ApiService {
    var currentUser: Option<UserInfo>
    /** The default Authorization header: `Bearer` and the session token. */
    var authorization: Option<string>
    /** The path of every request sent so far, oldest first. */
    var requests: seq<string>

    /** A stored session and the header agree. */
    ghost predicate Valid()
      reads this`currentUser, this`authorization
    {
      authorization == (if currentUser.Some? then Some("Bearer " + currentUser.value.token) else None)
    }

    constructor ()
      ensures Valid() && currentUser == None && requests == []
    {
      currentUser, authorization, requests := None, None, [];
    }

    predicate IsLoggedIn()
      reads this`currentUser
    {
      currentUser.Some? && currentUser.value.IsLoggedIn()
    }

    /** `GET /api/health`: whether the server answers with a 2xx status. */
    method TestConnection(outcome: HttpOutcome<()>) returns (ok: bool)
      modifies this`requests
      ensures requests == old(requests) + [HealthPath]
      ensures ok <==> outcome.Responded? && IsSuccessStatusCode(outcome.statusCode)
    {
      requests := requests + [HealthPath];
      ok := outcome.Responded? && IsSuccessStatusCode(outcome.statusCode);
    }

    /** `POST /api/auth/login`: a 2xx answer whose body reports success and
        carries a user opens the session and sets the bearer header; every
        other outcome reports why and keeps whatever session there was. */
    method Login(username: string, password: string, outcome: HttpOutcome<UserInfo>)
        returns (success: bool, message: string)
      requires Valid()
      modifies this`currentUser, this`authorization, this`requests
      ensures Valid()
      ensures requests == old(requests) + [LoginPath]
      ensures success <==>
        outcome.Responded? && IsSuccessStatusCode(outcome.statusCode) && outcome.body.Some?
        && outcome.body.value.success && outcome.body.value.data.Some?
      ensures success ==> currentUser == outcome.body.value.data && message == "Login successful"
      ensures !success ==> currentUser == old(currentUser) && authorization == old(authorization)
      ensures outcome.Threw? ==> message == "Connection error: " + outcome.message
      ensures outcome.Responded? && !IsSuccessStatusCode(outcome.statusCode) ==>
        message == "Server error: " + outcome.statusName
      ensures outcome.Responded? && IsSuccessStatusCode(outcome.statusCode) && !success ==>
        message == (if outcome.body.Some? && outcome.body.value.message.Some?
                    then outcome.body.value.message.value else "Login failed")
    {
      requests := requests + [LoginPath];
      match outcome {
        case Threw(m) =>
          return false, "Connection error: " + m;
        case Responded(code, name, body) =>
          if !IsSuccessStatusCode(code) {
            return false, "Server error: " + name;
          }
          if body.Some? && body.value.success && body.value.data.Some? {
            currentUser := body.value.data;
            authorization := Some("Bearer " + currentUser.value.token);
            return true, "Login successful";
          }
          var m := if body.Some? then body.value.message else None;
          return false, if m.Some? then m.value else "Login failed";
      }
    }

    /** Close the session and drop the header. */
    method Logout()
      modifies this`currentUser, this`authorization
      ensures Valid() && currentUser == None && authorization == None && !IsLoggedIn()
    {
      currentUser := None;
      authorization := None;
    }

    method GetSites(outcome: HttpOutcome<seq<Site>>) returns (sites: seq<Site>)
      modifies this`requests
      ensures requests == old(requests) + [SitesPath]
      ensures sites == DataOrEmpty(outcome)
    {
      requests := requests + [SitesPath];
      sites := DataOrEmpty(outcome);
    }

    method GetSensors(siteId: int, outcome: HttpOutcome<seq<Sensor>>) returns (sensors: seq<Sensor>)
      modifies this`requests
      ensures requests == old(requests) + [SensorsPath(siteId)]
      ensures sensors == DataOrEmpty(outcome)
    {
      requests := requests + [SensorsPath(siteId)];
      sensors := DataOrEmpty(outcome);
    }

    /** The limit is 100 unless the caller gives one. */
    method GetAlarms(siteId: Option<int>, limit: int, outcome: HttpOutcome<seq<Alarm>>) returns (alarms: seq<Alarm>)
      modifies this`requests
      ensures requests == old(requests) + [AlarmsPath(siteId, limit)]
      ensures alarms == DataOrEmpty(outcome)
    {
      var url := AlarmsBase;
      if siteId.Some? {
        url := url + "?siteId=" + IntToString(siteId.value) + "&limit=" + IntToString(limit);
      } else {
        url := url + "?limit=" + IntToString(limit);
      }
      requests := requests + [url];
      alarms := DataOrEmpty(outcome);
    }
  }

  /** The limit `GetAlarmsAsync` uses when the caller gives none. */
  const DefaultAlarmLimit: int := 100
}
