/** The live-update channel: a hub connection with a reentrancy guard on
    connect, status notifications, forwarding of server messages and the
    bookkeeping of subscribed sites. The hub library is abstracted: its
    connection state is a value, and whether starting, stopping or invoking
    succeeds is a parameter of the operation that awaits it. */
module SignalR {
  import opened Common

  /** `HubConnectionState`. */
  datatype HubState = Disconnected | Connecting | Connected | Reconnecting

  /** `HubConnectionState.ToString()`. */
  function StateName(s: HubState): (name: string)
    ensures name == "Connected" <==> s == Connected
  {
    match s
    case Disconnected => "Disconnected"
    case Connecting => "Connecting"
    case Connected => "Connected"
    case Reconnecting => "Reconnecting"
  }

  /** A built hub connection: its state and the Authorization header it was
      built with, if any. */
  datatype Connection = Connection(state: HubState, authorization: Option<string>)

  /** What the service raises: `ConnectionStatusChanged`, `SensorUpdated`,
      `NewAlarm` and `SubscriptionUpdated`. The server's message bodies are
      kept as their JSON text; timestamps are tick counts. */
  datatype Notification =
    | StatusChanged(connected: bool)
    | SensorUpdated(data: string, timestamp: int)
    | NewAlarm(data: string, timestamp: int)
    | SubscriptionUpdated(siteIds: seq<int>)

  /** What the service asks of the hub. */
  datatype HubCall = Start | Stop | Invoke(methodName: string, siteIds: seq<int>)

  /** The header `ConnectAsync` adds for a non-empty token, as in section 2.1 of RFC 6750. */
  function AuthorizationFor(authToken: Option<string>): (h: Option<string>)
    ensures h.Some? <==> authToken.Some? && authToken.value != ""
    ensures h.Some? ==> h.value == "Bearer " + authToken.value
  {
    if authToken.Some? && authToken.value != "" then Some("Bearer " + authToken.value) else None
  }

  class SignalRService {
    var connection: Option<Connection>
    var isConnecting: bool
    var subscribedSites: seq<int>
    /** Every notification raised so far, oldest first. */
    var notifications: seq<Notification>
    /** Every request made of the hub so far, oldest first. */
    var calls: seq<HubCall>

    /** A connect in progress has built its connection. */
    ghost predicate Valid()
      reads this`isConnecting, this`connection
    {
      isConnecting ==> connection.Some?
    }

    constructor ()
      ensures Valid()
      ensures connection == None && !isConnecting && subscribedSites == []
      ensures notifications == [] && calls == []
    {
      connection, isConnecting, subscribedSites := None, false, [];
      notifications, calls := [], [];
    }

    predicate IsConnected()
      reads this`connection
    {
      connection.Some? && connection.value.state == Connected
    }

    function ConnectionState(): (name: string)
      reads this`connection
      ensures name == "Connected" <==> IsConnected()
    {
      if connection.Some? then StateName(connection.value.state) else "Disconnected"
    }

    /** `ConnectAsync` up to its `await`: while a connect is in progress or
        the hub is connected nothing starts and the answer is `IsConnected`;
        otherwise a new connection is built (with the bearer header for a
        non-empty token) and asked to start. */
    method BeginConnect(authToken: Option<string>) returns (started: bool, result: bool)
      requires Valid()
      modifies this`isConnecting, this`connection, this`calls
      ensures Valid()
      ensures started <==> !old(isConnecting) && !old(IsConnected())
      ensures !started ==>
        result == old(IsConnected()) && connection == old(connection) && isConnecting == old(isConnecting)
        && calls == old(calls)
      ensures started ==>
        isConnecting && connection == Some(Connection(Connecting, AuthorizationFor(authToken)))
        && calls == old(calls) + [Start]
    {
      if isConnecting || IsConnected() {
        return false, IsConnected();
      }
      isConnecting := true;
      connection := Some(Connection(Connecting, AuthorizationFor(authToken)));
      calls := calls + [Start];
      started, result := true, false;
    }

    /** `ConnectAsync` after its `await`: report the outcome of starting and
        clear the guard on both paths. */
    method FinishConnect(startSucceeded: bool) returns (ok: bool)
      requires Valid() && isConnecting
      modifies this`isConnecting, this`connection, this`notifications
      ensures Valid() && !isConnecting
      ensures ok == startSucceeded
      ensures connection == Some(old(connection).value.(state := if startSucceeded then Connected else Disconnected))
      ensures notifications == old(notifications) + [StatusChanged(startSucceeded)]
    {
      if startSucceeded {
        connection := Some(connection.value.(state := Connected));
        notifications := notifications + [StatusChanged(true)];
        ok := true;
      } else {
        connection := Some(connection.value.(state := Disconnected));
        notifications := notifications + [StatusChanged(false)];
        ok := false;
      }
      isConnecting := false;
    }

    /** `ConnectAsync` with nothing interleaved at its `await`. */
    method ConnectAsync(authToken: Option<string>, startSucceeds: bool) returns (ok: bool)
      requires Valid()
      modifies this`isConnecting, this`connection, this`calls, this`notifications
      ensures Valid() && isConnecting == old(isConnecting)
      ensures old(isConnecting) || old(IsConnected()) ==>
        ok == old(IsConnected()) && connection == old(connection)
        && notifications == old(notifications) && calls == old(calls)
      ensures !old(isConnecting) && !old(IsConnected()) ==>
        ok == startSucceeds && IsConnected() == startSucceeds
        && connection == Some(Connection(if startSucceeds then Connected else Disconnected, AuthorizationFor(authToken)))
        && notifications == old(notifications) + [StatusChanged(startSucceeds)]
        && calls == old(calls) + [Start]
    {
      var started;
      started, ok := BeginConnect(authToken);
      if started {
        ok := FinishConnect(startSucceeds);
      }
    }

    /** `DisconnectAsync`: with a connection, ask it to stop and report
        "disconnected" whether or not stopping succeeded; without one, do
        nothing. */
    method DisconnectAsync(stopSucceeds: bool)
      modifies this`connection, this`calls, this`notifications
      ensures old(connection).None? ==>
        connection == None && calls == old(calls) && notifications == old(notifications)
      ensures old(connection).Some? ==>
        && calls == old(calls) + [Stop]
        && notifications == old(notifications) + [StatusChanged(false)]
        && connection == Some(if stopSucceeds then old(connection).value.(state := Disconnected) else old(connection).value)
    {
      if connection.Some? {
        calls := calls + [Stop];
        if stopSucceeds {
          connection := Some(connection.value.(state := Disconnected));
        }
        notifications := notifications + [StatusChanged(false)];
      }
    }

    /** The hub closed the connection. */
    method OnConnectionClosed()
      requires Valid()
      modifies this`connection, this`notifications
      ensures Valid() && !IsConnected()
      ensures connection == (if old(connection).Some? then Some(old(connection).value.(state := Disconnected)) else None)
      ensures notifications == old(notifications) + [StatusChanged(false)]
    {
      if connection.Some? {
        connection := Some(connection.value.(state := Disconnected));
      }
      notifications := notifications + [StatusChanged(false)];
    }

    /** The hub lost the connection and is retrying. */
    method OnReconnecting()
      requires Valid()
      modifies this`connection, this`notifications
      ensures Valid() && !IsConnected()
      ensures connection == (if old(connection).Some? then Some(old(connection).value.(state := Reconnecting)) else None)
      ensures notifications == old(notifications) + [StatusChanged(false)]
    {
      if connection.Some? {
        connection := Some(connection.value.(state := Reconnecting));
      }
      notifications := notifications + [StatusChanged(false)];
    }

    /** The hub is connected again: report it, then subscribe again to the
        sites the server last confirmed, if there are any. */
    method OnReconnected(invokeSucceeds: bool)
      requires Valid() && connection.Some?
      modifies this`connection, this`notifications, this`calls
      ensures Valid() && IsConnected() && connection.value.authorization == old(connection).value.authorization
      ensures notifications == old(notifications) + [StatusChanged(true)]
      ensures calls == old(calls) + if subscribedSites == [] then [] else [Invoke("SubscribeToSites", subscribedSites)]
    {
      connection := Some(connection.value.(state := Connected));
      notifications := notifications + [StatusChanged(true)];
      if |subscribedSites| > 0 {
        var _ := SubscribeToSites(subscribedSites, invokeSucceeds);
      }
    }

    /** Forward a sensor update, stamped with the time it arrived. */
    method OnSensorUpdate(sensorData: string, now: int)
      modifies this`notifications
      ensures notifications == old(notifications) + [SensorUpdated(sensorData, now)]
    {
      notifications := notifications + [SensorUpdated(sensorData, now)];
    }

    /** Forward a new alarm, stamped with the time it arrived. */
    method OnNewAlarm(alarmData: string, now: int)
      modifies this`notifications
      ensures notifications == old(notifications) + [NewAlarm(alarmData, now)]
    {
      notifications := notifications + [NewAlarm(alarmData, now)];
    }

    /** The server confirmed a subscription: its list replaces ours. */
    method OnSubscriptionUpdated(siteIds: seq<int>)
      modifies this`subscribedSites, this`notifications
      ensures subscribedSites == siteIds
      ensures notifications == old(notifications) + [SubscriptionUpdated(siteIds)]
    {
      subscribedSites := siteIds;
      notifications := notifications + [SubscriptionUpdated(siteIds)];
    }

    /** `SubscribeToSitesAsync`: only a connected hub is asked; the answer
        is whether the request went through. The subscribed list itself
        waits for the server's confirmation. */
    method SubscribeToSites(siteIds: seq<int>, invokeSucceeds: bool) returns (ok: bool)
      modifies this`calls
      ensures ok <==> IsConnected() && invokeSucceeds
      ensures calls == old(calls) + if IsConnected() then [Invoke("SubscribeToSites", siteIds)] else []
    {
      if !IsConnected() {
        return false;
      }
      calls := calls + [Invoke("SubscribeToSites", siteIds)];
      ok := invokeSucceeds;
    }

    /** `UnsubscribeFromSitesAsync`, the same shape as subscribing. */
    method UnsubscribeFromSites(siteIds: seq<int>, invokeSucceeds: bool) returns (ok: bool)
      modifies this`calls
      ensures ok <==> IsConnected() && invokeSucceeds
      ensures calls == old(calls) + if IsConnected() then [Invoke("UnsubscribeFromSites", siteIds)] else []
    {
      if !IsConnected() {
        return false;
      }
      calls := calls + [Invoke("UnsubscribeFromSites", siteIds)];
      ok := invokeSucceeds;
    }
  }

  /** A second connect attempt during the first one starts nothing: the
      guard set by the first keeps the hub's state and the request log as
      they are, and the second caller hears "not connected". */
  method ConcurrentConnect(service: SignalRService, token: Option<string>, startSucceeds: bool)
      returns (first: bool, second: bool)
    requires service.Valid() && !service.isConnecting && !service.IsConnected()
    modifies service
    ensures !second
    ensures first == startSucceeds && service.IsConnected() == startSucceeds && !service.isConnecting
    ensures service.calls == old(service.calls) + [Start]
  {
    var started;
    started, first := service.BeginConnect(token);
    var secondStarted;
    secondStarted, second := service.BeginConnect(token);
    assert !secondStarted;
    first := service.FinishConnect(startSucceeds);
  }
}
