/**
 The older SSDP search session built directly on one UDP connection
 (Networking/SSDPSearchSession.swift). Its teardown is guarded by
 `isListening`, which starts false and which no code of the session ever
 sets; its writer only logs; and its receive guard proceeds only when an
 error accompanies the data. The model keeps all three as written.
 */
module LegacySearchSession {
  import opened Wrappers
  import opened Ssdp
  import opened Timing
  import opened Message

  datatype SearchSessionError = AddressCreationFailure | SearchAborted(cause: NetworkError)

  /** A call the session makes on its delegate. */
  datatype DelegateCall =
    | DidFindService(service: Service)
    | DidAbortWithError(error: SearchSessionError)
    | DidStopSearch(foundServices: seq<Service>)
  {
    function Announcement(): Option<Service>
    {
      if DidFindService? then Some(service) else None
    }
  }

  /** The services announced through `didFindService`, in the order of the calls. */
  function ReportedServices(calls: seq<DelegateCall>): seq<Service>
  {
    Announced(calls, (c: DelegateCall) => c.Announcement())
  }

  lemma ReportedServicesAppend(calls: seq<DelegateCall>, call: DelegateCall)
    ensures ReportedServices(calls + [call])
            == ReportedServices(calls) + (if call.DidFindService? then [call.service] else [])
  {
    AnnouncedAppend(calls, call, (c: DelegateCall) => c.Announcement());
  }

  /** The states an `NWConnection` reports to its state handler. */
  datatype ConnectionState =
    | Setup
    | Waiting(error: NetworkError)
    | Preparing
    | Ready
    | Failed(error: NetworkError)
    | Cancelled

  /** The UDP connection: whether it was started, how often it was cancelled, and what was sent on it. */
  class Connection {
    const host: string
    const port: Port
    var started: bool
    var cancelCount: nat
    var sent: seq<string>

    constructor (host: string, port: Port)
      ensures this.host == host && this.port == port
      ensures !started && cancelCount == 0 && sent == []
    {
      this.host, this.port := host, port;
      started, cancelCount, sent := false, 0, [];
    }

    method Start()
      modifies this
      ensures started && cancelCount == old(cancelCount) && sent == old(sent)
    {
      started := true;
    }

    method Cancel()
      modifies this
      ensures cancelCount == old(cancelCount) + 1 && started == old(started) && sent == old(sent)
    {
      cancelCount := cancelCount + 1;
    }
  }

  class LegacySession {
    const configuration: Configuration
    const parser: Parser
    const connection: Connection
    var isListening: bool
    var servicesFoundDuringSearch: seq<Service>
    /** The repeating broadcast timer, holding its interval, or None when there is none. */
    var broadcastTimer: Option<real>
    /** The one-shot timeout timer, holding its delay, or None when there is none. */
    var timeoutTimer: Option<real>
    /**
     Whether the timer held in `timeoutTimer` has fired. A one-shot timer that
     has fired stays in the field but never fires again.
     */
    var timeoutFired: bool
    /** Every datagram handed to `writeToConnection`, which only logs it. */
    var writeAttempts: seq<string>
    var delegateCalls: seq<DelegateCall>

    ghost predicate Valid()
      reads this, connection
    {
      && connection.host == configuration.host && connection.port == configuration.port
      && connection.sent == []
      && FoundInvariant(configuration, servicesFoundDuringSearch)
      && ReportedServices(delegateCalls) == servicesFoundDuringSearch
      && (forall i :: 0 <= i < |writeAttempts| ==> writeAttempts[i] == MSearchMessage(configuration))
      && (broadcastTimer.Some? ==> broadcastTimer.value == configuration.maximumWaitResponseTime)
      && (timeoutTimer.Some? ==> timeoutTimer.value == SearchTimeout(configuration))
    }

    /** The port's fatal-error path cannot be taken: a `Port` is always a valid `UInt16`. */
    constructor (configuration: Configuration, parser: Parser)
      ensures Valid() && fresh(connection)
      ensures this.configuration == configuration && this.parser == parser
      ensures !isListening && !connection.started && connection.cancelCount == 0
      ensures servicesFoundDuringSearch == [] && delegateCalls == [] && writeAttempts == []
      ensures broadcastTimer.None? && timeoutTimer.None? && !timeoutFired
    {
      this.configuration := configuration;
      this.parser := parser;
      connection := new Connection(configuration.host, configuration.port);
      isListening := false;
      servicesFoundDuringSearch := [];
      broadcastTimer, timeoutTimer, timeoutFired := None, None, false;
      writeAttempts, delegateCalls := [], [];
    }

    /** Installs the handlers and starts the connection; broadcasting waits for the ready state. */
    method StartSearch()
      requires Valid()
      modifies connection
      ensures Valid()
      ensures connection.started && connection.cancelCount == old(connection.cancelCount)
    {
      connection.Start();
    }

    method StopSearch()
      requires Valid()
      modifies this, connection
      ensures Valid() && !isListening
      ensures !old(isListening) ==> unchanged(this) && unchanged(connection)
      ensures old(isListening) ==>
        && broadcastTimer.None? && timeoutTimer.None? && timeoutFired == old(timeoutFired)
        && connection.cancelCount == old(connection.cancelCount) + 1
        && connection.started == old(connection.started)
        && servicesFoundDuringSearch == old(servicesFoundDuringSearch)
        && writeAttempts == old(writeAttempts)
        && delegateCalls == old(delegateCalls) + [DidStopSearch(servicesFoundDuringSearch)]
    {
      Close(None);
    }

    /** The fire of the one-shot timeout timer (`searchTimedOut`); afterwards the timer is spent. */
    method OnTimeout()
      requires Valid() && timeoutTimer.Some? && !timeoutFired
      modifies this, connection
      ensures Valid() && !isListening && timeoutFired
      ensures !old(isListening) ==>
        && unchanged(connection)
        && broadcastTimer == old(broadcastTimer) && timeoutTimer == old(timeoutTimer)
        && servicesFoundDuringSearch == old(servicesFoundDuringSearch)
        && writeAttempts == old(writeAttempts) && delegateCalls == old(delegateCalls)
      ensures old(isListening) ==>
        && broadcastTimer.None? && timeoutTimer.None?
        && connection.cancelCount == old(connection.cancelCount) + 1
        && connection.started == old(connection.started)
        && servicesFoundDuringSearch == old(servicesFoundDuringSearch)
        && writeAttempts == old(writeAttempts)
        && delegateCalls == old(delegateCalls) + [DidStopSearch(servicesFoundDuringSearch)]
    {
      timeoutFired := true;
      Close(None);
    }

    /** The connection's state handler: only `ready` does anything (it broadcasts). */
    method StateDidChange(state: ConnectionState)
      requires Valid()
      modifies this
      ensures Valid()
      ensures state.Ready? ==>
        && timeoutTimer == Some(SearchTimeout(configuration))
        && broadcastTimer == Some(configuration.maximumWaitResponseTime)
        && !timeoutFired
        && writeAttempts == old(writeAttempts) + [MSearchMessage(configuration)]
        && isListening == old(isListening)
        && servicesFoundDuringSearch == old(servicesFoundDuringSearch)
        && delegateCalls == old(delegateCalls)
      ensures !state.Ready? ==> unchanged(this)
    {
      match state {
        case Ready => Broadcast();
        case Waiting(_) =>
        case Setup =>
        case Cancelled =>
        case Preparing =>
        case Failed(_) =>
      }
    }

    /**
     Does nothing unless the session is listening. Otherwise drops both timers,
     stops listening, cancels the connection and makes exactly one delegate
     call: the abort when an error is given, the stop with the found list otherwise.
     */
    method Close(error: Option<SearchSessionError>)
      requires Valid()
      modifies this, connection
      ensures Valid() && !isListening
      ensures !old(isListening) ==> unchanged(this) && unchanged(connection)
      ensures old(isListening) ==>
        && broadcastTimer.None? && timeoutTimer.None? && timeoutFired == old(timeoutFired)
        && connection.cancelCount == old(connection.cancelCount) + 1
        && connection.started == old(connection.started)
        && servicesFoundDuringSearch == old(servicesFoundDuringSearch)
        && writeAttempts == old(writeAttempts)
        && delegateCalls == old(delegateCalls) +
             [if error.Some? then DidAbortWithError(error.value) else DidStopSearch(servicesFoundDuringSearch)]
    {
      if !isListening {
        return;
      }
      broadcastTimer := None;
      timeoutTimer := None;
      isListening := false;
      connection.Cancel();
      var call := if error.Some? then DidAbortWithError(error.value) else DidStopSearch(servicesFoundDuringSearch);
      ReportedServicesAppend(delegateCalls, call);
      delegateCalls := delegateCalls + [call];
    }

    /** Wraps a connection error as `searchAborted` and closes with it. */
    method HandleError(error: NetworkError)
      requires Valid()
      modifies this, connection
      ensures Valid() && !isListening
      ensures !old(isListening) ==> unchanged(this) && unchanged(connection)
      ensures old(isListening) ==>
        && broadcastTimer.None? && timeoutTimer.None? && timeoutFired == old(timeoutFired)
        && connection.cancelCount == old(connection.cancelCount) + 1
        && connection.started == old(connection.started)
        && servicesFoundDuringSearch == old(servicesFoundDuringSearch)
        && writeAttempts == old(writeAttempts)
        && delegateCalls == old(delegateCalls) + [DidAbortWithError(SearchAborted(error))]
    {
      Close(Some(SearchAborted(error)));
    }

    /** Arms the one-shot timeout, then starts the repeated broadcast. */
    method Broadcast()
      requires Valid()
      modifies this
      ensures Valid()
      ensures timeoutTimer == Some(SearchTimeout(configuration)) && !timeoutFired
      ensures broadcastTimer == Some(configuration.maximumWaitResponseTime)
      ensures writeAttempts == old(writeAttempts) + [MSearchMessage(configuration)]
      ensures isListening == old(isListening)
      ensures servicesFoundDuringSearch == old(servicesFoundDuringSearch)
      ensures delegateCalls == old(delegateCalls)
    {
      var searchTimeout := (configuration.maximumBroadcastsBeforeClosing as real) * configuration.maximumWaitResponseTime + 0.1;
      timeoutTimer, timeoutFired := Some(searchTimeout), false;
      BroadcastMultipleSearchRequests();
    }

    /** Arms a timer repeating every wait period, with no cap, and fires it once at once. */
    method BroadcastMultipleSearchRequests()
      requires Valid()
      modifies this`broadcastTimer, this`writeAttempts
      ensures Valid()
      ensures broadcastTimer == Some(configuration.maximumWaitResponseTime)
      ensures writeAttempts == old(writeAttempts) + [MSearchMessage(configuration)]
    {
      var searchMessage := MSearchMessage(configuration);
      WriteToConnection(searchMessage);
      broadcastTimer := Some(configuration.maximumWaitResponseTime);
    }

    /** A fire of the repeating broadcast timer. */
    method OnBroadcastTick()
      requires Valid() && broadcastTimer.Some?
      modifies this`writeAttempts
      ensures Valid()
      ensures writeAttempts == old(writeAttempts) + [MSearchMessage(configuration)]
    {
      WriteToConnection(MSearchMessage(configuration));
    }

    /** Only logs: nothing is sent on the connection. */
    method WriteToConnection(datagram: string)
      requires Valid() && datagram == MSearchMessage(configuration)
      modifies this`writeAttempts
      ensures Valid()
      ensures writeAttempts == old(writeAttempts) + [datagram]
    {
      writeAttempts := writeAttempts + [datagram];
    }

    /**
     The receive completion. It goes on to parse only when data is present AND
     an error is given; with no error it returns at once; with an error and no
     data it hands the error on. Past that guard it accepts only a parsed,
     matching, not yet found service.
     */
    method ProcessResponse(data: Option<Data>, error: Option<NetworkError>)
      requires Valid()
      modifies this, connection
      ensures Valid() && isListening == (old(isListening) && !(data.None? && error.Some?))
      ensures error.None? ==> unchanged(this) && unchanged(connection)
      ensures data.None? && error.Some? ==>
        if old(isListening) then
          && broadcastTimer.None? && timeoutTimer.None? && timeoutFired == old(timeoutFired)
          && connection.cancelCount == old(connection.cancelCount) + 1
          && connection.started == old(connection.started)
          && servicesFoundDuringSearch == old(servicesFoundDuringSearch)
          && writeAttempts == old(writeAttempts)
          && delegateCalls == old(delegateCalls) + [DidAbortWithError(SearchAborted(error.value))]
        else unchanged(this) && unchanged(connection)
      ensures data.Some? && error.Some? ==>
        var accepted := Admit(configuration, parser, old(servicesFoundDuringSearch), data.value);
        && servicesFoundDuringSearch
             == old(servicesFoundDuringSearch) + (if accepted.Some? then [accepted.value] else [])
        && delegateCalls
             == old(delegateCalls) + (if accepted.Some? then [DidFindService(accepted.value)] else [])
        && broadcastTimer == old(broadcastTimer) && timeoutTimer == old(timeoutTimer)
        && timeoutFired == old(timeoutFired) && writeAttempts == old(writeAttempts)
        && unchanged(connection)
    {
      if data.None? || error.None? {
        if error.Some? {
          HandleError(error.value);
        }
        return;
      }
      var parsed := parser(data.value);
      if parsed.None? || !SearchedForService(configuration, parsed.value)
         || parsed.value in servicesFoundDuringSearch {
        return;
      }
      var service := parsed.value;
      AdmitKeepsFoundInvariant(configuration, parser, servicesFoundDuringSearch, data.value);
      servicesFoundDuringSearch := servicesFoundDuringSearch + [service];
      ReportedServicesAppend(delegateCalls, DidFindService(service));
      delegateCalls := delegateCalls + [DidFindService(service)];
    }
  }

  // ---------------------------------------------------------------------------
  // Whole sessions, driven from construction to the end

  /**
   Once the connection is ready the legacy session arms a timeout of
   N * MX + 0.1 and a broadcast timer repeating every MX, and writes the
   request once at once; the writes never reach the connection.
   */
  method LegacyReadyBroadcasts(configuration: Configuration, parser: Parser)
    returns (timeout: real, interval: real, writes: seq<string>, sent: seq<string>)
    ensures timeout == (configuration.maximumBroadcastsBeforeClosing as real) * configuration.maximumWaitResponseTime + 0.1
    ensures interval == configuration.maximumWaitResponseTime
    ensures writes == [MSearchMessage(configuration), MSearchMessage(configuration)]
    ensures sent == []
  {
    var message := MSearchMessage(configuration);
    var session := new LegacySession(configuration, parser);
    session.StartSearch();
    session.StateDidChange(Ready);
    assert session.writeAttempts == [message];
    timeout, interval := session.timeoutTimer.value, session.broadcastTimer.value;
    session.OnBroadcastTick();
    assert session.writeAttempts == [message] + [message];
    writes, sent := session.writeAttempts, session.connection.sent;
  }

  /**
   Because `isListening` is never set, neither the timeout nor a stop tears
   anything down: no delegate call and no cancel. Both timer fields stay set;
   the timeout is spent, while the broadcast timer goes on writing.
   */
  method LegacyStopDoesNothing(configuration: Configuration, parser: Parser)
    returns (calls: seq<DelegateCall>, cancelCount: nat, timerFieldsSet: bool, timeoutSpent: bool,
             writes: seq<string>)
    ensures calls == [] && cancelCount == 0
    ensures timerFieldsSet && timeoutSpent
    ensures writes == [MSearchMessage(configuration), MSearchMessage(configuration)]
  {
    var session := new LegacySession(configuration, parser);
    session.StartSearch();
    session.StateDidChange(Ready);
    session.OnTimeout();
    session.StopSearch();
    session.OnBroadcastTick();
    calls, cancelCount := session.delegateCalls, session.connection.cancelCount;
    timerFieldsSet := session.broadcastTimer.Some? && session.timeoutTimer.Some?;
    timeoutSpent, writes := session.timeoutFired, session.writeAttempts;
  }

  /** A failed connection is only logged: no delegate call and no timers. */
  method LegacyFailureIgnored(configuration: Configuration, parser: Parser, error: NetworkError)
    returns (calls: seq<DelegateCall>, timersArmed: bool)
    ensures calls == [] && !timersArmed
  {
    var session := new LegacySession(configuration, parser);
    session.StartSearch();
    session.StateDidChange(Failed(error));
    calls := session.delegateCalls;
    timersArmed := session.broadcastTimer.Some? || session.timeoutTimer.Some?;
  }

  /**
   A datagram delivered without an error is dropped even when it parses to a
   wanted service, while the same datagram delivered with an error is accepted.
   */
  method LegacyReceiveGuard(configuration: Configuration, parser: Parser, data: Data, error: NetworkError)
    returns (foundWithoutError: seq<Service>, foundWithError: seq<Service>, calls: seq<DelegateCall>)
    requires parser(data).Some? && SearchedForService(configuration, parser(data).value)
    ensures foundWithoutError == []
    ensures foundWithError == [parser(data).value] && calls == [DidFindService(parser(data).value)]
  {
    var session := new LegacySession(configuration, parser);
    session.StartSearch();
    session.ProcessResponse(Some(data), None);
    foundWithoutError := session.servicesFoundDuringSearch;
    session.ProcessResponse(Some(data), Some(error));
    session.ProcessResponse(Some(data), Some(error));
    foundWithError, calls := session.servicesFoundDuringSearch, session.delegateCalls;
  }

  /** A receive error with no data reaches `handleError`, whose close is skipped: nothing is reported. */
  method LegacyReceiveErrorSilent(configuration: Configuration, parser: Parser, error: NetworkError)
    returns (calls: seq<DelegateCall>, cancelCount: nat)
    ensures calls == [] && cancelCount == 0
  {
    var session := new LegacySession(configuration, parser);
    session.StartSearch();
    session.ProcessResponse(None, Some(error));
    calls, cancelCount := session.delegateCalls, session.connection.cancelCount;
  }
}
