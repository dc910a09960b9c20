/**
 The SSDP search session built on a multicast connection controller
 (SSDP/SSDPSearchSession.swift). Timer fires and controller callbacks are
 explicit methods, delivered one at a time; every delegate call is appended
 to `delegateCalls`.
 */
module SearchSession {
  import opened Wrappers
  import opened Ssdp
  import opened Timing
  import opened Message

  datatype SearchSessionError = SearchAborted(cause: NetworkError)

  /** A call the session makes on its delegate. */
  datatype DelegateCall =
    | DidFindService(service: Service)
    | DidEncounterError(error: SearchSessionError)
    | DidStopSearch(foundServices: seq<Service>)
  {
    function Announcement(): Option<Service>
    {
      if DidFindService? then Some(service) else None
    }
  }

  /** The services announced through `didFindService`, in the order of the calls. */
  function ReportedServices(calls: seq<DelegateCall>): seq<Service>
  {
    Announced(calls, (c: DelegateCall) => c.Announcement())
  }

  lemma ReportedServicesAppend(calls: seq<DelegateCall>, call: DelegateCall)
    ensures ReportedServices(calls + [call])
            == ReportedServices(calls) + (if call.DidFindService? then [call.service] else [])
  {
    AnnouncedAppend(calls, call, (c: DelegateCall) => c.Announcement());
  }

  /**
   The connection controller as the session uses it (MulticastConnectionControllerProtocol):
   it records each message it is asked to send and each request to close.
   */
  class ConnectionControllerHandle {
    var sent: seq<string>
    var closeCount: nat
    var delegate: Session?

    constructor ()
      ensures sent == [] && closeCount == 0 && delegate == null
    {
      sent, closeCount, delegate := [], 0, null;
    }

    method SendMessage(message: string)
      modifies this
      ensures sent == old(sent) + [message]
      ensures closeCount == old(closeCount) && delegate == old(delegate)
    {
      sent := sent + [message];
    }

    method Close()
      modifies this
      ensures closeCount == old(closeCount) + 1
      ensures sent == old(sent) && delegate == old(delegate)
    {
      closeCount := closeCount + 1;
    }
  }

  class Session {
    const configuration: Configuration
    const parser: Parser
    const connectionController: ConnectionControllerHandle
    /** Fixed when the session is built. */
    const searchTimeout: real
    /** Built once (a lazy property in the source); it depends only on the configuration. */
    const mSearchMessage: string
    var servicesFoundDuringSearch: seq<Service>
    /** The repeating broadcast timer, holding its interval, or None when there is none. */
    var broadcastTimer: Option<real>
    /** The one-shot timeout timer, holding its delay, or None when there is none. */
    var timeoutTimer: Option<real>
    var delegateCalls: seq<DelegateCall>
    /**
     For each delegate call, in order, how many times the controller had been
     closed when the call was made: it puts the calls and the closes in one order.
     */
    var closesAtCall: seq<nat>

    ghost predicate Valid()
      reads this, connectionController
    {
      && connectionController.delegate == this
      && searchTimeout == SearchTimeout(configuration)
      && mSearchMessage == MSearchMessage(configuration)
      && FoundInvariant(configuration, servicesFoundDuringSearch)
      && ReportedServices(delegateCalls) == servicesFoundDuringSearch
      && |closesAtCall| == |delegateCalls|
      && (forall i :: 0 <= i < |closesAtCall| ==> closesAtCall[i] <= connectionController.closeCount)
      && (broadcastTimer.Some? ==>
            configuration.maximumBroadcastsBeforeClosing > 1 &&
            broadcastTimer.value == BroadcastInterval(configuration))
      && (timeoutTimer.Some? ==> timeoutTimer.value == searchTimeout)
    }

    constructor (configuration: Configuration, connectionController: ConnectionControllerHandle, parser: Parser)
      modifies connectionController
      ensures Valid()
      ensures this.configuration == configuration && this.parser == parser
      ensures this.connectionController == connectionController
      ensures searchTimeout == (configuration.maximumBroadcastsBeforeClosing as real) * configuration.maximumWaitResponseTime + 0.1
      ensures servicesFoundDuringSearch == [] && delegateCalls == [] && closesAtCall == []
      ensures broadcastTimer.None? && timeoutTimer.None?
      ensures connectionController.sent == old(connectionController.sent)
      ensures connectionController.closeCount == old(connectionController.closeCount)
    {
      this.configuration := configuration;
      this.connectionController := connectionController;
      this.parser := parser;
      searchTimeout := SearchTimeout(configuration);
      mSearchMessage := MSearchMessage(configuration);
      servicesFoundDuringSearch := [];
      broadcastTimer, timeoutTimer := None, None;
      delegateCalls, closesAtCall := [], [];
      new;
      connectionController.delegate := this;
    }

    /**
     The failable initialiser: `factoryResult` is what the controller factory
     returned for the configuration's host and port.
     */
    static method Create(configuration: Configuration, factoryResult: ConnectionControllerHandle?, parser: Parser)
      returns (s: Session?)
      modifies factoryResult
      ensures (s == null) <==> (factoryResult == null)
      ensures s != null ==>
        && fresh(s) && s.Valid()
        && s.configuration == configuration && s.parser == parser
        && s.connectionController == factoryResult && factoryResult.delegate == s
        && s.searchTimeout == SearchTimeout(configuration)
        && s.servicesFoundDuringSearch == [] && s.delegateCalls == [] && s.closesAtCall == []
        && s.broadcastTimer.None? && s.timeoutTimer.None?
        && factoryResult.sent == old(factoryResult.sent)
        && factoryResult.closeCount == old(factoryResult.closeCount)
    {
      if factoryResult == null {
        s := null;
      } else {
        s := new Session(configuration, factoryResult, parser);
      }
    }

    method StartSearch()
      requires Valid()
      modifies this, connectionController
      ensures Valid()
      ensures servicesFoundDuringSearch == old(servicesFoundDuringSearch)
      ensures connectionController.closeCount == old(connectionController.closeCount)
      ensures configuration.maximumBroadcastsBeforeClosing == 0 ==>
        && delegateCalls == old(delegateCalls) + [DidStopSearch(old(servicesFoundDuringSearch))]
        && closesAtCall == old(closesAtCall) + [old(connectionController.closeCount)]
        && connectionController.sent == old(connectionController.sent)
        && broadcastTimer == old(broadcastTimer) && timeoutTimer == old(timeoutTimer)
      ensures configuration.maximumBroadcastsBeforeClosing > 0 ==>
        && delegateCalls == old(delegateCalls) && closesAtCall == old(closesAtCall)
        && connectionController.sent == old(connectionController.sent) + [MSearchMessage(configuration)]
        && broadcastTimer == (if configuration.maximumBroadcastsBeforeClosing > 1
                              then Some(BroadcastInterval(configuration)) else old(broadcastTimer))
        && timeoutTimer == Some(SearchTimeout(configuration))
    {
      if configuration.maximumBroadcastsBeforeClosing == 0 {
        ReportedServicesAppend(delegateCalls, DidStopSearch(servicesFoundDuringSearch));
        delegateCalls := delegateCalls + [DidStopSearch(servicesFoundDuringSearch)];
        closesAtCall := closesAtCall + [connectionController.closeCount];
        return;
      }
      SendMSearchMessages();
      timeoutTimer := Some(searchTimeout);
    }

    /** Arms the repeating broadcast timer when more than one broadcast is wanted, then sends once. */
    method SendMSearchMessages()
      requires Valid()
      modifies this`broadcastTimer, connectionController
      ensures Valid()
      ensures connectionController.sent == old(connectionController.sent) + [MSearchMessage(configuration)]
      ensures connectionController.closeCount == old(connectionController.closeCount)
      ensures broadcastTimer == (if configuration.maximumBroadcastsBeforeClosing > 1
                                 then Some(BroadcastInterval(configuration)) else old(broadcastTimer))
    {
      var message := mSearchMessage;
      if configuration.maximumBroadcastsBeforeClosing > 1 {
        var window := searchTimeout - configuration.maximumWaitResponseTime;
        var interval := window / ((configuration.maximumBroadcastsBeforeClosing - 1) as real);
        broadcastTimer := Some(interval);
      }
      connectionController.SendMessage(message);
    }

    /** A fire of the repeating broadcast timer. */
    method OnBroadcastTick()
      requires Valid() && broadcastTimer.Some?
      modifies connectionController
      ensures Valid()
      ensures connectionController.sent == old(connectionController.sent) + [MSearchMessage(configuration)]
      ensures connectionController.closeCount == old(connectionController.closeCount)
    {
      connectionController.SendMessage(mSearchMessage);
    }

    /** The fire of the one-shot timeout timer (`searchTimedOut`). */
    method OnTimeout()
      requires Valid() && timeoutTimer.Some?
      modifies this, connectionController
      ensures Valid()
      ensures broadcastTimer.None? && timeoutTimer.None?
      ensures connectionController.closeCount == old(connectionController.closeCount) + 1
      ensures connectionController.sent == old(connectionController.sent)
      ensures servicesFoundDuringSearch == old(servicesFoundDuringSearch)
      ensures delegateCalls == old(delegateCalls) + [DidStopSearch(servicesFoundDuringSearch)]
      ensures closesAtCall == old(closesAtCall) + [old(connectionController.closeCount) + 1]
    {
      StopSearch();
    }

    /**
     Closes first and then reports what was found; there is no guard, so every
     call closes and reports again.
     */
    method StopSearch()
      requires Valid()
      modifies this, connectionController
      ensures Valid()
      ensures broadcastTimer.None? && timeoutTimer.None?
      ensures connectionController.closeCount == old(connectionController.closeCount) + 1
      ensures connectionController.sent == old(connectionController.sent)
      ensures servicesFoundDuringSearch == old(servicesFoundDuringSearch)
      ensures delegateCalls == old(delegateCalls) + [DidStopSearch(servicesFoundDuringSearch)]
      ensures closesAtCall == old(closesAtCall) + [old(connectionController.closeCount) + 1]
    {
      Close();
      ReportedServicesAppend(delegateCalls, DidStopSearch(servicesFoundDuringSearch));
      delegateCalls := delegateCalls + [DidStopSearch(servicesFoundDuringSearch)];
      closesAtCall := closesAtCall + [connectionController.closeCount];
    }

    /** Drops both timers and closes the controller. */
    method Close()
      requires Valid()
      modifies this`broadcastTimer, this`timeoutTimer, connectionController
      ensures Valid()
      ensures broadcastTimer.None? && timeoutTimer.None?
      ensures connectionController.closeCount == old(connectionController.closeCount) + 1
      ensures connectionController.sent == old(connectionController.sent)
    {
      broadcastTimer := None;
      timeoutTimer := None;
      connectionController.Close();
    }

    /** `controller(_:didReceiveResponse:)`: the controller delivers a datagram. */
    method OnResponse(response: Data)
      requires Valid()
      modifies this
      ensures Valid()
      ensures
        var accepted := if |response| == 0 then None
                        else Admit(configuration, parser, old(servicesFoundDuringSearch), response);
        && servicesFoundDuringSearch
             == old(servicesFoundDuringSearch) + (if accepted.Some? then [accepted.value] else [])
        && delegateCalls
             == old(delegateCalls) + (if accepted.Some? then [DidFindService(accepted.value)] else [])
        && closesAtCall
             == old(closesAtCall) + (if accepted.Some? then [connectionController.closeCount] else [])
      ensures broadcastTimer == old(broadcastTimer) && timeoutTimer == old(timeoutTimer)
    {
      if |response| == 0 {
        return;
      }
      var parsed := parser(response);
      if parsed.None? || !SearchedForService(configuration, parsed.value)
         || parsed.value in servicesFoundDuringSearch {
        return;
      }
      var service := parsed.value;
      AdmitKeepsFoundInvariant(configuration, parser, servicesFoundDuringSearch, response);
      servicesFoundDuringSearch := servicesFoundDuringSearch + [service];
      ReportedServicesAppend(delegateCalls, DidFindService(service));
      delegateCalls := delegateCalls + [DidFindService(service)];
      closesAtCall := closesAtCall + [connectionController.closeCount];
    }

    /**
     `controller(_:didEncounterError:)`: reports the wrapped error before
     closing, so the report sees the controller not yet closed by it.
     */
    method OnControllerError(error: NetworkError)
      requires Valid()
      modifies this, connectionController
      ensures Valid()
      ensures delegateCalls == old(delegateCalls) + [DidEncounterError(SearchAborted(error))]
      ensures closesAtCall == old(closesAtCall) + [old(connectionController.closeCount)]
      ensures broadcastTimer.None? && timeoutTimer.None?
      ensures connectionController.closeCount == old(connectionController.closeCount) + 1
      ensures connectionController.sent == old(connectionController.sent)
      ensures servicesFoundDuringSearch == old(servicesFoundDuringSearch)
    {
      var wrappedError := SearchAborted(error);
      ReportedServicesAppend(delegateCalls, DidEncounterError(wrappedError));
      delegateCalls := delegateCalls + [DidEncounterError(wrappedError)];
      closesAtCall := closesAtCall + [connectionController.closeCount];
      Close();
    }
  }

  // ---------------------------------------------------------------------------
  // Whole sessions, driven from construction to the end

  /** With no broadcasts wanted, starting reports an empty result at once and sends nothing. */
  method ZeroBroadcastSearch(configuration: Configuration, parser: Parser)
    returns (calls: seq<DelegateCall>, sent: seq<string>, timersArmed: bool)
    requires configuration.maximumBroadcastsBeforeClosing == 0
    ensures calls == [DidStopSearch([])]
    ensures sent == [] && !timersArmed
  {
    var controller := new ConnectionControllerHandle();
    var session := new Session(configuration, controller, parser);
    session.StartSearch();
    calls, sent := session.delegateCalls, controller.sent;
    timersArmed := session.broadcastTimer.Some? || session.timeoutTimer.Some?;
  }

  /**
   Target "urn:test:service:1", one second of wait, two broadcasts, no
   answers: a 2.1 s timeout, repeats every 1.1 s, two identical sends, and
   an empty result when the timeout fires, with both timers gone.
   */
  method TwoBroadcastSearch(parser: Parser)
    returns (timeout: real, interval: real, sent: seq<string>, calls: seq<DelegateCall>, timersArmed: bool)
    ensures timeout == 2.1 && interval == 1.1
    ensures var message := MSearchMessage(CreateMulticastConfiguration("urn:test:service:1", 1.0, 2));
            sent == [message, message]
    ensures calls == [DidStopSearch([])] && !timersArmed
  {
    var configuration := CreateMulticastConfiguration("urn:test:service:1", 1.0, 2);
    var controller := new ConnectionControllerHandle();
    var session := new Session(configuration, controller, parser);
    session.StartSearch();
    timeout, interval := session.timeoutTimer.value, session.broadcastTimer.value;
    session.OnBroadcastTick();
    session.OnTimeout();
    sent, calls := controller.sent, session.delegateCalls;
    timersArmed := session.broadcastTimer.Some? || session.timeoutTimer.Some?;
  }

  /** The same matching response twice is found and reported once, and the result lists it once. */
  method DuplicateResponseSearch(configuration: Configuration, parser: Parser, response: Data)
    returns (found: seq<Service>, calls: seq<DelegateCall>)
    requires |response| > 0 && parser(response).Some?
    requires SearchedForService(configuration, parser(response).value)
    ensures found == [parser(response).value]
    ensures calls == [DidFindService(parser(response).value), DidStopSearch([parser(response).value])]
  {
    var controller := new ConnectionControllerHandle();
    var session := new Session(configuration, controller, parser);
    session.OnResponse(response);
    session.OnResponse(response);
    session.StopSearch();
    found, calls := session.servicesFoundDuringSearch, session.delegateCalls;
  }

  /** A response for another target, when not searching for all, changes nothing and is not reported. */
  method MismatchedResponseSearch(configuration: Configuration, parser: Parser, response: Data)
    returns (found: seq<Service>, calls: seq<DelegateCall>)
    requires parser(response).Some? && !SearchedForService(configuration, parser(response).value)
    ensures found == [] && calls == []
  {
    var controller := new ConnectionControllerHandle();
    var session := new Session(configuration, controller, parser);
    session.OnResponse(response);
    found, calls := session.servicesFoundDuringSearch, session.delegateCalls;
  }

  /**
   Stopping twice closes the controller twice and reports the result twice,
   each report coming after its own close.
   */
  method StopTwice(configuration: Configuration, parser: Parser)
    returns (calls: seq<DelegateCall>, closeCount: nat, closedBefore: seq<nat>)
    ensures calls == [DidStopSearch([]), DidStopSearch([])] && closeCount == 2
    ensures closedBefore == [1, 2]
  {
    var controller := new ConnectionControllerHandle();
    var session := new Session(configuration, controller, parser);
    session.StopSearch();
    session.StopSearch();
    calls, closeCount, closedBefore := session.delegateCalls, controller.closeCount, session.closesAtCall;
  }

  /**
   A controller error after starting is reported once, wrapped, before the
   controller is closed, with both timers gone afterwards; a later explicit
   stop closes again and still reports a normal stop.
   */
  method ErrorThenStop(configuration: Configuration, parser: Parser, error: NetworkError)
    returns (afterError: seq<DelegateCall>, timersArmed: bool, calls: seq<DelegateCall>, closedBefore: seq<nat>)
    requires configuration.maximumBroadcastsBeforeClosing > 0
    ensures afterError == [DidEncounterError(SearchAborted(error))] && !timersArmed
    ensures calls == [DidEncounterError(SearchAborted(error)), DidStopSearch([])]
    ensures closedBefore == [0, 2]
  {
    var controller := new ConnectionControllerHandle();
    var session := new Session(configuration, controller, parser);
    session.StartSearch();
    session.OnControllerError(error);
    afterError := session.delegateCalls;
    timersArmed := session.broadcastTimer.Some? || session.timeoutTimer.Some?;
    session.StopSearch();
    calls, closedBefore := session.delegateCalls, session.closesAtCall;
  }
}
