/**
 The multicast connection controller (Connections/MulticastConnectionController.swift):
 it gates sends on the connection group's state and forwards to its delegate
 only received content, send errors and the `failed` state.
 */
module MulticastConnection {
  import opened Wrappers
  import opened Ssdp

  /** The states an `NWConnectionGroup` reports to its state handler. */
  datatype GroupState =
    | Setup
    | Waiting(error: NetworkError)
    | Ready
    | Failed(error: NetworkError)
    | Cancelled
  {
    predicate IsSetup() { this == Setup }
    predicate IsReady() { this == Ready }
    predicate IsWaiting() { Waiting? }
    predicate IsCancelled() { this == Cancelled }
    predicate IsFailed() { Failed? }

    /** Messages may be sent (or are queued) only while the group is setting up or ready. */
    predicate AbleToSendOrReceiveMessages()
    {
      IsReady() || IsSetup()
    }
  }

  /** The gate is open in exactly two states, and closed once the group is cancelled, failed or waiting. */
  lemma AbleToSendExactly(state: GroupState)
    ensures state.AbleToSendOrReceiveMessages() <==> state == Setup || state == Ready
    ensures state.IsCancelled() || state.IsFailed() || state.IsWaiting() ==> !state.AbleToSendOrReceiveMessages()
  {
  }

  /** A call the controller makes on its delegate. */
  datatype DelegateCall =
    | DidReceiveResponse(response: Data)
    | DidEncounterError(error: NetworkError)

  class MulticastConnectionController {
    const host: string
    const port: Port
    /** The state of the underlying connection group. */
    var state: GroupState
    var started: bool
    /** Whether `cancel` has been called on the group. */
    var cancelRequested: bool
    /** The messages whose UTF-8 bytes were handed to the group, in order. */
    var sent: seq<string>
    /** Sends whose completion has not arrived yet. */
    var pendingCompletions: nat
    var delegateCalls: seq<DelegateCall>

    ghost predicate Valid()
      reads this
    {
      started && pendingCompletions <= |sent|
    }

    constructor (host: string, port: Port)
      ensures Valid()
      ensures this.host == host && this.port == port
      ensures state == Setup && started && !cancelRequested
      ensures sent == [] && pendingCompletions == 0 && delegateCalls == []
    {
      this.host, this.port := host, port;
      state := Setup;
      cancelRequested := false;
      sent, pendingCompletions, delegateCalls := [], 0, [];
      started := true;
    }

    /**
     The failable initialiser: `groupFor` says whether a multicast group can be
     built for a host and port; when it cannot, there is no controller.
     */
    static method Create(host: string, port: Port, groupFor: (string, Port) -> bool)
      returns (c: MulticastConnectionController?)
      ensures (c == null) <==> !groupFor(host, port)
      ensures c != null ==>
        && fresh(c) && c.Valid() && c.host == host && c.port == port
        && c.state == Setup && c.started && !c.cancelRequested
        && c.sent == [] && c.pendingCompletions == 0 && c.delegateCalls == []
    {
      if !groupFor(host, port) {
        return null;
      }
      c := new MulticastConnectionController(host, port);
    }

    /** The group moved to `newState`; only `failed` is passed on, with its error. */
    method ConnectionStateDidChange(newState: GroupState)
      requires Valid()
      modifies this`state, this`delegateCalls
      ensures Valid()
      ensures state == newState
      ensures delegateCalls == old(delegateCalls) + (if newState.Failed? then [DidEncounterError(newState.error)] else [])
    {
      state := newState;
      match newState {
        case Ready =>
        case Waiting(_) =>
        case Setup =>
        case Cancelled =>
        case Failed(error) =>
          delegateCalls := delegateCalls + [DidEncounterError(error)];
      }
    }

    /** Received content is passed on unchanged; a delivery without content is dropped. */
    method ResponseReceivedFromConnection(content: Option<Data>)
      requires Valid()
      modifies this`delegateCalls
      ensures Valid()
      ensures delegateCalls == old(delegateCalls) + (if content.Some? then [DidReceiveResponse(content.value)] else [])
    {
      if content.None? {
        return;
      }
      delegateCalls := delegateCalls + [DidReceiveResponse(content.value)];
    }

    /** Hands the message to the group when the gate is open; otherwise drops it silently. */
    method SendMessage(message: string)
      requires Valid()
      modifies this`sent, this`pendingCompletions
      ensures Valid()
      ensures state.AbleToSendOrReceiveMessages() ==>
        sent == old(sent) + [message] && pendingCompletions == old(pendingCompletions) + 1
      ensures !state.AbleToSendOrReceiveMessages() ==>
        sent == old(sent) && pendingCompletions == old(pendingCompletions)
    {
      if !state.AbleToSendOrReceiveMessages() {
        return;
      }
      sent := sent + [message];
      pendingCompletions := pendingCompletions + 1;
    }

    /** The completion of an earlier send: an error is passed on, success is not. */
    method OnSendCompleted(error: Option<NetworkError>)
      requires Valid() && pendingCompletions > 0
      modifies this`pendingCompletions, this`delegateCalls
      ensures Valid()
      ensures pendingCompletions == old(pendingCompletions) - 1
      ensures delegateCalls == old(delegateCalls) + (if error.Some? then [DidEncounterError(error.value)] else [])
    {
      pendingCompletions := pendingCompletions - 1;
      if error.Some? {
        delegateCalls := delegateCalls + [DidEncounterError(error.value)];
      }
    }

    /** Only cancels the group; the `cancelled` state arrives later through the state handler. */
    method Close()
      requires Valid()
      modifies this`cancelRequested
      ensures Valid() && cancelRequested
    {
      cancelRequested := true;
    }
  }

  // ---------------------------------------------------------------------------
  // Whole controller lifetimes

  /**
   A message sent while the group sets up is handed over; once the group is
   cancelled after `close`, later messages are dropped and nothing is reported.
   */
  method SendsStopAfterCancel(host: string, port: Port, first: string, second: string)
    returns (sent: seq<string>, calls: seq<DelegateCall>)
    ensures sent == [first] && calls == []
  {
    var controller := new MulticastConnectionController(host, port);
    controller.SendMessage(first);
    controller.Close();
    controller.ConnectionStateDidChange(Cancelled);
    controller.SendMessage(second);
    sent, calls := controller.sent, controller.delegateCalls;
  }

  /**
   Of the ready, waiting and failed states only the failure is reported, with
   its own error; a failed send is reported too, a successful one is not.
   */
  method FailuresReported(host: string, port: Port, message: string, waitError: NetworkError,
                          failure: NetworkError, sendError: NetworkError)
    returns (calls: seq<DelegateCall>)
    ensures calls == [DidEncounterError(sendError), DidEncounterError(failure)]
  {
    var controller := new MulticastConnectionController(host, port);
    controller.ConnectionStateDidChange(Ready);
    controller.SendMessage(message);
    controller.SendMessage(message);
    controller.OnSendCompleted(None);
    controller.OnSendCompleted(Some(sendError));
    controller.ConnectionStateDidChange(Waiting(waitError));
    controller.SendMessage(message);
    controller.ConnectionStateDidChange(Failed(failure));
    calls := controller.delegateCalls;
  }

  /** Content is forwarded byte for byte; an empty delivery is dropped. */
  method ForwardsContent(host: string, port: Port, content: Data)
    returns (calls: seq<DelegateCall>)
    ensures calls == [DidReceiveResponse(content)]
  {
    var controller := new MulticastConnectionController(host, port);
    controller.ResponseReceivedFromConnection(None);
    controller.ResponseReceivedFromConnection(Some(content));
    calls := controller.delegateCalls;
  }
}
