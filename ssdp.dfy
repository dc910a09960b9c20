/**
 Values shared by both search sessions: the parsed service record, the
 search configuration, and the response filter with its duplicate check.
 */
module Ssdp {
  import opened Wrappers
  import opened Text

  newtype byte = x: int | 0 <= x < 256

  /** The payload of a datagram (Foundation's `Data`). */
  type Data = seq<byte>

  /** A UDP port (`UInt16`). */
  type Port = x: int | 0 <= x < 0x1_0000

  /** An error reported by the Network framework; its contents are not inspected. */
  datatype NetworkError = NetworkError(code: int)

  /**
   A service built by the response parser. Only `searchTarget` is read by the
   session; `identity` stands for every other field the parser extracts.
   Two services are duplicates exactly when they are equal values.
   */
  datatype Service = Service(searchTarget: string, identity: string)

  /** The response parser: raw datagram to service, or None when it does not parse. */
  type Parser = Data -> Option<Service>

  /** What to search for and how often. */
  datatype Configuration = Configuration(
    searchTarget: string,
    host: string,
    port: Port,
    maximumWaitResponseTime: real,
    maximumBroadcastsBeforeClosing: nat)

  /** The well-known SSDP multicast group address. */
  const DefaultMulticastHost: string := "239.255.255.250"

  /** The well-known SSDP port. */
  const DefaultMulticastPort: Port := 1900

  /** The search target that matches every service. */
  const SearchAllTarget: string := "ssdp:all"

  /** A configuration for the default SSDP multicast group. */
  function CreateMulticastConfiguration(
    searchTarget: string,
    maximumWaitResponseTime: real,
    maximumBroadcastsBeforeClosing: nat): (c: Configuration)
    ensures c.searchTarget == searchTarget
    ensures c.host == "239.255.255.250" && c.port == 1900
    ensures c.maximumWaitResponseTime == maximumWaitResponseTime
    ensures c.maximumBroadcastsBeforeClosing == maximumBroadcastsBeforeClosing
  {
    Configuration(searchTarget, DefaultMulticastHost, DefaultMulticastPort,
                  maximumWaitResponseTime, maximumBroadcastsBeforeClosing)
  }

  /** The session's target filter: substring match, or the wildcard target. */
  predicate SearchedForService(c: Configuration, service: Service)
  {
    Contains(service.searchTarget, c.searchTarget) || c.searchTarget == SearchAllTarget
  }

  /** The filter accepts exactly the services whose target holds the configured one, or all of them. */
  lemma SearchedForServiceIff(c: Configuration, service: Service)
    ensures SearchedForService(c, service) <==>
              c.searchTarget == "ssdp:all" || exists i :: OccursAt(service.searchTarget, c.searchTarget, i)
  {
    ContainsIffOccurs(service.searchTarget, c.searchTarget);
  }

  /** A service whose target is exactly the configured one always passes the filter. */
  lemma {:induction false} ExactTargetIsSearchedFor(c: Configuration, service: Service)
    requires service.searchTarget == c.searchTarget
    ensures SearchedForService(c, service)
  {
    assert service.searchTarget[..|c.searchTarget|] == c.searchTarget;
  }

  predicate NoDuplicates(s: seq<Service>)
  {
    forall i, j :: 0 <= i < j < |s| ==> s[i] != s[j]
  }

  /** What a session keeps true of its list of found services. */
  predicate FoundInvariant(c: Configuration, found: seq<Service>)
  {
    NoDuplicates(found) && forall i :: 0 <= i < |found| ==> SearchedForService(c, found[i])
  }

  /**
   The parse, filter and duplicate guards both sessions apply to a datagram:
   the service to append, or None when the datagram is to be ignored.
   */
  function Admit(c: Configuration, parse: Parser, found: seq<Service>, data: Data): (r: Option<Service>)
    ensures r.Some? ==> parse(data) == r && SearchedForService(c, r.value) && r.value !in found
    ensures r.None? ==> parse(data).None? || !SearchedForService(c, parse(data).value) || parse(data).value in found
  {
    match parse(data)
    case None => None
    case Some(service) =>
      if SearchedForService(c, service) && service !in found then Some(service) else None
  }

  /** The list after a datagram has been handled. */
  function AfterAdmit(c: Configuration, parse: Parser, found: seq<Service>, data: Data): seq<Service>
  {
    match Admit(c, parse, found, data)
    case None => found
    case Some(service) => found + [service]
  }

  /** Handling a datagram keeps the found list duplicate-free and filtered, and only ever appends. */
  lemma AdmitKeepsFoundInvariant(c: Configuration, parse: Parser, found: seq<Service>, data: Data)
    requires FoundInvariant(c, found)
    ensures FoundInvariant(c, AfterAdmit(c, parse, found, data))
    ensures found <= AfterAdmit(c, parse, found, data)
  {
  }

  /** Once a datagram's service has been admitted, the same datagram (or any other copy of it) is ignored. */
  lemma AdmitIgnoresRepeat(c: Configuration, parse: Parser, found: seq<Service>, data: Data, again: Data)
    requires Admit(c, parse, found, data).Some?
    requires parse(again) == parse(data)
    ensures Admit(c, parse, AfterAdmit(c, parse, found, data), again).None?
    ensures AfterAdmit(c, parse, AfterAdmit(c, parse, found, data), again) == AfterAdmit(c, parse, found, data)
  {
  }

  /**
   The services a delegate was told about, in the order of the calls, where
   `announcement` says which service (if any) a call announces.
   */
  function Announced<C>(calls: seq<C>, announcement: C -> Option<Service>): seq<Service>
    decreases |calls|
  {
    if calls == [] then []
    else
      var last := announcement(calls[|calls| - 1]);
      Announced(calls[..|calls| - 1], announcement) + (if last.Some? then [last.value] else [])
  }

  lemma AnnouncedAppend<C>(calls: seq<C>, call: C, announcement: C -> Option<Service>)
    ensures Announced(calls + [call], announcement)
            == Announced(calls, announcement) + (if announcement(call).Some? then [announcement(call).value] else [])
  {
    assert (calls + [call])[..|calls|] == calls;
  }
}
