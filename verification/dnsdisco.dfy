/** The discovery facade: a session that refreshes its SRV records through a
    retriever and chooses one endpoint through a balancer that consults a
    health checker.

    Retriever, health checker and balancer are pluggable in the Go library;
    here they are function values. The network calls behind the default
    retriever (the local resolver's SRV lookup) and the default health
    checker (a connection attempt) are parameters: `lookup` and `dial`. */
module Dnsdisco {
  import opened NetTypes

  /** Outcome of one health check. */
  datatype Probe = Probe(ok: bool, err: Option<NetError>)

  /** Outcome of one retrieval: the records and the error, both kept. */
  datatype Retrieved = Retrieved(services: seq<SRV>, err: Option<NetError>)

  /** Retrieve(service, proto, name). */
  type Retriever = (string, string, string) -> Retrieved

  /** HealthCheck(target, port, proto). */
  type HealthChecker = (string, uint16, string) -> Probe

  /** Balance(services, healthChecker, proto): an index, or -1 for none. */
  type Balancer = (seq<SRV>, HealthChecker, string) -> int

  /** Outcome of connecting to target:port over proto: the error, if any. */
  type Dialer = (string, string, uint16) -> Option<NetError>

  /** A discovery session: what to look up, the three strategies, and the
      records of the last refresh. */
  datatype Discovery = Discovery(
    service: string,
    proto: string,
    name: string,
    retriever: Retriever,
    healthChecker: HealthChecker,
    balancer: Balancer,
    services: seq<SRV>)

  /** A health check passes only when it says ok and reports no error. */
  predicate Passes(p: Probe)
  {
    p.ok && p.err.None?
  }

  predicate KnownProto(proto: string)
  {
    proto == "tcp" || proto == "udp"
  }

  /** The default health checker: reject an unknown protocol without dialing,
      otherwise healthy exactly when the connection succeeds. */
  function DefaultHealthCheck(dial: Dialer, target: string, port: uint16, proto: string): (p: Probe)
    ensures !KnownProto(proto) ==> p == Probe(false, Some(UnknownNetworkError(proto)))
    ensures KnownProto(proto) ==> p.err == dial(proto, target, port) && (p.ok <==> p.err.None?)
    ensures Passes(p) <==> KnownProto(proto) && dial(proto, target, port).None?
  {
    if !KnownProto(proto) then Probe(false, Some(UnknownNetworkError(proto)))
    else
      match dial(proto, target, port)
      case Some(e) => Probe(false, Some(e))
      case None => Probe(true, None)
  }

  /** The protocol check comes before any connection attempt: for an unknown
      protocol the outcome does not depend on the dialer at all. */
  lemma UnknownProtoNeverDials(dial1: Dialer, dial2: Dialer, target: string, port: uint16, proto: string)
    requires !KnownProto(proto)
    ensures DefaultHealthCheck(dial1, target, port, proto) == DefaultHealthCheck(dial2, target, port, proto)
    ensures !Passes(DefaultHealthCheck(dial1, target, port, proto))
  {
  }

  /** The health check of the service at position `i`. */
  function ProbeAt(services: seq<SRV>, check: HealthChecker, proto: string, i: int): Probe
    requires 0 <= i < |services|
  {
    check(services[i].target, services[i].port, proto)
  }

  /** The default balancer's loop from position `from` on. */
  function FirstPassingFrom(services: seq<SRV>, check: HealthChecker, proto: string, from: nat): (i: int)
    requires from <= |services|
    ensures i == -1 || from <= i < |services|
    ensures i >= 0 ==> Passes(ProbeAt(services, check, proto, i))
    ensures i >= 0 ==> forall j :: from <= j < i ==> !Passes(ProbeAt(services, check, proto, j))
    ensures i == -1 ==> forall j :: from <= j < |services| ==> !Passes(ProbeAt(services, check, proto, j))
    decreases |services| - from
  {
    if from == |services| then -1
    else if Passes(ProbeAt(services, check, proto, from)) then from
    else FirstPassingFrom(services, check, proto, from + 1)
  }

  /** The default balancer: the first service whose health check passes, or
      -1 when none does. */
  function DefaultBalance(services: seq<SRV>, check: HealthChecker, proto: string): (i: int)
    ensures -1 <= i < |services|
    ensures i >= 0 ==> Passes(ProbeAt(services, check, proto, i))
    ensures i >= 0 ==> forall j :: 0 <= j < i ==> !Passes(ProbeAt(services, check, proto, j))
    ensures i == -1 <==> forall j :: 0 <= j < |services| ==> !Passes(ProbeAt(services, check, proto, j))
  {
    FirstPassingFrom(services, check, proto, 0)
  }

  /** A health check that reports an error rules its service out, even when
      it also says ok. */
  lemma CheckErrorDisqualifies(services: seq<SRV>, check: HealthChecker, proto: string, i: int)
    requires 0 <= i < |services| && ProbeAt(services, check, proto, i).err.Some?
    ensures DefaultBalance(services, check, proto) != i
  {
  }

  /** A session with the default strategies and no records yet. `lookup`
      stands for the local resolver's SRV lookup, `dial` for opening a
      connection. */
  function NewDiscovery(service: string, proto: string, name: string, lookup: Retriever, dial: Dialer): (d: Discovery)
    ensures d.service == service && d.proto == proto && d.name == name
    ensures d.services == []
    ensures d.retriever == lookup
    ensures forall t, p, pr :: d.healthChecker(t, p, pr) == DefaultHealthCheck(dial, t, p, pr)
    ensures forall ss, c, pr :: d.balancer(ss, c, pr) == DefaultBalance(ss, c, pr)
  {
    Discovery(service, proto, name, lookup,
      (target: string, port: uint16, proto': string) => DefaultHealthCheck(dial, target, port, proto'),
      (services: seq<SRV>, check: HealthChecker, proto': string) => DefaultBalance(services, check, proto'),
      [])
  }

  datatype Refreshed = Refreshed(discovery: Discovery, err: Option<NetError>)

  /** Refresh: store whatever the retriever returned, error or not, and hand
      back its error. */
  function Refresh(d: Discovery): (r: Refreshed)
    ensures r.discovery.services == d.retriever(d.service, d.proto, d.name).services
    ensures r.err == d.retriever(d.service, d.proto, d.name).err
    ensures r.discovery == d.(services := r.discovery.services)
  {
    var got := d.retriever(d.service, d.proto, d.name);
    Refreshed(d.(services := got.services), got.err)
  }

  /** A failed refresh still replaces the stored records, so the records of
      an earlier successful refresh are gone. */
  lemma RefreshOverwritesOnError(d: Discovery)
    requires d.retriever(d.service, d.proto, d.name).err.Some?
    ensures Refresh(d).err.Some?
    ensures Refresh(d).discovery.services == d.retriever(d.service, d.proto, d.name).services
  {
  }

  /** The stored records never feed back into the retrieval: whatever the
      session held before, a refresh gives the same session and error. */
  lemma RefreshIgnoresStoredRecords(d: Discovery, stored: seq<SRV>)
    ensures Refresh(d.(services := stored)) == Refresh(d)
  {
  }

  /** Refreshing twice stores the same as refreshing once, for a retriever
      that answers the same question the same way. */
  lemma RefreshIdempotent(d: Discovery)
    ensures Refresh(Refresh(d).discovery) == Refresh(d)
  {
    RefreshIgnoresStoredRecords(d, Refresh(d).discovery.services);
  }

  /** An endpoint: target host and port; ("", 0) means none. */
  datatype Endpoint = Endpoint(target: string, port: uint16)

  /** Choose: ask the balancer for an index and answer that service's
      endpoint when the index is in range, the empty endpoint otherwise. */
  function Choose(d: Discovery): (e: Endpoint)
    ensures var i := d.balancer(d.services, d.healthChecker, d.proto);
      && (0 <= i < |d.services| ==> e == Endpoint(d.services[i].target, d.services[i].port))
      && (!(0 <= i < |d.services|) ==> e == Endpoint("", 0))
    ensures e == Endpoint("", 0) || exists i :: 0 <= i < |d.services| && e == Endpoint(d.services[i].target, d.services[i].port)
  {
    var i := d.balancer(d.services, d.healthChecker, d.proto);
    if 0 <= i < |d.services| then Endpoint(d.services[i].target, d.services[i].port)
    else Endpoint("", 0)
  }

  /** Whether the default health checker passes a record. */
  predicate Healthy(dial: Dialer, proto: string, s: SRV)
  {
    Passes(DefaultHealthCheck(dial, s.target, s.port, proto))
  }

  /** With the default strategies, Choose answers the first stored service
      whose connection succeeds over a known protocol, and the empty endpoint
      when there is none. */
  lemma ChooseDefaultPicksFirstHealthy(service: string, proto: string, name: string, lookup: Retriever, dial: Dialer, services: seq<SRV>)
    ensures var d := NewDiscovery(service, proto, name, lookup, dial).(services := services);
      forall i :: (0 <= i < |services| && Healthy(dial, proto, services[i]) &&
                   (forall j :: 0 <= j < i ==> !Healthy(dial, proto, services[j]))) ==>
          Choose(d) == Endpoint(services[i].target, services[i].port)
    ensures (forall j :: 0 <= j < |services| ==> !Healthy(dial, proto, services[j])) ==>
      Choose(NewDiscovery(service, proto, name, lookup, dial).(services := services)) == Endpoint("", 0)
  {
    var d := NewDiscovery(service, proto, name, lookup, dial).(services := services);
    var k := DefaultBalance(services, d.healthChecker, proto);
    assert d.balancer(d.services, d.healthChecker, d.proto) == k;
    forall j | 0 <= j < |services|
      ensures Passes(ProbeAt(services, d.healthChecker, proto, j)) == Healthy(dial, proto, services[j])
    {
    }
  }

  datatype Discovered = Discovered(target: string, port: uint16, err: Option<NetError>)

  /** Discover: a fresh default session, refreshed once; on a refresh error
      that error with an empty endpoint, otherwise the chosen endpoint. */
  function Discover(service: string, proto: string, name: string, lookup: Retriever, dial: Dialer): (r: Discovered)
    ensures lookup(service, proto, name).err.Some? ==> r == Discovered("", 0, lookup(service, proto, name).err)
    ensures lookup(service, proto, name).err.None? ==>
      && r.err.None?
      && Endpoint(r.target, r.port) == Choose(NewDiscovery(service, proto, name, lookup, dial).(services := lookup(service, proto, name).services))
  {
    var refreshed := Refresh(NewDiscovery(service, proto, name, lookup, dial));
    if refreshed.err.Some? then Discovered("", 0, refreshed.err)
    else
      var e := Choose(refreshed.discovery);
      Discovered(e.target, e.port, None)
  }

  /** Discover with a successful lookup answers the first healthy record, and
      the empty endpoint when no record is healthy; it never reports an error
      then. */
  lemma DiscoverPicksFirstHealthy(service: string, proto: string, name: string, lookup: Retriever, dial: Dialer)
    requires lookup(service, proto, name).err.None?
    ensures var services := lookup(service, proto, name).services;
      forall i :: (0 <= i < |services| && Healthy(dial, proto, services[i]) &&
                   (forall j :: 0 <= j < i ==> !Healthy(dial, proto, services[j]))) ==>
          Discover(service, proto, name, lookup, dial) == Discovered(services[i].target, services[i].port, None)
    ensures var services := lookup(service, proto, name).services;
      (forall j :: 0 <= j < |services| ==> !Healthy(dial, proto, services[j])) ==>
        Discover(service, proto, name, lookup, dial) == Discovered("", 0, None)
  {
    ChooseDefaultPicksFirstHealthy(service, proto, name, lookup, dial, lookup(service, proto, name).services);
  }

  /** With a protocol other than "tcp" or "udp" no endpoint is ever handed
      back: every default health check fails before dialing. */
  lemma DiscoverUnknownProtoFindsNothing(service: string, proto: string, name: string, lookup: Retriever, dial: Dialer)
    requires !KnownProto(proto)
    ensures Discover(service, proto, name, lookup, dial) == Discovered("", 0, lookup(service, proto, name).err)
  {
    ChooseDefaultPicksFirstHealthy(service, proto, name, lookup, dial, lookup(service, proto, name).services);
  }

  /** Discover as documented: a lookup error is reported as before, and a
      protocol other than "tcp" or "udp" whose lookup succeeds is answered
      with `UnknownNetworkError` instead of an empty endpoint without an
      error; any other protocol behaves as `Discover`. */
  function DiscoverChecked(service: string, proto: string, name: string, lookup: Retriever, dial: Dialer): (r: Discovered)
    ensures lookup(service, proto, name).err.Some? ==> r == Discovered("", 0, lookup(service, proto, name).err)
    ensures lookup(service, proto, name).err.None? && !KnownProto(proto) ==>
      r == Discovered("", 0, Some(UnknownNetworkError(proto)))
    ensures KnownProto(proto) ==> r == Discover(service, proto, name, lookup, dial)
    ensures r.err.None? <==> KnownProto(proto) && lookup(service, proto, name).err.None?
  {
    var found := Discover(service, proto, name, lookup, dial);
    if found.err.None? && !KnownProto(proto) then Discovered("", 0, Some(UnknownNetworkError(proto)))
    else found
  }

  /** `Discover` as written never reports `UnknownNetworkError` for an unknown
      protocol when the lookup succeeds: the health checker's error is
      dropped by the balancer, so the caller gets no error at all, where the
      documented behaviour reports one. */
  lemma DiscoverDropsUnknownNetworkError(service: string, proto: string, name: string, lookup: Retriever, dial: Dialer)
    requires !KnownProto(proto) && lookup(service, proto, name).err.None?
    ensures Discover(service, proto, name, lookup, dial) == Discovered("", 0, None)
    ensures DiscoverChecked(service, proto, name, lookup, dial).err == Some(UnknownNetworkError(proto))
  {
    DiscoverUnknownProtoFindsNothing(service, proto, name, lookup, dial);
  }
}
