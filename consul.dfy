/**
  The Consul backend: registers one agent service per mapped port of a
  started container, purges its own services at startup, re-registers the
  containers already running (on their host ports), and deregisters on
  `stop`.

  The agent is modelled by its service table, keyed by service ID. Which
  calls fail is fixed up front: `refusedRegister` holds the service IDs the
  agent refuses to register, `refusedDeregister` the IDs it refuses to
  deregister, and `listFails` says whether listing the services fails.
 */
module Consul {
  import opened Wrappers
  import opened GoStrings
  import opened Types
  import opened Backends
  import opened DockerSource

  /** An agent service, as stored under its ID: name, address, port and tags. */
  datatype AgentService = AgentService(name: string, address: string, port: int, tags: seq<string>)

  /** How `Run` ends: the context was cancelled (the event stream ended), purging failed, or refreshing panicked. */
  datatype RunOutcome = Cancelled | PurgeFailed(msg: string) | Panicked

  /** The tags of every service registered by `Refresh`, instead of the static tags. */
  const RefreshTags: seq<string> := ["dc=remote"]

  /** The ID (and name) a service is registered under: `<prefix>-<service name>`. */
  function ServiceID(prefix: string, name: string): (id: string)
    ensures prefix <= id
  {
    prefix + "-" + name
  }

  /** The registered port: the integer before the first `/` of the port key, if it parses. */
  function RegisteredPort(port: string): Option<int>
  {
    Atoi(Split(port, '/')[0])
  }

  /** The record registered for `service` on port `n`. */
  function Registration(prefix: string, address: string, n: int, service: ServiceWithLabels): AgentService
  {
    AgentService(ServiceID(prefix, service.name), address, n, service.labels)
  }

  /** Visiting `port` registers (or re-registers) the service ID `id`. */
  ghost predicate Registers(services: map<string, ServiceWithLabels>, port: string, id: string,
                            rejected: set<string>, prefix: string)
  {
    port in services && RegisteredPort(port).Some? && ServiceID(prefix, services[port].name) == id && id !in rejected
  }

  /**
    The service table after registering the services of the ports in
    `order`: an entry whose port does not parse is skipped, a rejected
    registration changes nothing, and a later registration of the same ID
    replaces an earlier one.
   */
  function Registered(order: seq<string>, services: map<string, ServiceWithLabels>, agent: map<string, AgentService>,
                      rejected: set<string>, prefix: string, address: string): map<string, AgentService>
    requires forall i :: 0 <= i < |order| ==> order[i] in services
    decreases |order|
  {
    if order == [] then agent
    else
      var acc := Registered(order[..|order| - 1], services, agent, rejected, prefix, address);
      var port := order[|order| - 1];
      var id := ServiceID(prefix, services[port].name);
      match RegisteredPort(port)
      case None => acc
      case Some(n) => if id in rejected then acc else acc[id := Registration(prefix, address, n, services[port])]
  }

  /** The service table after a purge: every service whose ID has the prefix is gone, unless the agent refused. */
  function Purged(agent: map<string, AgentService>, prefix: string, refused: set<string>): map<string, AgentService>
  {
    map id | id in agent && (!(prefix <= id) || id in refused) :: agent[id]
  }

  /** The service table after deregistering `id`. */
  function Deregistered(agent: map<string, AgentService>, id: string, refused: set<string>): map<string, AgentService>
  {
    if id in refused then agent else agent - {id}
  }

  /**
    The port map after the rekeying loop of `Refresh` visits the raw ports
    in `order`: a port whose canonical key is mapped moves its service to
    the host port of its first binding. `None` is the panic of indexing the
    empty binding list of such a port.
   */
  function Rekeyed(order: seq<Port>, raw: map<Port, seq<PortBinding>>, ports: map<string, string>): Option<map<string, string>>
    requires forall i :: 0 <= i < |order| ==> order[i] in raw
    decreases |order|
  {
    if order == [] then Some(ports)
    else
      match Rekeyed(order[..|order| - 1], raw, ports)
      case None => None
      case Some(acc) =>
        var port := order[|order| - 1];
        var key := Canonical(port);
        if key !in acc then Some(acc)
        else if |raw[port]| == 0 then None
        else Some(acc[raw[port][0].hostPort := acc[key]] - {key})
  }

  /**
    The rekeying loop of `Refresh` over the container's raw ports, stopping
    at the first port that would index an empty binding list.
   */
  method RekeyPorts(raw: map<Port, seq<PortBinding>>, ports: map<string, string>)
    returns (r: Option<map<string, string>>, ghost order: seq<Port>)
    ensures PartialOrder(order, raw.Keys)
    ensures r == Rekeyed(order, raw, ports)
    ensures r.Some? ==> IsIterationOrder(order, raw.Keys)
  {
    var cur := ports;
    order := [];
    var todo := raw.Keys;
    VisitedStart(raw.Keys);
    while todo != {}
      invariant Visited(raw.Keys, todo, order)
      invariant Rekeyed(order, raw, ports) == Some(cur)
      decreases |todo|
    {
      var port :| port in todo;
      var info := raw[port];
      VisitedStep(raw.Keys, todo, order, port);
      assert (order + [port])[..|order|] == order;
      order := order + [port];
      todo := todo - {port};
      var key := PortNumber(port) + "/" + Proto(port);
      if key in cur {
        if |info| == 0 {
          // info[0] is out of range: the goroutine panics
          return None, order;
        }
        cur := cur[info[0].hostPort := cur[key]] - {key};
      }
    }
    VisitedDone(raw.Keys, order);
    r := Some(cur);
  }

  /** The last visited port either registers its service ID or leaves the table as it was. */
  lemma RegisteredStep(order: seq<string>, services: map<string, ServiceWithLabels>,
                       agent: map<string, AgentService>, rejected: set<string>, prefix: string, address: string)
    requires order != []
    requires forall i :: 0 <= i < |order| ==> order[i] in services
    ensures var port := order[|order| - 1];
      var r0 := Registered(order[..|order| - 1], services, agent, rejected, prefix, address);
      Registered(order, services, agent, rejected, prefix, address) ==
        if Registers(services, port, ServiceID(prefix, services[port].name), rejected, prefix)
        then r0[ServiceID(prefix, services[port].name) :=
                Registration(prefix, address, RegisteredPort(port).value, services[port])]
        else r0
  {
  }

  /** Registration removes no ID, and every ID a visited port registers is present afterwards. */
  lemma {:induction false} RegisteredKeys(order: seq<string>, services: map<string, ServiceWithLabels>,
                                          agent: map<string, AgentService>, rejected: set<string>, prefix: string,
                                          address: string)
    requires forall i :: 0 <= i < |order| ==> order[i] in services
    ensures agent.Keys <= Registered(order, services, agent, rejected, prefix, address).Keys
    ensures forall i, id :: 0 <= i < |order| && Registers(services, order[i], id, rejected, prefix) ==>
      id in Registered(order, services, agent, rejected, prefix, address)
    decreases |order|
  {
    if order != [] {
      var init := order[..|order| - 1];
      RegisteredKeys(init, services, agent, rejected, prefix, address);
      RegisteredStep(order, services, agent, rejected, prefix, address);
      forall i, id | 0 <= i < |order| - 1 && Registers(services, order[i], id, rejected, prefix)
        ensures id in Registered(order, services, agent, rejected, prefix, address)
      {
        assert init[i] == order[i];
      }
    }
  }

  /**
    Every entry a registration adds or changes is the registration of a
    visited port: `<prefix>-<name>` at the forward address, on the parsed
    port, with the service's tags.
   */
  lemma {:induction false} RegisteredChanged(order: seq<string>, services: map<string, ServiceWithLabels>,
                                             agent: map<string, AgentService>, rejected: set<string>, prefix: string,
                                             address: string)
    requires forall i :: 0 <= i < |order| ==> order[i] in services
    ensures forall id :: (id in Registered(order, services, agent, rejected, prefix, address) &&
      (id !in agent || Registered(order, services, agent, rejected, prefix, address)[id] != agent[id])) ==>
      exists i :: (0 <= i < |order| && Registers(services, order[i], id, rejected, prefix) &&
        Registered(order, services, agent, rejected, prefix, address)[id] ==
          Registration(prefix, address, RegisteredPort(order[i]).value, services[order[i]]))
    decreases |order|
  {
    if order != [] {
      var init := order[..|order| - 1];
      var last := |order| - 1;
      RegisteredChanged(init, services, agent, rejected, prefix, address);
      RegisteredStep(order, services, agent, rejected, prefix, address);
      var r := Registered(order, services, agent, rejected, prefix, address);
      var r0 := Registered(init, services, agent, rejected, prefix, address);
      forall id | id in r && (id !in agent || r[id] != agent[id])
        ensures exists i :: (0 <= i < |order| && Registers(services, order[i], id, rejected, prefix) &&
          r[id] == Registration(prefix, address, RegisteredPort(order[i]).value, services[order[i]]))
      {
        if id in r0 && (id !in agent || r0[id] != agent[id]) {
          var i :| 0 <= i < |init| && Registers(services, init[i], id, rejected, prefix) &&
            r0[id] == Registration(prefix, address, RegisteredPort(init[i]).value, services[init[i]]);
          assert order[i] == init[i];
        }
        RegisteredChangedAt(order, services, agent, rejected, prefix, address, r0, r, id);
      }
    }
  }

  /** The induction step of `RegisteredChanged` for one ID. */
  lemma RegisteredChangedAt(order: seq<string>, services: map<string, ServiceWithLabels>,
                            agent: map<string, AgentService>, rejected: set<string>, prefix: string, address: string,
                            r0: map<string, AgentService>, r: map<string, AgentService>, id: string)
    requires order != [] && order[|order| - 1] in services
    requires r == if Registers(services, order[|order| - 1], ServiceID(prefix, services[order[|order| - 1]].name), rejected, prefix)
      then r0[ServiceID(prefix, services[order[|order| - 1]].name) :=
              Registration(prefix, address, RegisteredPort(order[|order| - 1]).value, services[order[|order| - 1]])]
      else r0
    requires id in r0 && (id !in agent || r0[id] != agent[id]) ==>
      exists i :: (0 <= i < |order| - 1 && Registers(services, order[i], id, rejected, prefix) &&
        r0[id] == Registration(prefix, address, RegisteredPort(order[i]).value, services[order[i]]))
    requires id in r && (id !in agent || r[id] != agent[id])
    ensures exists i :: (0 <= i < |order| && Registers(services, order[i], id, rejected, prefix) &&
      r[id] == Registration(prefix, address, RegisteredPort(order[i]).value, services[order[i]]))
  {
    var last := |order| - 1;
    if Registers(services, order[last], id, rejected, prefix) {
      assert r[id] == Registration(prefix, address, RegisteredPort(order[last]).value, services[order[last]]);
    } else {
      assert id in r0 && r[id] == r0[id];
    }
  }

  /**
    When every service's tags begin with `tags`, so does every entry a
    registration adds or changes, which is also registered under its own
    name, with the prefix, at the forward address.
   */
  lemma RegisteredTagsPrefix(order: seq<string>, services: map<string, ServiceWithLabels>,
                             agent: map<string, AgentService>, rejected: set<string>, prefix: string,
                             address: string, tags: seq<string>)
    requires forall i :: 0 <= i < |order| ==> order[i] in services
    requires forall p :: p in services ==> |tags| <= |services[p].labels| && services[p].labels[..|tags|] == tags
    ensures forall id :: (id in Registered(order, services, agent, rejected, prefix, address) &&
      (id !in agent || Registered(order, services, agent, rejected, prefix, address)[id] != agent[id])) ==>
        var s := Registered(order, services, agent, rejected, prefix, address)[id];
        prefix <= id && s.name == id && s.address == address && |tags| <= |s.tags| && s.tags[..|tags|] == tags
  {
    RegisteredChanged(order, services, agent, rejected, prefix, address);
  }

  /**
    A purge removes whatever the backend registered, except the services
    whose deregistration the agent refuses: purging after registering is
    purging before, plus the registered entries the agent keeps.
   */
  lemma PurgeUndoesRegister(order: seq<string>, services: map<string, ServiceWithLabels>,
                            agent: map<string, AgentService>, refusedRegister: set<string>,
                            refusedDeregister: set<string>, prefix: string, address: string)
    requires forall i :: 0 <= i < |order| ==> order[i] in services
    ensures var r := Registered(order, services, agent, refusedRegister, prefix, address);
      Purged(r, prefix, refusedDeregister) ==
        Purged(agent, prefix, refusedDeregister) + (map id | id in r && prefix <= id && id in refusedDeregister :: r[id])
  {
    var r := Registered(order, services, agent, refusedRegister, prefix, address);
    RegisteredKeys(order, services, agent, refusedRegister, prefix, address);
    RegisteredKeepsUnprefixed(order, services, agent, refusedRegister, prefix, address);
  }

  /** Registering never adds or changes an entry whose ID lacks the prefix. */
  lemma RegisteredKeepsUnprefixed(order: seq<string>, services: map<string, ServiceWithLabels>,
                                  agent: map<string, AgentService>, refused: set<string>, prefix: string,
                                  address: string)
    requires forall i :: 0 <= i < |order| ==> order[i] in services
    ensures var r := Registered(order, services, agent, refused, prefix, address);
      forall id :: id in r && !(prefix <= id) ==> id in agent && r[id] == agent[id]
  {
    RegisteredChanged(order, services, agent, refused, prefix, address);
  }

  /** When the agent deregisters everything it is asked to, purging after registering is purging before. */
  lemma PurgeUndoesRegisterWhenAccepted(order: seq<string>, services: map<string, ServiceWithLabels>,
                                        agent: map<string, AgentService>, refusedRegister: set<string>,
                                        prefix: string, address: string)
    requires forall i :: 0 <= i < |order| ==> order[i] in services
    ensures Purged(Registered(order, services, agent, refusedRegister, prefix, address), prefix, {}) ==
      Purged(agent, prefix, {})
  {
    PurgeUndoesRegister(order, services, agent, refusedRegister, {}, prefix, address);
  }

  /** Purging twice is purging once. */
  lemma PurgedIdempotent(agent: map<string, AgentService>, prefix: string, refused: set<string>)
    ensures Purged(Purged(agent, prefix, refused), prefix, refused) == Purged(agent, prefix, refused)
  {
    assert Purged(Purged(agent, prefix, refused), prefix, refused).Keys == Purged(agent, prefix, refused).Keys;
  }

  /**
    A `stop` deregisters the container ID, not the `<prefix>-<name>` ID the
    services were registered under: unless the two coincide, a registered
    service survives its container's `stop`.
   */
  lemma StopKeepsRegisteredService(order: seq<string>, services: map<string, ServiceWithLabels>,
                                   agent: map<string, AgentService>, refusedRegister: set<string>,
                                   refusedDeregister: set<string>, prefix: string,
                                   address: string, port: string, containerID: string)
    requires IsIterationOrder(order, services.Keys)
    requires port in services
    requires Registers(services, port, ServiceID(prefix, services[port].name), refusedRegister, prefix)
    requires containerID != ServiceID(prefix, services[port].name)
    ensures ServiceID(prefix, services[port].name) in
      Deregistered(Registered(order, services, agent, refusedRegister, prefix, address), containerID, refusedDeregister)
  {
    RegisteredKeys(order, services, agent, refusedRegister, prefix, address);
    var i :| 0 <= i < |order| && order[i] == port;
    assert Registers(services, order[i], ServiceID(prefix, services[port].name), refusedRegister, prefix);
  }

  /** Without a mapped canonical key among the visited raw ports, rekeying changes nothing. */
  lemma {:induction false} RekeyUnmapped(order: seq<Port>, raw: map<Port, seq<PortBinding>>, ports: map<string, string>)
    requires forall i :: 0 <= i < |order| ==> order[i] in raw && Canonical(order[i]) !in ports
    ensures Rekeyed(order, raw, ports) == Some(ports)
    decreases |order|
  {
    if order != [] {
      RekeyUnmapped(order[..|order| - 1], raw, ports);
    }
  }

  /** A mapped port with a binding moves its service to the first binding's host port. */
  lemma RekeyMovesToHostPort(port: Port, raw: map<Port, seq<PortBinding>>, ports: map<string, string>)
    requires port in raw && Canonical(port) in ports && |raw[port]| > 0
    ensures Rekeyed([port], raw, ports) ==
      Some(ports[raw[port][0].hostPort := ports[Canonical(port)]] - {Canonical(port)})
  {
    assert [port][..0] == [];
  }

  /** A mapped port without a binding makes the rekeying panic, whatever follows. */
  lemma RekeyPanicsWithoutBinding(port: Port, raw: map<Port, seq<PortBinding>>, ports: map<string, string>)
    requires port in raw && Canonical(port) in ports && raw[port] == []
    ensures Rekeyed([port], raw, ports) == None
  {
    assert [port][..0] == [];
  }

  /**
    With host ports that are plain numbers (no `/`), no canonical key of a
    visited raw port is left after rekeying: each was moved to a host port.
   */
  lemma {:induction false} RekeyRemovesVisitedKeys(order: seq<Port>, raw: map<Port, seq<PortBinding>>,
                                                   ports: map<string, string>)
    requires forall i :: 0 <= i < |order| ==> order[i] in raw
    requires forall p :: p in raw ==> forall b :: b in raw[p] ==> '/' !in b.hostPort
    requires Rekeyed(order, raw, ports).Some?
    ensures forall i :: 0 <= i < |order| && Canonical(order[i]) in ports ==>
      Canonical(order[i]) !in Rekeyed(order, raw, ports).value
    decreases |order|
  {
    if order != [] {
      var init := order[..|order| - 1];
      var last := |order| - 1;
      var port := order[last];
      assert Rekeyed(init, raw, ports).Some?;
      RekeyRemovesVisitedKeys(init, raw, ports);
      var acc := Rekeyed(init, raw, ports).value;
      var m := Rekeyed(order, raw, ports).value;
      forall i | 0 <= i < |order| && Canonical(order[i]) in ports
        ensures Canonical(order[i]) !in m
      {
        var key := Canonical(order[i]);
        if i < last {
          assert init[i] == order[i];
          assert key !in acc;
        }
        if Canonical(port) in acc {
          assert raw[port][0] in raw[port];
          assert '/' !in raw[port][0].hostPort;
          assert raw[port][0].hostPort != key;
        }
      }
    }
  }

  /** The Consul backend (Go: `consul.Backend`) and the agent it talks to. */
  class Backend {
    /** `backends.ServicePrefix`. */
    const servicePrefix: string
    /** `backends.ServiceLabelPort`: the prefix of the port labels. */
    const portLabelPrefix: string
    const forwardAddress: string
    const staticLabels: seq<string>
    /** The service IDs the agent refuses to register. */
    const refusedRegister: set<string>
    /** The service IDs the agent refuses to deregister. */
    const refusedDeregister: set<string>
    /** Whether listing the agent's services fails. */
    const listFails: bool
    /** The agent's services, by ID. */
    var agent: map<string, AgentService>

    constructor New(servicePrefix: string, portLabelPrefix: string, forwardAddress: string, staticLabels: seq<string>,
                    refusedRegister: set<string>, refusedDeregister: set<string>, listFails: bool,
                    agent: map<string, AgentService>)
      ensures this.servicePrefix == servicePrefix && this.portLabelPrefix == portLabelPrefix
      ensures this.forwardAddress == forwardAddress && this.staticLabels == staticLabels
      ensures this.refusedRegister == refusedRegister && this.refusedDeregister == refusedDeregister
      ensures this.listFails == listFails && this.agent == agent
    {
      this.servicePrefix := servicePrefix;
      this.portLabelPrefix := portLabelPrefix;
      this.forwardAddress := forwardAddress;
      this.staticLabels := staticLabels;
      this.refusedRegister := refusedRegister;
      this.refusedDeregister := refusedDeregister;
      this.listFails := listFails;
      this.agent := agent;
    }

    /** `after` is the table after registering `services` in some order. */
    ghost predicate RegistersTo(before: map<string, AgentService>, after: map<string, AgentService>,
                                services: map<string, ServiceWithLabels>)
    {
      exists order :: IsIterationOrder(order, services.Keys) &&
        after == Registered(order, services, before, refusedRegister, servicePrefix, forwardAddress)
    }

    /** `after` is the table after a `start` of a container with these labels. */
    ghost predicate StartsTo(before: map<string, AgentService>, after: map<string, AgentService>,
                             labels: map<string, string>)
    {
      exists services :: MappedServices(services, labels, portLabelPrefix, staticLabels) && RegistersTo(before, after, services)
    }

    /** `after` is the table after refreshing the container `c`. */
    ghost predicate RefreshesTo(before: map<string, AgentService>, after: map<string, AgentService>,
                                c: InspectedContainer)
    {
      exists services :: RefreshedServices(services, c) && RegistersTo(before, after, services)
    }

    /** `services` is what `Refresh` may build for `c`: its port labels, rekeyed to host ports, with the remote tag. */
    ghost predicate RefreshedServices(services: map<string, ServiceWithLabels>, c: InspectedContainer)
    {
      exists o :: IsIterationOrder(o, PrefixedKeys(c.labels, portLabelPrefix)) &&
        exists o' :: IsIterationOrder(o', c.ports.Keys) && Rekeyed(o', c.ports, MergedPorts(o, c.labels)).Some? &&
          IsServiceMap(services, Rekeyed(o', c.ports, MergedPorts(o, c.labels)).value, c.labels,
                       RefreshTags, [TraefikLabelFilterFunc])
    }

    /** Refreshing `c` can panic: a mapped port has no binding. */
    ghost predicate PanicsOn(c: InspectedContainer)
    {
      exists o :: IsIterationOrder(o, PrefixedKeys(c.labels, portLabelPrefix)) &&
        exists o' :: PartialOrder(o', c.ports.Keys) && Rekeyed(o', c.ports, MergedPorts(o, c.labels)) == None
    }

    /** What one event does to the table: `start` registers, `stop` deregisters the container ID, anything else nothing. */
    ghost predicate EventStep(before: map<string, AgentService>, after: map<string, AgentService>, e: ContainerEvent)
    {
      if e.action == "start" then StartsTo(before, after, e.container.labels)
      else if e.action == "stop" then after == Deregistered(before, e.container.id, refusedDeregister)
      else after == before
    }

    /** `states` walks from `before` through one refresh per container. */
    ghost predicate RefreshTrace(states: seq<map<string, AgentService>>, containers: seq<InspectedContainer>)
    {
      |states| <= |containers| + 1 &&
      forall i :: 0 <= i < |states| - 1 ==> RefreshesTo(states[i], states[i + 1], containers[i])
    }

    /** Registering services whose tags all begin with `tags` changes only entries so tagged. */
    lemma RegistersWithTags(before: map<string, AgentService>, after: map<string, AgentService>,
                            services: map<string, ServiceWithLabels>, tags: seq<string>)
      requires RegistersTo(before, after, services)
      requires forall p :: p in services ==> |tags| <= |services[p].labels| && services[p].labels[..|tags|] == tags
      ensures forall id :: (id in after && (id !in before || after[id] != before[id])) ==>
        servicePrefix <= id && after[id].name == id && after[id].address == forwardAddress &&
        |tags| <= |after[id].tags| && after[id].tags[..|tags|] == tags
    {
      var order :| IsIterationOrder(order, services.Keys) &&
        after == Registered(order, services, before, refusedRegister, servicePrefix, forwardAddress);
      RegisteredTagsPrefix(order, services, before, refusedRegister, servicePrefix, forwardAddress, tags);
    }

    /** A `start` adds or changes only entries named after their ID, at the forward address, tagged first with the static tags. */
    lemma StartUsesStaticTags(before: map<string, AgentService>, after: map<string, AgentService>,
                              labels: map<string, string>)
      requires StartsTo(before, after, labels)
      ensures forall id :: (id in after && (id !in before || after[id] != before[id])) ==>
        servicePrefix <= id && after[id].name == id && after[id].address == forwardAddress &&
        |staticLabels| <= |after[id].tags| && after[id].tags[..|staticLabels|] == staticLabels
    {
      var services :| MappedServices(services, labels, portLabelPrefix, staticLabels) && RegistersTo(before, after, services);
      var o :| IsIterationOrder(o, PrefixedKeys(labels, portLabelPrefix)) &&
        IsServiceMap(services, MergedPorts(o, labels), labels, staticLabels, [TraefikLabelFilterFunc]);
      ServiceMapTags(services, MergedPorts(o, labels), labels, staticLabels);
      RegistersWithTags(before, after, services, staticLabels);
    }

    /** The services a refresh builds all carry `dc=remote` as their first tag. */
    lemma RefreshedServicesTags(services: map<string, ServiceWithLabels>, c: InspectedContainer)
      requires RefreshedServices(services, c)
      ensures forall p :: p in services ==>
        |RefreshTags| <= |services[p].labels| && services[p].labels[..|RefreshTags|] == RefreshTags
    {
      var o :| IsIterationOrder(o, PrefixedKeys(c.labels, portLabelPrefix)) &&
        exists o' :: IsIterationOrder(o', c.ports.Keys) && Rekeyed(o', c.ports, MergedPorts(o, c.labels)).Some? &&
          IsServiceMap(services, Rekeyed(o', c.ports, MergedPorts(o, c.labels)).value, c.labels,
                       RefreshTags, [TraefikLabelFilterFunc]);
      var o' :| IsIterationOrder(o', c.ports.Keys) && Rekeyed(o', c.ports, MergedPorts(o, c.labels)).Some? &&
        IsServiceMap(services, Rekeyed(o', c.ports, MergedPorts(o, c.labels)).value, c.labels,
                     RefreshTags, [TraefikLabelFilterFunc]);
      ServiceMapTags(services, Rekeyed(o', c.ports, MergedPorts(o, c.labels)).value, c.labels, RefreshTags);
    }

    /** A refresh registers with the tag `dc=remote` first, never with the static tags. */
    lemma RefreshUsesRemoteTag(before: map<string, AgentService>, after: map<string, AgentService>,
                               c: InspectedContainer)
      requires RefreshesTo(before, after, c)
      ensures forall id :: (id in after && (id !in before || after[id] != before[id])) ==>
        servicePrefix <= id && after[id].name == id && after[id].address == forwardAddress &&
        |RefreshTags| <= |after[id].tags| && after[id].tags[..|RefreshTags|] == RefreshTags
    {
      var services :| RefreshedServices(services, c) && RegistersTo(before, after, services);
      RefreshedServicesTags(services, c);
      RegistersWithTags(before, after, services, RefreshTags);
    }

    /**
      The Docker source forwards only `start` and `kill`, and neither
      deregisters: on its events the table never loses a service.
     */
    lemma ForwardedEventsNeverDeregister(before: map<string, AgentService>, after: map<string, AgentService>,
                                         e: ContainerEvent)
      requires Forwarded(e.action)
      requires EventStep(before, after, e)
      ensures before.Keys <= after.Keys
    {
      if e.action == "start" {
        var services :| MappedServices(services, e.container.labels, portLabelPrefix, staticLabels) && RegistersTo(before, after, services);
        var order :| IsIterationOrder(order, services.Keys) &&
          after == Registered(order, services, before, refusedRegister, servicePrefix, forwardAddress);
        RegisteredKeys(order, services, before, refusedRegister, servicePrefix, forwardAddress);
      }
    }

    /** Over a whole stream of Docker-sourced events, `Run` only ever adds or updates services. */
    lemma {:induction false} DockerStreamNeverDeregisters(trace: seq<map<string, AgentService>>, events: seq<ContainerEvent>)
      requires |trace| == |events| + 1
      requires forall i :: 0 <= i < |events| ==> Forwarded(events[i].action)
      requires forall i :: 0 <= i < |events| ==> EventStep(trace[i], trace[i + 1], events[i])
      ensures trace[0].Keys <= trace[|events|].Keys
      decreases |events|
    {
      if events != [] {
        var n := |events| - 1;
        DockerStreamNeverDeregisters(trace[..n + 1], events[..n]);
        ForwardedEventsNeverDeregister(trace[n], trace[n + 1], events[n]);
      }
    }

    /**
      `RegisterServices`: registers `<prefix>-<name>` at the forward address
      with the service's tags, on the port parsed from the port key; a key that
      does not parse is skipped and a failed registration is only logged, so
      the result is always nil.
     */
    method RegisterServices(ports: map<string, ServiceWithLabels>) returns (err: Option<string>, ghost order: seq<string>)
      modifies this
      ensures err == None
      ensures IsIterationOrder(order, ports.Keys)
      ensures agent == Registered(order, ports, old(agent), refusedRegister, servicePrefix, forwardAddress)
    {
      order := [];
      var todo := ports.Keys;
      VisitedStart(ports.Keys);
      while todo != {}
        invariant Visited(ports.Keys, todo, order)
        invariant agent == Registered(order, ports, old(agent), refusedRegister, servicePrefix, forwardAddress)
        decreases |todo|
      {
        var port :| port in todo;
        var service := ports[port];
        VisitedStep(ports.Keys, todo, order, port);
        assert (order + [port])[..|order|] == order;
        order := order + [port];
        todo := todo - {port};
        var id := servicePrefix + "-" + service.name;
        var parsed := Atoi(Split(port, '/')[0]);
        if parsed.None? {
          // error parsing port: logged, entry skipped
          continue;
        }
        var registration := AgentService(id, forwardAddress, parsed.value, service.labels);
        if id !in refusedRegister {
          agent := agent[id := registration];
        }
      }
      VisitedDone(ports.Keys, order);
      err := None;
    }

    /** `ServiceDeregister(id)`: an error when the agent refuses. */
    method Deregister(id: string) returns (err: Option<string>)
      modifies this
      ensures agent == Deregistered(old(agent), id, refusedDeregister)
      ensures err.Some? <==> id in refusedDeregister
    {
      if id in refusedDeregister {
        return Some("could not deregister " + id);
      }
      agent := agent - {id};
      return None;
    }

    /**
      `Purge`: lists the agent's services and deregisters each one whose ID
      starts with the prefix; a refused deregistration is only logged. The
      only error is a failed listing, which leaves the table as it was.
     */
    method Purge() returns (err: Option<string>)
      modifies this
      ensures listFails ==> err.Some? && agent == old(agent)
      ensures !listFails ==> err == None && agent == Purged(old(agent), servicePrefix, refusedDeregister)
    {
      if listFails {
        return Some("could not agent.Services");
      }
      var services := agent;
      var todo := services.Keys;
      while todo != {}
        invariant todo <= services.Keys
        invariant agent.Keys == set id | id in services && (id in todo || !(servicePrefix <= id) || id in refusedDeregister)
        invariant forall id :: id in agent ==> agent[id] == services[id]
        decreases |todo|
      {
        var name :| name in todo;
        if servicePrefix <= name {
          var e := Deregister(name);
        }
        todo := todo - {name};
      }
      assert agent.Keys == Purged(services, servicePrefix, refusedDeregister).Keys;
      return None;
    }

    /** One container of `Refresh`: extract, rekey to host ports, map with the remote tag, register. */
    method RefreshContainer(c: InspectedContainer) returns (panicked: bool)
      modifies this
      ensures panicked ==> agent == old(agent) && PanicsOn(c)
      ensures !panicked ==> RefreshesTo(old(agent), agent, c)
    {
      var ports, o := ExtractPorts(c.labels, portLabelPrefix);
      var rekeyed, o' := RekeyPorts(c.ports, ports);
      if rekeyed.None? {
        return true;
      }
      var services := MapServices(rekeyed.value, c.labels, RefreshTags, [TraefikLabelFilterFunc]);
      var err, o'' := RegisterServices(services);
      assert RefreshedServices(services, c);
      assert RegistersTo(old(agent), agent, services);
      return false;
    }

    /**
      `Refresh`: re-registers every container in turn. It always returns nil;
      the only way it stops early is the panic of a mapped port without a
      binding. `states` are the tables after each refreshed container.
     */
    method Refresh(containers: seq<InspectedContainer>) returns (panicked: bool, ghost states: seq<map<string, AgentService>>)
      modifies this
      ensures |states| >= 1 && states[0] == old(agent) && states[|states| - 1] == agent
      ensures RefreshTrace(states, containers)
      ensures !panicked ==> |states| == |containers| + 1
      ensures panicked ==> |states| <= |containers| && PanicsOn(containers[|states| - 1])
    {
      states := [agent];
      var n := 0;
      while n < |containers|
        invariant 0 <= n <= |containers|
        invariant |states| == n + 1 && states[0] == old(agent) && states[n] == agent
        invariant RefreshTrace(states, containers)
      {
        panicked := RefreshContainer(containers[n]);
        if panicked {
          return;
        }
        RefreshTraceStep(states, containers, agent);
        states := states + [agent];
        n := n + 1;
      }
      panicked := false;
    }

    /** A trace extended by one more refreshed container is still a trace. */
    lemma RefreshTraceStep(states: seq<map<string, AgentService>>, containers: seq<InspectedContainer>,
                           after: map<string, AgentService>)
      requires RefreshTrace(states, containers)
      requires 1 <= |states| <= |containers|
      requires RefreshesTo(states[|states| - 1], after, containers[|states| - 1])
      ensures RefreshTrace(states + [after], containers)
    {
    }

    /** The table after the startup phase: the purge (when asked for), then the refresh (for a non-empty list). */
    ghost predicate Prepared(before: map<string, AgentService>, after: map<string, AgentService>,
                             purgeOnStart: bool, containersToRefresh: seq<InspectedContainer>)
    {
      var purged := if purgeOnStart then Purged(before, servicePrefix, refusedDeregister) else before;
      if |containersToRefresh| == 0 then after == purged
      else exists states :: (|states| == |containersToRefresh| + 1 && states[0] == purged &&
        states[|containersToRefresh|] == after && RefreshTrace(states, containersToRefresh))
    }

    /** One event of the loop of `Run`. */
    method HandleEvent(e: ContainerEvent)
      modifies this
      ensures EventStep(old(agent), agent, e)
    {
      match e.action
      case "start" =>
        var services := ServicesFromLabels(e.container.labels, portLabelPrefix, staticLabels);
        var err, o := RegisterServices(services);
        assert RegistersTo(old(agent), agent, services);
      case "stop" =>
        var err := Deregister(e.container.id);
      case _ =>
    }

    /**
      `Run`: the purge (when asked for; a failure ends `Run` before any
      event), the refresh (for a non-empty list), then every event of the
      stream in turn until it ends. `trace` holds the table before each event
      and after the last.
     */
    method Run(events: seq<ContainerEvent>, purgeOnStart: bool, containersToRefresh: seq<InspectedContainer>)
      returns (outcome: RunOutcome, ghost trace: seq<map<string, AgentService>>)
      modifies this
      ensures outcome.PurgeFailed? <==> purgeOnStart && listFails
      ensures outcome.PurgeFailed? ==> agent == old(agent)
      ensures outcome.Panicked? ==>
        exists i :: 0 <= i < |containersToRefresh| && PanicsOn(containersToRefresh[i])
      ensures outcome.Cancelled? ==>
        && |trace| == |events| + 1
        && Prepared(old(agent), trace[0], purgeOnStart, containersToRefresh)
        && trace[|events|] == agent
        && forall i :: 0 <= i < |events| ==> EventStep(trace[i], trace[i + 1], events[i])
    {
      trace := [];
      if purgeOnStart {
        var err := Purge();
        if err.Some? {
          return PurgeFailed("could not purge: " + err.value), trace;
        }
      }
      if |containersToRefresh| > 0 {
        var panicked, states := Refresh(containersToRefresh);
        if panicked {
          assert PanicsOn(containersToRefresh[|states| - 1]);
          return Panicked, trace;
        }
      }
      trace := [agent];
      var n := 0;
      while n < |events|
        invariant 0 <= n <= |events|
        invariant |trace| == n + 1 && trace[n] == agent
        invariant Prepared(old(agent), trace[0], purgeOnStart, containersToRefresh)
        invariant forall i :: 0 <= i < n ==> EventStep(trace[i], trace[i + 1], events[i])
      {
        HandleEvent(events[n]);
        trace := trace + [agent];
        n := n + 1;
      }
      outcome := Cancelled;
    }
  }
}
