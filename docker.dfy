/**
  The Docker event source: it lists and inspects containers, turns Docker's
  records into the shared `ContainerInfo`, decides which runtime events are
  forwarded to the backends, and emits one synthetic `start` event per
  container already running at startup.

  The Docker client is replaced by its answers: the container list (or the
  error listing failed with), and an inspection table from container ID to
  the inspected container, where a missing ID stands for a failed inspection.
  The runtime's event stream is the finite sequence of events it delivers
  before it ends or the context is cancelled.
 */
module DockerSource {
  import opened Wrappers
  import opened GoStrings
  import opened Types

  /** A 16-bit port number, as Docker reports private and public ports. */
  type UInt16 = n: nat | n < 0x1_0000

  /** A published port of a listed container (Go: `types.Port`). */
  datatype APIPort = APIPort(ip: string, privatePort: UInt16, publicPort: UInt16, portType: string)

  /** A container as the list call returns it (Go: `types.Container`). */
  datatype ListedContainer = ListedContainer(id: string, labels: map<string, string>, ports: seq<APIPort>)

  /** A container as inspection returns it (Go: `types.ContainerJSON`): ports keyed by raw tokens. */
  datatype InspectedContainer = InspectedContainer(id: string, labels: map<string, string>,
                                                   ports: map<Port, seq<PortBinding>>)

  /** A runtime event: its action and the ID of the container it concerns. */
  datatype DockerEvent = DockerEvent(action: string, actorID: string)

  /** The label carrying the creg instance a container is meant for. */
  const CregIDLabel: string := "creg.id"

  // ---------------------------------------------------------------------------
  // ConvertNetworkSettingsFromDocker / ConvertContainerFromDocker
  // ---------------------------------------------------------------------------

  /**
    The port map after visiting the ports in `order`: each port with at least
    one binding is filed under its canonical `port/proto` key with its first
    binding only; ports without bindings are skipped.
   */
  function ConvertedPorts(order: seq<Port>, ports: map<Port, seq<PortBinding>>): map<Port, seq<PortBinding>>
    requires forall i :: 0 <= i < |order| ==> order[i] in ports
    decreases |order|
  {
    if order == [] then map[]
    else
      var acc := ConvertedPorts(order[..|order| - 1], ports);
      var p := order[|order| - 1];
      if |ports[p]| > 0 then acc[Canonical(p) := [ports[p][0]]] else acc
  }

  /**
    `ConvertNetworkSettingsFromDocker`. Go visits the ports in an unspecified
    order, which matters only when two raw tokens share a canonical key;
    `order` is the order this run used.
   */
  method ConvertNetworkSettingsFromDocker(ports: map<Port, seq<PortBinding>>)
    returns (converted: map<Port, seq<PortBinding>>, ghost order: seq<Port>)
    ensures IsIterationOrder(order, ports.Keys)
    ensures converted == ConvertedPorts(order, ports)
    ensures forall k :: k in converted <==> exists p :: p in ports && |ports[p]| > 0 && Canonical(p) == k
    ensures forall k :: k in converted ==>
      exists p :: p in ports && |ports[p]| > 0 && Canonical(p) == k && converted[k] == [ports[p][0]]
  {
    converted := map[];
    order := [];
    var todo := ports.Keys;
    VisitedStart(ports.Keys);
    while todo != {}
      invariant Visited(ports.Keys, todo, order)
      invariant converted == ConvertedPorts(order, ports)
      decreases |todo|
    {
      var port :| port in todo;
      var info := ports[port];
      VisitedStep(ports.Keys, todo, order, port);
      assert (order + [port])[..|order|] == order;
      if |info| > 0 {
        converted := converted[Canonical(port) := [PortBinding(info[0].hostIP, info[0].hostPort)]];
      }
      order := order + [port];
      todo := todo - {port};
    }
    VisitedDone(ports.Keys, order);
    ConvertedSources(order, ports);
  }

  /**
    Whatever the visiting order, the converted keys are exactly the canonical
    keys of the bound ports, each holding the first binding of one of them.
   */
  lemma ConvertedSources(order: seq<Port>, ports: map<Port, seq<PortBinding>>)
    requires IsIterationOrder(order, ports.Keys)
    ensures forall k :: k in ConvertedPorts(order, ports) <==>
      exists p :: p in ports && |ports[p]| > 0 && Canonical(p) == k
    ensures forall k :: k in ConvertedPorts(order, ports) ==>
      exists p :: p in ports && |ports[p]| > 0 && Canonical(p) == k && ConvertedPorts(order, ports)[k] == [ports[p][0]]
  {
    ConvertedKeys(order, ports);
    ConvertedValues(order, ports);
    var m := ConvertedPorts(order, ports);
    forall k | k in m
      ensures exists p :: p in ports && |ports[p]| > 0 && Canonical(p) == k && m[k] == [ports[p][0]]
    {
      var i :| 0 <= i < |order| && |ports[order[i]]| > 0 && Canonical(order[i]) == k && m[k] == [ports[order[i]][0]];
      assert order[i] in ports;
    }
    forall k | exists p :: p in ports && |ports[p]| > 0 && Canonical(p) == k
      ensures k in m
    {
      var p :| p in ports && |ports[p]| > 0 && Canonical(p) == k;
      var i :| 0 <= i < |order| && order[i] == p;
      assert |ports[order[i]]| > 0 && Canonical(order[i]) == k;
    }
  }

  /** The ports carrying at least one binding. */
  function BoundPorts(ports: map<Port, seq<PortBinding>>): set<Port>
  {
    set p | p in ports && |ports[p]| > 0
  }

  /** A converted key is the canonical key of some visited port that has a binding, and every such key is present. */
  lemma {:induction false} ConvertedKeys(order: seq<Port>, ports: map<Port, seq<PortBinding>>)
    requires forall i :: 0 <= i < |order| ==> order[i] in ports
    ensures forall k :: k in ConvertedPorts(order, ports) <==>
      exists i :: 0 <= i < |order| && |ports[order[i]]| > 0 && Canonical(order[i]) == k
    decreases |order|
  {
    if order != [] {
      var init := order[..|order| - 1];
      var last := |order| - 1;
      ConvertedKeys(init, ports);
      forall k | exists i :: 0 <= i < |order| && |ports[order[i]]| > 0 && Canonical(order[i]) == k
        ensures k in ConvertedPorts(order, ports)
      {
        var i :| 0 <= i < |order| && |ports[order[i]]| > 0 && Canonical(order[i]) == k;
        if i < last {
          assert init[i] == order[i];
        }
      }
      forall k | k in ConvertedPorts(order, ports)
        ensures exists i :: 0 <= i < |order| && |ports[order[i]]| > 0 && Canonical(order[i]) == k
      {
        if k in ConvertedPorts(init, ports) {
          var i :| 0 <= i < |init| && |ports[init[i]]| > 0 && Canonical(init[i]) == k;
          assert order[i] == init[i];
        } else {
          assert |ports[order[last]]| > 0 && Canonical(order[last]) == k;
        }
      }
    }
  }

  /** Every converted entry is exactly one binding: the first binding of a visited port with that key. */
  lemma {:induction false} ConvertedValues(order: seq<Port>, ports: map<Port, seq<PortBinding>>)
    requires forall i :: 0 <= i < |order| ==> order[i] in ports
    ensures forall k :: k in ConvertedPorts(order, ports) ==>
      exists i :: (0 <= i < |order| && |ports[order[i]]| > 0 && Canonical(order[i]) == k &&
        ConvertedPorts(order, ports)[k] == [ports[order[i]][0]])
    decreases |order|
  {
    if order != [] {
      var init := order[..|order| - 1];
      var last := |order| - 1;
      ConvertedValues(init, ports);
      var m := ConvertedPorts(order, ports);
      forall k | k in m
        ensures exists i :: (0 <= i < |order| && |ports[order[i]]| > 0 && Canonical(order[i]) == k &&
          m[k] == [ports[order[i]][0]])
      {
        ConvertedValuesAt(order, init, ports, k);
      }
    }
  }

  /** The induction step of `ConvertedValues` for one key. */
  lemma ConvertedValuesAt(order: seq<Port>, init: seq<Port>, ports: map<Port, seq<PortBinding>>, k: Port)
    requires order != [] && init == order[..|order| - 1]
    requires forall i :: 0 <= i < |order| ==> order[i] in ports
    requires forall k :: k in ConvertedPorts(init, ports) ==>
      exists i :: (0 <= i < |init| && |ports[init[i]]| > 0 && Canonical(init[i]) == k &&
        ConvertedPorts(init, ports)[k] == [ports[init[i]][0]])
    requires k in ConvertedPorts(order, ports)
    ensures exists i :: (0 <= i < |order| && |ports[order[i]]| > 0 && Canonical(order[i]) == k &&
      ConvertedPorts(order, ports)[k] == [ports[order[i]][0]])
  {
    var last := |order| - 1;
    var m := ConvertedPorts(order, ports);
    if |ports[order[last]]| > 0 && Canonical(order[last]) == k {
      assert m[k] == [ports[order[last]][0]];
    } else {
      var i :| 0 <= i < |init| && |ports[init[i]]| > 0 && Canonical(init[i]) == k &&
        ConvertedPorts(init, ports)[k] == [ports[init[i]][0]];
      assert order[i] == init[i];
    }
  }

  /**
    When Docker's keys are already canonical (`80/tcp`, as Docker reports
    them), the result does not depend on the order: it keeps exactly the
    ports that have a binding, each with its first binding.
   */
  lemma ConvertCanonicalPorts(order: seq<Port>, ports: map<Port, seq<PortBinding>>)
    requires IsIterationOrder(order, ports.Keys)
    requires forall p :: p in ports ==> Canonical(p) == p
    ensures ConvertedPorts(order, ports).Keys == BoundPorts(ports)
    ensures forall p :: p in BoundPorts(ports) ==> ConvertedPorts(order, ports)[p] == [ports[p][0]]
  {
    ConvertedKeys(order, ports);
    ConvertedValues(order, ports);
    var m := ConvertedPorts(order, ports);
    forall p | p in BoundPorts(ports) ensures p in m {
      var i :| 0 <= i < |order| && order[i] == p;
    }
    forall p | p in m ensures p in BoundPorts(ports) && m[p] == [ports[p][0]] {
      var i :| 0 <= i < |order| && |ports[order[i]]| > 0 && Canonical(order[i]) == p && m[p] == [ports[order[i]][0]];
    }
  }

  /** A container whose ports all lack bindings is converted with an empty port map. */
  lemma {:induction false} ConvertUnbound(order: seq<Port>, ports: map<Port, seq<PortBinding>>)
    requires forall i :: 0 <= i < |order| ==> order[i] in ports && ports[order[i]] == []
    ensures ConvertedPorts(order, ports) == map[]
    decreases |order|
  {
    if order != [] {
      ConvertUnbound(order[..|order| - 1], ports);
    }
  }

  /** `info` is what `ConvertContainerFromDocker` may return for the inspected container `c`. */
  ghost predicate IsConversion(info: ContainerInfo, c: InspectedContainer)
  {
    && info.id == c.id
    && info.labels == c.labels
    && exists order :: IsIterationOrder(order, c.ports.Keys) && info.ports == ConvertedPorts(order, c.ports)
  }

  /** `ConvertContainerFromDocker`: keeps the ID and the labels, and converts the port map. */
  method ConvertContainerFromDocker(c: InspectedContainer) returns (info: ContainerInfo)
    ensures IsConversion(info, c)
  {
    var ports, order := ConvertNetworkSettingsFromDocker(c.ports);
    info := ContainerInfo(c.id, c.labels, ports);
  }

  // ---------------------------------------------------------------------------
  // The filters of the live event stream
  // ---------------------------------------------------------------------------

  /** The runtime actions that are forwarded; every other action is discarded. */
  predicate Forwarded(action: string)
  {
    action == "start" || action == "kill"
  }

  /**
    Whether an inspected container's events are forwarded: with an empty
    enable label, always; otherwise the label must be present with value
    `true`, and a `creg.id` label, if present, must name this instance.
   */
  predicate Eligible(labels: map<string, string>, enableLabel: string, cregID: string)
  {
    enableLabel == "" ||
    (enableLabel in labels && labels[enableLabel] == "true" &&
     (CregIDLabel !in labels || labels[CregIDLabel] == cregID))
  }

  /** The filter of `GetContainersForCreg`: the enable label, when given, must be `true`. */
  predicate Listed(labels: map<string, string>, enable: string)
  {
    enable == "" || (enable in labels && labels[enable] == "true")
  }

  lemma EmptyEnableLabelAdmitsAll(labels: map<string, string>, cregID: string)
    ensures Eligible(labels, "", cregID)
  {
  }

  /** With an enable label, a container is eligible only if the label is present and exactly `true`. */
  lemma EnableLabelMustBeTrue(labels: map<string, string>, enableLabel: string, cregID: string)
    requires enableLabel != ""
    requires enableLabel !in labels || labels[enableLabel] != "true"
    ensures !Eligible(labels, enableLabel, cregID)
  {
  }

  /** A `creg.id` naming another instance excludes the container. */
  lemma CregIDMismatchRejects(labels: map<string, string>, enableLabel: string, cregID: string)
    requires enableLabel != "" && CregIDLabel in labels && labels[CregIDLabel] != cregID
    ensures !Eligible(labels, enableLabel, cregID)
  {
  }

  /** Without a `creg.id` label the enable label alone decides, exactly as in `GetContainersForCreg`. */
  lemma EligibleWithoutCregID(labels: map<string, string>, enableLabel: string, cregID: string)
    requires CregIDLabel !in labels
    ensures Eligible(labels, enableLabel, cregID) <==> Listed(labels, enableLabel)
  {
  }

  /** The events forwarded so far, as (action, inspected container) pairs, in stream order. */
  function Admitted(events: seq<DockerEvent>, inspect: map<string, InspectedContainer>,
                    enableLabel: string, cregID: string): (out: seq<(string, InspectedContainer)>)
    ensures |out| <= |events|
    ensures forall i :: 0 <= i < |out| ==>
      Forwarded(out[i].0) && Eligible(out[i].1.labels, enableLabel, cregID)
    decreases |events|
  {
    if events == [] then []
    else
      var acc := Admitted(events[..|events| - 1], inspect, enableLabel, cregID);
      var e := events[|events| - 1];
      if Forwarded(e.action) && e.actorID in inspect && Eligible(inspect[e.actorID].labels, enableLabel, cregID)
      then acc + [(e.action, inspect[e.actorID])]
      else acc
  }

  /**
    The live half of `GetEventsForCreg`: a `start` or `kill` event is
    inspected; a failed inspection or an ineligible container drops the event,
    anything else is forwarded with the converted container.
   */
  method LiveEvents(events: seq<DockerEvent>, inspect: map<string, InspectedContainer>,
                    enableLabel: string, cregID: string)
    returns (out: seq<ContainerEvent>)
    ensures |out| == |Admitted(events, inspect, enableLabel, cregID)|
    ensures forall i :: 0 <= i < |out| ==>
      out[i].action == Admitted(events, inspect, enableLabel, cregID)[i].0 &&
      IsConversion(out[i].container, Admitted(events, inspect, enableLabel, cregID)[i].1)
  {
    out := [];
    var n := 0;
    while n < |events|
      invariant 0 <= n <= |events|
      invariant |out| == |Admitted(events[..n], inspect, enableLabel, cregID)|
      invariant forall i :: 0 <= i < |out| ==>
        out[i].action == Admitted(events[..n], inspect, enableLabel, cregID)[i].0 &&
        IsConversion(out[i].container, Admitted(events[..n], inspect, enableLabel, cregID)[i].1)
    {
      var event := events[n];
      assert events[..n + 1][..n] == events[..n];
      n := n + 1;
      if event.action == "start" || event.action == "kill" {
        if event.actorID !in inspect {
          // inspection failed: logged, event dropped
          continue;
        }
        var container := inspect[event.actorID];
        if enableLabel != "" {
          if enableLabel !in container.labels || container.labels[enableLabel] != "true" {
            continue;
          }
          if CregIDLabel in container.labels && container.labels[CregIDLabel] != cregID {
            continue;
          }
        }
        var info := ConvertContainerFromDocker(container);
        out := out + [ContainerEvent(event.action, info)];
      }
    }
    assert events[..|events|] == events;
  }

  /** A `stop` (or any action but `start` and `kill`) never reaches the backends. */
  lemma StopNeverForwarded(events: seq<DockerEvent>, inspect: map<string, InspectedContainer>,
                           enableLabel: string, cregID: string, i: nat)
    requires i < |Admitted(events, inspect, enableLabel, cregID)|
    ensures Admitted(events, inspect, enableLabel, cregID)[i].0 != "stop"
  {
  }

  /** How many of `events` are a `start` or a `kill`. */
  function ForwardedCount(events: seq<DockerEvent>): (n: nat)
    ensures n <= |events|
    decreases |events|
  {
    if events == [] then 0
    else ForwardedCount(events[..|events| - 1]) + (if Forwarded(events[|events| - 1].action) then 1 else 0)
  }

  /**
    With an empty enable label and every inspection succeeding, the output is
    exactly the `start` and `kill` events, in stream order, each with its
    inspected container: the one forwarded after `k` earlier forwarded events
    sits at position `k`.
   */
  lemma {:induction false} AdmitsAllInOrder(events: seq<DockerEvent>, inspect: map<string, InspectedContainer>,
                                            cregID: string)
    requires forall i :: 0 <= i < |events| ==> events[i].actorID in inspect
    ensures |Admitted(events, inspect, "", cregID)| == ForwardedCount(events)
    ensures forall i :: 0 <= i < |events| && Forwarded(events[i].action) ==>
      ForwardedCount(events[..i]) < |Admitted(events, inspect, "", cregID)| &&
      Admitted(events, inspect, "", cregID)[ForwardedCount(events[..i])] == (events[i].action, inspect[events[i].actorID])
    decreases |events|
  {
    if events != [] {
      var init := events[..|events| - 1];
      var last := |events| - 1;
      AdmitsAllInOrder(init, inspect, cregID);
      var out := Admitted(events, inspect, "", cregID);
      var out0 := Admitted(init, inspect, "", cregID);
      assert out[..|out0|] == out0;
      forall i | 0 <= i < |events| && Forwarded(events[i].action)
        ensures ForwardedCount(events[..i]) < |out| && out[ForwardedCount(events[..i])] == (events[i].action, inspect[events[i].actorID])
      {
        if i < last {
          assert events[..i] == init[..i];
          assert init[i] == events[i];
          assert out[ForwardedCount(init[..i])] == out0[ForwardedCount(init[..i])];
        } else {
          assert events[..i] == init;
        }
      }
    }
  }

  /** With an empty enable label and every inspection succeeding, each start or kill is forwarded, once. */
  lemma {:induction false} AdmitsAllWhenUnlabelled(events: seq<DockerEvent>, inspect: map<string, InspectedContainer>,
                                                   cregID: string)
    requires forall i :: 0 <= i < |events| ==> events[i].actorID in inspect
    ensures |Admitted(events, inspect, "", cregID)| == |set i | 0 <= i < |events| && Forwarded(events[i].action)|
    decreases |events|
  {
    if events != [] {
      var init := events[..|events| - 1];
      var last := |events| - 1;
      AdmitsAllWhenUnlabelled(init, inspect, cregID);
      var s := set i | 0 <= i < |events| && Forwarded(events[i].action);
      var s' := set i | 0 <= i < |init| && Forwarded(init[i].action);
      if Forwarded(events[last].action) {
        assert s == s' + {last};
      } else {
        assert s == s';
      }
    }
  }

  // ---------------------------------------------------------------------------
  // Startup events
  // ---------------------------------------------------------------------------

  /** The key a listed port is filed under: `<private port>/<type>`. */
  function StartupKey(ap: APIPort): Port
  {
    Itoa(ap.privatePort) + "/" + ap.portType
  }

  /** The single binding a listed port becomes: its IP and its public port in decimal. */
  function StartupBinding(ap: APIPort): PortBinding
  {
    PortBinding(ap.ip, Itoa(ap.publicPort))
  }

  /** The port map built from the listed ports in slice order; a later port with the same key overwrites. */
  function StartupPorts(aps: seq<APIPort>): map<Port, seq<PortBinding>>
    decreases |aps|
  {
    if aps == [] then map[]
    else StartupPorts(aps[..|aps| - 1])[StartupKey(aps[|aps| - 1]) := [StartupBinding(aps[|aps| - 1])]]
  }

  /** The inner loop of the startup goroutine: one entry per listed port. */
  method StartupPortMap(aps: seq<APIPort>) returns (ports: map<Port, seq<PortBinding>>)
    ensures ports == StartupPorts(aps)
  {
    ports := map[];
    var i := 0;
    while i < |aps|
      invariant 0 <= i <= |aps|
      invariant ports == StartupPorts(aps[..i])
    {
      var v := aps[i];
      assert aps[..i + 1][..i] == aps[..i];
      ports := ports[Itoa(v.privatePort) + "/" + v.portType := [PortBinding(v.ip, Itoa(v.publicPort))]];
      i := i + 1;
    }
    assert aps[..|aps|] == aps;
  }

  /**
    The startup half of `GetEventsForCreg`: a `start` event for every running
    container, in list order and without the eligibility filter; nothing when
    listing the running containers failed.
   */
  method StartupEvents(running: Result<seq<ListedContainer>>) returns (out: seq<ContainerEvent>)
    ensures running.Err? ==> out == []
    ensures running.Ok? ==> |out| == |running.value|
    ensures running.Ok? ==> forall i :: 0 <= i < |out| ==>
      out[i] == ContainerEvent("start", ContainerInfo(running.value[i].id, running.value[i].labels,
                                                      StartupPorts(running.value[i].ports)))
  {
    out := [];
    if running.Err? {
      // logged
      return;
    }
    var containers := running.value;
    var n := 0;
    while n < |containers|
      invariant 0 <= n <= |containers|
      invariant |out| == n
      invariant forall i :: 0 <= i < n ==>
        out[i] == ContainerEvent("start", ContainerInfo(containers[i].id, containers[i].labels,
                                                        StartupPorts(containers[i].ports)))
    {
      var container := containers[n];
      var ports := StartupPortMap(container.ports);
      out := out + [ContainerEvent("start", ContainerInfo(container.id, container.labels, ports))];
      n := n + 1;
    }
  }

  /** The startup port map has one key per distinct `<private>/<type>` of the listed ports. */
  lemma {:induction false} StartupPortsKeys(aps: seq<APIPort>)
    ensures forall k :: k in StartupPorts(aps) <==> exists i :: 0 <= i < |aps| && StartupKey(aps[i]) == k
    decreases |aps|
  {
    if aps != [] {
      var init := aps[..|aps| - 1];
      StartupPortsKeys(init);
      forall k | exists i :: 0 <= i < |aps| && StartupKey(aps[i]) == k
        ensures k in StartupPorts(aps)
      {
        var i :| 0 <= i < |aps| && StartupKey(aps[i]) == k;
        if i < |aps| - 1 {
          assert init[i] == aps[i];
        }
      }
      forall k | k in StartupPorts(init)
        ensures exists i :: 0 <= i < |aps| && StartupKey(aps[i]) == k
      {
        var i :| 0 <= i < |init| && StartupKey(init[i]) == k;
        assert aps[i] == init[i];
      }
    }
  }

  /** The entry of a key is the binding of the last listed port with that key. */
  lemma {:induction false} StartupPortsLastWins(aps: seq<APIPort>, i: nat)
    requires i < |aps|
    requires forall j :: i < j < |aps| ==> StartupKey(aps[j]) != StartupKey(aps[i])
    ensures StartupKey(aps[i]) in StartupPorts(aps)
    ensures StartupPorts(aps)[StartupKey(aps[i])] == [StartupBinding(aps[i])]
    decreases |aps|
  {
    if i < |aps| - 1 {
      var init := aps[..|aps| - 1];
      assert init[i] == aps[i];
      StartupPortsLastWins(init, i);
    }
  }

  /** A decimal number never contains `/`. */
  lemma DigitsHaveNoSlash(s: string)
    requires AllDigits(s)
    ensures '/' !in s
  {
  }

  /**
    A startup key is already canonical and reads back as the listed port:
    its number is the private port and its protocol the port type.
   */
  lemma StartupKeyCanonical(ap: APIPort)
    requires ap.portType != "" && '/' !in ap.portType
    ensures Canonical(StartupKey(ap)) == StartupKey(ap)
    ensures PortNumber(StartupKey(ap)) == Itoa(ap.privatePort)
    ensures Proto(StartupKey(ap)) == ap.portType
  {
    DigitsHaveNoSlash(Itoa(ap.privatePort));
    ProtoAndPortNumber(Itoa(ap.privatePort), ap.portType);
    CanonicalOfPair(Itoa(ap.privatePort), ap.portType);
  }

  /** A startup binding's host port reads back as the public port. */
  lemma StartupHostPort(ap: APIPort)
    ensures Atoi(StartupBinding(ap).hostPort) == Some(ap.publicPort as int)
  {
    AtoiItoa(ap.publicPort);
  }

  // ---------------------------------------------------------------------------
  // GetContainersForCreg
  // ---------------------------------------------------------------------------

  /** The listed containers that pass the enable-label test, in list order. */
  function Selected(containers: seq<ListedContainer>, enable: string): (out: seq<ListedContainer>)
    ensures |out| <= |containers|
    ensures forall i :: 0 <= i < |out| ==> Listed(out[i].labels, enable) && out[i] in containers
    decreases |containers|
  {
    if containers == [] then []
    else
      var acc := Selected(containers[..|containers| - 1], enable);
      var c := containers[|containers| - 1];
      if Listed(c.labels, enable) then acc + [c] else acc
  }

  /** Every selected container can be inspected. */
  ghost predicate AllInspectable(selected: seq<ListedContainer>, inspect: map<string, InspectedContainer>)
  {
    forall i :: 0 <= i < |selected| ==> selected[i].id in inspect
  }

  /** `out` holds, in order, the conversions of the inspected `selected` containers. */
  ghost predicate ConvertsAll(out: seq<ContainerInfo>, selected: seq<ListedContainer>,
                              inspect: map<string, InspectedContainer>)
  {
    && AllInspectable(selected, inspect)
    && |out| == |selected|
    && forall i :: 0 <= i < |out| ==> IsConversion(out[i], inspect[selected[i].id])
  }

  lemma SelectedStep(containers: seq<ListedContainer>, n: nat, enable: string)
    requires n < |containers|
    ensures Selected(containers[..n + 1], enable) ==
      if Listed(containers[n].labels, enable) then Selected(containers[..n], enable) + [containers[n]]
      else Selected(containers[..n], enable)
  {
    assert containers[..n + 1][..n] == containers[..n];
  }

  lemma ConvertsAllStep(out: seq<ContainerInfo>, selected: seq<ListedContainer>,
                        inspect: map<string, InspectedContainer>, c: ListedContainer, v: ContainerInfo)
    requires ConvertsAll(out, selected, inspect)
    requires c.id in inspect && IsConversion(v, inspect[c.id])
    ensures ConvertsAll(out + [v], selected + [c], inspect)
  {
  }

  /**
    `GetContainersForCreg`: the error of a failed listing, else the selected
    containers inspected and converted in list order, or the error of the
    first failed inspection.
   */
  method GetContainersForCreg(list: Result<seq<ListedContainer>>, inspect: map<string, InspectedContainer>,
                              enable: string)
    returns (r: Result<seq<ContainerInfo>>)
    ensures list.Err? ==> r == Err(list.msg)
    ensures list.Ok? ==> (r.Ok? <==> AllInspectable(Selected(list.value, enable), inspect))
    ensures list.Ok? && r.Ok? ==>
      |r.value| == |Selected(list.value, enable)| &&
      forall i :: 0 <= i < |r.value| ==>
        IsConversion(r.value[i], inspect[Selected(list.value, enable)[i].id])
  {
    if list.Err? {
      return Err(list.msg);
    }
    var containers := list.value;
    var cregContainers: seq<ContainerInfo> := [];
    var n := 0;
    while n < |containers|
      invariant 0 <= n <= |containers|
      invariant ConvertsAll(cregContainers, Selected(containers[..n], enable), inspect)
    {
      var container := containers[n];
      SelectedStep(containers, n, enable);
      if enable != "" {
        if enable !in container.labels || container.labels[enable] != "true" {
          n := n + 1;
          continue;
        }
      }
      if container.id !in inspect {
        ghost var sel := Selected(containers[..n + 1], enable);
        assert sel[|sel| - 1].id !in inspect;
        SelectedPrefixInspectable(containers, n + 1, enable, inspect);
        return Err(InspectFailed);
      }
      var v := ConvertContainerFromDocker(inspect[container.id]);
      ConvertsAllStep(cregContainers, Selected(containers[..n], enable), inspect, container, v);
      cregContainers := cregContainers + [v];
      n := n + 1;
    }
    assert containers[..|containers|] == containers;
    return Ok(cregContainers);
  }

  /** The error returned for a container that cannot be inspected. */
  const InspectFailed: string := "inspect failed"

  /** If a prefix of the list has an uninspectable selected container, so has the whole list. */
  lemma {:induction false} SelectedPrefixInspectable(containers: seq<ListedContainer>, n: nat, enable: string,
                                                     inspect: map<string, InspectedContainer>)
    requires n <= |containers|
    requires !AllInspectable(Selected(containers[..n], enable), inspect)
    ensures !AllInspectable(Selected(containers, enable), inspect)
    decreases |containers| - n
  {
    if n < |containers| {
      assert containers[..n + 1][..n] == containers[..n];
      var sel := Selected(containers[..n], enable);
      var sel' := Selected(containers[..n + 1], enable);
      var j :| 0 <= j < |sel| && sel[j].id !in inspect;
      assert sel'[j] == sel[j];
      SelectedPrefixInspectable(containers, n + 1, enable, inspect);
    } else {
      assert containers[..n] == containers;
    }
  }

  /** Without an enable label every listed container is selected. */
  lemma {:induction false} SelectedAllWithoutLabel(containers: seq<ListedContainer>)
    ensures Selected(containers, "") == containers
    decreases |containers|
  {
    if containers != [] {
      SelectedAllWithoutLabel(containers[..|containers| - 1]);
    }
  }
}
