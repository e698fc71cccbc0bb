/**
  The etcd backend: on `start` it writes one key per mapped service,
  `<prefix>/<service name>/<hostname>`, whose value is
  `<forward address>:<port key>`; at startup it can delete every key under
  `<prefix>/`. It ignores `stop`, and its `Refresh` does nothing.

  The store is modelled as a map from keys to values. Which calls fail is
  fixed up front: `hostname` is the result of asking the operating system
  for the host name, `rejected` holds the keys whose `Put` fails, and
  `deleteFails` says whether the prefix delete fails.
 */
module Etcd {
  import opened Wrappers
  import opened Types
  import opened GoStrings
  import opened Backends
  import opened DockerSource

  /** How `Run` ends: the context was cancelled (the event stream ended), or purging failed. */
  datatype RunOutcome = Cancelled | PurgeFailed(msg: string)

  /** The store after a run of `Put`s, and whether the last one tried failed (which stops the run). */
  datatype PutResult = PutResult(store: map<string, string>, failed: bool)

  /** The key a service is written under: `<prefix>/<name>/<hostname>`. */
  function EntryKey(prefix: string, name: string, hostname: string): (key: string)
    ensures prefix + "/" <= key
  {
    prefix + "/" + name + "/" + hostname
  }

  /** The value written for the port key `port`: `<address>:<port>`. */
  function EntryValue(address: string, port: string): string
  {
    address + ":" + port
  }

  /**
    The `Put`s of `RegisterServices` for the ports in `order`, in turn: each
    writes its service's key, and the first that fails ends the run, so every
    later port is skipped.
   */
  function Written(order: seq<string>, services: map<string, ServiceWithLabels>, store: map<string, string>,
                   rejected: set<string>, prefix: string, hostname: string, address: string): PutResult
    requires forall i :: 0 <= i < |order| ==> order[i] in services
    decreases |order|
  {
    if order == [] then PutResult(store, false)
    else
      var acc := Written(order[..|order| - 1], services, store, rejected, prefix, hostname, address);
      var port := order[|order| - 1];
      var key := EntryKey(prefix, services[port].name, hostname);
      if acc.failed then acc
      else if key in rejected then PutResult(acc.store, true)
      else PutResult(acc.store[key := EntryValue(address, port)], false)
  }

  /** The store after the prefix delete of `Purge`: every key under `<prefix>/` is gone. */
  function Purged(store: map<string, string>, prefix: string): map<string, string>
  {
    map k | k in store && !(prefix + "/" <= k) :: store[k]
  }

  /** With slash-free parts, the key splits on `/` back into prefix, service name and hostname. */
  lemma EntryKeyParts(prefix: string, name: string, hostname: string)
    requires '/' !in prefix && '/' !in name && '/' !in hostname
    ensures Split(EntryKey(prefix, name, hostname), '/') == [prefix, name, hostname]
  {
    SplitAtFirst(prefix, '/', name + "/" + hostname);
    SplitAtFirst(name, '/', hostname);
    SplitNoSeparator(hostname, '/');
    assert EntryKey(prefix, name, hostname) == prefix + ['/'] + (name + ['/'] + hostname);
  }

  /** On one host, two slash-free service names share a key only when they are the same name. */
  lemma EntryKeyInjective(prefix: string, n1: string, n2: string, hostname: string)
    requires '/' !in prefix && '/' !in n1 && '/' !in n2 && '/' !in hostname
    requires EntryKey(prefix, n1, hostname) == EntryKey(prefix, n2, hostname)
    ensures n1 == n2
  {
    EntryKeyParts(prefix, n1, hostname);
    EntryKeyParts(prefix, n2, hostname);
  }

  /**
    The `Put`s keep every key already in the store, and every entry they add
    or change is the key of a visited port's service, holding that port's
    value.
   */
  lemma {:induction false} WrittenChanged(order: seq<string>, services: map<string, ServiceWithLabels>,
                                          store: map<string, string>, rejected: set<string>,
                                          prefix: string, hostname: string, address: string)
    requires forall i :: 0 <= i < |order| ==> order[i] in services
    ensures var r := Written(order, services, store, rejected, prefix, hostname, address).store;
      store.Keys <= r.Keys &&
      forall k :: k in r && (k !in store || r[k] != store[k]) ==>
        exists i :: 0 <= i < |order| && k == EntryKey(prefix, services[order[i]].name, hostname) &&
          r[k] == EntryValue(address, order[i])
    decreases |order|
  {
    if order != [] {
      var init := order[..|order| - 1];
      var last := |order| - 1;
      WrittenChanged(init, services, store, rejected, prefix, hostname, address);
      var acc := Written(init, services, store, rejected, prefix, hostname, address);
      var r := Written(order, services, store, rejected, prefix, hostname, address).store;
      forall k | k in r && (k !in store || r[k] != store[k])
        ensures exists i :: (0 <= i < |order| && k == EntryKey(prefix, services[order[i]].name, hostname) &&
                             r[k] == EntryValue(address, order[i]))
      {
        if k in acc.store && r[k] == acc.store[k] {
          var i :| 0 <= i < |init| && k == EntryKey(prefix, services[init[i]].name, hostname) &&
            acc.store[k] == EntryValue(address, init[i]);
          assert order[i] == init[i];
        } else {
          assert k == EntryKey(prefix, services[order[last]].name, hostname);
        }
      }
    }
  }

  /**
    The run of `Put`s fails exactly when some visited port's key is refused;
    when it does not fail, every visited port's key is in the store.
   */
  lemma {:induction false} WrittenComplete(order: seq<string>, services: map<string, ServiceWithLabels>,
                                           store: map<string, string>, rejected: set<string>,
                                           prefix: string, hostname: string, address: string)
    requires forall i :: 0 <= i < |order| ==> order[i] in services
    ensures var w := Written(order, services, store, rejected, prefix, hostname, address);
      (w.failed <==> exists i :: 0 <= i < |order| && EntryKey(prefix, services[order[i]].name, hostname) in rejected) &&
      (!w.failed ==> forall i :: 0 <= i < |order| ==> EntryKey(prefix, services[order[i]].name, hostname) in w.store)
    decreases |order|
  {
    if order != [] {
      var init := order[..|order| - 1];
      var last := |order| - 1;
      WrittenComplete(init, services, store, rejected, prefix, hostname, address);
      var acc := Written(init, services, store, rejected, prefix, hostname, address);
      if acc.failed {
        var i :| 0 <= i < |init| && EntryKey(prefix, services[init[i]].name, hostname) in rejected;
        assert order[i] == init[i];
      } else {
        forall i | 0 <= i < last
          ensures EntryKey(prefix, services[order[i]].name, hostname) !in rejected
        {
          assert order[i] == init[i];
        }
      }
    }
  }

  /** Writing services and then purging leaves the store as purging alone would. */
  lemma PurgeUndoesWrite(order: seq<string>, services: map<string, ServiceWithLabels>, store: map<string, string>,
                         rejected: set<string>, prefix: string, hostname: string, address: string)
    requires forall i :: 0 <= i < |order| ==> order[i] in services
    ensures Purged(Written(order, services, store, rejected, prefix, hostname, address).store, prefix) == Purged(store, prefix)
  {
    WrittenChanged(order, services, store, rejected, prefix, hostname, address);
  }

  /** A second purge removes nothing more. */
  lemma PurgedIdempotent(store: map<string, string>, prefix: string)
    ensures Purged(Purged(store, prefix), prefix) == Purged(store, prefix)
  {
  }

  /** After a purge no service key of this prefix is left, whatever its name or host. */
  lemma PurgedHasNoEntries(store: map<string, string>, prefix: string, name: string, hostname: string)
    ensures EntryKey(prefix, name, hostname) !in Purged(store, prefix)
  {
  }

  /**
    The purge deletes by the prefix `<prefix>/` only: a key that starts with
    the service prefix but continues with another character is kept.
   */
  lemma PurgeKeepsSiblingKeys(store: map<string, string>, prefix: string, k: string)
    requires k in store && |k| > |prefix| && k[..|prefix|] == prefix && k[|prefix|] != '/'
    ensures k in Purged(store, prefix) && Purged(store, prefix)[k] == store[k]
  {
    assert (prefix + "/")[|prefix|] == '/';
  }

  /** The etcd backend (Go: `etcd.Backend`) and the store it writes to. */
  class Backend {
    /** `backends.ServicePrefix`. */
    const servicePrefix: string
    /** `backends.ServiceLabelPort`: the prefix of the port labels. */
    const portLabelPrefix: string
    const forwardAddress: string
    const staticLabels: seq<string>
    /** What asking the operating system for the host name gives. */
    const hostname: Result<string>
    /** The keys whose `Put` fails. */
    const rejected: set<string>
    /** Whether the prefix delete fails. */
    const deleteFails: bool
    /** The key-value store. */
    var store: map<string, string>

    constructor New(servicePrefix: string, portLabelPrefix: string, forwardAddress: string, staticLabels: seq<string>,
                    hostname: Result<string>, rejected: set<string>, deleteFails: bool, store: map<string, string>)
      ensures this.servicePrefix == servicePrefix && this.portLabelPrefix == portLabelPrefix
      ensures this.forwardAddress == forwardAddress && this.staticLabels == staticLabels
      ensures this.hostname == hostname && this.rejected == rejected
      ensures this.deleteFails == deleteFails && this.store == store
    {
      this.servicePrefix := servicePrefix;
      this.portLabelPrefix := portLabelPrefix;
      this.forwardAddress := forwardAddress;
      this.staticLabels := staticLabels;
      this.hostname := hostname;
      this.rejected := rejected;
      this.deleteFails := deleteFails;
      this.store := store;
    }

    /**
      `after` is the store after `RegisterServices(services)`: unchanged when
      the host name is unavailable, otherwise the `Put`s over some visiting
      order, complete unless one failed.
     */
    ghost predicate PutsTo(before: map<string, string>, after: map<string, string>,
                           services: map<string, ServiceWithLabels>)
    {
      if hostname.Err? then after == before
      else exists order :: (PartialOrder(order, services.Keys) &&
        after == Written(order, services, before, rejected, servicePrefix, hostname.value, forwardAddress).store &&
        (!Written(order, services, before, rejected, servicePrefix, hostname.value, forwardAddress).failed ==>
          IsIterationOrder(order, services.Keys)))
    }

    /** `after` is the store after a `start` of a container with these labels. */
    ghost predicate StartsTo(before: map<string, string>, after: map<string, string>, labels: map<string, string>)
    {
      exists services :: MappedServices(services, labels, portLabelPrefix, staticLabels) && PutsTo(before, after, services)
    }

    /** What one event does to the store: `start` writes; `stop` and anything else change nothing. */
    ghost predicate EventStep(before: map<string, string>, after: map<string, string>, e: ContainerEvent)
    {
      if e.action == "start" then StartsTo(before, after, e.container.labels)
      else after == before
    }

    /** A `start` leaves every key outside `<prefix>/` as it was. */
    lemma StartKeepsForeignKeys(before: map<string, string>, after: map<string, string>, labels: map<string, string>)
      requires StartsTo(before, after, labels)
      ensures Purged(after, servicePrefix) == Purged(before, servicePrefix)
    {
      var services :| MappedServices(services, labels, portLabelPrefix, staticLabels) && PutsTo(before, after, services);
      if hostname.Ok? {
        var order :| PartialOrder(order, services.Keys) &&
          after == Written(order, services, before, rejected, servicePrefix, hostname.value, forwardAddress).store &&
          (!Written(order, services, before, rejected, servicePrefix, hostname.value, forwardAddress).failed ==>
            IsIterationOrder(order, services.Keys));
        PurgeUndoesWrite(order, services, before, rejected, servicePrefix, hostname.value, forwardAddress);
      }
    }

    /** Over a whole event stream, `Run` never touches a key outside `<prefix>/`. */
    lemma {:induction false} RunKeepsForeignKeys(trace: seq<map<string, string>>, events: seq<ContainerEvent>)
      requires |trace| == |events| + 1
      requires forall i :: 0 <= i < |events| ==> EventStep(trace[i], trace[i + 1], events[i])
      ensures Purged(trace[|events|], servicePrefix) == Purged(trace[0], servicePrefix)
      decreases |events|
    {
      if events != [] {
        var n := |events| - 1;
        RunKeepsForeignKeys(trace[..n + 1], events[..n]);
        if events[n].action == "start" {
          StartKeepsForeignKeys(trace[n], trace[n + 1], events[n].container.labels);
        }
      }
    }

    /** A stream without `start` events, `stop`s included, leaves the store unchanged. */
    lemma {:induction false} OnlyStartWrites(trace: seq<map<string, string>>, events: seq<ContainerEvent>)
      requires |trace| == |events| + 1
      requires forall i :: 0 <= i < |events| ==> events[i].action != "start"
      requires forall i :: 0 <= i < |events| ==> EventStep(trace[i], trace[i + 1], events[i])
      ensures trace[|events|] == trace[0]
      decreases |events|
    {
      if events != [] {
        var n := |events| - 1;
        OnlyStartWrites(trace[..n + 1], events[..n]);
      }
    }

    /**
      `RegisterServices`: reads the host name (an error is returned before
      any write), then puts each service's key with the forward address and
      port key as value, returning the error of the first failed `Put`.
      The service's tags are not written.
     */
    method RegisterServices(ports: map<string, ServiceWithLabels>) returns (err: Option<string>, ghost order: seq<string>)
      modifies this
      ensures hostname.Err? ==> err == Some(hostname.msg) && store == old(store)
      ensures hostname.Ok? ==> PartialOrder(order, ports.Keys)
      ensures hostname.Ok? ==>
        var w := Written(order, ports, old(store), rejected, servicePrefix, hostname.value, forwardAddress);
        && store == w.store
        && (err.Some? <==> w.failed)
        && (err.None? ==> IsIterationOrder(order, ports.Keys))
        && (err.Some? ==> (|order| > 0 &&
              !Written(order[..|order| - 1], ports, old(store), rejected, servicePrefix, hostname.value, forwardAddress).failed))
    {
      order := [];
      if hostname.Err? {
        return Some(hostname.msg), order;
      }
      var host := hostname.value;
      var todo := ports.Keys;
      VisitedStart(ports.Keys);
      while todo != {}
        invariant Visited(ports.Keys, todo, order)
        invariant !Written(order, ports, old(store), rejected, servicePrefix, host, forwardAddress).failed
        invariant store == Written(order, ports, old(store), rejected, servicePrefix, host, forwardAddress).store
        decreases |todo|
      {
        var port :| port in todo;
        var service := ports[port];
        VisitedStep(ports.Keys, todo, order, port);
        assert (order + [port])[..|order|] == order;
        order := order + [port];
        todo := todo - {port};
        var key := servicePrefix + "/" + service.name + "/" + host;
        if key in rejected {
          return Some("could not put " + key), order;
        }
        store := store[key := forwardAddress + ":" + port];
      }
      VisitedDone(ports.Keys, order);
      err := None;
    }

    /**
      `Purge`: one delete of every key under `<prefix>/`; when it fails the
      error is returned and the store is unchanged.
     */
    method Purge() returns (err: Option<string>)
      modifies this
      ensures deleteFails ==> err.Some? && store == old(store)
      ensures !deleteFails ==> err == None && store == Purged(old(store), servicePrefix)
    {
      if deleteFails {
        return Some("could not delete " + servicePrefix + "/");
      }
      store := map k | k in store && !(servicePrefix + "/" <= k) :: store[k];
      return None;
    }

    /** `Refresh`: does nothing and never fails. */
    method Refresh(containers: seq<InspectedContainer>) returns (err: Option<string>)
      ensures err == None
    {
      return None;
    }

    /** One event of the loop of `Run`; a failed registration is only logged. */
    method HandleEvent(e: ContainerEvent)
      modifies this
      ensures EventStep(old(store), store, e)
    {
      if e.action == "start" {
        var services := ServicesFromLabels(e.container.labels, portLabelPrefix, staticLabels);
        var err, o := RegisterServices(services);
        assert PutsTo(old(store), store, services);
      }
    }

    /**
      `Run`: the purge (when asked for; a failure ends `Run` before any
      event), the refresh (which cannot fail), then every event of the stream
      in turn until it ends. `trace` holds the store before each event and
      after the last.
     */
    method Run(events: seq<ContainerEvent>, purgeOnStart: bool, containersToRefresh: seq<InspectedContainer>)
      returns (outcome: RunOutcome, ghost trace: seq<map<string, string>>)
      modifies this
      ensures outcome.PurgeFailed? <==> purgeOnStart && deleteFails
      ensures outcome.PurgeFailed? ==> store == old(store)
      ensures outcome.Cancelled? ==>
        && |trace| == |events| + 1
        && trace[0] == (if purgeOnStart then Purged(old(store), servicePrefix) else old(store))
        && trace[|events|] == store
        && forall i :: 0 <= i < |events| ==> EventStep(trace[i], trace[i + 1], events[i])
    {
      trace := [];
      if purgeOnStart {
        var err := Purge();
        if err.Some? {
          return PurgeFailed("could not purge: " + err.value), trace;
        }
      }
      if |containersToRefresh| > 0 {
        var err := Refresh(containersToRefresh);
        if err.Some? {
          assert false;
        }
      }
      trace := [store];
      var n := 0;
      while n < |events|
        invariant 0 <= n <= |events|
        invariant |trace| == n + 1 && trace[n] == store
        invariant trace[0] == (if purgeOnStart then Purged(old(store), servicePrefix) else old(store))
        invariant forall i :: 0 <= i < n ==> EventStep(trace[i], trace[i + 1], events[i])
      {
        HandleEvent(events[n]);
        trace := trace + [store];
        n := n + 1;
      }
      outcome := Cancelled;
    }
  }
}
