# creg, modelled in Dafny

creg watches a container runtime and mirrors the containers that ask for it
into service registries. A container states what it serves through labels:

- `<port prefix>...=80/tcp:web,443/tcp:api` maps ports to service names;
- labels whose key contains `traefik.` or `.<service>` anywhere are forwarded as tags;
- `creg.backends=a,b` restricts the backends that see the container;
- `creg.dns=<domain>,<answer>` asks for a DNS rewrite.

The Docker event source turns runtime events into one event record
(`start`/`kill`, the container's ID, labels and published ports). The event
multiplexer fans that record out to the backends. Each backend then runs its
lifecycle: an optional purge of its own entries, a refresh of the containers
already running, and an event loop that registers services on `start`. The
three backends are Consul (agent services), etcd (keys) and AdGuard Home (DNS
rewrites).

The project has one module per core file:

| file | module | models |
|---|---|---|
| `types.dfy` | `Types` | the shared records, port tokens such as `80/tcp` |
| `backends.dfy` | `Backends` | `ExtractPorts`, `MapServices`, `TraefikLabelFilter` |
| `multiplexer.dfy` | `EventMultiplexer` | the output table and the delivery rule |
| `docker.dfy` | `DockerSource` | conversion, eligibility, startup events, listing |
| `consul.dfy` | `Consul` | the Consul backend |
| `etcd.dfy` | `Etcd` | the etcd backend |
| `adguardhome.dfy` | `AdGuardHome` | the AdGuard Home backend |

Two helper modules support them. `GoStrings` gives the behaviour of Go's
`strings.Split`, `strings.Contains`, `strings.Replace`, `strconv.Atoi` and
`Itoa` that the source relies on. `Wrappers` holds `Option` and `Result`.

How the model is built:

- **Map iteration order.** Go visits a map in an unspecified order. Every
  `range` over a map is a loop that picks any remaining key. It returns the
  order it used as a ghost out-parameter, and `IsIterationOrder` says that
  order lists every key once. Results are folds over that order
  (`MergedPorts`, `ConvertedPorts`, `Registered`, `Written`). Lemmas then say
  which results do not depend on the order.
- **Backends as classes.** Each backend is a class whose field is its
  registry: the agent's service table, the key-value store or the rewrite
  set. Which registry calls fail is fixed when the backend is constructed:
  - the sets of IDs the Consul agent refuses to register and to deregister,
    or of keys whose etcd `Put` fails;
  - whether listing or deleting fails;
  - the outcome of asking for the host name.
- **Panics.** A Go panic (an index out of range) is an explicit outcome of
  the model, not a precondition.
- **Event streams.** An event stream is the finite sequence of events
  delivered before the context is cancelled. The Consul and etcd `Run`
  return a ghost trace of the registry before each event and after the last
  one; Consul's trace is stated only when the stream ends normally. The
  AdGuard Home `Run` instead returns how many events it handled, and states
  the rewrites through the fold `Applied`.

## Model

| member | source | states |
|---|---|---|
| Types.IterationOrderSize | backends/util.go:12 | a `range` over a map visits exactly as many entries as the map has keys |
| Types.Canonical | docker/docker.go:162 | the `port.Port()+"/"+port.Proto()` key always contains a `/` |
| Types.Proto | types/types.go:54-57 | the protocol never holds a `/`; it is empty exactly for an empty token or one starting with `/`, and `tcp` for a bare number |
| Types.PortNumber | types/types.go:60-63 | the number never holds a `/`; it is empty exactly for an empty token or one starting with `/`, and is the whole token when the token has no `/` |
| Types.SplitProtoPortEmpty | types/types.go:74-76 | the empty token splits into `("", "")` |
| Types.SplitProtoPortLeadingSlash | types/types.go:74-76 | a token whose part before the first `/` is empty gives `("", "")` |
| Types.SplitProtoPortNoSlash | types/types.go:77-79 | a token without `/` is `("tcp", token)` |
| Types.SplitProtoPortTrailingSlash | types/types.go:80-82 | `n/` with an empty protocol part gives `("tcp", n)` |
| Types.SplitProtoPortPair | types/types.go:71-84 | `n/p` gives `(p, n)`: the protocol comes first in the result |
| Types.SplitProtoPortIgnoresTail | types/types.go:83 | segments after the second `/` do not change the result |
| Types.ProtoAndPortNumber | types/types.go:54-63 | `Proto` and `Port` of `n/p` are `p` and `n` |
| Types.SplitProtoPortNoSlashInParts | types/types.go:71-84 | neither component of the split contains a `/` |
| Types.SplitProtoPortEmptyPort | types/types.go:71-84 | the port is empty exactly for an empty token or a leading `/`, and the protocol is then empty too |
| Types.CanonicalIdempotent | docker/docker.go:162 | canonicalising a canonical key changes nothing |
| Types.CanonicalOfPair | docker/docker.go:162 | a well-formed `n/p` token is already canonical |
| Types.CanonicalOfBareNumber | docker/docker.go:162 | a bare number is filed as `n/tcp` |
| Backends.EntryPortsKeys | backends/util.go:15-24 | a port is in the map iff some entry splits on `:` into exactly that port and a service |
| Backends.EntryPortsLastWins | backends/util.go:16-23 | a mapped port holds the service of the last well-formed entry for it |
| Backends.PairIffOneColon | backends/util.go:17-18 | an entry is used iff it contains exactly one `:` |
| Backends.MalformedEntrySkipped | backends/util.go:18-21 | an entry that does not split into two parts changes nothing and does not stop later entries |
| Backends.LaterEntryWins | backends/util.go:23 | within a label, a later entry for the same port overwrites the earlier one |
| Backends.PairEntry | backends/util.go:17 | `port:service` splits into its two parts |
| Backends.LabelPortsTwoEntries | backends/util.go:13-24 | `p1:s1,p2:s2` maps `p1` to `s1` and `p2` to `s2`, with the second winning if the ports are equal |
| Backends.LabelPortsQuoted | backends/util.go:13 | single quotes are removed before parsing: `'p:s'` maps `p` to `s` |
| Backends.PortMaps | backends/util.go:12 | each label has its own port map, one per label key |
| Backends.ExtractPorts | backends/util.go:9-29 | the loop visits exactly the keys with the prefix, in some order, and returns the merge of their port maps in that order; in every order, a port is in the result iff some prefixed label defines it, with the service one such label gives it |
| Backends.MergedPortsSources | backends/util.go:12-26 | for any visiting order of the prefixed keys, the merged ports are exactly the ports the prefixed labels define, each with one of their services |
| Backends.ApplyPortLabel | backends/util.go:15-24 | one prefixed label adds its entries over the ports found so far |
| Backends.MergeKeys | backends/util.go:12-26 | a port is extracted iff some prefixed label's value defines it |
| Backends.MergeValues | backends/util.go:12-26 | every extracted port maps to the service some prefixed label gave it |
| Backends.ExtractNoPrefixedLabel | backends/util.go:14 | without a prefixed key the result is empty |
| Backends.ExtractSinglePrefixedLabel | backends/util.go:12-26 | with one prefixed key the result is that label's port map |
| Backends.MergeKeysSubset | backends/util.go:12-26 | the merge over a sub-order has no more ports |
| Backends.MergeValueAgreed | backends/util.go:12-26 | where labels agree on a port, the merge holds their common value |
| Backends.MergeOrderIrrelevant | backends/util.go:12 | when the labels never give one port two services, any two visiting orders merge to the same map |
| Backends.ExtractOrderIrrelevant | backends/util.go:12 | the result of `ExtractPorts` then does not depend on map order |
| Backends.TagsOf | backends/util.go:57 | one `k=v` tag per visited label, in visiting order |
| Backends.TraefikLabelFilter | backends/util.go:54-60 | only appends: the old tags stay as a prefix, followed by exactly one `k=v` per label whose key contains `.service` or `traefik.`, in some order |
| Backends.ApplyFilter | backends/util.go:39-41 | running a filter appends the tags of the labels it forwards, in some visiting order, to the list |
| Backends.MapServices | backends/util.go:31-50 | the result has exactly the ports' keys; each record is named after the port's service, and its tags are the static tags followed by what the filters appended |
| Backends.RunFilters | backends/util.go:37-41 | the tag list starts as a copy of the static tags, and each filter in turn appends to it |
| Backends.ServicesFromLabels | backends/consul/consul.go:62-63 | a `start` maps the port labels to services tagged with the static tags, then by the proxy filter |
| Backends.ServiceLabelsStartWithStatic | backends/util.go:37 | with the one filter the source defines (`TraefikLabelFilter`), applied any number of times, a record's tags begin with the static tags |
| Backends.ServiceMapTags | backends/util.go:35-46 | every record of a service map begins with the static tags |
| Backends.NoFiltersKeepsStaticLabels | backends/util.go:37-41 | with no filters the tags are exactly the static tags |
| Backends.SingleFilterOrder | backends/util.go:39-41 | with one filter the tags are the static tags plus that filter's tags in some visiting order |
| Backends.TagsOfOrder | backends/util.go:55-59 | the visited tags are, as a set, one per selected label, whatever the order |
| Backends.TraefikFilteredLabels | backends/util.go:54-60 | after the static tags come exactly the tags `k=v` of labels whose key contains `.service` or `traefik.`, one per label |
| EventMultiplexer.Sent | eventmultiplexer/multiplexer.go:47-62 | one event puts at most itself on an output, and always does when the container has no `creg.backends` label |
| EventMultiplexer.Multiplexer.constructor | eventmultiplexer/multiplexer.go:18-23 | a new multiplexer has no outputs |
| EventMultiplexer.Multiplexer.NewOutput | eventmultiplexer/multiplexer.go:25-33 | registers an empty output under the name, replacing any earlier one; the other outputs are unchanged |
| EventMultiplexer.Multiplexer.Dispatch | eventmultiplexer/multiplexer.go:47-62 | every registered output gets the event at most once, exactly when the delivery rule holds; no output is added or removed |
| EventMultiplexer.Multiplexer.Run | eventmultiplexer/multiplexer.go:35-67 | each output receives, after what it had, exactly the events routed to it, in input order |
| EventMultiplexer.BroadcastWithoutLabel | eventmultiplexer/multiplexer.go:49-52 | without the label the event goes to every output |
| EventMultiplexer.DeliversListed | eventmultiplexer/multiplexer.go:53-61 | for a `creg.backends` label written as a comma list, whatever other labels the container has, an output is selected iff its name or `all` is in the list |
| EventMultiplexer.SingleBackendOnly | eventmultiplexer/multiplexer.go:53-61 | `creg.backends=b` selects `b` and no other output |
| EventMultiplexer.NoWhitespaceTrimming | eventmultiplexer/multiplexer.go:57 | names are compared exactly: ` name` does not select `name` |
| EventMultiplexer.RoutedAppend | eventmultiplexer/multiplexer.go:37-64 | routing a concatenated input routes each part in turn |
| EventMultiplexer.RoutedAtMostOnce | eventmultiplexer/multiplexer.go:56-60 | an output receives no more events than the input has, and only events of the input |
| EventMultiplexer.RoutedBroadcast | eventmultiplexer/multiplexer.go:49-52 | if no event carries the label, every output receives the whole input |
| EventMultiplexer.RoutedNone | eventmultiplexer/multiplexer.go:53-61 | an output that no event selects receives nothing |
| DockerSource.ConvertNetworkSettingsFromDocker | docker/docker.go:155-172 | the loop visits every raw port once, in some order; each port with a binding is filed under its canonical key with its first binding; the keys are exactly the canonical keys of the bound ports |
| DockerSource.ConvertedSources | docker/docker.go:160-168 | for any visiting order, a key is converted iff it is the canonical key of a bound port, and it holds the first binding of one such port |
| DockerSource.ConvertedKeys | docker/docker.go:160-162 | a key is in the result iff it is the canonical form of a port that has at least one binding |
| DockerSource.ConvertedValues | docker/docker.go:161-167 | each key holds exactly one binding: the first binding of a port filed under it |
| DockerSource.ConvertCanonicalPorts | docker/docker.go:160-168 | for already canonical ports, the result has exactly the bound ports, each with its first binding |
| DockerSource.ConvertUnbound | docker/docker.go:161 | ports without bindings are omitted |
| DockerSource.ConvertContainerFromDocker | docker/docker.go:147-153 | the ID and labels are copied and the ports are converted |
| DockerSource.EmptyEnableLabelAdmitsAll | docker/docker.go:110-111 | with an empty enable label every container is eligible |
| DockerSource.EnableLabelMustBeTrue | docker/docker.go:112-116 | otherwise the enable label must be present with value exactly `true` |
| DockerSource.CregIDMismatchRejects | docker/docker.go:118-122 | a `creg.id` different from the configured ID rejects the container |
| DockerSource.EligibleWithoutCregID | docker/docker.go:110-123 | without `creg.id`, eligibility is exactly the enable-label test |
| DockerSource.Admitted | docker/docker.go:100-132 | no more events come out than go in; each one is a `start` or `kill` of an eligible container |
| DockerSource.LiveEvents | docker/docker.go:93-135 | emits, in order, the admitted events with their action and the converted container |
| DockerSource.StopNeverForwarded | docker/docker.go:102-103 | a `stop` is never forwarded |
| DockerSource.AdmitsAllWhenUnlabelled | docker/docker.go:102-128 | with an empty enable label and every inspection succeeding, as many events come out as there are `start` and `kill` events |
| DockerSource.AdmitsAllInOrder | docker/docker.go:102-128 | with an empty enable label and every inspection succeeding, the output is exactly the `start` and `kill` events in stream order, each with its inspected container |
| DockerSource.StartupPortMap | docker/docker.go:70-78 | builds the port map of a running container from its listed ports |
| DockerSource.StartupEvents | docker/docker.go:53-82 | a listing error emits nothing; otherwise one unfiltered `start` per running container, in list order, with its ID, labels and ports |
| DockerSource.StartupPortsKeys | docker/docker.go:70-71 | the keys are exactly the `<private>/<type>` keys of the listed ports |
| DockerSource.StartupPortsLastWins | docker/docker.go:72-77 | a key holds the single binding of the last listed port with that key |
| DockerSource.DigitsHaveNoSlash | docker/docker.go:71 | a decimal port number contains no `/` |
| DockerSource.StartupKeyCanonical | docker/docker.go:71 | a startup key is canonical, with the private port as number and the type as protocol |
| DockerSource.StartupHostPort | docker/docker.go:75 | the host port is the decimal public port, which parses back to it |
| DockerSource.Selected | docker/docker.go:29-34 | keeps, in list order, only containers that pass the enable-label test |
| DockerSource.GetContainersForCreg | docker/docker.go:22-46 | a listing error is returned as is; otherwise the result is an error iff some selected container fails inspection, else the selected containers converted, in order |
| DockerSource.SelectedPrefixInspectable | docker/docker.go:36-39 | once a selected container fails inspection, the whole call fails |
| DockerSource.SelectedAllWithoutLabel | docker/docker.go:30 | with an empty label every listed container is selected |
| Consul.ServiceID | backends/consul/consul.go:84-85 | a service's ID and name start with the service prefix |
| Consul.RegisteredStep | backends/consul/consul.go:82-107 | visiting a port registers `prefix-name` at the forward address with the service's tags when its port parses and the agent accepts; otherwise nothing changes |
| Consul.RegisteredKeys | backends/consul/consul.go:82-107 | no service is removed, and every accepted registration is present |
| Consul.RegisteredChanged | backends/consul/consul.go:83-106 | every added or changed entry is the registration of some visited port |
| Consul.RegisteredTagsPrefix | backends/consul/consul.go:83-88 | every added or changed entry is named after its prefixed ID, at the forward address, with the service's tags |
| Consul.PurgeUndoesRegister | backends/consul/consul.go:81-133 | registering, then purging, leaves the table that purging alone would, plus the registered entries whose deregistration the agent refuses |
| Consul.RegisteredKeepsUnprefixed | backends/consul/consul.go:81-110 | registering never adds or changes an entry whose ID lacks the service prefix |
| Consul.PurgeUndoesRegisterWhenAccepted | backends/consul/consul.go:81-133 | when the agent refuses no deregistration, registering then purging leaves exactly the table that purging alone would |
| Consul.PurgedIdempotent | backends/consul/consul.go:112-133 | a second purge removes nothing more |
| Consul.StopKeepsRegisteredService | backends/consul/consul.go:69-70 | `stop` deregisters the container ID, so a service registered under `prefix-name` survives it |
| Consul.RekeyPorts | backends/consul/consul.go:141-146 | the loop visits raw ports in some order and computes the rekeyed map; it stops only at a mapped port without a binding |
| Consul.RekeyUnmapped | backends/consul/consul.go:142 | ports whose canonical key was not extracted leave the map unchanged |
| Consul.RekeyMovesToHostPort | backends/consul/consul.go:142-145 | a mapped port's service moves from `port/proto` to its first host port |
| Consul.RekeyPanicsWithoutBinding | backends/consul/consul.go:143 | a mapped port with an empty binding list panics |
| Consul.RekeyRemovesVisitedKeys | backends/consul/consul.go:141-146 | no visited `port/proto` key that was mapped is left after the rekeying |
| Consul.Backend.constructor | backends/consul/consul.go:23-37 | the backend holds its configuration and the agent's table |
| Consul.Backend.RegistersWithTags | backends/consul/consul.go:82-107 | registering services that all start with some tags changes only entries named after their prefixed ID, at the forward address, starting with those tags |
| Consul.Backend.StartUsesStaticTags | backends/consul/consul.go:61-64 | a `start` changes only entries named after their ID, at the forward address, starting with the static tags |
| Consul.Backend.RefreshedServicesTags | backends/consul/consul.go:148 | refreshed services start with `dc=remote` |
| Consul.Backend.RefreshUsesRemoteTag | backends/consul/consul.go:139-150 | a refresh changes only entries named after their ID, at the forward address, starting with `dc=remote` |
| Consul.Backend.ForwardedEventsNeverDeregister | backends/consul/consul.go:60-75 | the `start` and `kill` events from Docker never remove a service |
| Consul.Backend.DockerStreamNeverDeregisters | backends/consul/consul.go:55-77 | over a stream of Docker events, the table only grows or changes |
| Consul.Backend.RegisterServices | backends/consul/consul.go:81-110 | visits every port once in some order; the table becomes the fold of the registrations; the result is always nil |
| Consul.Backend.Deregister | backends/consul/consul.go:70 | removes the ID, or reports an error and changes nothing when the agent refuses |
| Consul.Backend.Purge | backends/consul/consul.go:112-133 | a listing failure is an error with no change; otherwise nil, and every prefixed ID is gone except those the agent refuses to deregister |
| Consul.Backend.RefreshContainer | backends/consul/consul.go:138-154 | either panics with no change (a mapped port without a binding), or registers the rekeyed services with `dc=remote` |
| Consul.Backend.Refresh | backends/consul/consul.go:135-158 | refreshes every container in turn and never returns an error; it stops only on the panic of the container it reached |
| Consul.Backend.HandleEvent | backends/consul/consul.go:60-75 | `start` registers the mapped services, `stop` deregisters the container ID, and other actions change nothing |
| Consul.Backend.Run | backends/consul/consul.go:39-78 | it fails before any event iff it is asked to purge and listing fails; a panic happens only on a refreshed container that can panic; otherwise the purge, then the refresh, then each event as `HandleEvent` says |
| Etcd.EntryKey | backends/etcd/etcd.go:111 | every key written is under `<prefix>/` |
| Etcd.EntryKeyParts | backends/etcd/etcd.go:111 | with slash-free parts, a key splits on `/` into prefix, service name and host name |
| Etcd.EntryKeyInjective | backends/etcd/etcd.go:111 | on one host, distinct service names are written under distinct keys |
| Etcd.WrittenChanged | backends/etcd/etcd.go:106-115 | the `Put`s keep every key; each added or changed key is a visited service's key holding `<address>:<port key>` |
| Etcd.WrittenComplete | backends/etcd/etcd.go:106-115 | the run fails iff some visited key is refused; otherwise every visited service's key is present |
| Etcd.PurgeUndoesWrite | backends/etcd/etcd.go:82-93 | writing then purging leaves what purging alone would |
| Etcd.PurgedIdempotent | backends/etcd/etcd.go:87 | a second purge removes nothing more |
| Etcd.PurgedHasNoEntries | backends/etcd/etcd.go:87 | after a purge no service key of the prefix is left |
| Etcd.PurgeKeepsSiblingKeys | backends/etcd/etcd.go:87 | a key that continues the prefix with anything but `/` survives the purge |
| Etcd.Backend.constructor | backends/etcd/etcd.go:24-39 | the backend holds its configuration and the store |
| Etcd.Backend.StartKeepsForeignKeys | backends/etcd/etcd.go:64-71 | a `start` never changes a key outside `<prefix>/` |
| Etcd.Backend.RunKeepsForeignKeys | backends/etcd/etcd.go:59-79 | over a whole event stream, no key outside `<prefix>/` changes |
| Etcd.Backend.OnlyStartWrites | backends/etcd/etcd.go:60-78 | a stream without `start`, `stop` included, leaves the store unchanged |
| Etcd.Backend.RegisterServices | backends/etcd/etcd.go:99-118 | a host-name error is returned before any write; otherwise keys are `Put` in some visiting order, and the first failure is returned, skipping the rest |
| Etcd.Backend.Purge | backends/etcd/etcd.go:82-93 | a failed delete is returned with the store unchanged; otherwise every key under `<prefix>/` is gone and no other key changes |
| Etcd.Backend.Refresh | backends/etcd/etcd.go:95-97 | returns nil and changes nothing |
| Etcd.Backend.HandleEvent | backends/etcd/etcd.go:62-78 | `start` writes the mapped services; `stop` and other actions change nothing; a registration error is only logged |
| Etcd.Backend.Run | backends/etcd/etcd.go:41-80 | it fails before any event iff it is asked to purge and the delete fails; otherwise the purge, then each event as `HandleEvent` says |
| AdGuardHome.RequestOf | backends/adguardhome/adguardhome.go:39-41 | no request iff the container has no `creg.dns` label; an index out of range iff the value has no `,` |
| AdGuardHome.RequestOfPair | backends/adguardhome/adguardhome.go:40-41 | `creg.dns=<domain>,<answer>` names the rewrite from domain to answer |
| AdGuardHome.RequestIgnoresExtraFields | backends/adguardhome/adguardhome.go:40-41 | fields after the second are ignored |
| AdGuardHome.StartThenStopRestores | backends/adguardhome/adguardhome.go:38-47 | `start` then `stop` with the same labels restores a rewrite set that lacked the rewrite; without a `,` both panic |
| AdGuardHome.StartThenStopDropsExisting | backends/adguardhome/adguardhome.go:38-47 | if the rewrite was already present, the round trip deletes it |
| AdGuardHome.UnlabelledEventsChangeNothing | backends/adguardhome/adguardhome.go:37-48 | events without `creg.dns` never change the rewrites |
| AdGuardHome.WithoutStartOnlyShrinks | backends/adguardhome/adguardhome.go:37-48 | only `start` adds: without it the rewrites can only shrink |
| AdGuardHome.AppliedStaysNone | backends/adguardhome/adguardhome.go:30-50 | once an event panics, the run does not get past it |
| AdGuardHome.Backend.constructor | backends/adguardhome/adguardhome.go:21-27 | the backend holds the server's rewrites, and its `Log` is nil |
| AdGuardHome.Backend.SetLog | backends/adguardhome/adguardhome.go:18 | a caller assigning the exported `Log` field sets the logger and changes no rewrite |
| AdGuardHome.Backend.GetName | backends/adguardhome/adguardhome.go:54-56 | always `adguardhome` |
| AdGuardHome.Backend.Purge | backends/adguardhome/adguardhome.go:58-60 | always the error `not implemented`, with no change |
| AdGuardHome.Backend.Refresh | backends/adguardhome/adguardhome.go:62-64 | always the error `not implemented`, with no change |
| AdGuardHome.Backend.HandleEvent | backends/adguardhome/adguardhome.go:37-48 | `start` adds and `stop` deletes the label's rewrite; it panics with no change iff the value has no `,` |
| AdGuardHome.Backend.Run | backends/adguardhome/adguardhome.go:29-52 | ignores the purge and refresh arguments; ends normally iff no event panics and `Log` is set; the rewrites are always those after the handled events; a panic is either an event without `,` or, at the end of the stream, logging through a nil `Log` |

## Left out

- Concurrency: goroutines, channels, `select` on cancellation, blocking sends and the multiplexer's mutex. Event handling is sequential, over a finite sequence of events.
- The registry and runtime clients: the Consul agent API, etcd `clientv3`, the AdGuard Home HTTP client and the Docker client. Each is replaced by the state it holds plus fixed failure answers. The AdGuard Home client panics on transport errors and 5xx replies, which is not modelled: `Add` and `Delete` always succeed.
- The AdGuard Home rewrite list is a set. Adding a rewrite that is already present changes nothing in the model, whatever the server does with duplicates.
- `os.Hostname` is the backend field `hostname`, fixed for the backend's lifetime.
- `backends.ServicePrefix` and `backends.ServiceLabelPort` are not defined in the modelled files. They are the parameters `servicePrefix` and `portLabelPrefix`.
- Logging, the `time.Sleep` before the startup events, timeouts and the text of error messages. Error messages are opaque strings.
- Client creation in the backends' `New`. Only the resulting backend is modelled.
- The event record. The Go drivers read two different event types; the model uses one record (action, container ID, labels, port map) for every source and driver.
- `podman/podman.go`, `main.go`, `backends/debug/debug.go`, `config/config.go`, `backends/backend.go` and the integration tests are not part of this model.
- `GetEventsForCreg` is split into its parts: `StartupEvents` for the running containers and `LiveEvents` for the runtime's stream. How the two streams interleave on the channel is not modelled.
- Consul.Backend.Run: when the refresh panics, the outcome names a refreshed container that can panic, but the table at that point is not stated. `Consul.Backend.Refresh` states the partial trace.
- Backends.MapServices, Backends.ServiceLabelsStartWithStatic: `FilterFunc` is limited to the one filter the source defines and passes (`TraefikLabelFilter`, at backends/consul/consul.go:63,148 and backends/etcd/etcd.go:66). A Go `FilterFunc` receives `*[]string` and could replace or truncate the tags; the model's filters only append.
- Backends.TraefikLabelFilter, Backends.MapServices and DockerSource.ConvertNetworkSettingsFromDocker: the order in which Go visits a map is not pinned down. The tag order and which entry wins a collision are stated for some visiting order, with lemmas for what holds in every order.

## Behaviour of the code that the model keeps

- Consul's `stop` handling deregisters the container ID, not the `prefix-name` ID used at registration (backends/consul/consul.go:70). A `stop` therefore leaves the container's services registered; `Consul.StopKeepsRegisteredService` states this.
- etcd ignores `stop` (backends/etcd/etcd.go:72-77), although an integration test expects the key to disappear after a stop. The model follows the code; see `Etcd.Backend.OnlyStartWrites`.
- Eligibility checks `creg.id` only when an enable label is configured (docker/docker.go:111-123). With an empty enable label, a container for another creg instance is still forwarded.
- The AdGuard Home `New` sets only the client (backends/adguardhome/adguardhome.go:21-27), and nothing in the modelled files assigns `Log`. On cancellation `Run` calls `b.Log.Infof` (line 33), a nil dereference, so a backend built by `New` alone panics when its stream ends. `AdGuardHome.Backend.Run` returns `Panicked` then; `AdGuardHome.Backend.SetLog` stands for a caller assigning the field.
- Consul's `Purge` selects services by `HasPrefix(id, prefix)` with no separator, so it also removes, say, `cregistry-x` when the prefix is `creg`. etcd deletes by `<prefix>/` and keeps such keys (`Etcd.PurgeKeepsSiblingKeys`).
