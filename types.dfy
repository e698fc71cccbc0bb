/**
  The records shared by event sources and backends, and the parsing of a
  port token such as `80/tcp` into its number and protocol.
 */
module Types {
  import opened GoStrings

  /** A port token, normally `<number>/<proto>`. */
  type Port = string

  /** The host address and host port a container port is published on. */
  datatype PortBinding = PortBinding(hostIP: string, hostPort: string)

  /** A container as the core sees it: its ID, its labels and its published ports. */
  datatype ContainerInfo = ContainerInfo(
    id: string,
    labels: map<string, string>,
    ports: map<Port, seq<PortBinding>>)

  /**
    The one event record every source emits and every backend consumes:
    the runtime's action (`start`, `kill`, `stop`, ...) and the container.
   */
  datatype ContainerEvent = ContainerEvent(action: string, container: ContainerInfo)

  /**
    `order` lists every element of `keys` exactly once: one of the orders in
    which a Go `range` over a map with these keys may visit them.
   */
  ghost predicate IsIterationOrder<K>(order: seq<K>, keys: set<K>)
  {
    && (forall i, j :: 0 <= i < j < |order| ==> order[i] != order[j])
    && (forall i :: 0 <= i < |order| ==> order[i] in keys)
    && (forall k :: k in keys ==> k in order)
  }

  /** A `range` over a map visits as many entries as the map has keys. */
  lemma {:induction false} IterationOrderSize<K>(order: seq<K>, keys: set<K>)
    requires IsIterationOrder(order, keys)
    ensures |order| == |keys|
  {
    if |order| == 0 {
      assert forall k :: k in keys ==> k in order;
      assert keys == {};
    } else {
      var last := order[|order| - 1];
      var prefix := order[..|order| - 1];
      assert order == prefix + [last];
      forall k | k in keys - {last} ensures k in prefix {
        assert k in order;
      }
      IterationOrderSize(prefix, keys - {last});
    }
  }

  /** `order` lists distinct keys: the keys a `range` visited before it stopped early. */
  ghost predicate PartialOrder<K>(order: seq<K>, keys: set<K>)
  {
    (forall i, j :: 0 <= i < j < |order| ==> order[i] != order[j]) &&
    (forall i :: 0 <= i < |order| ==> order[i] in keys)
  }

  /**
    The invariant of a `range` loop over a map with key set `keys`: `order`
    lists, once each, exactly the keys already taken out of `todo`.
   */
  ghost predicate Visited<K>(keys: set<K>, todo: set<K>, order: seq<K>)
  {
    && todo <= keys
    && (forall i :: 0 <= i < |order| ==> order[i] in keys && order[i] !in todo)
    && (forall i, j :: 0 <= i < j < |order| ==> order[i] != order[j])
    && (forall k :: k in keys && k !in todo ==> k in order)
  }

  lemma VisitedStart<K>(keys: set<K>)
    ensures Visited(keys, keys, [])
  {
  }

  lemma VisitedStep<K>(keys: set<K>, todo: set<K>, order: seq<K>, k: K)
    requires Visited(keys, todo, order) && k in todo
    ensures Visited(keys, todo - {k}, order + [k])
  {
  }

  lemma VisitedDone<K>(keys: set<K>, order: seq<K>)
    requires Visited(keys, {}, order)
    ensures IsIterationOrder(order, keys)
  {
  }

  /**
    `SplitProtoPort`: splits `rawPort` on `/` and returns `(proto, port)`.
    An empty token or one whose first segment is empty gives `("", "")`;
    the protocol defaults to `tcp`; segments after the second are ignored.
   */
  function SplitProtoPort(rawPort: string): (r: (string, string))
  {
    var parts := Split(rawPort, '/');
    if |rawPort| == 0 || |parts[0]| == 0 then ("", "")
    else if |parts| == 1 then ("tcp", rawPort)
    else if |parts[1]| == 0 then ("tcp", parts[0])
    else (parts[1], parts[0])
  }

  /**
    `Port.Proto`: the protocol component of the token. It never holds a `/`,
    is empty exactly for a token with no number, and is `tcp` for a bare
    number.
   */
  function Proto(p: Port): (proto: string)
    ensures '/' !in proto
    ensures proto == "" <==> p == "" || p[0] == '/'
    ensures p != "" && '/' !in p ==> proto == "tcp"
  {
    SplitProtoPortNoSlashInParts(p);
    SplitProtoPortEmptyPort(p);
    var (proto, _) := SplitProtoPort(p);
    if p != "" && '/' !in p then SplitProtoPortNoSlash(p); proto else proto
  }

  /**
    `Port.Port`: the number component of the token. It never holds a `/`, is
    empty exactly when the token is empty or starts with `/`, and is the
    whole token when the token has no `/`.
   */
  function PortNumber(p: Port): (port: string)
    ensures '/' !in port
    ensures port == "" <==> p == "" || p[0] == '/'
    ensures '/' !in p ==> port == p
  {
    SplitProtoPortNoSlashInParts(p);
    SplitProtoPortEmptyPort(p);
    var (_, port) := SplitProtoPort(p);
    if p != "" && '/' !in p then SplitProtoPortNoSlash(p); port else port
  }

  /** The key `port.Port() + "/" + port.Proto()` that creg files a port map entry under. */
  function Canonical(p: Port): (key: Port)
    ensures '/' in key
  {
    PortNumber(p) + "/" + Proto(p)
  }

  lemma SplitProtoPortEmpty()
    ensures SplitProtoPort("") == ("", "")
  {
  }

  /** A token whose part before the first `/` is empty has neither protocol nor port. */
  lemma SplitProtoPortLeadingSlash(rest: string)
    ensures SplitProtoPort("/" + rest) == ("", "")
  {
    SplitAtFirst("", '/', rest);
    assert "" + "/" + rest == "/" + rest;
  }

  /** A bare number is a `tcp` port. */
  lemma SplitProtoPortNoSlash(n: string)
    requires n != "" && '/' !in n
    ensures SplitProtoPort(n) == ("tcp", n)
  {
    SplitNoSeparator(n, '/');
  }

  /** `n/` with an empty protocol part also defaults to `tcp`. */
  lemma SplitProtoPortTrailingSlash(n: string)
    requires n != "" && '/' !in n
    ensures SplitProtoPort(n + "/") == ("tcp", n)
  {
    SplitAtFirst(n, '/', "");
    assert n + "/" + "" == n + "/";
  }

  /** `n/p` comes back as `(p, n)`: protocol first, port second. */
  lemma SplitProtoPortPair(n: string, p: string)
    requires n != "" && '/' !in n
    requires p != "" && '/' !in p
    ensures SplitProtoPort(n + "/" + p) == (p, n)
  {
    SplitAtFirst(n, '/', p);
    SplitNoSeparator(p, '/');
  }

  /** Whatever follows a second `/` does not affect the result. */
  lemma SplitProtoPortIgnoresTail(n: string, p: string, tail: string)
    requires '/' !in n && '/' !in p
    ensures SplitProtoPort(n + "/" + p + "/" + tail) == SplitProtoPort(n + "/" + p)
  {
    var long := n + "/" + p + "/" + tail;
    var short := n + "/" + p;
    assert long == n + ['/'] + (p + ['/'] + tail);
    assert short == n + ['/'] + p;
    SplitAtFirst(n, '/', p + ['/'] + tail);
    SplitAtFirst(p, '/', tail);
    SplitAtFirst(n, '/', p);
    SplitNoSeparator(p, '/');
    assert Split(long, '/') == [n, p] + Split(tail, '/');
    assert Split(short, '/') == [n, p];
    assert |long| > 0 && |short| > 0;
  }

  /** `Port.Proto` and `Port.Port` of `n/p` are `p` and `n`. */
  lemma ProtoAndPortNumber(n: string, p: string)
    requires n != "" && '/' !in n
    requires p != "" && '/' !in p
    ensures Proto(n + "/" + p) == p && PortNumber(n + "/" + p) == n
  {
    SplitProtoPortPair(n, p);
  }

  /** Neither component of a split contains a `/`. */
  lemma SplitProtoPortNoSlashInParts(rawPort: string)
    ensures '/' !in SplitProtoPort(rawPort).0 && '/' !in SplitProtoPort(rawPort).1
  {
    var parts := Split(rawPort, '/');
    SplitSpec(rawPort, '/');
    if |parts| == 1 && rawPort != "" {
      JoinSplit(rawPort, '/');
    }
  }

  /** The port component is empty exactly for an empty token or a leading `/`; the protocol is then empty too. */
  lemma SplitProtoPortEmptyPort(rawPort: string)
    ensures SplitProtoPort(rawPort).1 == "" <==> (rawPort == "" || rawPort[0] == '/')
    ensures SplitProtoPort(rawPort).1 == "" ==> SplitProtoPort(rawPort).0 == ""
  {
    if rawPort != "" {
      if rawPort[0] == '/' {
        SplitProtoPortLeadingSlash(rawPort[1..]);
        assert "/" + rawPort[1..] == rawPort;
      } else {
        var parts := Split(rawPort, '/');
        assert rawPort == [rawPort[0]] + rawPort[1..];
        assert parts[0] != "";
      }
    }
  }

  /** A canonical key is its own canonical form, so re-canonicalising changes nothing. */
  lemma {:induction false} CanonicalIdempotent(p: Port)
    ensures Canonical(Canonical(p)) == Canonical(p)
  {
    var (proto, port) := SplitProtoPort(p);
    SplitProtoPortNoSlashInParts(p);
    SplitProtoPortEmptyPort(p);
    if port == "" {
      assert Canonical(p) == "/" + "";
      SplitProtoPortLeadingSlash("");
    } else {
      assert proto != "" by {
        var parts := Split(p, '/');
        if |parts| != 1 && |parts[1]| != 0 {
          assert proto == parts[1];
        }
      }
      ProtoAndPortNumber(port, proto);
    }
  }

  /** A well-formed `n/p` token is already canonical. */
  lemma CanonicalOfPair(n: string, p: string)
    requires n != "" && '/' !in n
    requires p != "" && '/' !in p
    ensures Canonical(n + "/" + p) == n + "/" + p
  {
    ProtoAndPortNumber(n, p);
  }

  /** A bare number is canonicalised to `<number>/tcp`. */
  lemma CanonicalOfBareNumber(n: string)
    requires n != "" && '/' !in n
    ensures Canonical(n) == n + "/tcp"
  {
    SplitProtoPortNoSlash(n);
  }
}
