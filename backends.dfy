/**
  The label mapper shared by all backends: from a container's labels to the
  ports it publishes services on (`ExtractPorts`), and from those ports to
  the service records a backend registers (`MapServices`), with the tags the
  proxy label filter forwards (`TraefikLabelFilter`).
 */
module Backends {
  import opened GoStrings
  import opened Types

  /** `ServiceWithLabels`: a service name and the tags registered with it. */
  datatype ServiceWithLabels = ServiceWithLabels(name: string, labels: seq<string>)

  // ---------------------------------------------------------------------------
  // ExtractPorts
  // ---------------------------------------------------------------------------

  /** Entry `i` of `entries` is the well-formed pair `port:service`. */
  ghost predicate PairAt(entries: seq<string>, i: int, port: string, service: string)
  {
    0 <= i < |entries| && Split(entries[i], ':') == [port, service]
  }

  /**
    The port map that the entries of one label value produce when they are
    applied left to right: an entry that splits on `:` into exactly two parts
    assigns `ports[part0] = part1`, any other entry is skipped.
   */
  function EntryPorts(entries: seq<string>): map<string, string>
    decreases |entries|
  {
    if entries == [] then map[]
    else
      var ports := EntryPorts(entries[..|entries| - 1]);
      var split := Split(entries[|entries| - 1], ':');
      if |split| == 2 then ports[split[0] := split[1]] else ports
  }

  /** The port map one prefixed label contributes: quotes stripped, split on `,`, then on `:`. */
  function LabelPorts(value: string): map<string, string>
  {
    EntryPorts(Split(RemoveAll(value, '\''), ','))
  }

  /** A port is mapped exactly when some entry is a well-formed pair for it. */
  lemma {:induction false} EntryPortsKeys(entries: seq<string>)
    ensures forall p :: p in EntryPorts(entries) <==> exists i, s :: PairAt(entries, i, p, s)
    decreases |entries|
  {
    if entries != [] {
      var n := |entries| - 1;
      var init := entries[..n];
      EntryPortsKeys(init);
      var split := Split(entries[n], ':');
      var m := EntryPorts(entries);
      var m0 := EntryPorts(init);
      assert m == if |split| == 2 then m0[split[0] := split[1]] else m0;
      forall p | p in m ensures exists i, s :: PairAt(entries, i, p, s) {
        if |split| == 2 && p == split[0] {
          assert PairAt(entries, n, p, split[1]);
        } else {
          var i, s :| PairAt(init, i, p, s);
          assert entries[i] == init[i];
          assert PairAt(entries, i, p, s);
        }
      }
      forall p | exists i, s :: PairAt(entries, i, p, s) ensures p in m {
        var i, s :| PairAt(entries, i, p, s);
        if i < n {
          assert entries[i] == init[i];
          assert PairAt(init, i, p, s);
        } else {
          assert split == [p, s];
        }
      }
    }
  }

  /** A mapped port holds the service of the LAST well-formed entry for it: later entries overwrite. */
  lemma {:induction false} EntryPortsLastWins(entries: seq<string>)
    ensures forall p :: p in EntryPorts(entries) ==>
      exists i :: (PairAt(entries, i, p, EntryPorts(entries)[p]) &&
        forall j, s :: i < j < |entries| ==> !PairAt(entries, j, p, s))
    decreases |entries|
  {
    if entries != [] {
      var n := |entries| - 1;
      var init := entries[..n];
      EntryPortsLastWins(init);
      var split := Split(entries[n], ':');
      var m := EntryPorts(entries);
      var m0 := EntryPorts(init);
      assert m == if |split| == 2 then m0[split[0] := split[1]] else m0;
      forall p | p in m
        ensures exists i :: (PairAt(entries, i, p, m[p]) &&
          forall j, s :: i < j < |entries| ==> !PairAt(entries, j, p, s))
      {
        if |split| == 2 && p == split[0] {
          assert PairAt(entries, n, p, m[p]);
        } else {
          assert p in m0 && m[p] == m0[p];
          var i :| PairAt(init, i, p, m0[p]) && forall j, s :: i < j < |init| ==> !PairAt(init, j, p, s);
          assert entries[i] == init[i];
          assert PairAt(entries, i, p, m[p]);
          forall j, s | i < j < |entries| ensures !PairAt(entries, j, p, s) {
            if j < n {
              assert entries[j] == init[j];
              assert !PairAt(init, j, p, s);
            }
          }
        }
      }
    }
  }

  /** An entry contributes exactly when it holds exactly one colon. */
  lemma PairIffOneColon(entry: string)
    ensures |Split(entry, ':')| == 2 <==> multiset(entry)[':'] == 1
  {
    SplitSpec(entry, ':');
  }

  /** A malformed entry anywhere is skipped and does not disturb the others. */
  lemma MalformedEntrySkipped(before: seq<string>, bad: string)
    requires |Split(bad, ':')| != 2
    ensures EntryPorts(before + [bad]) == EntryPorts(before)
  {
    assert (before + [bad])[..|before|] == before;
  }

  /** A later entry for the same port overwrites the earlier one. */
  lemma LaterEntryWins(before: seq<string>, port: string, s1: string, s2: string)
    requires ':' !in port && ':' !in s1 && ':' !in s2
    ensures EntryPorts(before + [port + ":" + s1] + [port + ":" + s2]) == EntryPorts(before)[port := s2]
  {
    SplitJoin([port, s1], ':');
    SplitJoin([port, s2], ':');
    assert Join([port, s1], ':') == port + ":" + s1;
    assert Join([port, s2], ':') == port + ":" + s2;
    var es := before + [port + ":" + s1] + [port + ":" + s2];
    assert es[..|es| - 1] == before + [port + ":" + s1];
    assert (before + [port + ":" + s1])[..|before|] == before;
  }

  /** `port:service` with colon-free halves is a well-formed entry. */
  lemma PairEntry(port: string, service: string)
    requires ':' !in port && ':' !in service
    ensures Split(port + ":" + service, ':') == [port, service]
  {
    SplitAtFirst(port, ':', service);
    SplitNoSeparator(service, ':');
  }

  /** A port token or service name that holds none of the characters the label syntax uses. */
  predicate PlainToken(t: string)
  {
    ':' !in t && ',' !in t && '\'' !in t
  }

  /** `creg.port = <p1>:<s1>,<p2>:<s2>` (e.g. `80/tcp:web,443/tcp:web-tls`) maps both ports; on a repeated port the second wins. */
  lemma LabelPortsTwoEntries(p1: string, s1: string, p2: string, s2: string)
    requires PlainToken(p1) && PlainToken(s1) && PlainToken(p2) && PlainToken(s2)
    ensures LabelPorts(p1 + ":" + s1 + "," + p2 + ":" + s2) == map[p1 := s1][p2 := s2]
  {
    var e1, e2 := p1 + ":" + s1, p2 + ":" + s2;
    var v := p1 + ":" + s1 + "," + p2 + ":" + s2;
    assert v == e1 + [','] + e2;
    assert '\'' !in v;
    RemoveAllAbsent(v, '\'');
    assert ',' !in e1 && ',' !in e2;
    SplitAtFirst(e1, ',', e2);
    SplitNoSeparator(e2, ',');
    assert Split(v, ',') == [e1, e2];
    PairEntry(p1, s1);
    PairEntry(p2, s2);
    assert [e1, e2][..1] == [e1];
    assert [e1][..0] == [];
    assert EntryPorts([e1]) == map[p1 := s1];
    assert EntryPorts([e1, e2]) == map[p1 := s1][p2 := s2];
    assert LabelPorts(v) == EntryPorts([e1, e2]);
  }

  /** Single quotes around the value are removed before it is split: `'80/tcp:web'` maps `80/tcp` to `web`. */
  lemma LabelPortsQuoted(p: string, s: string)
    requires PlainToken(p) && PlainToken(s)
    ensures LabelPorts("'" + p + ":" + s + "'") == map[p := s]
  {
    var e := p + ":" + s;
    assert "'" + p + ":" + s + "'" == "'" + (e + "'");
    RemoveAllConcat("'", e + "'", '\'');
    RemoveAllConcat(e, "'", '\'');
    assert '\'' !in e;
    RemoveAllAbsent(e, '\'');
    assert RemoveAll("'", '\'') == "";
    assert RemoveAll("'" + p + ":" + s + "'", '\'') == e;
    assert ',' !in e;
    SplitNoSeparator(e, ',');
    PairEntry(p, s);
    assert [e][..0] == [];
    assert EntryPorts([e]) == map[p := s];
    assert LabelPorts("'" + p + ":" + s + "'") == EntryPorts([e]);
  }

  /** The label keys `ExtractPorts` reads: those starting with the prefix. */
  function PrefixedKeys(labels: map<string, string>, prefix: string): set<string>
  {
    set k | k in labels && prefix <= k
  }

  /** The port map each label would contribute if it were prefixed. */
  function PortMaps(labels: map<string, string>): (maps: map<string, map<string, string>>)
    ensures maps.Keys == labels.Keys
  {
    map k | k in labels :: LabelPorts(labels[k])
  }

  /** The maps of the keys in `order`, merged left to right (a later map overwrites). */
  function Merge(order: seq<string>, maps: map<string, map<string, string>>): map<string, string>
    requires forall i :: 0 <= i < |order| ==> order[i] in maps
    decreases |order|
  {
    if order == [] then map[]
    else Merge(order[..|order| - 1], maps) + maps[order[|order| - 1]]
  }

  /** The port maps of the labels in `order`, merged in that order. */
  function MergedPorts(order: seq<string>, labels: map<string, string>): map<string, string>
    requires forall i :: 0 <= i < |order| ==> order[i] in labels
  {
    Merge(order, PortMaps(labels))
  }

  /**
    `ExtractPorts`: the union of the port maps of every label whose key starts
    with `prefix`. Go visits the labels in an unspecified order, which decides
    which service wins when two labels map the same port; `order` is the order
    this run visited the prefixed labels in.
   */
  method ExtractPorts(labels: map<string, string>, prefix: string)
    returns (ports: map<string, string>, ghost order: seq<string>)
    ensures IsIterationOrder(order, PrefixedKeys(labels, prefix))
    ensures ports == MergedPorts(order, labels)
    ensures forall p :: p in ports <==>
      exists k :: k in labels && prefix <= k && p in LabelPorts(labels[k])
    ensures forall p :: p in ports ==>
      exists k :: k in labels && prefix <= k && p in LabelPorts(labels[k]) && ports[p] == LabelPorts(labels[k])[p]
  {
    ports := map[];
    order := [];
    var todo := labels.Keys;
    while todo != {}
      invariant VisitedPrefixed(labels, prefix, todo, order)
      invariant ports == MergedPorts(order, labels)
      decreases |todo|
    {
      var k :| k in todo;
      var v := RemoveAll(labels[k], '\'');
      VisitStep(labels, prefix, todo, order, k);
      if prefix <= k {
        MergedPortsStep(order, k, labels);
        ports := ApplyPortLabel(ports, v);
        order := order + [k];
      }
      todo := todo - {k};
    }
    VisitDone(labels, prefix, order);
    MergedPortsSources(order, labels, prefix);
  }

  /**
    The loop invariant of `ExtractPorts`: `order` lists, once each, exactly
    the prefixed labels already taken out of `todo`.
   */
  ghost predicate VisitedPrefixed(labels: map<string, string>, prefix: string, todo: set<string>, order: seq<string>)
  {
    && todo <= labels.Keys
    && (forall i :: 0 <= i < |order| ==> order[i] in labels && prefix <= order[i] && order[i] !in todo)
    && (forall i, j :: 0 <= i < j < |order| ==> order[i] != order[j])
    && (forall k :: k in labels && prefix <= k && k !in todo ==> k in order)
  }

  lemma VisitStep(labels: map<string, string>, prefix: string, todo: set<string>, order: seq<string>, k: string)
    requires VisitedPrefixed(labels, prefix, todo, order) && k in todo
    ensures prefix <= k ==> VisitedPrefixed(labels, prefix, todo - {k}, order + [k])
    ensures !(prefix <= k) ==> VisitedPrefixed(labels, prefix, todo - {k}, order)
    ensures forall i :: 0 <= i < |order| ==> order[i] in labels
  {
  }

  lemma VisitDone(labels: map<string, string>, prefix: string, order: seq<string>)
    requires VisitedPrefixed(labels, prefix, {}, order)
    ensures IsIterationOrder(order, PrefixedKeys(labels, prefix))
  {
  }

  /** Visiting one more prefixed label merges its port map over the result so far. */
  lemma MergedPortsStep(order: seq<string>, k: string, labels: map<string, string>)
    requires forall i :: 0 <= i < |order| ==> order[i] in labels
    requires k in labels
    ensures MergedPorts(order + [k], labels) == MergedPorts(order, labels) + LabelPorts(labels[k])
  {
    assert (order + [k])[..|order|] == order;
    assert PortMaps(labels)[k] == LabelPorts(labels[k]);
  }

  /**
    The inner loop of `ExtractPorts` for one prefixed label (its value already
    stripped of quotes): each well-formed `port:service` entry is assigned in
    turn, malformed entries are skipped.
   */
  method ApplyPortLabel(ports: map<string, string>, value: string) returns (ports': map<string, string>)
    ensures ports' == ports + EntryPorts(Split(value, ','))
  {
    var splitP := Split(value, ',');
    ports' := ports;
    var i := 0;
    while i < |splitP|
      invariant 0 <= i <= |splitP|
      invariant ports' == ports + EntryPorts(splitP[..i])
    {
      var split := Split(splitP[i], ':');
      assert splitP[..i + 1][..i] == splitP[..i];
      if |split| != 2 {
        // malformed pair: logged and skipped
        i := i + 1;
        continue;
      }
      ports' := ports'[split[0] := split[1]];
      i := i + 1;
    }
    assert splitP[..|splitP|] == splitP;
  }

  /**
    Whatever the visiting order, the merged ports are exactly the ports some
    prefixed label maps, each with the service one of those labels gives it.
   */
  lemma MergedPortsSources(order: seq<string>, labels: map<string, string>, prefix: string)
    requires IsIterationOrder(order, PrefixedKeys(labels, prefix))
    ensures forall p :: p in MergedPorts(order, labels) <==>
      exists k :: k in labels && prefix <= k && p in LabelPorts(labels[k])
    ensures forall p :: p in MergedPorts(order, labels) ==>
      exists k :: (k in labels && prefix <= k && p in LabelPorts(labels[k]) &&
        MergedPorts(order, labels)[p] == LabelPorts(labels[k])[p])
  {
    var maps := PortMaps(labels);
    MergeKeys(order, maps);
    MergeValues(order, maps);
    var merged := MergedPorts(order, labels);
    forall p | p in merged
      ensures exists k :: (k in labels && prefix <= k && p in LabelPorts(labels[k]) &&
        merged[p] == LabelPorts(labels[k])[p])
    {
      var i :| 0 <= i < |order| && p in maps[order[i]] && merged[p] == maps[order[i]][p];
      assert order[i] in PrefixedKeys(labels, prefix);
    }
    forall p | exists k :: k in labels && prefix <= k && p in LabelPorts(labels[k])
      ensures p in merged
    {
      var k :| k in labels && prefix <= k && p in LabelPorts(labels[k]);
      assert k in PrefixedKeys(labels, prefix);
      var i :| 0 <= i < |order| && order[i] == k;
      assert p in maps[order[i]];
    }
  }

  /** The merged map holds exactly the keys some visited map holds. */
  lemma {:induction false} MergeKeys(order: seq<string>, maps: map<string, map<string, string>>)
    requires forall i :: 0 <= i < |order| ==> order[i] in maps
    ensures forall p :: p in Merge(order, maps) <==> exists i :: 0 <= i < |order| && p in maps[order[i]]
    decreases |order|
  {
    if order != [] {
      var init := order[..|order| - 1];
      MergeKeys(init, maps);
      forall p | exists i :: 0 <= i < |order| && p in maps[order[i]]
        ensures p in Merge(order, maps)
      {
        var i :| 0 <= i < |order| && p in maps[order[i]];
        if i < |order| - 1 {
          assert init[i] == order[i];
        }
      }
      forall p | p in Merge(init, maps)
        ensures exists i :: 0 <= i < |order| && p in maps[order[i]]
      {
        var i :| 0 <= i < |init| && p in maps[init[i]];
        assert order[i] == init[i];
      }
    }
  }

  /** Every merged key carries the value one of the visited maps gives it. */
  lemma {:induction false} MergeValues(order: seq<string>, maps: map<string, map<string, string>>)
    requires forall i :: 0 <= i < |order| ==> order[i] in maps
    ensures forall p :: p in Merge(order, maps) ==>
      exists i :: (0 <= i < |order| && p in maps[order[i]] && Merge(order, maps)[p] == maps[order[i]][p])
    decreases |order|
  {
    if order != [] {
      var init := order[..|order| - 1];
      MergeValues(init, maps);
      var last := |order| - 1;
      forall p | p in Merge(order, maps)
        ensures exists i :: (0 <= i < |order| && p in maps[order[i]] && Merge(order, maps)[p] == maps[order[i]][p])
      {
        assert Merge(order, maps) == Merge(init, maps) + maps[order[last]];
        if p in maps[order[last]] {
          assert 0 <= last < |order|;
        } else {
          assert p in Merge(init, maps);
          var i :| 0 <= i < |init| && p in maps[init[i]] && Merge(init, maps)[p] == maps[init[i]][p];
          assert order[i] == init[i];
        }
      }
    }
  }

  /** Without any prefixed label the result is empty. */
  lemma ExtractNoPrefixedLabel(order: seq<string>, labels: map<string, string>, prefix: string)
    requires IsIterationOrder(order, PrefixedKeys(labels, prefix))
    requires forall k :: k in labels ==> !(prefix <= k)
    ensures MergedPorts(order, labels) == map[]
  {
    IterationOrderSize(order, PrefixedKeys(labels, prefix));
    assert PrefixedKeys(labels, prefix) == {};
  }

  /** With a single prefixed label the result is that label's port map, whatever the order. */
  lemma ExtractSinglePrefixedLabel(order: seq<string>, labels: map<string, string>, prefix: string, k: string)
    requires IsIterationOrder(order, PrefixedKeys(labels, prefix))
    requires k in labels && prefix <= k
    requires forall k' :: k' in labels && prefix <= k' ==> k' == k
    ensures MergedPorts(order, labels) == LabelPorts(labels[k])
  {
    assert PrefixedKeys(labels, prefix) == {k};
    IterationOrderSize(order, {k});
    assert order == [k];
    assert order[..0] == [];
    assert MergedPorts(order, labels) == Merge([], PortMaps(labels)) + PortMaps(labels)[k];
  }

  /** Keys the maps agree on: no key is given two different values. */
  ghost predicate Agree(keys: set<string>, maps: map<string, map<string, string>>)
  {
    forall k1, k2, p :: k1 in keys && k2 in keys && k1 in maps && k2 in maps && p in maps[k1] && p in maps[k2] ==>
      maps[k1][p] == maps[k2][p]
  }

  /** Visiting a superset of the maps yields a superset of the keys. */
  lemma MergeKeysSubset(o1: seq<string>, o2: seq<string>, maps: map<string, map<string, string>>)
    requires forall i :: 0 <= i < |o1| ==> o1[i] in maps
    requires forall i :: 0 <= i < |o2| ==> o2[i] in maps
    requires forall i :: 0 <= i < |o1| ==> o1[i] in o2
    ensures Merge(o1, maps).Keys <= Merge(o2, maps).Keys
  {
    MergeKeys(o1, maps);
    MergeKeys(o2, maps);
    forall p | p in Merge(o1, maps) ensures p in Merge(o2, maps) {
      var i :| 0 <= i < |o1| && p in maps[o1[i]];
      assert o1[i] in o2;
      var j :| 0 <= j < |o2| && o2[j] == o1[i];
    }
  }

  /** Where the maps agree, every merged key has the value any visited map gives it. */
  lemma MergeValueAgreed(order: seq<string>, keys: set<string>, maps: map<string, map<string, string>>, k: string, p: string)
    requires forall i :: 0 <= i < |order| ==> order[i] in keys && order[i] in maps
    requires Agree(keys, maps)
    requires k in keys && k in maps && p in maps[k] && p in Merge(order, maps)
    ensures Merge(order, maps)[p] == maps[k][p]
  {
    MergeValues(order, maps);
    var i :| 0 <= i < |order| && p in maps[order[i]] && Merge(order, maps)[p] == maps[order[i]][p];
    assert order[i] in keys;
  }

  /** Merging agreeing maps gives the same result in any two orders. */
  lemma MergeOrderIrrelevant(o1: seq<string>, o2: seq<string>, keys: set<string>, maps: map<string, map<string, string>>)
    requires IsIterationOrder(o1, keys) && IsIterationOrder(o2, keys)
    requires keys <= maps.Keys
    requires Agree(keys, maps)
    ensures Merge(o1, maps) == Merge(o2, maps)
  {
    MergeKeysSubset(o1, o2, maps);
    MergeKeysSubset(o2, o1, maps);
    var m1, m2 := Merge(o1, maps), Merge(o2, maps);
    forall p | p in m1 ensures m1[p] == m2[p] {
      MergeValues(o1, maps);
      var i :| 0 <= i < |o1| && p in maps[o1[i]] && m1[p] == maps[o1[i]][p];
      MergeValueAgreed(o2, keys, maps, o1[i], p);
    }
  }

  /**
    When no two prefixed labels map the same port to different services, the
    order Go visits the labels in does not matter: any two runs agree.
   */
  lemma ExtractOrderIrrelevant(o1: seq<string>, o2: seq<string>, labels: map<string, string>, prefix: string)
    requires IsIterationOrder(o1, PrefixedKeys(labels, prefix))
    requires IsIterationOrder(o2, PrefixedKeys(labels, prefix))
    requires Agree(PrefixedKeys(labels, prefix), PortMaps(labels))
    ensures MergedPorts(o1, labels) == MergedPorts(o2, labels)
  {
    MergeOrderIrrelevant(o1, o2, PrefixedKeys(labels, prefix), PortMaps(labels));
  }

  // ---------------------------------------------------------------------------
  // MapServices and the label filters
  // ---------------------------------------------------------------------------

  /**
    The filters a backend hands to `MapServices`: the one filter the source
    defines and passes, `TraefikLabelFilter`. Go's `FilterFunc` is an open
    function type over `*[]string`; other filters are not modelled.
   */
  datatype FilterFunc = TraefikLabelFilterFunc

  /** `fmt.Sprintf("%s=%s", k, v)`. */
  function Tag(k: string, v: string): string
  {
    k + "=" + v
  }

  /** The proxy label filter forwards a label whose key contains `.<service>` or `traefik.`. */
  predicate ForwardsLabel(key: string, service: string)
  {
    Contains(key, "." + service) || Contains(key, "traefik.")
  }

  /** The container labels filter `f` forwards for `service`. */
  function FilterKeys(f: FilterFunc, containerLabels: map<string, string>, service: string): set<string>
  {
    match f
    case TraefikLabelFilterFunc => set k | k in containerLabels && ForwardsLabel(k, service)
  }

  /** The `k=v` tags of the labels in `order`, in that order. */
  function TagsOf(order: seq<string>, containerLabels: map<string, string>): (tags: seq<string>)
    requires forall i :: 0 <= i < |order| ==> order[i] in containerLabels
    ensures |tags| == |order|
    ensures forall i :: 0 <= i < |order| ==> tags[i] == Tag(order[i], containerLabels[order[i]])
  {
    seq(|order|, i requires 0 <= i < |order| => Tag(order[i], containerLabels[order[i]]))
  }

  /**
    `TraefikLabelFilter`: appends to the caller's tag list one `k=v` per
    forwarded container label, in the order Go visits the labels (`order`),
    and changes nothing else.
   */
  method TraefikLabelFilter(serviceLabels: seq<string>, containerLabels: map<string, string>, service: string)
    returns (newLabels: seq<string>, ghost order: seq<string>)
    ensures IsIterationOrder(order, FilterKeys(TraefikLabelFilterFunc, containerLabels, service))
    ensures newLabels == serviceLabels + TagsOf(order, containerLabels)
    ensures |newLabels| == |serviceLabels| + |FilterKeys(TraefikLabelFilterFunc, containerLabels, service)|
    ensures newLabels[..|serviceLabels|] == serviceLabels
    ensures forall t :: t in newLabels[|serviceLabels|..] <==>
      exists k :: k in containerLabels && ForwardsLabel(k, service) && t == Tag(k, containerLabels[k])
  {
    newLabels := serviceLabels;
    order := [];
    var todo := containerLabels.Keys;
    while todo != {}
      invariant todo <= containerLabels.Keys
      invariant forall i :: 0 <= i < |order| ==>
        order[i] in containerLabels && ForwardsLabel(order[i], service) && order[i] !in todo
      invariant forall i, j :: 0 <= i < j < |order| ==> order[i] != order[j]
      invariant forall k :: k in containerLabels && ForwardsLabel(k, service) && k !in todo ==> k in order
      invariant newLabels == serviceLabels + TagsOf(order, containerLabels)
      decreases |todo|
    {
      var k :| k in todo;
      if Contains(k, "." + service) || Contains(k, "traefik.") {
        newLabels := newLabels + [Tag(k, containerLabels[k])];
        order := order + [k];
      }
      todo := todo - {k};
    }
    TagsOfOrder(order, FilterKeys(TraefikLabelFilterFunc, containerLabels, service), containerLabels);
    assert newLabels[|serviceLabels|..] == TagsOf(order, containerLabels);
  }

  /** Runs one filter on a tag list. */
  method ApplyFilter(f: FilterFunc, serviceLabels: seq<string>, containerLabels: map<string, string>, service: string)
    returns (newLabels: seq<string>, ghost order: seq<string>)
    ensures IsIterationOrder(order, FilterKeys(f, containerLabels, service))
    ensures newLabels == serviceLabels + TagsOf(order, containerLabels)
  {
    match f
    case TraefikLabelFilterFunc =>
      newLabels, order := TraefikLabelFilter(serviceLabels, containerLabels, service);
  }

  /** `orders[i]` is an order in which filter `filters[i]` may have visited the labels. */
  ghost predicate FilterOrders(filters: seq<FilterFunc>, containerLabels: map<string, string>, service: string,
                               orders: seq<seq<string>>)
  {
    && |orders| == |filters|
    && forall i :: 0 <= i < |filters| ==> IsIterationOrder(orders[i], FilterKeys(filters[i], containerLabels, service))
  }

  /** The tags all filters append, one filter after the other. */
  ghost function AppendedTags(filters: seq<FilterFunc>, containerLabels: map<string, string>, service: string,
                              orders: seq<seq<string>>): seq<string>
    requires FilterOrders(filters, containerLabels, service, orders)
    decreases |orders|
  {
    if orders == [] then []
    else
      var n := |orders| - 1;
      assert forall i :: 0 <= i < |orders[n]| ==> orders[n][i] in containerLabels;
      AppendedTags(filters[..n], containerLabels, service, orders[..n]) + TagsOf(orders[n], containerLabels)
  }

  /**
    `labels` is what a service's tag list can be after `MapServices`: a copy of
    the static tags followed by what each filter appended, in filter order.
   */
  ghost predicate IsServiceLabels(labels: seq<string>, staticLabels: seq<string>, filters: seq<FilterFunc>,
                                  containerLabels: map<string, string>, service: string)
  {
    exists orders :: FilterOrders(filters, containerLabels, service, orders) &&
      labels == staticLabels + AppendedTags(filters, containerLabels, service, orders)
  }

  /** What `MapServices` may return for these inputs. */
  ghost predicate IsServiceMap(servicesByPort: map<string, ServiceWithLabels>, ports: map<string, string>,
                               containerLabels: map<string, string>, staticLabels: seq<string>, filters: seq<FilterFunc>)
  {
    && servicesByPort.Keys == ports.Keys
    && forall p :: p in servicesByPort ==>
         && servicesByPort[p].name == ports[p]
         && IsServiceLabels(servicesByPort[p].labels, staticLabels, filters, containerLabels, ports[p])
  }

  /**
    `MapServices`: one record per port, named after the port's service, whose
    tags start from a fresh copy of the static tags and then run through the
    filters. Sequences are values, so no record shares the caller's tags.
   */
  method MapServices(ports: map<string, string>, containerLabels: map<string, string>,
                     staticLabelsToAdd: seq<string>, filters: seq<FilterFunc>)
    returns (servicesByPort: map<string, ServiceWithLabels>)
    ensures IsServiceMap(servicesByPort, ports, containerLabels, staticLabelsToAdd, filters)
  {
    servicesByPort := map[];
    var todo := ports.Keys;
    while todo != {}
      invariant todo <= ports.Keys
      invariant servicesByPort.Keys == ports.Keys - todo
      invariant forall p :: p in servicesByPort ==>
        && servicesByPort[p].name == ports[p]
        && IsServiceLabels(servicesByPort[p].labels, staticLabelsToAdd, filters, containerLabels, ports[p])
      decreases |todo|
    {
      var port :| port in todo;
      var service := ports[port];
      var ls := RunFilters(staticLabelsToAdd, filters, containerLabels, service);
      servicesByPort := servicesByPort[port := ServiceWithLabels(service, ls)];
      todo := todo - {port};
    }
  }

  /**
    The inner loop of `MapServices` for one service: starting from the static
    tags, each filter in turn appends to the tag list.
   */
  method RunFilters(staticLabels: seq<string>, filters: seq<FilterFunc>, containerLabels: map<string, string>,
                    service: string)
    returns (ls: seq<string>)
    ensures IsServiceLabels(ls, staticLabels, filters, containerLabels, service)
  {
    ls := staticLabels;
    ghost var orders: seq<seq<string>> := [];
    var i := 0;
    while i < |filters|
      invariant 0 <= i <= |filters|
      invariant FilterOrders(filters[..i], containerLabels, service, orders)
      invariant ls == staticLabels + AppendedTags(filters[..i], containerLabels, service, orders)
    {
      ghost var order;
      ls, order := ApplyFilter(filters[i], ls, containerLabels, service);
      ghost var orders' := orders + [order];
      assert filters[..i + 1][..i] == filters[..i];
      assert orders'[..i] == orders;
      assert FilterOrders(filters[..i + 1], containerLabels, service, orders');
      assert AppendedTags(filters[..i + 1], containerLabels, service, orders') ==
        AppendedTags(filters[..i], containerLabels, service, orders) + TagsOf(order, containerLabels);
      orders := orders';
      i := i + 1;
    }
    assert filters[..|filters|] == filters;
  }

  /** Whatever the filters append, a service's tags begin with the static tags. */
  lemma ServiceLabelsStartWithStatic(labels: seq<string>, staticLabels: seq<string>, filters: seq<FilterFunc>,
                                     containerLabels: map<string, string>, service: string)
    requires IsServiceLabels(labels, staticLabels, filters, containerLabels, service)
    ensures |staticLabels| <= |labels| && labels[..|staticLabels|] == staticLabels
  {
    var orders :| FilterOrders(filters, containerLabels, service, orders) &&
      labels == staticLabels + AppendedTags(filters, containerLabels, service, orders);
  }

  /**
    `services` is what the backends' `start` handling may build from a
    container's labels: the ports of the labels with `portPrefix`, mapped to
    services tagged first with `staticTags`, then by the proxy label filter.
   */
  ghost predicate MappedServices(services: map<string, ServiceWithLabels>, labels: map<string, string>,
                                 portPrefix: string, staticTags: seq<string>)
  {
    exists o :: IsIterationOrder(o, PrefixedKeys(labels, portPrefix)) &&
      IsServiceMap(services, MergedPorts(o, labels), labels, staticTags, [TraefikLabelFilterFunc])
  }

  /** `ExtractPorts` followed by `MapServices` with the proxy label filter, as each backend does on `start`. */
  method ServicesFromLabels(labels: map<string, string>, portPrefix: string, staticTags: seq<string>)
    returns (services: map<string, ServiceWithLabels>)
    ensures MappedServices(services, labels, portPrefix, staticTags)
  {
    var ports, o := ExtractPorts(labels, portPrefix);
    services := MapServices(ports, labels, staticTags, [TraefikLabelFilterFunc]);
  }

  /** Every service of a service map built with the proxy label filter starts with the static tags. */
  lemma ServiceMapTags(services: map<string, ServiceWithLabels>, ports: map<string, string>,
                       labels: map<string, string>, tags: seq<string>)
    requires IsServiceMap(services, ports, labels, tags, [TraefikLabelFilterFunc])
    ensures forall p :: p in services ==> |tags| <= |services[p].labels| && services[p].labels[..|tags|] == tags
  {
    forall p | p in services
      ensures |tags| <= |services[p].labels| && services[p].labels[..|tags|] == tags
    {
      ServiceLabelsStartWithStatic(services[p].labels, tags, [TraefikLabelFilterFunc], labels, ports[p]);
    }
  }

  /** With no filters, every service's tags are exactly the static tags. */
  lemma NoFiltersKeepsStaticLabels(labels: seq<string>, staticLabels: seq<string>,
                                   containerLabels: map<string, string>, service: string)
    requires IsServiceLabels(labels, staticLabels, [], containerLabels, service)
    ensures labels == staticLabels
  {
  }

  /** With a single filter, the tags are the static tags plus the tags of one visiting order. */
  lemma SingleFilterOrder(labels: seq<string>, staticLabels: seq<string>, f: FilterFunc,
                          containerLabels: map<string, string>, service: string)
    returns (order: seq<string>)
    requires IsServiceLabels(labels, staticLabels, [f], containerLabels, service)
    ensures IsIterationOrder(order, FilterKeys(f, containerLabels, service))
    ensures forall i :: 0 <= i < |order| ==> order[i] in containerLabels
    ensures labels == staticLabels + TagsOf(order, containerLabels)
  {
    var orders :| FilterOrders([f], containerLabels, service, orders) &&
      labels == staticLabels + AppendedTags([f], containerLabels, service, orders);
    order := orders[0];
    assert orders[..0] == [];
    assert [f][..0] == [];
    assert AppendedTags([f], containerLabels, service, orders) ==
      AppendedTags([], containerLabels, service, []) + TagsOf(order, containerLabels);
  }

  /** The tags of a visiting order are exactly the `k=v` of the visited keys, one per key. */
  lemma TagsOfOrder(order: seq<string>, keys: set<string>, containerLabels: map<string, string>)
    requires IsIterationOrder(order, keys)
    requires keys <= containerLabels.Keys
    ensures |TagsOf(order, containerLabels)| == |keys|
    ensures forall t :: t in TagsOf(order, containerLabels) <==>
      exists k :: k in keys && t == Tag(k, containerLabels[k])
  {
    IterationOrderSize(order, keys);
    var tags := TagsOf(order, containerLabels);
    forall t | t in tags
      ensures exists k :: k in keys && t == Tag(k, containerLabels[k])
    {
      var i :| 0 <= i < |tags| && tags[i] == t;
      assert order[i] in keys;
    }
    forall t | exists k :: k in keys && t == Tag(k, containerLabels[k])
      ensures t in tags
    {
      var k :| k in keys && t == Tag(k, containerLabels[k]);
      var i :| 0 <= i < |order| && order[i] == k;
      assert tags[i] == t;
    }
  }

  /**
    With the proxy label filter, a service's tags are the static tags followed
    by exactly one `k=v` for each forwarded container label.
   */
  lemma TraefikFilteredLabels(labels: seq<string>, staticLabels: seq<string>,
                              containerLabels: map<string, string>, service: string)
    requires IsServiceLabels(labels, staticLabels, [TraefikLabelFilterFunc], containerLabels, service)
    ensures |labels| == |staticLabels| + |FilterKeys(TraefikLabelFilterFunc, containerLabels, service)|
    ensures labels[..|staticLabels|] == staticLabels
    ensures forall t :: t in labels[|staticLabels|..] <==>
      exists k :: k in containerLabels && ForwardsLabel(k, service) && t == Tag(k, containerLabels[k])
  {
    var keys := FilterKeys(TraefikLabelFilterFunc, containerLabels, service);
    var order := SingleFilterOrder(labels, staticLabels, TraefikLabelFilterFunc, containerLabels, service);
    TagsOfOrder(order, keys, containerLabels);
    assert labels[|staticLabels|..] == TagsOf(order, containerLabels);
  }
}
