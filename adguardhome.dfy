/**
  The AdGuard Home backend: a container started with the label
  `creg.dns=<domain>,<answer>` adds the DNS rewrite from that domain to that
  answer, and stopping it deletes the same rewrite. The backend has no purge
  and no refresh.

  The server's rewrite list is modelled as a set of rewrites that `Add`
  inserts into and `Delete` removes from.
 */
module AdGuardHome {
  import opened Wrappers
  import opened GoStrings
  import opened Types

  /** A DNS rewrite: queries for `domain` are answered with `answer`. */
  datatype Rewrite = Rewrite(domain: string, answer: string)

  /** What an event's `creg.dns` label asks for: nothing, an index out of range, or a rewrite. */
  datatype Request = NoRequest | OutOfRange | Pair(rewrite: Rewrite)

  /** How `Run` ends: the context was cancelled (the event stream ended), or a handler panicked. */
  datatype RunOutcome = Cancelled | Panicked

  /** The label naming a container's rewrite. */
  const DnsLabel: string := "creg.dns"

  /** The backend's routing name. */
  const Name: string := "adguardhome"

  /** The error of the operations this backend does not implement. */
  const NotImplemented: string := "not implemented"

  /**
    The label's value split on `,`: the first two fields are the domain and
    the answer; with no `,` the second field is out of range.
   */
  function RequestOf(labels: map<string, string>): (r: Request)
    ensures r == NoRequest <==> DnsLabel !in labels
    ensures r == OutOfRange <==> DnsLabel in labels && ',' !in labels[DnsLabel]
  {
    if DnsLabel !in labels then NoRequest
    else
      var sp := Split(labels[DnsLabel], ',');
      SplitSpec(labels[DnsLabel], ',');
      if |sp| < 2 then OutOfRange
      else Pair(Rewrite(sp[0], sp[1]))
  }

  /**
    The rewrites after one event: `start` adds and `stop` deletes the label's
    rewrite; `None` is the panic of a label without `,`; any other action, or
    an event without the label, changes nothing.
   */
  function Step(rewrites: set<Rewrite>, e: ContainerEvent): Option<set<Rewrite>>
  {
    if e.action != "start" && e.action != "stop" then Some(rewrites)
    else
      match RequestOf(e.container.labels)
      case NoRequest => Some(rewrites)
      case OutOfRange => None
      case Pair(rw) => if e.action == "start" then Some(rewrites + {rw}) else Some(rewrites - {rw})
  }

  /** The rewrites after handling `events` in turn, or `None` when one of them panics. */
  function Applied(events: seq<ContainerEvent>, rewrites: set<Rewrite>): Option<set<Rewrite>>
    decreases |events|
  {
    if events == [] then Some(rewrites)
    else
      match Applied(events[..|events| - 1], rewrites)
      case None => None
      case Some(acc) => Step(acc, events[|events| - 1])
  }

  /** `creg.dns=<domain>,<answer>` names the rewrite from `domain` to `answer`. */
  lemma RequestOfPair(labels: map<string, string>, domain: string, answer: string)
    requires ',' !in domain && ',' !in answer
    requires DnsLabel in labels && labels[DnsLabel] == domain + "," + answer
    ensures RequestOf(labels) == Pair(Rewrite(domain, answer))
  {
    SplitAtFirst(domain, ',', answer);
    SplitNoSeparator(answer, ',');
  }

  /** Fields after the second are ignored. */
  lemma RequestIgnoresExtraFields(labels: map<string, string>, domain: string, answer: string, rest: string)
    requires ',' !in domain && ',' !in answer
    requires DnsLabel in labels && labels[DnsLabel] == domain + "," + answer + "," + rest
    ensures RequestOf(labels) == Pair(Rewrite(domain, answer))
  {
    SplitAtFirst(domain, ',', answer + "," + rest);
    SplitAtFirst(answer, ',', rest);
    assert domain + "," + answer + "," + rest == domain + [','] + (answer + [','] + rest);
  }

  /** A `start` and then a `stop` with the same labels restore a rewrite set that lacked the rewrite. */
  lemma StartThenStopRestores(rewrites: set<Rewrite>, start: ContainerEvent, stop: ContainerEvent)
    requires start.action == "start" && stop.action == "stop"
    requires start.container.labels == stop.container.labels
    requires RequestOf(start.container.labels).Pair? ==> RequestOf(start.container.labels).rewrite !in rewrites
    ensures RequestOf(start.container.labels) != OutOfRange ==> Applied([start, stop], rewrites) == Some(rewrites)
    ensures RequestOf(start.container.labels) == OutOfRange ==> Applied([start, stop], rewrites) == None
  {
    assert [start, stop][..1] == [start];
    assert [start][..0] == [];
    assert "stop"[2] != "start"[2];
    assert Applied([start], rewrites) == Step(rewrites, start);
  }

  /** If the rewrite was already present, the `stop` deletes it: the round trip loses it. */
  lemma StartThenStopDropsExisting(rewrites: set<Rewrite>, start: ContainerEvent, stop: ContainerEvent)
    requires start.action == "start" && stop.action == "stop"
    requires start.container.labels == stop.container.labels
    requires RequestOf(start.container.labels).Pair? && RequestOf(start.container.labels).rewrite in rewrites
    ensures Applied([start, stop], rewrites) == Some(rewrites - {RequestOf(start.container.labels).rewrite})
    ensures Applied([start, stop], rewrites) != Some(rewrites)
  {
    assert [start, stop][..1] == [start];
    assert [start][..0] == [];
    assert "stop"[2] != "start"[2];
    assert Applied([start], rewrites) == Step(rewrites, start);
    var rw := RequestOf(start.container.labels).rewrite;
    assert (rewrites + {rw}) - {rw} == rewrites - {rw};
    assert rw !in rewrites - {rw};
  }

  /** Events without the label never change the rewrites and never panic. */
  lemma {:induction false} UnlabelledEventsChangeNothing(events: seq<ContainerEvent>, rewrites: set<Rewrite>)
    requires forall i :: 0 <= i < |events| ==> DnsLabel !in events[i].container.labels
    ensures Applied(events, rewrites) == Some(rewrites)
    decreases |events|
  {
    if events != [] {
      UnlabelledEventsChangeNothing(events[..|events| - 1], rewrites);
    }
  }

  /** Only `start` adds: with no `start` in the stream the rewrites can only shrink. */
  lemma {:induction false} WithoutStartOnlyShrinks(events: seq<ContainerEvent>, rewrites: set<Rewrite>)
    requires forall i :: 0 <= i < |events| ==> events[i].action != "start"
    ensures Applied(events, rewrites).Some? ==> Applied(events, rewrites).value <= rewrites
    decreases |events|
  {
    if events != [] {
      WithoutStartOnlyShrinks(events[..|events| - 1], rewrites);
    }
  }

  /** The AdGuard Home backend (Go: `adguardhome.Backend`) and the server's rewrites. */
  class Backend {
    /** The rewrite list of the server. */
    var rewrites: set<Rewrite>
    /** Whether the `Log` field holds a logger; `New` leaves it nil. */
    var logSet: bool

    /** `New`: sets only the client, so `Log` stays nil. */
    constructor New(rewrites: set<Rewrite>)
      ensures this.rewrites == rewrites && !logSet
    {
      this.rewrites := rewrites;
      logSet := false;
    }

    /** A caller assigning the exported `Log` field. */
    method SetLog()
      modifies this
      ensures logSet && rewrites == old(rewrites)
    {
      logSet := true;
    }

    /** `GetName`: the backend's fixed name. */
    method GetName() returns (name: string)
      ensures name == Name
    {
      return "adguardhome";
    }

    /** `Purge`: not implemented; always an error, nothing changes. */
    method Purge() returns (err: Option<string>)
      ensures err == Some(NotImplemented)
    {
      return Some("not implemented");
    }

    /** `Refresh`: not implemented; always an error, nothing changes. */
    method Refresh(containers: seq<ContainerInfo>) returns (err: Option<string>)
      ensures err == Some(NotImplemented)
    {
      return Some("not implemented");
    }

    /** One event of the loop of `Run`: `panicked` is the index out of range on a label without `,`. */
    method HandleEvent(e: ContainerEvent) returns (panicked: bool)
      modifies this
      ensures logSet == old(logSet)
      ensures panicked <==> Step(old(rewrites), e) == None
      ensures panicked ==> rewrites == old(rewrites)
      ensures !panicked ==> Step(old(rewrites), e) == Some(rewrites)
    {
      panicked := false;
      match e.action
      case "start" =>
        if DnsLabel in e.container.labels {
          var sp := Split(e.container.labels[DnsLabel], ',');
          if |sp| < 2 {
            return true;
          }
          rewrites := rewrites + {Rewrite(sp[0], sp[1])};
        }
      case "stop" =>
        if DnsLabel in e.container.labels {
          var sp := Split(e.container.labels[DnsLabel], ',');
          if |sp| < 2 {
            return true;
          }
          rewrites := rewrites - {Rewrite(sp[0], sp[1])};
        }
      case _ =>
    }

    /**
      `Run`: handles every event in turn until the stream ends; it neither
      purges nor refreshes, whatever it is asked. `handled` is the number of
      events handled. An event can panic (a label without `,`); when the
      stream ends, logging the cancellation through a nil `Log` panics too.
     */
    method Run(events: seq<ContainerEvent>, purgeOnStart: bool, containersToRefresh: seq<ContainerInfo>)
      returns (outcome: RunOutcome, ghost handled: nat)
      modifies this
      ensures logSet == old(logSet)
      ensures outcome == Cancelled <==> Applied(events, old(rewrites)).Some? && logSet
      ensures handled <= |events| && Applied(events[..handled], old(rewrites)) == Some(rewrites)
      ensures Applied(events, old(rewrites)).Some? ==> handled == |events| && Applied(events, old(rewrites)) == Some(rewrites)
      ensures outcome == Panicked ==>
        (handled < |events| && Step(rewrites, events[handled]) == None) || (handled == |events| && !logSet)
    {
      var n := 0;
      while n < |events|
        invariant 0 <= n <= |events|
        invariant Applied(events[..n], old(rewrites)) == Some(rewrites)
        invariant logSet == old(logSet)
      {
        assert events[..n + 1][..n] == events[..n];
        var panicked := HandleEvent(events[n]);
        if panicked {
          handled := n;
          AppliedStaysNone(events, n + 1, old(rewrites));
          return Panicked, handled;
        }
        n := n + 1;
      }
      assert events[..|events|] == events;
      handled := |events|;
      if !logSet {
        return Panicked, handled;
      }
      outcome := Cancelled;
    }
  }

  /** Once a prefix of the events panics, so does the whole stream. */
  lemma {:induction false} AppliedStaysNone(events: seq<ContainerEvent>, n: nat, rewrites: set<Rewrite>)
    requires n <= |events|
    requires Applied(events[..n], rewrites) == None
    ensures Applied(events, rewrites) == None
    decreases |events| - n
  {
    if n == |events| {
      assert events[..n] == events;
    } else {
      assert events[..n + 1][..n] == events[..n];
      AppliedStaysNone(events, n + 1, rewrites);
    }
  }
}
