/**
  The event multiplexer: one input stream of container events fanned out to
  named outputs, one per backend. A container can restrict which backends see
  its events with the `creg.backends` label, a comma-separated list of backend
  names in which `all` stands for every backend.

  Channels are modelled by what was sent on them: `outputs[name]` is the
  sequence of events delivered to the output registered under `name`. The
  input channel is the finite sequence of events it yields before it is
  closed or the context is cancelled.
 */
module EventMultiplexer {
  import opened GoStrings
  import opened Types

  /** The label that restricts delivery to some backends. */
  const BackendsLabel: string := "creg.backends"

  /** The list element that selects every backend. */
  const AllBackends: string := "all"

  /**
    The delivery rule: an event whose container has no `creg.backends` label
    goes to every output; otherwise to `name` exactly when some element of the
    comma-separated list equals `name` or `all`.
   */
  predicate Delivers(labels: map<string, string>, name: string)
  {
    BackendsLabel !in labels ||
    exists b :: b in Split(labels[BackendsLabel], ',') && (b == name || b == AllBackends)
  }

  /**
    What one event puts on the output `name`: the event itself, or nothing;
    an event without the label reaches every output.
   */
  function Sent(event: ContainerEvent, name: string): (out: seq<ContainerEvent>)
    ensures |out| <= 1
    ensures forall e :: e in out ==> e == event
    ensures BackendsLabel !in event.container.labels ==> out == [event]
  {
    if Delivers(event.container.labels, name) then [event] else []
  }

  /** The events of `events` that reach the output `name`, in input order. */
  function Routed(events: seq<ContainerEvent>, name: string): seq<ContainerEvent>
    decreases |events|
  {
    if events == [] then []
    else Routed(events[..|events| - 1], name) + Sent(events[|events| - 1], name)
  }

  /** The multiplexer (Go: `DockerEventMultiplexer`). */
  class Multiplexer {
    /** The input channel, as the events it yields until it ends. */
    const input: seq<ContainerEvent>

    /** The registered outputs, each with the events delivered to it. */
    var outputs: map<string, seq<ContainerEvent>>

    /** `New`: a multiplexer reading `input`, with no outputs yet. */
    constructor New(input: seq<ContainerEvent>)
      ensures this.input == input
      ensures outputs == map[]
    {
      this.input := input;
      outputs := map[];
    }

    /**
      `NewOutput`: registers a fresh output under `name`, replacing any output
      already registered under that name; the other outputs are unchanged.
     */
    method NewOutput(name: string)
      modifies this
      ensures outputs == old(outputs)[name := []]
    {
      outputs := outputs[name := []];
    }

    /**
      The body of the `select` loop for one event: every registered output
      receives the event at most once, exactly when the delivery rule holds.
     */
    method Dispatch(event: ContainerEvent)
      modifies this
      ensures outputs.Keys == old(outputs).Keys
      ensures forall n :: n in outputs ==> outputs[n] == old(outputs)[n] + Sent(event, n)
    {
      var todo := outputs.Keys;
      while todo != {}
        invariant todo <= outputs.Keys
        invariant outputs.Keys == old(outputs).Keys
        invariant forall n :: n in outputs && n !in todo ==> outputs[n] == old(outputs)[n] + Sent(event, n)
        invariant forall n :: n in todo ==> outputs[n] == old(outputs)[n]
        decreases |todo|
      {
        var name :| name in todo;
        var labels := event.container.labels;
        if BackendsLabel !in labels {
          // no backends named: send to all
          outputs := outputs[name := outputs[name] + [event]];
        } else {
          var split := Split(labels[BackendsLabel], ',');
          var j := 0;
          while j < |split|
            invariant 0 <= j <= |split|
            invariant forall j' :: 0 <= j' < j ==> split[j'] != name && split[j'] != AllBackends
            invariant outputs[name] == old(outputs)[name]
          {
            if split[j] == name || split[j] == AllBackends {
              assert split[j] in split;
              outputs := outputs[name := outputs[name] + [event]];
              break;
            }
            j := j + 1;
          }
          assert Sent(event, name) == [] ==> outputs[name] == old(outputs)[name];
        }
        todo := todo - {name};
      }
    }

    /**
      `Run`: reads the input until it ends and dispatches every event in turn,
      so each output receives, after what it already had, exactly the events
      routed to it, in input order.
     */
    method Run()
      modifies this
      ensures outputs.Keys == old(outputs).Keys
      ensures forall n :: n in outputs ==> outputs[n] == old(outputs)[n] + Routed(input, n)
    {
      var i := 0;
      while i < |input|
        invariant 0 <= i <= |input|
        invariant outputs.Keys == old(outputs).Keys
        invariant forall n :: n in outputs ==> outputs[n] == old(outputs)[n] + Routed(input[..i], n)
      {
        assert input[..i + 1][..i] == input[..i];
        Dispatch(input[i]);
        i := i + 1;
      }
      assert input[..|input|] == input;
    }
  }

  /** Without the label every output receives the event. */
  lemma BroadcastWithoutLabel(event: ContainerEvent, name: string)
    requires BackendsLabel !in event.container.labels
    ensures Sent(event, name) == [event]
  {
  }

  /** Listed names, and `all`, select outputs; the list is matched element by element. */
  lemma DeliversListed(labels: map<string, string>, names: seq<string>, name: string)
    requires |names| >= 1
    requires forall i :: 0 <= i < |names| ==> ',' !in names[i]
    requires BackendsLabel in labels && labels[BackendsLabel] == Join(names, ',')
    ensures Delivers(labels, name) <==> name in names || AllBackends in names
  {
    SplitJoin(names, ',');
  }

  /** `creg.backends=<b>` for a single backend `b` other than `all` selects `b` and nothing else. */
  lemma SingleBackendOnly(labels: map<string, string>, b: string, name: string)
    requires BackendsLabel in labels && labels[BackendsLabel] == b
    requires ',' !in b && b != AllBackends
    ensures Delivers(labels, name) <==> name == b
  {
    SplitNoSeparator(b, ',');
    assert b in Split(labels[BackendsLabel], ',');
  }

  /** Names are compared exactly: a space in front of the name does not select it. */
  lemma NoWhitespaceTrimming(labels: map<string, string>, name: string)
    requires BackendsLabel in labels && labels[BackendsLabel] == " " + name
    requires ',' !in name
    ensures !Delivers(labels, name)
  {
    SplitNoSeparator(" " + name, ',');
    assert (" " + name)[0] != AllBackends[0];
    assert |" " + name| != |name|;
  }

  /** Routing distributes over concatenation of the input. */
  lemma {:induction false} RoutedAppend(a: seq<ContainerEvent>, b: seq<ContainerEvent>, name: string)
    ensures Routed(a + b, name) == Routed(a, name) + Routed(b, name)
    decreases |b|
  {
    if b == [] {
      assert a + b == a;
    } else {
      var b' := b[..|b| - 1];
      assert (a + b)[..|a + b| - 1] == a + b';
      RoutedAppend(a, b', name);
    }
  }

  /** Each event reaches an output at most once, and only the events of the input do. */
  lemma {:induction false} RoutedAtMostOnce(events: seq<ContainerEvent>, name: string)
    ensures |Routed(events, name)| <= |events|
    ensures multiset(Routed(events, name)) <= multiset(events)
    decreases |events|
  {
    if events != [] {
      var init := events[..|events| - 1];
      RoutedAtMostOnce(init, name);
      assert events == init + [events[|events| - 1]];
    }
  }

  /** When no event carries the label, every output receives the whole input. */
  lemma {:induction false} RoutedBroadcast(events: seq<ContainerEvent>, name: string)
    requires forall i :: 0 <= i < |events| ==> BackendsLabel !in events[i].container.labels
    ensures Routed(events, name) == events
    decreases |events|
  {
    if events != [] {
      var init := events[..|events| - 1];
      RoutedBroadcast(init, name);
      assert events == init + [events[|events| - 1]];
    }
  }

  /** An output that no event selects receives nothing. */
  lemma {:induction false} RoutedNone(events: seq<ContainerEvent>, name: string)
    requires forall i :: 0 <= i < |events| ==> !Delivers(events[i].container.labels, name)
    ensures Routed(events, name) == []
    decreases |events|
  {
    if events != [] {
      RoutedNone(events[..|events| - 1], name);
    }
  }
}
