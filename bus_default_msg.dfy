/** The in-process bus engine (bus/default/msg.go): a process-wide object
    holding the event registry (channel -> ordered handler list), the queue
    registry (channel -> hand-off medium) and the queue workers. Goroutines
    are not modelled; what `Publish` and `Enqueue` hand to a goroutine is
    recorded in a log instead. */
module InProcessBus {
  import opened Common

  /** The identity of one unbuffered `chan []byte`. */
  type Medium = nat

  /** A worker goroutine started by `Queue`: it receives from `medium` and
      calls `handler(channel, value)`. */
  datatype Worker = Worker(channel: string, medium: Medium, handler: Handler)

  /** A goroutine that sends `data` into `medium` (the body of `Enqueue`). */
  datatype Delivery = Delivery(medium: Medium, data: Bytes)

  /** The handler list registered for `channel`, empty when there is none. */
  function HandlersOf(events: map<string, seq<Handler>>, channel: string): seq<Handler> {
    if channel in events then events[channel] else []
  }

  /** The invocations `Publish` starts: one per handler, in list order. */
  function Fanout(handlers: seq<Handler>, channel: string, data: Bytes): seq<Invocation>
    decreases |handlers|
  {
    if handlers == [] then []
    else Fanout(handlers[..|handlers| - 1], channel, data) + [Invocation(handlers[|handlers| - 1], channel, data)]
  }

  /** Every handler of the list is invoked with (channel, data), once for
      each time it is registered, and nothing else is invoked. */
  lemma {:induction false} FanoutExactlyOnce(handlers: seq<Handler>, channel: string, data: Bytes, h: Handler)
    ensures |Fanout(handlers, channel, data)| == |handlers|
    ensures multiset(Fanout(handlers, channel, data))[Invocation(h, channel, data)] == multiset(handlers)[h]
    ensures forall v :: v in Fanout(handlers, channel, data) ==> v.channel == channel && v.data == data && v.handler in handlers
    decreases |handlers|
  {
    if handlers != [] {
      var front := handlers[..|handlers| - 1];
      FanoutExactlyOnce(front, channel, data, h);
      assert handlers == front + [handlers[|handlers| - 1]];
    }
  }

  class DefaultBus {
    /** The shared stopper has been told to stop. */
    var stopped: bool
    var events: map<string, seq<Handler>>
    var queues: map<string, Medium>
    /** How many media have been made; the next one made is `media`. */
    var media: nat
    var workers: seq<Worker>
    /** Handler goroutines started by `Publish`, in order. */
    var invocations: seq<Invocation>
    /** Sender goroutines started by `Enqueue`, in order. */
    var deliveries: seq<Delivery>

    /** Each channel has its own medium, and every worker and every
        delivery uses a medium that exists. */
    ghost predicate Valid()
      reads this
    {
      && (forall c :: c in queues ==> queues[c] < media)
      && (forall c, d :: c in queues && d in queues && c != d ==> queues[c] != queues[d])
      && (forall k :: 0 <= k < |workers| ==> workers[k].channel in queues && queues[workers[k].channel] == workers[k].medium)
      && (forall k :: 0 <= k < |deliveries| ==> deliveries[k].medium < media)
    }

    constructor ()
      ensures Valid()
      ensures !stopped && events == map[] && queues == map[] && media == 0
      ensures workers == [] && invocations == [] && deliveries == []
    {
      stopped, events, queues, media := false, map[], map[], 0;
      workers, invocations, deliveries := [], [], [];
    }

    /** Appends `handler` to the channel's list, creating the list for a
        new channel; other channels keep their lists. */
    method Event(channel: string, handler: Handler) returns (err: Outcome)
      requires Valid()
      modifies this`events
      ensures Valid() && err == Pass
      ensures events == old(events)[channel := HandlersOf(old(events), channel) + [handler]]
    {
      if channel !in events {
        events := events[channel := []];
      }
      events := events[channel := events[channel] + [handler]];
      err := Pass;
    }

    /** Makes the channel's medium if it has none (the first registration
        wins it), then starts `thread` workers bound to that medium. */
    method Queue(channel: string, thread: int, handler: Handler) returns (err: Outcome)
      requires Valid()
      modifies this`queues, this`media, this`workers
      ensures Valid() && err == Pass
      ensures channel in old(queues) ==> queues == old(queues) && media == old(media)
      ensures channel !in old(queues) ==> queues == old(queues)[channel := old(media)] && media == old(media) + 1
      ensures channel in queues
      ensures workers == old(workers) + Repeat(Worker(channel, queues[channel], handler), thread)
    {
      if channel !in queues {
        queues := queues[channel := media];
        media := media + 1;
      }
      var queue := queues[channel];
      ghost var registered, made := queues, media;
      var i := 0;
      while i < thread
        invariant queues == registered && media == made && channel in queues && queues[channel] == queue
        invariant Valid()
        invariant 0 <= i <= if thread > 0 then thread else 0
        invariant workers == old(workers) + Repeat(Worker(channel, queue, handler), i)
      {
        var w := Worker(channel, queue, handler);
        assert old(workers) + Repeat(w, i + 1) == (old(workers) + Repeat(w, i)) + [w];
        workers := workers + [w];
        i := i + 1;
      }
      err := Pass;
    }

    /** Starts one invocation of (channel, data) per registered handler,
        in registration order; none for a channel without handlers. */
    method Publish(channel: string, data: Bytes) returns (err: Outcome)
      modifies this`invocations
      ensures err == Pass
      ensures invocations == old(invocations) + Fanout(HandlersOf(events, channel), channel, data)
    {
      if channel in events {
        var calls := events[channel];
        var i := 0;
        while i < |calls|
          invariant 0 <= i <= |calls|
          invariant invocations == old(invocations) + Fanout(calls[..i], channel, data)
        {
          assert calls[..i + 1][..i] == calls[..i];
          invocations := invocations + [Invocation(calls[i], channel, data)];
          i := i + 1;
        }
        assert calls[..|calls|] == calls;
      }
      err := Pass;
    }

    /** Hands `data` to the channel's medium once; a channel without a
        medium drops the message and nothing changes. */
    method Enqueue(channel: string, data: Bytes) returns (err: Outcome)
      requires Valid()
      modifies this`deliveries
      ensures Valid() && err == Pass
      ensures deliveries == old(deliveries) + (if channel in queues then [Delivery(queues[channel], data)] else [])
    {
      if channel in queues {
        deliveries := deliveries + [Delivery(queues[channel], data)];
      }
      err := Pass;
    }

    /** The stopper's `Stop`, which every worker observes. */
    method Stop()
      modifies this`stopped
      ensures stopped
    {
      stopped := true;
    }
  }

  /** Two handlers on one channel both receive a publish (alerts / fire);
      a second queue registration reuses the first medium. */
  method AlertsScenario(fire: Bytes)
  {
    var b := new DefaultBus();
    var _ := b.Event("alerts", Func(1));
    var _ := b.Event("alerts", Func(2));
    assert b.events["alerts"] == [Func(1), Func(2)];
    assert [Func(1), Func(2)][..1] == [Func(1)] && [Func(1)][..0] == [];
    assert Fanout([Func(1)], "alerts", fire) == [Invocation(Func(1), "alerts", fire)];
    var _ := b.Publish("alerts", fire);
    assert b.invocations == [Invocation(Func(1), "alerts", fire), Invocation(Func(2), "alerts", fire)];
    var _ := b.Queue("jobs", 3, Func(3));
    var m := b.queues["jobs"];
    var _ := b.Queue("jobs", 2, Func(4));
    assert b.queues["jobs"] == m && |b.workers| == 5;
    var _ := b.Enqueue("nobody", fire);
    assert b.deliveries == [];
  }
}
