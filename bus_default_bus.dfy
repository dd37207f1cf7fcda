/** The in-process bus connection (bus/default/bus.go). It keeps the
    handler pair given by `Accept`, and forwards registrations and messages
    to the process-wide engine, which here is passed in explicitly. A
    delayed publish or enqueue is a pending timer; `Fire` runs one. */
module InProcessConnect {
  import opened Common
  import opened InProcessBus

  /** What a `time.AfterFunc` callback does when it runs. */
  datatype Deferred = LaterPublish(name: string, data: Bytes) | LaterEnqueue(name: string, data: Bytes)

  datatype Timer = Timer(delay: int, action: Deferred)

  /** `Queue`'s thread count: anything not positive becomes 1. */
  function ClampThreads(thread: int): (n: int)
    ensures n >= 1
    ensures thread >= 1 ==> n == thread
    ensures thread <= 0 ==> n == 1
  {
    if thread <= 0 then 1 else thread
  }

  class DefaultBusConnect {
    const bus: DefaultBus
    const name: string
    var running: bool
    var actives: int
    var eventHandler: Handler
    var queueHandler: Handler
    /** Timers started by delayed calls that have not fired yet. */
    var pending: seq<Timer>

    /** The driver's `Connect`: a fresh connection on the given engine. */
    constructor Connect(name: string, bus: DefaultBus)
      ensures this.bus == bus && this.name == name
      ensures !running && actives == 0 && pending == []
      ensures eventHandler == NilHandler && queueHandler == NilHandler
    {
      this.bus := bus;
      this.name := name;
      running, actives := false, 0;
      eventHandler, queueHandler := NilHandler, NilHandler;
      pending := [];
    }

    method Open() returns (err: Outcome)
      ensures err == Pass
    {
      err := Pass;
    }

    /** The workload is `actives`, which no operation of the connection changes. */
    method Health() returns (workload: int, err: Outcome)
      ensures workload == actives && err == Pass
    {
      workload, err := actives, Pass;
    }

    /** Stops the engine's workers. */
    method Close() returns (err: Outcome)
      modifies bus`stopped
      ensures bus.stopped && err == Pass
    {
      bus.Stop();
      err := Pass;
    }

    /** Replaces both handlers. */
    method Accept(eventHandler: Handler, queueHandler: Handler) returns (err: Outcome)
      modifies this`eventHandler, this`queueHandler
      ensures this.eventHandler == eventHandler && this.queueHandler == queueHandler && err == Pass
    {
      this.eventHandler := eventHandler;
      this.queueHandler := queueHandler;
      err := Pass;
    }

    /** Registers the event handler of the latest `Accept`. */
    method Event(channel: string) returns (err: Outcome)
      requires bus.Valid()
      modifies bus`events
      ensures bus.Valid() && err == Pass
      ensures bus.events == old(bus.events)[channel := HandlersOf(old(bus.events), channel) + [eventHandler]]
    {
      err := bus.Event(channel, eventHandler);
    }

    /** Registers the queue handler of the latest `Accept` with at least one worker. */
    method Queue(channel: string, thread: int) returns (err: Outcome)
      requires bus.Valid()
      modifies bus`queues, bus`media, bus`workers
      ensures bus.Valid() && err == Pass
      ensures channel in old(bus.queues) ==> bus.queues == old(bus.queues) && bus.media == old(bus.media)
      ensures channel !in old(bus.queues) ==> bus.queues == old(bus.queues)[channel := old(bus.media)]
      ensures channel in bus.queues
      ensures bus.workers == old(bus.workers) + Repeat(Worker(channel, bus.queues[channel], queueHandler), ClampThreads(thread))
    {
      var n := thread;
      if n <= 0 {
        n := 1;
      }
      err := bus.Queue(channel, n, queueHandler);
    }

    method Start() returns (err: Outcome)
      modifies this`running
      ensures running && err == Pass
    {
      running := true;
      err := Pass;
    }

    /** Without a delay the engine's result comes back at once; with one,
        exactly one timer is started and nil is returned. */
    method Publish(name: string, data: Bytes, delays: seq<int>) returns (err: Outcome)
      modifies this`pending, bus`invocations
      ensures err == Pass
      ensures |delays| > 0 ==> pending == old(pending) + [Timer(delays[0], LaterPublish(name, data))] && bus.invocations == old(bus.invocations)
      ensures |delays| == 0 ==> pending == old(pending) && bus.invocations == old(bus.invocations) + Fanout(HandlersOf(bus.events, name), name, data)
    {
      if |delays| > 0 {
        pending := pending + [Timer(delays[0], LaterPublish(name, data))];
        err := Pass;
      } else {
        err := bus.Publish(name, data);
      }
    }

    method Enqueue(name: string, data: Bytes, delays: seq<int>) returns (err: Outcome)
      requires bus.Valid()
      modifies this`pending, bus`deliveries
      ensures bus.Valid() && err == Pass
      ensures |delays| > 0 ==> pending == old(pending) + [Timer(delays[0], LaterEnqueue(name, data))] && bus.deliveries == old(bus.deliveries)
      ensures |delays| == 0 ==> pending == old(pending) && bus.deliveries == old(bus.deliveries) + (if name in bus.queues then [Delivery(bus.queues[name], data)] else [])
    {
      if |delays| > 0 {
        pending := pending + [Timer(delays[0], LaterEnqueue(name, data))];
        err := Pass;
      } else {
        err := bus.Enqueue(name, data);
      }
    }

    /** Timer `k` expires: it leaves the pending list, so it runs once, and
        its callback makes the undelayed call on the engine. */
    method Fire(k: nat)
      requires k < |pending|
      requires bus.Valid()
      modifies this`pending, bus`invocations, bus`deliveries
      ensures bus.Valid()
      ensures pending == old(pending)[..k] + old(pending)[k + 1..]
      ensures match old(pending)[k].action
        case LaterPublish(n, d) =>
          bus.invocations == old(bus.invocations) + Fanout(HandlersOf(bus.events, n), n, d) && bus.deliveries == old(bus.deliveries)
        case LaterEnqueue(n, d) =>
          bus.invocations == old(bus.invocations) && bus.deliveries == old(bus.deliveries) + (if n in bus.queues then [Delivery(bus.queues[n], d)] else [])
    {
      var t := pending[k];
      pending := pending[..k] + pending[k + 1..];
      match t.action
      case LaterPublish(n, d) =>
        var _ := bus.Publish(n, d);
      case LaterEnqueue(n, d) =>
        var _ := bus.Enqueue(n, d);
    }
  }

  /** Handlers registered before `Accept` are nil; a non-positive thread
      count still starts one worker. */
  method AcceptScenario()
  {
    var b := new DefaultBus();
    var c := new DefaultBusConnect.Connect("default", b);
    var _ := c.Event("early");
    assert b.events["early"] == [NilHandler];
    var _ := c.Accept(Func(7), Func(8));
    var _ := c.Queue("jobs", 0);
    assert b.workers == [Worker("jobs", 0, Func(8))];
    var _ := c.Publish("early", [1], [5]);
    assert |c.pending| == 1 && b.invocations == [];
  }
}
