/** The distributed bus engine (bus/redis/bus.go) as a state machine. The
    commands it sends through the Redis pool are recorded as outbound
    effects; the replies of the server and the messages it pushes are
    inputs. The per-message decisions of the subscription loop and of a
    queue polling loop are pure functions of the registries. */
module RedisBus {
  import opened Common

  /** The resolved connection settings. `timeout` is a Go time.Duration
      (nanoseconds); the default 240 is 240 nanoseconds as written. */
  datatype Setting = Setting(server: string, password: string, database: string, idle: int, active: int, timeout: int)

  const DefaultSetting: Setting := Setting("127.0.0.1:6379", "", "", 30, 100, 240)

  /** The setting `key` is a non-empty string `v`. */
  predicate NonEmptyStr(settings: map<string, Value>, key: string) {
    key in settings && settings[key].Str? && settings[key].s != ""
  }

  /** The setting `key` is a positive int64. */
  predicate PositiveInt64(settings: map<string, Value>, key: string) {
    key in settings && settings[key].Int64? && settings[key].n > 0
  }

  /** `Connect`'s successive overrides of the defaults. `parsed` is what
      util.ParseDuration returns for a string "timeout"; it is consulted only then. */
  function ResolveSetting(settings: map<string, Value>, parsed: Parsed): (st: Setting)
    ensures st.server == if NonEmptyStr(settings, "server") then settings["server"].s else "127.0.0.1:6379"
    ensures st.password == if NonEmptyStr(settings, "password") then settings["password"].s else ""
    ensures "database" in settings && settings["database"].Str? ==> st.database == settings["database"].s
    ensures !("database" in settings && settings["database"].Str?) ==> st.database == ""
    ensures st.idle == if PositiveInt64(settings, "idle") then settings["idle"].n else 30
    ensures st.active == if PositiveInt64(settings, "active") then settings["active"].n else 100
    ensures PositiveInt64(settings, "timeout") ==> st.timeout == WrapInt64(Second * settings["timeout"].n)
    ensures NonEmptyStr(settings, "timeout") && !parsed.failed ==> st.timeout == parsed.duration
    ensures !PositiveInt64(settings, "timeout") && !(NonEmptyStr(settings, "timeout") && !parsed.failed) ==> st.timeout == 240
    ensures settings == map[] ==> st == DefaultSetting
  {
    var st := DefaultSetting;
    var st := if NonEmptyStr(settings, "server") then st.(server := settings["server"].s) else st;
    var st := if NonEmptyStr(settings, "password") then st.(password := settings["password"].s) else st;
    var st := if "database" in settings && settings["database"].Str? then st.(database := settings["database"].s) else st;
    var st := if PositiveInt64(settings, "idle") then st.(idle := settings["idle"].n) else st;
    var st := if PositiveInt64(settings, "active") then st.(active := settings["active"].n) else st;
    var st := if PositiveInt64(settings, "timeout") then st.(timeout := WrapInt64(Second * settings["timeout"].n)) else st;
    var st := if NonEmptyStr(settings, "timeout") && !parsed.failed then st.(timeout := parsed.duration) else st;
    st
  }

  datatype QueueEntry = QueueEntry(thread: int, handler: Handler)

  /** A command sent through the pool, or the pool being closed. */
  datatype Effect = PublishCmd(channel: string, payload: Bytes) | LPushCmd(key: string, payload: Bytes) | ClosePool

  /** A background loop started by `Start`. */
  datatype Loop = EventLoop | QueueLoop(name: string)

  /** What the subscription connection receives. */
  datatype Received = Message(channel: string, data: Bytes) | Subscription | ReceiveError

  /** What one BRPOP returns: nothing (timeout or error), fewer than two
      items, or the key popped from and the value. */
  datatype PopReply = NoReply | Short | Popped(key: string, value: Bytes)

  datatype EventAction = Ignore | Dispatch(call: Invocation) | ExitLoop

  datatype QueueAction = Skip | Handle(call: Invocation) | StopLoop

  /** The loops `Start` launches for the queues, visited in `order`. */
  function QueueLoops(order: seq<string>, queues: map<string, QueueEntry>): seq<Loop>
    requires forall k :: 0 <= k < |order| ==> order[k] in queues
    decreases |order|
  {
    if order == [] then []
    else
      var last := order[|order| - 1];
      QueueLoops(order[..|order| - 1], queues) + Repeat(QueueLoop(last), queues[last].thread)
  }

  /** The LPUSH commands `Close` sends, one per queue, visited in `order`. */
  function CloserPushes(prefix: string, queueCloser: string, order: seq<string>): (r: seq<Effect>)
    ensures |r| == |order|
    ensures forall k :: 0 <= k < |r| ==> r[k] == LPushCmd(prefix + order[k] + queueCloser, [])
  {
    seq(|order|, k requires 0 <= k < |order| => LPushCmd(prefix + order[k] + queueCloser, []))
  }

  function Prefixed(prefix: string, order: seq<string>): (r: seq<string>)
    ensures |r| == |order|
    ensures forall k :: 0 <= k < |r| ==> r[k] == prefix + order[k]
  {
    seq(|order|, k requires 0 <= k < |order| => prefix + order[k])
  }

  lemma {:induction false} QueueLoopsCount(order: seq<string>, queues: map<string, QueueEntry>, c: string)
    requires forall k :: 0 <= k < |order| ==> order[k] in queues
    requires Distinct(order)
    requires forall k :: k in queues ==> queues[k].thread >= 1
    ensures multiset(QueueLoops(order, queues))[EventLoop] == 0
    ensures c in order ==> multiset(QueueLoops(order, queues))[QueueLoop(c)] == queues[c].thread
    ensures c !in order ==> multiset(QueueLoops(order, queues))[QueueLoop(c)] == 0
    decreases |order|
  {
    if order != [] {
      var last := order[|order| - 1];
      var front := order[..|order| - 1];
      QueueLoopsCount(front, queues, c);
      RepeatCount(QueueLoop(last), queues[last].thread, QueueLoop(c));
      RepeatCount(QueueLoop(last), queues[last].thread, EventLoop);
      assert order == front + [last];
      assert c in order <==> c in front || c == last;
      assert last !in front;
    }
  }

  lemma {:induction false} RepeatCount(x: Loop, n: int, y: Loop)
    ensures multiset(Repeat(x, n))[y] == if x == y && n > 0 then n else 0
    decreases n
  {
    if n > 0 {
      RepeatCount(x, n - 1, y);
    }
  }

  class RedisBusConnect {
    const name: string
    const prefix: string
    const setting: Setting
    /** The two `ark.Unique(prefix)` tokens; the generator is not modelled. */
    const eventCloser: string
    const queueCloser: string
    var running: bool
    var actives: int
    var eventHandler: Handler
    var queueHandler: Handler
    /** The pool has been made (`client != nil`). */
    var client: bool
    var events: map<string, Handler>
    var queues: map<string, QueueEntry>
    /** Commands sent to the server, in order. */
    var effects: seq<Effect>
    /** Background loops started, in order. */
    var loops: seq<Loop>

    /** `Queue` never stores fewer than one thread. */
    ghost predicate Valid()
      reads this
    {
      forall k :: k in queues ==> queues[k].thread >= 1
    }

    /** The driver's `Connect`, with the settings resolved from `settings`. */
    constructor Connect(name: string, prefix: string, settings: map<string, Value>, parsed: Parsed, eventCloser: string, queueCloser: string)
      ensures Valid()
      ensures this.name == name && this.prefix == prefix && setting == ResolveSetting(settings, parsed)
      ensures this.eventCloser == eventCloser && this.queueCloser == queueCloser
      ensures !running && actives == 0 && !client && events == map[] && queues == map[]
      ensures eventHandler == NilHandler && queueHandler == NilHandler && effects == [] && loops == []
    {
      this.name, this.prefix := name, prefix;
      setting := ResolveSetting(settings, parsed);
      this.eventCloser, this.queueCloser := eventCloser, queueCloser;
      running, actives, client := false, 0, false;
      events, queues := map[], map[];
      eventHandler, queueHandler := NilHandler, NilHandler;
      effects, loops := [], [];
    }

    /** Makes the pool and reports the liveness probe's result. */
    method Open(probe: Outcome) returns (err: Outcome)
      modifies this`client
      ensures client && err == probe
    {
      client := true;
      err := probe;
    }

    method Health() returns (workload: int, err: Outcome)
      ensures workload == actives && err == Pass
    {
      workload, err := actives, Pass;
    }

    method Accept(eventHandler: Handler, queueHandler: Handler) returns (err: Outcome)
      modifies this`eventHandler, this`queueHandler
      ensures this.eventHandler == eventHandler && this.queueHandler == queueHandler && err == Pass
    {
      this.eventHandler := eventHandler;
      this.queueHandler := queueHandler;
      err := Pass;
    }

    /** Records the current event handler for `channel`, replacing an earlier one. */
    method Event(channel: string) returns (err: Outcome)
      modifies this`events
      ensures events == old(events)[channel := eventHandler] && err == Pass
    {
      events := events[channel := eventHandler];
      err := Pass;
    }

    /** Records the thread count (at least 1) and the current queue handler
        for `channel`, replacing an earlier entry. */
    method Queue(channel: string, thread: int) returns (err: Outcome)
      requires Valid()
      modifies this`queues
      ensures Valid() && err == Pass
      ensures queues == old(queues)[channel := QueueEntry(if thread <= 0 then 1 else thread, queueHandler)]
    {
      var n := thread;
      if n <= 0 {
        n := 1;
      }
      queues := queues[channel := QueueEntry(n, queueHandler)];
      err := Pass;
    }

    /** One PUBLISH on the prefixed channel, or `Failed` and nothing sent
        without a pool. `delays` is accepted and ignored. `reply` is the
        server's answer. */
    method Publish(name: string, data: Bytes, delays: seq<int>, reply: Outcome) returns (err: Outcome)
      modifies this`effects
      ensures !client ==> err == Fail(Failed) && effects == old(effects)
      ensures client ==> err == reply && effects == old(effects) + [PublishCmd(prefix + name, data)]
    {
      if !client {
        return Fail(Failed);
      }
      effects := effects + [PublishCmd(prefix + name, data)];
      err := reply;
    }

    /** One LPUSH on the prefixed key, or `Failed` and nothing sent without a pool. */
    method Enqueue(name: string, data: Bytes, delays: seq<int>, reply: Outcome) returns (err: Outcome)
      modifies this`effects
      ensures !client ==> err == Fail(Failed) && effects == old(effects)
      ensures client ==> err == reply && effects == old(effects) + [LPushCmd(prefix + name, data)]
    {
      if !client {
        return Fail(Failed);
      }
      effects := effects + [LPushCmd(prefix + name, data)];
      err := reply;
    }

    /** The inner loop of `Start`: one queue loop per thread of a queue. */
    method SpawnQueueLoops(name: string, thread: int)
      modifies this`loops
      ensures loops == old(loops) + Repeat(QueueLoop(name), thread)
    {
      var i := 0;
      while i < thread
        invariant 0 <= i <= if thread > 0 then thread else 0
        invariant loops == old(loops) + Repeat(QueueLoop(name), i)
      {
        loops := loops + [QueueLoop(name)];
        i := i + 1;
      }
    }

    /** One subscription loop, then every queue's threads, then running. */
    method Start() returns (err: Outcome)
      requires Valid()
      modifies this`loops, this`running
      ensures running && err == Pass
      ensures exists order :: Enumerates(order, queues.Keys) && loops == old(loops) + [EventLoop] + QueueLoops(order, queues)
    {
      loops := loops + [EventLoop];
      var todo := queues.Keys;
      ghost var order: seq<string> := [];
      while todo != {}
        invariant todo <= queues.Keys
        invariant forall k :: 0 <= k < |order| ==> order[k] in queues && order[k] !in todo
        invariant forall x :: x in queues && x !in todo ==> x in order
        invariant Distinct(order)
        invariant loops == old(loops) + [EventLoop] + QueueLoops(order, queues)
        decreases |todo|
      {
        var k :| k in todo;
        SpawnQueueLoops(k, queues[k].thread);
        assert (order + [k])[..|order|] == order;
        assert QueueLoops(order + [k], queues) == QueueLoops(order, queues) + Repeat(QueueLoop(k), queues[k].thread);
        assert loops == old(loops) + [EventLoop] + QueueLoops(order + [k], queues);
        order := order + [k];
        todo := todo - {k};
      }
      running := true;
      err := Pass;
      assert Enumerates(order, queues.Keys) && loops == old(loops) + [EventLoop] + QueueLoops(order, queues);
    }

    /** With a pool: one closer publish, one closer push per queue (each
        queue once, in map order), then the pool is closed. Without one: nothing. */
    method Close() returns (err: Outcome)
      modifies this`effects
      ensures err == Pass
      ensures !client ==> effects == old(effects)
      ensures client ==> exists order :: (Enumerates(order, queues.Keys)
        && effects == old(effects) + [PublishCmd(prefix + eventCloser, [])] + CloserPushes(prefix, queueCloser, order) + [ClosePool])
    {
      if client {
        var _ := Publish(eventCloser, [], [], Pass);
        var todo := queues.Keys;
        ghost var order: seq<string> := [];
        while todo != {}
          invariant todo <= queues.Keys
          invariant forall k :: 0 <= k < |order| ==> order[k] in queues && order[k] !in todo
          invariant forall x :: x in queues && x !in todo ==> x in order
          invariant Distinct(order)
          invariant effects == old(effects) + [PublishCmd(prefix + eventCloser, [])] + CloserPushes(prefix, queueCloser, order)
          decreases |todo|
        {
          var k :| k in todo;
          var _ := Enqueue(k + queueCloser, [], [], Pass);
          assert prefix + (k + queueCloser) == prefix + k + queueCloser;
          order := order + [k];
          todo := todo - {k};
        }
        effects := effects + [ClosePool];
      }
      err := Pass;
    }

    /** The channels the subscription loop subscribes to: the prefixed
        closer channel first, then every prefixed event channel once. */
    method SubscriptionNames() returns (names: seq<string>)
      ensures exists order :: Enumerates(order, events.Keys) && names == [prefix + eventCloser] + Prefixed(prefix, order)
      ensures |names| == 1 + |events|
    {
      names := [prefix + eventCloser];
      var todo := events.Keys;
      ghost var order: seq<string> := [];
      while todo != {}
        invariant todo <= events.Keys
        invariant forall k :: 0 <= k < |order| ==> order[k] in events && order[k] !in todo
        invariant forall x :: x in events && x !in todo ==> x in order
        invariant Distinct(order)
        invariant names == [prefix + eventCloser] + Prefixed(prefix, order)
        decreases |todo|
      {
        var k :| k in todo;
        names := names + [prefix + k];
        order := order + [k];
        todo := todo - {k};
      }
      EnumerationSize(order, events.Keys);
    }

    /** The keys one polling loop of queue `name` pops from, closer key
        first, and its timeout in seconds. */
    function PopKeys(name: string): (keys: seq<string>)
      ensures |keys| == 2 && keys[1] == prefix + name && keys[0] == keys[1] + queueCloser
      ensures ReplaceFirst(keys[0], prefix, "") == name + queueCloser && ReplaceFirst(keys[1], prefix, "") == name
    {
      StripPrefixRoundTrip(prefix, name + queueCloser);
      StripPrefixRoundTrip(prefix, name);
      assert prefix + name + queueCloser == prefix + (name + queueCloser);
      [prefix + name + queueCloser, prefix + name]
    }

    const PopTimeout: int := 10

    /** The subscription loop's handling of one received message, as
        written: the closer channel hits a `break` that leaves only the
        `switch`, so it is ignored and the loop goes on. */
    function EventStepAsWritten(rec: Received): (a: EventAction)
      reads this
      ensures a != ExitLoop
      ensures a.Dispatch? ==> rec.Message? && a.call.channel in events && a.call.channel != eventCloser
    {
      match rec
      case Message(channel, data) =>
        var c := ReplaceFirst(channel, prefix, "");
        if c == eventCloser then Ignore
        else if c in events then Dispatch(Invocation(events[c], c, data))
        else Ignore
      case _ => Ignore
    }

    /** The subscription loop's step with the closer message ending the
        loop, as the comment beside the `break` says and the unsubscribe
        after the loop presumes; a receive error is still passed over. */
    function EventStep(rec: Received): (a: EventAction)
      reads this
      ensures a.ExitLoop? <==> rec.Message? && ReplaceFirst(rec.channel, prefix, "") == eventCloser
      ensures !a.ExitLoop? ==> a == EventStepAsWritten(rec)
    {
      match rec
      case Message(channel, data) =>
        var c := ReplaceFirst(channel, prefix, "");
        if c == eventCloser then ExitLoop
        else if c in events then Dispatch(Invocation(events[c], c, data))
        else Ignore
      case _ => Ignore
    }

    /** A message on a registered prefixed channel reaches its handler
        with the channel name stripped of the prefix. */
    lemma EventStepDispatches(c: string, data: Bytes)
      requires c in events && c != eventCloser
      ensures EventStep(Message(prefix + c, data)) == Dispatch(Invocation(events[c], c, data))
    {
      StripPrefixRoundTrip(prefix, c);
    }

    /** A message on an unregistered channel is ignored. */
    lemma EventStepIgnoresUnregistered(c: string, data: Bytes)
      requires c !in events && c != eventCloser
      ensures EventStep(Message(prefix + c, data)) == Ignore
    {
      StripPrefixRoundTrip(prefix, c);
    }

    /** The sentinel `Close` publishes: as written it is ignored and the
        subscription loop keeps running; the corrected step exits. */
    lemma EventCloserIgnoredAsWritten(data: Bytes)
      ensures EventStepAsWritten(Message(prefix + eventCloser, data)) == Ignore
      ensures EventStep(Message(prefix + eventCloser, data)) == ExitLoop
    {
      StripPrefixRoundTrip(prefix, eventCloser);
    }

    /** The invocations the subscription loop starts for the received
        messages, stopping at the first exit. */
    function Dispatches(received: seq<Received>): seq<Invocation>
      reads this
      decreases |received|
    {
      if received == [] then []
      else match EventStep(received[0])
        case ExitLoop => []
        case Dispatch(call) => [call] + Dispatches(received[1..])
        case Ignore => Dispatches(received[1..])
    }

    /** The subscription loop over the messages received so far. */
    method Eventing(received: seq<Received>) returns (dispatched: seq<Invocation>, exited: bool)
      ensures dispatched == Dispatches(received)
      ensures exited <==> exists j :: 0 <= j < |received| && EventStep(received[j]).ExitLoop?
    {
      dispatched, exited := [], false;
      var i := 0;
      while i < |received|
        invariant 0 <= i <= |received|
        invariant Dispatches(received) == dispatched + Dispatches(received[i..])
        invariant forall j :: 0 <= j < i ==> !EventStep(received[j]).ExitLoop?
      {
        assert received[i..][1..] == received[i + 1..];
        match EventStep(received[i]) {
          case ExitLoop =>
            exited := true;
            return;
          case Dispatch(call) =>
            dispatched := dispatched + [call];
          case Ignore =>
        }
        i := i + 1;
      }
    }

    /** The invocations the subscription loop starts as written: no
        received item ends the loop, so every one is decided. */
    function DispatchesAsWritten(received: seq<Received>): seq<Invocation>
      reads this
      decreases |received|
    {
      if received == [] then []
      else
        var a := EventStepAsWritten(received[0]);
        (if a.Dispatch? then [a.call] else []) + DispatchesAsWritten(received[1..])
    }

    lemma {:induction false} DispatchesAsWrittenAppend(xs: seq<Received>, ys: seq<Received>)
      ensures DispatchesAsWritten(xs + ys) == DispatchesAsWritten(xs) + DispatchesAsWritten(ys)
      decreases |xs|
    {
      if xs == [] {
        assert xs + ys == ys;
      } else {
        assert (xs + ys)[1..] == xs[1..] + ys;
        DispatchesAsWrittenAppend(xs[1..], ys);
      }
    }

    /** As written, a message on a registered channel is dispatched
        wherever it is received, before or after the closer. */
    lemma DispatchedAsWritten(before: seq<Received>, c: string, data: Bytes, after: seq<Received>)
      requires c in events && c != eventCloser
      ensures DispatchesAsWritten(before + [Message(prefix + c, data)] + after)
        == DispatchesAsWritten(before) + [Invocation(events[c], c, data)] + DispatchesAsWritten(after)
    {
      var m := Message(prefix + c, data);
      EventStepDispatches(c, data);
      assert [m][1..] == [];
      assert DispatchesAsWritten([m]) == [Invocation(events[c], c, data)];
      DispatchesAsWrittenAppend(before, [m]);
      DispatchesAsWrittenAppend(before + [m], after);
    }

    /** After the closer message the as-written loop still dispatches a
        registered channel's message; the corrected loop has ended. */
    lemma CloserKeepsDispatchingAsWritten(closing: Bytes, c: string, data: Bytes)
      requires c in events && c != eventCloser
      ensures DispatchesAsWritten([Message(prefix + eventCloser, closing), Message(prefix + c, data)]) == [Invocation(events[c], c, data)]
      ensures Dispatches([Message(prefix + eventCloser, closing), Message(prefix + c, data)]) == []
    {
      EventCloserIgnoredAsWritten(closing);
      DispatchedAsWritten([Message(prefix + eventCloser, closing)], c, data, []);
      assert [Message(prefix + eventCloser, closing)][1..] == [];
      assert [Message(prefix + eventCloser, closing)] + [Message(prefix + c, data)] + [] == [Message(prefix + eventCloser, closing), Message(prefix + c, data)];
    }

    /** The subscription loop as written: it never exits, and decides
        every message received. */
    method EventingAsWritten(received: seq<Received>) returns (dispatched: seq<Invocation>, exited: bool)
      ensures dispatched == DispatchesAsWritten(received)
      ensures !exited
    {
      dispatched, exited := [], false;
      var i := 0;
      while i < |received|
        invariant 0 <= i <= |received|
        invariant DispatchesAsWritten(received) == dispatched + DispatchesAsWritten(received[i..])
      {
        assert received[i..][1..] == received[i + 1..];
        var a := EventStepAsWritten(received[i]);
        if a.Dispatch? {
          dispatched := dispatched + [a.call];
        }
        i := i + 1;
      }
    }

    /** A polling loop's handling of one BRPOP reply, as written: it
        compares the stripped key with `queueCloser`, but the closer key
        strips to `name + queueCloser`. */
    function QueueStepAsWritten(reply: PopReply): (a: QueueAction)
      reads this
      ensures a.Handle? ==> reply.Popped? && a.call.channel in queues && a.call.data == reply.value
    {
      match reply
      case Popped(key, value) =>
        var c := ReplaceFirst(key, prefix, "");
        if c == queueCloser then StopLoop
        else if c in queues then Handle(Invocation(queues[c].handler, c, value))
        else Skip
      case _ => Skip
    }

    /** The polling loop of queue `name` with the closer key recognised. */
    function QueueStep(name: string, reply: PopReply): (a: QueueAction)
      reads this
      ensures a.StopLoop? <==> reply.Popped? && ReplaceFirst(reply.key, prefix, "") == name + queueCloser
      ensures a.Handle? ==> reply.Popped? && a.call.channel in queues && a.call.data == reply.value
      ensures !a.StopLoop? && !(reply.Popped? && ReplaceFirst(reply.key, prefix, "") == queueCloser) ==> a == QueueStepAsWritten(reply)
    {
      match reply
      case Popped(key, value) =>
        var c := ReplaceFirst(key, prefix, "");
        if c == name + queueCloser then StopLoop
        else if c in queues then Handle(Invocation(queues[c].handler, c, value))
        else Skip
      case _ => Skip
    }

    /** The sentinel `Close` pushes for a queue with a non-empty name never
        stops the as-written loop; the corrected loop stops on it. */
    lemma QueueCloserMissedAsWritten(n: string, data: Bytes)
      requires n != ""
      ensures QueueStepAsWritten(Popped(prefix + n + queueCloser, data)) != StopLoop
      ensures QueueStep(n, Popped(prefix + n + queueCloser, data)) == StopLoop
    {
      assert prefix + n + queueCloser == prefix + (n + queueCloser);
      StripPrefixRoundTrip(prefix, n + queueCloser);
      assert |n + queueCloser| > |queueCloser|;
    }

    /** A value popped from a registered queue's data key reaches that
        queue's handler, with the same data. */
    lemma QueueStepHandles(n: string, data: Bytes)
      requires n in queues && queueCloser != ""
      ensures QueueStep(n, Popped(prefix + n, data)) == Handle(Invocation(queues[n].handler, n, data))
    {
      StripPrefixRoundTrip(prefix, n);
      assert |n + queueCloser| > |n|;
    }

    /** As written, a value popped from a registered queue's data key is
        handled too, unless the queue's name is `queueCloser` itself. */
    lemma QueueStepAsWrittenHandles(n: string, data: Bytes)
      requires n in queues && n != queueCloser
      ensures QueueStepAsWritten(Popped(prefix + n, data)) == Handle(Invocation(queues[n].handler, n, data))
    {
      StripPrefixRoundTrip(prefix, n);
    }

    /** A reply the polling loop of queue `name` can get: BRPOP pops only
        from its closer key and its data key. */
    predicate FromQueue(name: string, reply: PopReply) {
      reply.Popped? ==> reply.key == prefix + name + queueCloser || reply.key == prefix + name
    }

    /** As written, no reply of a named queue stops its polling loop. */
    lemma AsWrittenNeverStops(name: string, reply: PopReply)
      requires name != "" && name != queueCloser && FromQueue(name, reply)
      ensures !QueueStepAsWritten(reply).StopLoop?
    {
      if reply.Popped? {
        if reply.key == prefix + name + queueCloser {
          QueueCloserMissedAsWritten(name, reply.value);
        } else {
          StripPrefixRoundTrip(prefix, name);
        }
      }
    }

    /** The invocations the as-written polling loop makes for replies
        without a stop. */
    function HandledByAsWritten(replies: seq<PopReply>): seq<Invocation>
      reads this
      decreases |replies|
    {
      if replies == [] then []
      else
        var a := QueueStepAsWritten(replies[|replies| - 1]);
        HandledByAsWritten(replies[..|replies| - 1]) + (if a.Handle? then [a.call] else [])
    }

    /** The polling loop of queue `name` as written: it stops only on the
        bare `prefix + queueCloser` key, so for a named queue it consumes
        every reply its keys give. */
    method QueueingAsWritten(name: string, replies: seq<PopReply>) returns (handled: seq<Invocation>, consumed: nat)
      ensures consumed <= |replies|
      ensures forall j :: 0 <= j < consumed ==> !QueueStepAsWritten(replies[j]).StopLoop?
      ensures consumed < |replies| ==> QueueStepAsWritten(replies[consumed]).StopLoop?
      ensures handled == HandledByAsWritten(replies[..consumed])
      ensures name != "" && name != queueCloser && (forall j :: 0 <= j < |replies| ==> FromQueue(name, replies[j])) ==> consumed == |replies|
    {
      handled := [];
      consumed := 0;
      while consumed < |replies|
        invariant consumed <= |replies|
        invariant forall j :: 0 <= j < consumed ==> !QueueStepAsWritten(replies[j]).StopLoop?
        invariant handled == HandledByAsWritten(replies[..consumed])
      {
        assert replies[..consumed + 1][..consumed] == replies[..consumed];
        var a := QueueStepAsWritten(replies[consumed]);
        if a.StopLoop? {
          if name != "" && name != queueCloser && FromQueue(name, replies[consumed]) {
            AsWrittenNeverStops(name, replies[consumed]);
          }
          return;
        }
        if a.Handle? {
          handled := handled + [a.call];
        }
        consumed := consumed + 1;
      }
    }

    /** The loop of queue `name` over the replies it gets: it handles
        each value synchronously and stops at the closer. */
    method Queueing(name: string, replies: seq<PopReply>) returns (handled: seq<Invocation>, consumed: nat)
      ensures consumed <= |replies|
      ensures forall j :: 0 <= j < consumed ==> !QueueStep(name, replies[j]).StopLoop?
      ensures consumed < |replies| ==> QueueStep(name, replies[consumed]).StopLoop?
      ensures |handled| <= consumed
      ensures forall v :: v in handled ==> v.channel in queues
      ensures handled == HandledBy(name, replies[..consumed])
    {
      handled := [];
      consumed := 0;
      while consumed < |replies|
        invariant consumed <= |replies|
        invariant forall j :: 0 <= j < consumed ==> !QueueStep(name, replies[j]).StopLoop?
        invariant handled == HandledBy(name, replies[..consumed])
        invariant |handled| <= consumed
        invariant forall v :: v in handled ==> v.channel in queues
      {
        assert replies[..consumed + 1][..consumed] == replies[..consumed];
        var a := QueueStep(name, replies[consumed]);
        if a.StopLoop? {
          return;
        }
        if a.Handle? {
          handled := handled + [a.call];
        }
        consumed := consumed + 1;
      }
    }

    /** The invocations a polling loop makes for replies without a stop. */
    function HandledBy(name: string, replies: seq<PopReply>): seq<Invocation>
      reads this
      decreases |replies|
    {
      if replies == [] then []
      else
        var a := QueueStep(name, replies[|replies| - 1]);
        HandledBy(name, replies[..|replies| - 1]) + (if a.Handle? then [a.call] else [])
    }
  }

  /** `Start` launches one subscription loop and, for each queue, as many
      polling loops as its thread count, and nothing else. */
  lemma StartLoopCounts(order: seq<string>, queues: map<string, QueueEntry>, c: string)
    requires Enumerates(order, queues.Keys)
    requires forall k :: k in queues ==> queues[k].thread >= 1
    ensures multiset([EventLoop] + QueueLoops(order, queues))[EventLoop] == 1
    ensures c in queues ==> multiset([EventLoop] + QueueLoops(order, queues))[QueueLoop(c)] == queues[c].thread
    ensures c !in queues ==> multiset([EventLoop] + QueueLoops(order, queues))[QueueLoop(c)] == 0
  {
    QueueLoopsCount(order, queues, c);
  }
}
