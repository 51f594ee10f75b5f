/** The broadcast policy (src/shbcast.rs): one shared child process, spawned
    and registered at startup, is fed every Data payload, and each read from
    its stdout is sent to every subscriber. The registry only keeps the peer
    label of each subscribed client. */
module Broadcast {
  import opened Tunnel
  import Label
  import Utf8

  /** Subscribed client ids and their peer labels. */
  type Subscribers = map<u16, string>

  // ---------------------------------------------------------------------------
  // Specification

  /** Startup in `main`: spawn the shared process with piped stdio, then
      register its stdout READABLE; either failure ends the program. */
  function Launch(env: Env): Run
  {
    match env.spawn
    case None => Run([], Err(SpawnError))
    case Some(p) => Then(Run([Spawn(p.pid, p.fd, [])], Ok), Register(p.fd, env))
  }

  /** The UnsubscribeAll loop: an empty Unsubscribe message to each key of
      `ks`, stopping at the first failed send. */
  function NoticeEach(ks: seq<u16>, env: Env): Run
    decreases |ks|
  {
    if ks == [] then Run([], Ok)
    else Then(Emit(Unsubscribe, ks[0], [], env), NoticeEach(ks[1..], env))
  }

  /** The fan-out loop: the same bytes to each key of `ks`, stopping at the
      first failed send. */
  function FanOut(ks: seq<u16>, bytes: seq<byte>, env: Env): Run
    decreases |ks|
  {
    if ks == [] then Run([], Ok)
    else Then(Emit(Data, ks[0], bytes, env), FanOut(ks[1..], bytes, env))
  }

  /** The message part of `step_handle`; `process` is the shared child. */
  function OnMessage(m: Subscribers, msg: Msg, ks: seq<u16>, process: Spawned, env: Env): Outcome<Subscribers>
  {
    var id := msg.clientId;
    match msg.kind
    case Subscribe =>
      (match Label.PeerLabel(msg.data, msg.size)
       case Rejected(e) => Outcome(m, [], Err(e))
       case Label(user) => Outcome(m[id := user], [], Ok))
    case Unsubscribe => Outcome(m - {id}, [], Ok)
    case UnsubscribeAll =>
      var r := NoticeEach(ks, env);
      WithState(if r.status.Ok? then map[] else m, r)
    case Data => WithState(m, Feed(process.pid, msg.data, env))
    case Other => Outcome(m, [], Ok)
  }

  /** The readiness part of `step_handle`: the event's descriptor must be
      present but its value is not used; one read from the shared process's
      stdout is sent to every key of `ks`. */
  function OnReadable(ks: seq<u16>, io: Option<IoEvent>, fd: Option<Fd>, process: Spawned, env: Env): Run
  {
    if io.None? || fd.None? || !io.value.readable then Run([], Ok)
    else
      match Read(env, process.fd)
      case None => Run([], Err(ReadError))
      case Some(bytes) => FanOut(ks, bytes, env)
  }

  function Handled(m: Subscribers, evt: Event, ks: seq<u16>, process: Spawned, env: Env): Outcome<Subscribers>
  {
    if evt.msg.Some? then OnMessage(m, evt.msg.value, ks, process, env) else Outcome(m, [], Ok)
  }

  /** `step_handle`: the message, then readiness; `ks1` is the key order of
      the registry before the step, `ks2` after the message. */
  function Step(m: Subscribers, evt: Event, ks1: seq<u16>, ks2: seq<u16>, process: Spawned, env: Env): Outcome<Subscribers>
  {
    var h := Handled(m, evt, ks1, process, env);
    if h.status.Err? then h
    else
      var f := OnReadable(ks2, evt.io, evt.fd, process, env);
      Outcome(h.state, h.effects + f.effects, f.status)
  }

  // ---------------------------------------------------------------------------
  // The dispatcher

  /** The UnsubscribeAll loop. */
  method NotifyAll(ks: seq<u16>, topic: Reactor) returns (status: Status)
    modifies topic`trace
    ensures topic.trace == old(topic.trace) + NoticeEach(ks, topic.env).effects
    ensures status == NoticeEach(ks, topic.env).status
  {
    ghost var env := topic.env;
    ghost var whole := NoticeEach(ks, env);
    ghost var done: seq<Effect> := [];
    var i := 0;
    assert ks[0..] == ks;
    while i < |ks|
      invariant 0 <= i <= |ks| && topic.env == env
      invariant topic.trace == old(topic.trace) + done
      invariant whole.effects == done + NoticeEach(ks[i..], env).effects
      invariant whole.status == NoticeEach(ks[i..], env).status
    {
      var k := ks[i];
      assert ks[i..][0] == k && ks[i..][1..] == ks[i + 1..];
      ghost var next := NoticeEach(ks[i + 1..], env);
      ghost var sent := [Send(Unsubscribe, k, [])];
      AppendAssoc(done, sent, next.effects);
      AppendAssoc(old(topic.trace), done, sent);
      status := topic.Write(Unsubscribe, k, []);
      if status.Err? {
        assert done + [] == done;
        return;
      }
      done := done + sent;
      i := i + 1;
    }
    assert ks[i..] == [];
    assert done + [] == done;
    status := Ok;
  }

  /** The fan-out loop. */
  method SendAll(ks: seq<u16>, bytes: seq<byte>, topic: Reactor) returns (status: Status)
    modifies topic`trace
    ensures topic.trace == old(topic.trace) + FanOut(ks, bytes, topic.env).effects
    ensures status == FanOut(ks, bytes, topic.env).status
  {
    ghost var env := topic.env;
    ghost var whole := FanOut(ks, bytes, env);
    ghost var done: seq<Effect> := [];
    var i := 0;
    assert ks[0..] == ks;
    while i < |ks|
      invariant 0 <= i <= |ks| && topic.env == env
      invariant topic.trace == old(topic.trace) + done
      invariant whole.effects == done + FanOut(ks[i..], bytes, env).effects
      invariant whole.status == FanOut(ks[i..], bytes, env).status
    {
      var k := ks[i];
      assert ks[i..][0] == k && ks[i..][1..] == ks[i + 1..];
      ghost var next := FanOut(ks[i + 1..], bytes, env);
      ghost var sent := [Send(Data, k, bytes)];
      AppendAssoc(done, sent, next.effects);
      AppendAssoc(old(topic.trace), done, sent);
      status := topic.Write(Data, k, bytes);
      if status.Err? {
        assert done + [] == done;
        return;
      }
      done := done + sent;
      i := i + 1;
    }
    assert ks[i..] == [];
    assert done + [] == done;
    status := Ok;
  }

  /** The registry of subscribers and the shared process. */
  class Hub {
    var clients: Subscribers
    const process: Spawned

    constructor (process: Spawned)
      ensures clients == map[] && this.process == process
    {
      clients := map[];
      this.process := process;
    }

    /** The message part of `step_handle`. */
    method HandleMessage(msg: Msg, ks: seq<u16>, topic: Reactor) returns (status: Status)
      modifies this, topic`trace
      ensures var r := OnMessage(old(clients), msg, ks, process, topic.env);
        clients == r.state && topic.trace == old(topic.trace) + r.effects && status == r.status
    {
      var id := msg.clientId;
      match msg.kind {
        case Subscribe =>
          match Label.PeerLabel(msg.data, msg.size) {
            case Rejected(e) =>
              status := Err(e);
            case Label(user) =>
              clients := clients[id := user];
              status := Ok;
          }
        case Unsubscribe =>
          clients := clients - {id};
          status := Ok;
        case UnsubscribeAll =>
          status := NotifyAll(ks, topic);
          if status.Ok? {
            clients := map[];
          }
        case Data =>
          status := topic.WriteStdinOf(process.pid, msg.data);
        case Other =>
          status := Ok;
      }
    }

    /** The readiness part of `step_handle`. */
    method ForwardOutput(io: Option<IoEvent>, fd: Option<Fd>, ks: seq<u16>, topic: Reactor) returns (status: Status)
      modifies topic`trace
      ensures topic.trace == old(topic.trace) + OnReadable(ks, io, fd, process, topic.env).effects
      ensures status == OnReadable(ks, io, fd, process, topic.env).status
    {
      if io.None? || fd.None? || !io.value.readable {
        return Ok;
      }
      var bytes := topic.ReadStdout(process.fd);
      if bytes.None? {
        return Err(ReadError);
      }
      status := SendAll(ks, bytes.value, topic);
    }

    /** `step_handle`. */
    method StepHandle(evt: Event, topic: Reactor) returns (status: Status, ghost ks1: seq<u16>, ghost ks2: seq<u16>)
      modifies this, topic`trace
      ensures IsEnumeration(ks1, old(clients).Keys)
      ensures IsEnumeration(ks2, Handled(old(clients), evt, ks1, process, topic.env).state.Keys)
      ensures var r := Step(old(clients), evt, ks1, ks2, process, topic.env);
        clients == r.state && topic.trace == old(topic.trace) + r.effects && status == r.status
    {
      ghost var env := topic.env;
      ghost var m0 := clients;
      ghost var t0 := topic.trace;
      var order := KeyOrder(clients.Keys);
      ks1 := order;
      status := Ok;
      if evt.msg.Some? {
        status := HandleMessage(evt.msg.value, order, topic);
      } else {
        assert t0 + [] == t0;
      }
      ghost var h := Handled(m0, evt, ks1, process, env);
      assert clients == h.state && topic.trace == t0 + h.effects && status == h.status;
      var after := KeyOrder(clients.Keys);
      ks2 := after;
      if status.Err? {
        assert Step(m0, evt, ks1, ks2, process, env) == h;
        return;
      }
      status := ForwardOutput(evt.io, evt.fd, after, topic);
      ghost var f := OnReadable(ks2, evt.io, evt.fd, process, env);
      AppendAssoc(t0, h.effects, f.effects);
      assert Step(m0, evt, ks1, ks2, process, env) == Outcome(h.state, h.effects + f.effects, f.status);
    }
  }

  /** Startup in `main`: on success a hub with no subscribers, owning the
      shared process whose stdout is registered. */
  method Start(topic: Reactor) returns (status: Status, hub: Hub?)
    modifies topic`trace
    ensures topic.trace == old(topic.trace) + Launch(topic.env).effects
    ensures status == Launch(topic.env).status
    ensures status.Ok? ==> hub != null && fresh(hub) && hub.clients == map[] && Some(hub.process) == topic.env.spawn
  {
    hub := null;
    var spawned := topic.SpawnChild([]);
    if spawned.None? {
      return Err(SpawnError), null;
    }
    status := topic.RegisterIo(spawned.value.fd);
    if status.Err? {
      return;
    }
    hub := new Hub(spawned.value);
  }

  // ---------------------------------------------------------------------------
  // Properties

  /** Startup spawns the shared process once, with no extra environment, and
      registers its stdout once; a spawn failure does nothing, a registration
      failure leaves only the spawn. */
  lemma LaunchRegistersOnce(env: Env)
    ensures var r := Launch(env);
      && (r.status.Ok? <==> env.spawn.Some? && env.spawn.value.fd !in env.registerFails)
      && (r.status.Ok? ==> r.effects == [Spawn(env.spawn.value.pid, env.spawn.value.fd, []), RegisterIO(env.spawn.value.fd)])
      && (r.status.Ok? ==> Balance(r.effects, env.spawn.value.fd) == 1)
      && (env.spawn.None? ==> r == Run([], Err(SpawnError)))
      && (r.status.Err? && env.spawn.Some? ==> r.effects == [Spawn(env.spawn.value.pid, env.spawn.value.fd, [])])
  {
    var r := Launch(env);
    if r.status.Ok? {
      var fd := env.spawn.value.fd;
      assert multiset(r.effects)[RegisterIO(fd)] == 1;
      assert multiset(r.effects)[UnregisterIO(fd)] == 0;
    }
  }

  /** When the UnsubscribeAll loop fails: some key could not be told. */
  lemma {:induction false} NoticeEachStatus(ks: seq<u16>, env: Env)
    ensures NoticeEach(ks, env).status.Ok? <==> forall k :: k in ks ==> k !in env.sendFails
    decreases |ks|
  {
    if ks != [] {
      NoticeEachStatus(ks[1..], env);
      assert forall j :: j in ks <==> j == ks[0] || j in ks[1..];
    }
  }

  /** A successful UnsubscribeAll loop sends exactly one empty Unsubscribe
      message per key of `ks`, in order, and nothing else. */
  lemma {:induction false} NoticeEachSends(ks: seq<u16>, env: Env)
    requires NoticeEach(ks, env).status.Ok?
    ensures |NoticeEach(ks, env).effects| == |ks|
    ensures forall i :: 0 <= i < |ks| ==> NoticeEach(ks, env).effects[i] == Send(Unsubscribe, ks[i], [])
    decreases |ks|
  {
    if ks != [] {
      NoticeEachSends(ks[1..], env);
    }
  }

  /** Whether or not it fails, the UnsubscribeAll loop sends only empty
      Unsubscribe messages, each to a key of `ks`. */
  lemma {:induction false} NoticeEachShape(ks: seq<u16>, env: Env)
    ensures forall e :: e in NoticeEach(ks, env).effects ==> e.Send? && e.kind == Unsubscribe && e.id in ks && e.bytes == []
    decreases |ks|
  {
    if ks != [] {
      NoticeEachShape(ks[1..], env);
    }
  }

  /** A successful fan-out sends exactly one Data message with the same bytes
      to each key of `ks`, in order, and nothing else. */
  lemma {:induction false} FanOutSends(ks: seq<u16>, bytes: seq<byte>, env: Env)
    requires FanOut(ks, bytes, env).status.Ok?
    ensures |FanOut(ks, bytes, env).effects| == |ks|
    ensures forall i :: 0 <= i < |ks| ==> FanOut(ks, bytes, env).effects[i] == Send(Data, ks[i], bytes)
    decreases |ks|
  {
    if ks != [] {
      FanOutSends(ks[1..], bytes, env);
    }
  }

  /** The fan-out only sends the given bytes to keys of `ks`; it fails
      exactly when some key could not be sent to. */
  lemma {:induction false} FanOutShape(ks: seq<u16>, bytes: seq<byte>, env: Env)
    ensures forall e :: e in FanOut(ks, bytes, env).effects ==> e.Send? && e.kind == Data && e.bytes == bytes && e.id in ks
    ensures FanOut(ks, bytes, env).status.Ok? <==> forall k :: k in ks ==> k !in env.sendFails
    decreases |ks|
  {
    if ks != [] {
      FanOutShape(ks[1..], bytes, env);
      assert forall j :: j in ks <==> j == ks[0] || j in ks[1..];
    }
  }

  /** A sequence of sends, one per key of a duplicate-free order, holds each
      key's send once. */
  lemma {:induction false} OnePerKey(ks: seq<u16>, sends: seq<Effect>, kind: Kind, bytes: seq<byte>, id: u16)
    requires NoDup(ks) && |sends| == |ks|
    requires forall i :: 0 <= i < |ks| ==> sends[i] == Send(kind, ks[i], bytes)
    ensures multiset(sends)[Send(kind, id, bytes)] == if id in ks then 1 else 0
    decreases |ks|
  {
    if ks != [] {
      NoDupTail(ks);
      OnePerKey(ks[1..], sends[1..], kind, bytes, id);
      assert sends == [sends[0]] + sends[1..];
      assert forall j :: j in ks <==> j == ks[0] || j in ks[1..];
    }
  }

  // Message transitions

  /** Subscribe decodes the label from the payload without its last byte and
      records it for the id; a payload too short or not UTF-8 aborts with
      the subscribers unchanged. Subscribe makes no reactor call. */
  lemma SubscribeDecodesLabel(m: Subscribers, msg: Msg, ks: seq<u16>, process: Spawned, env: Env)
    requires msg.kind == Subscribe
    ensures var r := OnMessage(m, msg, ks, process, env);
      && r.effects == []
      && (r.status.Ok? <==> 1 <= msg.size <= |msg.data| + 1 && Utf8.Decode(msg.data[..msg.size - 1]).Some?)
      && (r.status.Err? ==> r.state == m && (r.status.error == Panic || r.status.error == DecodeError))
      && (r.status.Ok? ==>
            var user := Utf8.Decode(msg.data[..msg.size - 1]).value;
            && r.state == m[msg.clientId := user]
            && Utf8.Encode(user) == msg.data[..msg.size - 1])
  {
    var r := OnMessage(m, msg, ks, process, env);
    if r.status.Ok? {
      Utf8.EncodeDecode(msg.data[..msg.size - 1]);
    }
  }

  /** Unsubscribe removes the id when present and otherwise changes nothing;
      it never touches the shared process or the reactor. */
  lemma UnsubscribeRemoves(m: Subscribers, msg: Msg, ks: seq<u16>, process: Spawned, env: Env)
    requires msg.kind == Unsubscribe
    ensures var r := OnMessage(m, msg, ks, process, env);
      && r.effects == [] && r.status == Ok
      && r.state.Keys == m.Keys - {msg.clientId}
      && (forall k :: k in r.state ==> r.state[k] == m[k])
      && (msg.clientId !in m ==> r.state == m)
  {
    var r := OnMessage(m, msg, ks, process, env);
    if msg.clientId !in m {
      assert r.state == m;
    }
  }

  /** UnsubscribeAll: when it succeeds each subscriber is sent exactly one
      empty Unsubscribe message, as many messages as subscribers, nothing
      else, and the subscribers are cleared; when it fails they are kept. The
      shared process is never touched. */
  lemma UnsubscribeAllNotifiesEach(m: Subscribers, msg: Msg, ks: seq<u16>, process: Spawned, env: Env)
    requires msg.kind == UnsubscribeAll && IsEnumeration(ks, m.Keys)
    ensures var r := OnMessage(m, msg, ks, process, env);
      && (r.status.Ok? <==> forall k :: k in m ==> k !in env.sendFails)
      && (r.status.Err? ==> r.state == m)
      && (r.status.Ok? ==> r.state == map[] && |r.effects| == |m|)
      && (r.status.Ok? ==> forall id :: multiset(r.effects)[Send(Unsubscribe, id, [])] == if id in m then 1 else 0)
      && (forall e :: e in r.effects ==> e.Send? && e.kind == Unsubscribe && e.id in m)
  {
    var r := OnMessage(m, msg, ks, process, env);
    NoticeEachStatus(ks, env);
    NoticeEachShape(ks, env);
    if r.status.Ok? {
      NoticeEachSends(ks, env);
      EnumerationSize(ks, m.Keys);
      forall id
        ensures multiset(r.effects)[Send(Unsubscribe, id, [])] == if id in m then 1 else 0
      {
        OnePerKey(ks, r.effects, Unsubscribe, [], id);
      }
    }
  }

  /** Data goes to the shared process whether the id is subscribed or not,
      and leaves the subscribers unchanged. */
  lemma DataFeedsShared(m: Subscribers, msg: Msg, ks: seq<u16>, process: Spawned, env: Env)
    requires msg.kind == Data
    ensures var r := OnMessage(m, msg, ks, process, env);
      && r.state == m
      && (r.status.Ok? <==> process.pid !in env.stdinFails)
      && (r.status.Ok? ==> r.effects == [WriteStdin(process.pid, msg.data)])
      && (r.status.Err? ==> r.effects == [] && r.status == Err(WriteError))
  {
  }

  // Readiness

  /** Readiness does not depend on which descriptor the event names, only on
      there being one. */
  lemma ReadinessIgnoresFd(ks: seq<u16>, io: Option<IoEvent>, a: Fd, b: Fd, process: Spawned, env: Env)
    ensures OnReadable(ks, io, Some(a), process, env) == OnReadable(ks, io, Some(b), process, env)
  {
  }

  /** Readiness: nothing happens without an event, without a descriptor or for
      an event that is not readable; otherwise one read of at most `BufSize`
      bytes from the shared process is sent, when it succeeds, to every
      subscriber exactly once, as many messages as subscribers. */
  lemma ReadinessFansOut(m: Subscribers, ks: seq<u16>, io: Option<IoEvent>, fd: Option<Fd>, process: Spawned, env: Env)
    requires IsEnumeration(ks, m.Keys)
    ensures var r := OnReadable(ks, io, fd, process, env);
      && (io.None? || fd.None? || !io.value.readable ==> r == Run([], Ok))
      && (io.Some? && fd.Some? && io.value.readable && process.fd in env.readFails ==> r == Run([], Err(ReadError)))
      && (forall e :: e in r.effects ==>
            e.Send? && e.kind == Data && e.id in m && Read(env, process.fd) == Some(e.bytes) && |e.bytes| <= BufSize)
      && (r.status.Ok? && io.Some? && fd.Some? && io.value.readable ==>
            && Read(env, process.fd).Some?
            && |r.effects| == |m|
            && forall id :: multiset(r.effects)[Send(Data, id, Read(env, process.fd).value)] == if id in m then 1 else 0)
  {
    var r := OnReadable(ks, io, fd, process, env);
    if io.Some? && fd.Some? && io.value.readable && process.fd !in env.readFails {
      var bytes := Read(env, process.fd).value;
      FanOutShape(ks, bytes, env);
      if r.status.Ok? {
        FanOutSends(ks, bytes, env);
        EnumerationSize(ks, m.Keys);
        forall id
          ensures multiset(r.effects)[Send(Data, id, bytes)] == if id in m then 1 else 0
        {
          OnePerKey(ks, r.effects, Data, bytes, id);
        }
      }
    }
  }

  // The whole step

  /** A step only sends messages and writes to the shared process's stdin:
      it never spawns, kills, registers or unregisters. */
  lemma StepLeavesProcess(m: Subscribers, evt: Event, ks1: seq<u16>, ks2: seq<u16>, process: Spawned, env: Env)
    ensures forall e :: e in Step(m, evt, ks1, ks2, process, env).effects ==>
      e.Send? || (evt.msg.Some? && e == WriteStdin(process.pid, evt.msg.value.data))
  {
    var h := Handled(m, evt, ks1, process, env);
    if evt.msg.Some? && evt.msg.value.kind == UnsubscribeAll {
      NoticeEachShape(ks1, env);
    }
    if h.status.Ok? && evt.io.Some? && evt.fd.Some? && evt.io.value.readable && process.fd !in env.readFails {
      FanOutShape(ks2, Read(env, process.fd).value, env);
    }
  }

  /** The shared process stays registered exactly once across every step,
      successful or not. */
  lemma StepKeepsRegistration(m: Subscribers, t: seq<Effect>, evt: Event, ks1: seq<u16>, ks2: seq<u16>, process: Spawned, env: Env)
    requires Balance(t, process.fd) == 1
    ensures Balance(t + Step(m, evt, ks1, ks2, process, env).effects, process.fd) == 1
  {
    var r := Step(m, evt, ks1, ks2, process, env);
    StepLeavesProcess(m, evt, ks1, ks2, process, env);
    assert RegisterIO(process.fd) !in r.effects && UnregisterIO(process.fd) !in r.effects;
    BalanceAppend(t, r.effects, process.fd);
  }

  /** Every outbound message of a step carries at most `BufSize` bytes. */
  lemma StepPayloadsBounded(m: Subscribers, evt: Event, ks1: seq<u16>, ks2: seq<u16>, process: Spawned, env: Env)
    ensures forall e :: e in Step(m, evt, ks1, ks2, process, env).effects && e.Send? ==> |e.bytes| <= BufSize
  {
    var h := Handled(m, evt, ks1, process, env);
    if evt.msg.Some? && evt.msg.value.kind == UnsubscribeAll {
      NoticeEachShape(ks1, env);
    }
    if h.status.Ok? && evt.io.Some? && evt.fd.Some? && evt.io.value.readable && process.fd !in env.readFails {
      FanOutShape(ks2, Read(env, process.fd).value, env);
    }
  }
}
