/** The exclusive policy (src/main.rs): every subscribed client gets its own
    child process, spawned on the client's first Data message, whose stdout is
    forwarded back to that client alone. */
module Exclusive {
  import opened Tunnel

  /** A binding: the descriptor of the child's stdout and the child. */
  datatype ClientData = ClientData(fd: Fd, child: Pid)

  /** The registry: an entry is `None` until a Data message spawns its process. */
  type Clients = map<u16, Option<ClientData>>

  predicate BoundTo(m: Clients, k: u16, fd: Fd)
  {
    k in m && m[k].Some? && m[k].value.fd == fd
  }

  /** `k` is bound and the OS reports its child as exited. */
  predicate Exits(m: Clients, k: u16, env: Env)
  {
    k in m && m[k].Some? && m[k].value.child in env.exited
  }

  function BoundFds(m: Clients): set<Fd>
  {
    set k | k in m && m[k].Some? :: m[k].value.fd
  }

  function ExitedFds(m: Clients, env: Env): set<Fd>
  {
    set k | Exits(m, k, env) :: m[k].value.fd
  }

  function OwnsFd(m: Clients, fd: Fd): u16 -> bool
  {
    (k: u16) => BoundTo(m, k, fd)
  }

  function ReapsFd(m: Clients, env: Env, fd: Fd): u16 -> bool
  {
    (k: u16) => Exits(m, k, env) && BoundTo(m, k, fd)
  }

  function OwnsChild(m: Clients, pid: Pid): u16 -> bool
  {
    (k: u16) => k in m && m[k].Some? && m[k].value.child == pid
  }

  // ---------------------------------------------------------------------------
  // Specification of one step

  /** `unsubscribe_client`: unregister the descriptor and kill the child of a
      bound entry; nothing for an entry without a process. */
  function TearDown(opt: Option<ClientData>, env: Env): Run
  {
    match opt
    case None => Run([], Ok)
    case Some(cd) => Stop(cd.fd, cd.child, env)
  }

  /** The UnsubscribeAll loop over the keys in order `ks`: an outbound
      Unsubscribe for the key, then the teardown of its entry. */
  function UnsubscribeEach(m: Clients, ks: seq<u16>, env: Env): Run
    decreases |ks|
  {
    if ks == [] then Run([], Ok)
    else
      var k := ks[0];
      var entry := if k in m then m[k] else None;
      Then(Notice(k, entry, env), UnsubscribeEach(m, ks[1..], env))
  }

  /** One turn of the UnsubscribeAll loop. */
  function Notice(k: u16, entry: Option<ClientData>, env: Env): Run
  {
    Then(Emit(Unsubscribe, k, [], env), TearDown(entry, env))
  }

  /** A Data message: an unknown id is an error; an entry without a process
      spawns one, registers its stdout READABLE and stores the binding; then the
      payload goes to the child's stdin. */
  function OnData(m: Clients, id: u16, data: seq<byte>, env: Env): Outcome<Clients>
  {
    if id !in m then Outcome(m, [], Err(UnknownClient))
    else
      match m[id]
      case Some(cd) => WithState(m, Feed(cd.child, data, env))
      case None =>
        match env.spawn
        case None => Outcome(m, [], Err(SpawnError))
        case Some(p) =>
          var started := Then(Run([Spawn(p.pid, p.fd, [])], Ok), Register(p.fd, env));
          if started.status.Err? then WithState(m, started)
          else WithState(m[id := Some(ClientData(p.fd, p.pid))], Then(started, Feed(p.pid, data, env)))
  }

  /** The message part of `step_handle`; `ks` is the order in which the
      UnsubscribeAll loop visits the keys. */
  function OnMessage(m: Clients, msg: Msg, ks: seq<u16>, env: Env): Outcome<Clients>
  {
    var id := msg.clientId;
    match msg.kind
    case Subscribe => Outcome(m[id := None], [], Ok)
    case Unsubscribe =>
      if id !in m then Outcome(m, [], Ok)
      else WithState(m - {id}, TearDown(m[id], env))
    case UnsubscribeAll =>
      var r := UnsubscribeEach(m, ks, env);
      WithState(if r.status.Ok? then map[] else m, r)
    case Data => OnData(m, id, data := msg.data, env := env)
    case Other => Outcome(m, [], Ok)
  }

  /** First phase of `monitor_clients`: poll every bound child in order `ks`,
      unregister the descriptor of each exited one, and list its key. */
  function PollEach(m: Clients, ks: seq<u16>, env: Env): Outcome<seq<u16>>
    decreases |ks|
  {
    if ks == [] then Outcome([], [], Ok)
    else
      var k := ks[0];
      var rest := PollEach(m, ks[1..], env);
      if k !in m || m[k].None? then rest
      else
        var cd := m[k].value;
        if cd.child in env.waitFails then Outcome([], [], Err(WaitError))
        else if cd.child !in env.exited then rest
        else
          var u := Unregister(cd.fd, env);
          if u.status.Err? then Outcome([], u.effects, u.status)
          else Outcome([k] + rest.state, u.effects + rest.effects, rest.status)
  }

  /** Second phase of `monitor_clients`: `insert(key, None)` for every listed key. */
  function Unbind(m: Clients, list: seq<u16>): Clients
    decreases |list|
  {
    if list == [] then m else Unbind(m[list[0] := None], list[1..])
  }

  /** `monitor_clients`: the listed entries are reset only when the whole poll
      succeeded. */
  function Monitor(m: Clients, ks: seq<u16>, env: Env): (r: Outcome<Clients>)
  {
    var p := PollEach(m, ks, env);
    if p.status.Err? then Outcome(m, p.effects, p.status)
    else Outcome(Unbind(m, p.state), p.effects, Ok)
  }

  /** Reference meaning of a successful monitor pass: every bound entry whose
      child exited is reset to `None`, every other entry is kept. */
  function Reaped(m: Clients, env: Env): Clients
  {
    map k | k in m :: if Exits(m, k, env) then None else m[k]
  }

  /** One read from `fd` sent as an outbound Data message tagged with `k`. */
  function ForwardTo(k: u16, fd: Fd, env: Env): Run
  {
    match Read(env, fd)
    case None => Run([], Err(ReadError))
    case Some(bytes) => Emit(Data, k, bytes, env)
  }

  /** One turn of the readiness loop: read from `ready` and send the bytes
      tagged with `k`. */
  method ForwardOne(k: u16, ready: Fd, topic: Reactor) returns (status: Status)
    modifies topic`trace
    ensures topic.trace == old(topic.trace) + ForwardTo(k, ready, topic.env).effects
    ensures status == ForwardTo(k, ready, topic.env).status
  {
    var bytes := topic.ReadStdout(ready);
    if bytes.None? {
      return Err(ReadError);
    }
    status := topic.Write(Data, k, bytes.value);
  }

  /** The readiness loop: every entry bound to `fd`, in order `ks`. */
  function ForwardEach(m: Clients, ks: seq<u16>, fd: Fd, env: Env): Run
    decreases |ks|
  {
    if ks == [] then Run([], Ok)
    else
      var k := ks[0];
      var here := if BoundTo(m, k, fd) then ForwardTo(k, fd, env) else Run([], Ok);
      Then(here, ForwardEach(m, ks[1..], fd, env))
  }

  /** The readiness part of `step_handle`: nothing without an event and a
      descriptor, nothing for an event that is not readable. */
  function OnReadable(m: Clients, io: Option<IoEvent>, fd: Option<Fd>, ks: seq<u16>, env: Env): Run
  {
    if io.None? || fd.None? || !io.value.readable then Run([], Ok)
    else ForwardEach(m, ks, fd.value, env)
  }

  function Handled(m: Clients, evt: Event, ks: seq<u16>, env: Env): Outcome<Clients>
  {
    if evt.msg.Some? then OnMessage(m, evt.msg.value, ks, env) else Outcome(m, [], Ok)
  }

  /** `step_handle`: the message, then `monitor_clients`, then readiness.
      `ks1` is the key order of the UnsubscribeAll loop, `ks2` the key order
      of the monitor and readiness loops. */
  function Step(m: Clients, evt: Event, ks1: seq<u16>, ks2: seq<u16>, env: Env): Outcome<Clients>
  {
    var h := Handled(m, evt, ks1, env);
    if h.status.Err? then h
    else
      var p := Monitor(h.state, ks2, env);
      if p.status.Err? then Outcome(p.state, h.effects + p.effects, p.status)
      else
        var f := OnReadable(p.state, evt.io, evt.fd, ks2, env);
        Outcome(p.state, h.effects + p.effects + f.effects, f.status)
  }

  // ---------------------------------------------------------------------------
  // The dispatcher

  /** `unsubscribe_client`. */
  method UnsubscribeClient(opt: Option<ClientData>, topic: Reactor) returns (status: Status)
    modifies topic`trace
    ensures topic.trace == old(topic.trace) + TearDown(opt, topic.env).effects
    ensures status == TearDown(opt, topic.env).status
  {
    status := Ok;
    if opt.Some? {
      status := topic.UnregisterIo(opt.value.fd);
      if status.Err? {
        return;
      }
      topic.KillChild(opt.value.child);
    }
  }

  /** One turn of the UnsubscribeAll loop: tell the client, then tear its
      entry down. */
  method NotifyOne(k: u16, entry: Option<ClientData>, topic: Reactor) returns (status: Status)
    modifies topic`trace
    ensures topic.trace == old(topic.trace) + Notice(k, entry, topic.env).effects
    ensures status == Notice(k, entry, topic.env).status
  {
    status := topic.Write(Unsubscribe, k, []);
    if status.Err? {
      return;
    }
    status := UnsubscribeClient(entry, topic);
  }

  /** The loop of the UnsubscribeAll branch, over the entries of `m` in order `ks`. */
  method NotifyAll(m: Clients, ks: seq<u16>, topic: Reactor) returns (status: Status)
    modifies topic`trace
    ensures topic.trace == old(topic.trace) + UnsubscribeEach(m, ks, topic.env).effects
    ensures status == UnsubscribeEach(m, ks, topic.env).status
  {
    ghost var env := topic.env;
    ghost var whole := UnsubscribeEach(m, ks, env);
    ghost var done: seq<Effect> := [];
    var i := 0;
    assert ks[0..] == ks;
    while i < |ks|
      invariant 0 <= i <= |ks| && topic.env == env
      invariant topic.trace == old(topic.trace) + done
      invariant whole.effects == done + UnsubscribeEach(m, ks[i..], env).effects
      invariant whole.status == UnsubscribeEach(m, ks[i..], env).status
    {
      var k := ks[i];
      var entry := if k in m then m[k] else None;
      ghost var notice := Notice(k, entry, env);
      ghost var next := UnsubscribeEach(m, ks[i + 1..], env);
      assert ks[i..][0] == k && ks[i..][1..] == ks[i + 1..];
      AppendAssoc(done, notice.effects, next.effects);
      AppendAssoc(old(topic.trace), done, notice.effects);
      status := NotifyOne(k, entry, topic);
      if status.Err? {
        return;
      }
      done := done + notice.effects;
      i := i + 1;
    }
    assert ks[i..] == [];
    assert done + [] == done;
    status := Ok;
  }

  /** The first loop of `monitor_clients`, over the entries of `m` in order `ks`. */
  method PollAll(m: Clients, ks: seq<u16>, topic: Reactor) returns (status: Status, list: seq<u16>)
    modifies topic`trace
    ensures var r := PollEach(m, ks, topic.env);
      list == r.state && topic.trace == old(topic.trace) + r.effects && status == r.status
  {
    ghost var env := topic.env;
    ghost var whole := PollEach(m, ks, env);
    ghost var done: seq<Effect> := [];
    list := [];
    var i := 0;
    assert ks[0..] == ks;
    while i < |ks|
      invariant 0 <= i <= |ks| && topic.env == env
      invariant topic.trace == old(topic.trace) + done
      invariant whole.state == list + PollEach(m, ks[i..], env).state
      invariant whole.effects == done + PollEach(m, ks[i..], env).effects
      invariant whole.status == PollEach(m, ks[i..], env).status
    {
      var k := ks[i];
      assert ks[i..][0] == k && ks[i..][1..] == ks[i + 1..];
      ghost var next := PollEach(m, ks[i + 1..], env);
      if k in m && m[k].Some? {
        var cd := m[k].value;
        var waited, exited := topic.TryWait(cd.child);
        if waited.Err? {
          assert list + [] == list && done + [] == done;
          return waited, list;
        }
        if exited {
          ghost var dropped := [UnregisterIO(cd.fd)];
          AppendAssoc(done, dropped, next.effects);
          AppendAssoc(old(topic.trace), done, dropped);
          assert list + ([k] + next.state) == (list + [k]) + next.state;
          status := topic.UnregisterIo(cd.fd);
          if status.Err? {
            assert list + [] == list && done + [] == done;
            return;
          }
          done := done + dropped;
          list := list + [k];
        }
      }
      i := i + 1;
    }
    assert ks[i..] == [];
    assert list + [] == list && done + [] == done;
    status := Ok;
  }

  /** The readiness loop: every entry bound to the ready descriptor `ready`
      is sent one read from it. */
  method ForwardAll(m: Clients, ks: seq<u16>, ready: Fd, topic: Reactor) returns (status: Status)
    modifies topic`trace
    ensures topic.trace == old(topic.trace) + ForwardEach(m, ks, ready, topic.env).effects
    ensures status == ForwardEach(m, ks, ready, topic.env).status
  {
    ghost var env := topic.env;
    ghost var whole := ForwardEach(m, ks, ready, env);
    ghost var done: seq<Effect> := [];
    var i := 0;
    assert ks[0..] == ks;
    while i < |ks|
      invariant 0 <= i <= |ks| && topic.env == env
      invariant topic.trace == old(topic.trace) + done
      invariant whole.effects == done + ForwardEach(m, ks[i..], ready, env).effects
      invariant whole.status == ForwardEach(m, ks[i..], ready, env).status
    {
      var k := ks[i];
      assert ks[i..][0] == k && ks[i..][1..] == ks[i + 1..];
      ghost var next := ForwardEach(m, ks[i + 1..], ready, env);
      if BoundTo(m, k, ready) {
        ghost var here := ForwardTo(k, ready, env);
        AppendAssoc(done, here.effects, next.effects);
        AppendAssoc(old(topic.trace), done, here.effects);
        status := ForwardOne(k, ready, topic);
        if status.Err? {
          return;
        }
        done := done + here.effects;
      }
      i := i + 1;
    }
    assert ks[i..] == [];
    assert done + [] == done;
    status := Ok;
  }

  class Registry {
    var clients: Clients

    constructor ()
      ensures clients == map[]
    {
      clients := map[];
    }

    /** The UnsubscribeAll branch: notify and tear down every entry, then clear. */
    method UnsubscribeEveryone(ks: seq<u16>, topic: Reactor) returns (status: Status)
      modifies this, topic`trace
      ensures var r := UnsubscribeEach(old(clients), ks, topic.env);
        && clients == (if r.status.Ok? then map[] else old(clients))
        && topic.trace == old(topic.trace) + r.effects && status == r.status
    {
      status := NotifyAll(clients, ks, topic);
      if status.Ok? {
        clients := map[];
      }
    }

    /** The Data branch. */
    method ForwardData(id: u16, data: seq<byte>, topic: Reactor) returns (status: Status)
      modifies this, topic`trace
      ensures var r := OnData(old(clients), id, data, topic.env);
        clients == r.state && topic.trace == old(topic.trace) + r.effects && status == r.status
    {
      if id !in clients {
        return Err(UnknownClient);
      }
      var child: Pid;
      match clients[id] {
        case Some(cd) =>
          child := cd.child;
        case None =>
          var spawned := topic.SpawnChild([]);
          if spawned.None? {
            return Err(SpawnError);
          }
          var p := spawned.value;
          status := topic.RegisterIo(p.fd);
          if status.Err? {
            return;
          }
          clients := clients[id := Some(ClientData(p.fd, p.pid))];
          child := p.pid;
      }
      status := topic.WriteStdinOf(child, data);
    }

    /** The message part of `step_handle`. */
    method HandleMessage(msg: Msg, ks: seq<u16>, topic: Reactor) returns (status: Status)
      modifies this, topic`trace
      ensures var r := OnMessage(old(clients), msg, ks, topic.env);
        clients == r.state && topic.trace == old(topic.trace) + r.effects && status == r.status
    {
      var id := msg.clientId;
      match msg.kind {
        case Subscribe =>
          clients := clients[id := None];
          status := Ok;
        case Unsubscribe =>
          if id !in clients {
            status := Ok;
          } else {
            var entry := clients[id];
            clients := clients - {id};
            status := UnsubscribeClient(entry, topic);
          }
        case UnsubscribeAll =>
          status := UnsubscribeEveryone(ks, topic);
        case Data =>
          status := ForwardData(id, msg.data, topic);
        case Other =>
          status := Ok;
      }
    }

    /** `monitor_clients`: collect the exited keys, then reset them. */
    method MonitorClients(ks: seq<u16>, topic: Reactor) returns (status: Status)
      modifies this, topic`trace
      ensures var r := Monitor(old(clients), ks, topic.env);
        clients == r.state && topic.trace == old(topic.trace) + r.effects && status == r.status
    {
      var list;
      status, list := PollAll(clients, ks, topic);
      if status.Err? {
        return;
      }
      ghost var m := clients;
      var j := 0;
      assert list[0..] == list;
      while j < |list|
        invariant 0 <= j <= |list|
        invariant Unbind(m, list) == Unbind(clients, list[j..])
        modifies this
      {
        assert list[j..][0] == list[j] && list[j..][1..] == list[j + 1..];
        clients := clients[list[j] := None];
        j := j + 1;
      }
      assert list[j..] == [];
    }

    /** The readiness part of `step_handle`. */
    method ForwardOutput(io: Option<IoEvent>, fd: Option<Fd>, ks: seq<u16>, topic: Reactor) returns (status: Status)
      modifies topic`trace
      ensures var r := OnReadable(clients, io, fd, ks, topic.env);
        topic.trace == old(topic.trace) + r.effects && status == r.status
    {
      if io.None? || fd.None? || !io.value.readable {
        return Ok;
      }
      status := ForwardAll(clients, ks, fd.value, topic);
    }

    /** `step_handle`. The two key orders it reports are those of the
        UnsubscribeAll loop and of the monitor and readiness loops. */
    method StepHandle(evt: Event, topic: Reactor) returns (status: Status, ghost ks1: seq<u16>, ghost ks2: seq<u16>)
      modifies this, topic`trace
      ensures IsEnumeration(ks1, old(clients).Keys)
      ensures IsEnumeration(ks2, Handled(old(clients), evt, ks1, topic.env).state.Keys)
      ensures var r := Step(old(clients), evt, ks1, ks2, topic.env);
        clients == r.state && topic.trace == old(topic.trace) + r.effects && status == r.status
    {
      ghost var env := topic.env;
      var order := KeyOrder(clients.Keys);
      ks1 := order;
      status := Ok;
      if evt.msg.Some? {
        status := HandleMessage(evt.msg.value, order, topic);
      } else {
        assert old(topic.trace) + [] == old(topic.trace);
      }
      ghost var h := Handled(old(clients), evt, ks1, env);
      assert clients == h.state && topic.trace == old(topic.trace) + h.effects && status == h.status;
      var after := KeyOrder(clients.Keys);
      ks2 := after;
      if status.Err? {
        return;
      }
      ghost var p := Monitor(h.state, ks2, env);
      status := MonitorClients(after, topic);
      AppendAssoc(old(topic.trace), h.effects, p.effects);
      if status.Err? {
        return;
      }
      ghost var f := OnReadable(p.state, evt.io, evt.fd, ks2, env);
      status := ForwardOutput(evt.io, evt.fd, after, topic);
      AppendAssoc(old(topic.trace), h.effects + p.effects, f.effects);
    }
  }

  // ---------------------------------------------------------------------------
  // Properties

  /** No two bound entries share a descriptor. */
  ghost predicate FdsDistinct(m: Clients)
  {
    forall a, b :: a in m && b in m && m[a].Some? && m[b].Some? && m[a].value.fd == m[b].value.fd ==> a == b
  }

  /** When the UnsubscribeAll loop fails: some client could not be told, or a
      bound descriptor could not be unregistered. */
  lemma {:induction false} UnsubscribeEachStatus(m: Clients, ks: seq<u16>, env: Env)
    ensures UnsubscribeEach(m, ks, env).status.Ok? <==>
      forall k :: k in ks ==> k !in env.sendFails && (k in m && m[k].Some? ==> m[k].value.fd !in env.unregisterFails)
    decreases |ks|
  {
    if ks != [] {
      UnsubscribeEachStatus(m, ks[1..], env);
      assert forall j :: j in ks <==> j == ks[0] || j in ks[1..];
    }
  }

  /** Whether or not it fails, the UnsubscribeAll loop only tells clients in
      `ks`, unregisters bound descriptors and kills bound children. */
  lemma {:induction false} UnsubscribeEachShape(m: Clients, ks: seq<u16>, env: Env)
    ensures forall e :: e in UnsubscribeEach(m, ks, env).effects ==>
      || (e.Send? && e.kind == Unsubscribe && e.id in ks && e.bytes == [])
      || (e.UnregisterIO? && e.fd in BoundFds(m))
      || (e.Kill? && exists k :: OwnsChild(m, e.pid)(k))
    decreases |ks|
  {
    if ks != [] {
      UnsubscribeEachShape(m, ks[1..], env);
      var k := ks[0];
      if k in m && m[k].Some? {
        assert m[k].value.fd in BoundFds(m);
        assert OwnsChild(m, m[k].value.child)(k);
      }
    }
  }

  /** A successful UnsubscribeAll loop tells each key of `ks` once. */
  lemma {:induction false} UnsubscribeEachNotices(m: Clients, ks: seq<u16>, env: Env, id: u16)
    requires UnsubscribeEach(m, ks, env).status.Ok?
    ensures multiset(UnsubscribeEach(m, ks, env).effects)[Send(Unsubscribe, id, [])] == Count(ks, Is(id))
    decreases |ks|
  {
    if ks != [] {
      var k := ks[0];
      var entry := if k in m then m[k] else None;
      var notice := Notice(k, entry, env);
      var rest := UnsubscribeEach(m, ks[1..], env);
      UnsubscribeEachNotices(m, ks[1..], env, id);
      assert UnsubscribeEach(m, ks, env).effects == notice.effects + rest.effects;
      assert multiset(notice.effects)[Send(Unsubscribe, id, [])] == if k == id then 1 else 0;
    }
  }

  /** A successful UnsubscribeAll loop unregisters a descriptor once per
      entry of `ks` bound to it, and registers nothing. */
  lemma {:induction false} UnsubscribeEachUnregisters(m: Clients, ks: seq<u16>, env: Env, fd: Fd)
    requires UnsubscribeEach(m, ks, env).status.Ok?
    ensures multiset(UnsubscribeEach(m, ks, env).effects)[UnregisterIO(fd)] == Count(ks, OwnsFd(m, fd))
    ensures multiset(UnsubscribeEach(m, ks, env).effects)[RegisterIO(fd)] == 0
    decreases |ks|
  {
    if ks != [] {
      var k := ks[0];
      var entry := if k in m then m[k] else None;
      var notice := Notice(k, entry, env);
      var rest := UnsubscribeEach(m, ks[1..], env);
      UnsubscribeEachUnregisters(m, ks[1..], env, fd);
      assert UnsubscribeEach(m, ks, env).effects == notice.effects + rest.effects;
      assert multiset(notice.effects)[UnregisterIO(fd)] == if BoundTo(m, k, fd) then 1 else 0;
      assert multiset(notice.effects)[RegisterIO(fd)] == 0;
    }
  }

  /** A successful UnsubscribeAll loop kills a child once per entry of `ks`
      owning it. */
  lemma {:induction false} UnsubscribeEachKills(m: Clients, ks: seq<u16>, env: Env, pid: Pid)
    requires UnsubscribeEach(m, ks, env).status.Ok?
    ensures multiset(UnsubscribeEach(m, ks, env).effects)[Kill(pid)] == Count(ks, OwnsChild(m, pid))
    decreases |ks|
  {
    if ks != [] {
      var k := ks[0];
      var entry := if k in m then m[k] else None;
      var notice := Notice(k, entry, env);
      var rest := UnsubscribeEach(m, ks[1..], env);
      UnsubscribeEachKills(m, ks[1..], env, pid);
      assert UnsubscribeEach(m, ks, env).effects == notice.effects + rest.effects;
      assert multiset(notice.effects)[Kill(pid)] == if OwnsChild(m, pid)(k) then 1 else 0;
    }
  }

  /** UnsubscribeAll: when it succeeds every registered client is told
      exactly once and the registry ends empty; when it fails the registry is
      left as it was. */
  lemma UnsubscribeAllNotifiesEach(m: Clients, msg: Msg, ks: seq<u16>, env: Env)
    requires msg.kind == UnsubscribeAll && IsEnumeration(ks, m.Keys)
    ensures var r := OnMessage(m, msg, ks, env);
      && (r.status.Err? ==> r.state == m)
      && (r.status.Ok? ==> r.state == map[])
      && (r.status.Ok? ==> forall id :: multiset(r.effects)[Send(Unsubscribe, id, [])] == if id in m then 1 else 0)
  {
    var r := OnMessage(m, msg, ks, env);
    if r.status.Ok? {
      forall id
        ensures multiset(r.effects)[Send(Unsubscribe, id, [])] == if id in m then 1 else 0
      {
        UnsubscribeEachNotices(m, ks, env, id);
        CountIs(ks, id);
      }
    }
  }

  /** UnsubscribeAll: kills and unregistrations only concern bound entries;
      when it succeeds every bound child is killed and nothing is registered. */
  lemma UnsubscribeAllKillsEach(m: Clients, msg: Msg, ks: seq<u16>, env: Env)
    requires msg.kind == UnsubscribeAll && IsEnumeration(ks, m.Keys)
    ensures var r := OnMessage(m, msg, ks, env);
      && (forall e :: e in r.effects && e.Kill? ==> exists k :: OwnsChild(m, e.pid)(k))
      && (forall e :: e in r.effects && e.UnregisterIO? ==> e.fd in BoundFds(m))
      && (r.status.Ok? ==> forall k :: k in m && m[k].Some? ==> Kill(m[k].value.child) in r.effects)
      && (r.status.Ok? ==> forall fd :: multiset(r.effects)[RegisterIO(fd)] == 0)
  {
    var r := OnMessage(m, msg, ks, env);
    UnsubscribeEachShape(m, ks, env);
    if r.status.Ok? {
      forall k | k in m && m[k].Some?
        ensures Kill(m[k].value.child) in r.effects
      {
        UnsubscribeEachKills(m, ks, env, m[k].value.child);
        CountPositive(ks, OwnsChild(m, m[k].value.child), k);
      }
      forall fd
        ensures multiset(r.effects)[RegisterIO(fd)] == 0
      {
        UnsubscribeEachUnregisters(m, ks, env, fd);
      }
    }
  }

  /** UnsubscribeAll: when it succeeds, and no two entries share a descriptor,
      every bound descriptor is unregistered exactly once and no other. */
  lemma UnsubscribeAllUnregistersEach(m: Clients, msg: Msg, ks: seq<u16>, env: Env)
    requires msg.kind == UnsubscribeAll && IsEnumeration(ks, m.Keys) && FdsDistinct(m)
    ensures var r := OnMessage(m, msg, ks, env);
      r.status.Ok? ==> forall fd :: multiset(r.effects)[UnregisterIO(fd)] == if fd in BoundFds(m) then 1 else 0
  {
    var r := OnMessage(m, msg, ks, env);
    if r.status.Ok? {
      forall fd
        ensures multiset(r.effects)[UnregisterIO(fd)] == if fd in BoundFds(m) then 1 else 0
      {
        UnsubscribeEachUnregisters(m, ks, env, fd);
        CountAtMostOne(ks, OwnsFd(m, fd));
        if fd in BoundFds(m) {
          var k :| k in m && m[k].Some? && m[k].value.fd == fd;
          assert k in ks && OwnsFd(m, fd)(k);
        }
      }
    }
  }

  /** When the monitor's poll fails: some bound child could not be waited
      for, or an exited child's descriptor could not be unregistered. */
  lemma {:induction false} PollEachStatus(m: Clients, ks: seq<u16>, env: Env)
    ensures PollEach(m, ks, env).status.Ok? <==>
      forall k :: k in ks && k in m && m[k].Some? ==>
        m[k].value.child !in env.waitFails && (m[k].value.child in env.exited ==> m[k].value.fd !in env.unregisterFails)
    decreases |ks|
  {
    if ks != [] {
      PollEachStatus(m, ks[1..], env);
      assert forall j :: j in ks <==> j == ks[0] || j in ks[1..];
    }
  }

  /** The poll only unregisters descriptors of exited children, and lists only
      keys of `ks` whose child exited. */
  lemma {:induction false} PollEachShape(m: Clients, ks: seq<u16>, env: Env)
    ensures forall e :: e in PollEach(m, ks, env).effects ==> e.UnregisterIO? && e.fd in ExitedFds(m, env)
    ensures forall k :: k in PollEach(m, ks, env).state ==> k in ks && Exits(m, k, env)
    decreases |ks|
  {
    if ks != [] {
      PollEachShape(m, ks[1..], env);
      var k := ks[0];
      if Exits(m, k, env) {
        assert m[k].value.fd in ExitedFds(m, env);
      }
    }
  }

  /** A successful poll lists every key of `ks` whose child exited. */
  lemma {:induction false} PollEachFindsAll(m: Clients, ks: seq<u16>, env: Env)
    requires PollEach(m, ks, env).status.Ok?
    ensures forall k :: k in ks && Exits(m, k, env) ==> k in PollEach(m, ks, env).state
    decreases |ks|
  {
    if ks != [] {
      var k := ks[0];
      var rest := PollEach(m, ks[1..], env);
      assert rest.status.Ok?;
      PollEachFindsAll(m, ks[1..], env);
      assert forall j :: j in ks <==> j == k || j in ks[1..];
    }
  }

  /** A successful poll unregisters a descriptor once per exited entry of
      `ks` bound to it. */
  lemma {:induction false} PollEachUnregisters(m: Clients, ks: seq<u16>, env: Env, fd: Fd)
    requires PollEach(m, ks, env).status.Ok?
    ensures multiset(PollEach(m, ks, env).effects)[UnregisterIO(fd)] == Count(ks, ReapsFd(m, env, fd))
    decreases |ks|
  {
    if ks != [] {
      var k := ks[0];
      var rest := PollEach(m, ks[1..], env);
      assert rest.status.Ok?;
      PollEachUnregisters(m, ks[1..], env, fd);
      if Exits(m, k, env) {
        var here := [UnregisterIO(m[k].value.fd)];
        assert PollEach(m, ks, env).effects == here + rest.effects;
        assert multiset(here)[UnregisterIO(fd)] == if ReapsFd(m, env, fd)(k) then 1 else 0;
      }
    }
  }

  /** Resetting the listed keys of a registry, one after the other. */
  lemma {:induction false} UnbindResets(m: Clients, list: seq<u16>)
    requires forall k :: k in list ==> k in m
    ensures Unbind(m, list) == map k | k in m :: if k in list then None else m[k]
    decreases |list|
  {
    if list != [] {
      var m' := m[list[0] := None];
      UnbindResets(m', list[1..]);
      assert forall j :: j in list <==> j == list[0] || j in list[1..];
    }
  }

  /** `monitor_clients`: when it succeeds exactly the bound entries whose child
      exited are reset to `None`; when it fails the registry is left as it
      was; the set of subscribed ids never changes. */
  lemma MonitorReaps(m: Clients, ks: seq<u16>, env: Env)
    requires IsEnumeration(ks, m.Keys)
    ensures var r := Monitor(m, ks, env);
      && (r.status.Ok? ==> r.state == Reaped(m, env))
      && (r.status.Err? ==> r.state == m)
      && r.state.Keys == m.Keys
  {
    var p := PollEach(m, ks, env);
    if p.status.Ok? {
      PollEachShape(m, ks, env);
      PollEachFindsAll(m, ks, env);
      UnbindResets(m, p.state);
      assert Unbind(m, p.state) == Reaped(m, env);
    }
  }

  /** `monitor_clients`: when it succeeds, and no two entries share a
      descriptor, each exited child's descriptor is unregistered exactly once
      and no other; nothing is ever registered. */
  lemma MonitorUnregistersExited(m: Clients, ks: seq<u16>, env: Env)
    requires IsEnumeration(ks, m.Keys) && FdsDistinct(m)
    ensures var r := Monitor(m, ks, env);
      && (forall fd :: multiset(r.effects)[RegisterIO(fd)] == 0)
      && (r.status.Ok? ==> forall fd :: multiset(r.effects)[UnregisterIO(fd)] == if fd in ExitedFds(m, env) then 1 else 0)
  {
    var r := Monitor(m, ks, env);
    PollEachShape(m, ks, env);
    forall fd
      ensures multiset(r.effects)[RegisterIO(fd)] == 0
    {
      assert RegisterIO(fd) !in r.effects;
    }
    if r.status.Ok? {
      forall fd
        ensures multiset(r.effects)[UnregisterIO(fd)] == if fd in ExitedFds(m, env) then 1 else 0
      {
        PollEachUnregisters(m, ks, env, fd);
        CountAtMostOne(ks, ReapsFd(m, env, fd));
        if fd in ExitedFds(m, env) {
          var k :| Exits(m, k, env) && m[k].value.fd == fd;
          assert k in ks && ReapsFd(m, env, fd)(k);
        }
      }
    }
  }

  /** The readiness loop only sends Data messages, each tagged with a key of
      `ks` whose binding owns the ready descriptor and carrying the bytes of
      the read, so at most `BufSize` bytes. */
  lemma {:induction false} ForwardEachShape(m: Clients, ks: seq<u16>, fd: Fd, env: Env)
    ensures forall e :: e in ForwardEach(m, ks, fd, env).effects ==>
      e.Send? && e.kind == Data && e.id in ks && BoundTo(m, e.id, fd)
      && Read(env, fd) == Some(e.bytes) && |e.bytes| <= BufSize
    decreases |ks|
  {
    if ks != [] {
      ForwardEachShape(m, ks[1..], fd, env);
    }
  }

  /** When the readiness loop fails: a read from the ready descriptor failed,
      or a client owning it could not be sent to. */
  lemma {:induction false} ForwardEachStatus(m: Clients, ks: seq<u16>, fd: Fd, env: Env)
    ensures ForwardEach(m, ks, fd, env).status.Ok? <==>
      forall k :: k in ks && BoundTo(m, k, fd) ==> fd !in env.readFails && k !in env.sendFails
    decreases |ks|
  {
    if ks != [] {
      ForwardEachStatus(m, ks[1..], fd, env);
      assert forall j :: j in ks <==> j == ks[0] || j in ks[1..];
    }
  }

  /** A successful readiness loop over a duplicate-free order sends the read
      bytes exactly once to every client in the order that owns the
      descriptor. */
  lemma {:induction false} ForwardEachDelivers(m: Clients, ks: seq<u16>, fd: Fd, env: Env, id: u16)
    requires ForwardEach(m, ks, fd, env).status.Ok? && NoDup(ks)
    requires id in ks && BoundTo(m, id, fd)
    ensures Read(env, fd).Some?
    ensures multiset(ForwardEach(m, ks, fd, env).effects)[Send(Data, id, Read(env, fd).value)] == 1
    decreases |ks|
  {
    var k := ks[0];
    var rest := ForwardEach(m, ks[1..], fd, env);
    NoDupTail(ks);
    if k == id {
      ForwardEachShape(m, ks[1..], fd, env);
      assert Send(Data, id, Read(env, fd).value) !in rest.effects;
      assert ForwardEach(m, ks, fd, env).effects == [Send(Data, id, Read(env, fd).value)] + rest.effects;
    } else {
      assert id in ks[1..];
      ForwardEachDelivers(m, ks[1..], fd, env, id);
      var here := if BoundTo(m, k, fd) then ForwardTo(k, fd, env) else Run([], Ok);
      assert ForwardEach(m, ks, fd, env).effects == here.effects + rest.effects;
      assert multiset(here.effects)[Send(Data, id, Read(env, fd).value)] == 0;
    }
  }

  /** Readiness: nothing happens without an event, without a descriptor or for
      an event that is not readable; otherwise exactly the clients whose
      binding owns the descriptor are sent the bytes read, once each when it
      succeeds, at most `BufSize` bytes. */
  lemma ReadinessRoutesToOwners(m: Clients, io: Option<IoEvent>, fd: Option<Fd>, ks: seq<u16>, env: Env)
    requires IsEnumeration(ks, m.Keys)
    ensures var r := OnReadable(m, io, fd, ks, env);
      && (io.None? || fd.None? || !io.value.readable ==> r == Run([], Ok))
      && (forall e :: e in r.effects ==>
            e.Send? && e.kind == Data && BoundTo(m, e.id, fd.value) && |e.bytes| <= BufSize)
      && (r.status.Ok? && io.Some? && fd.Some? && io.value.readable ==>
            forall k :: BoundTo(m, k, fd.value) ==>
              Read(env, fd.value).Some? && multiset(r.effects)[Send(Data, k, Read(env, fd.value).value)] == 1)
  {
    if io.Some? && fd.Some? && io.value.readable {
      ForwardEachShape(m, ks, fd.value, env);
      forall k | BoundTo(m, k, fd.value) && OnReadable(m, io, fd, ks, env).status.Ok?
        ensures Read(env, fd.value).Some?
        ensures multiset(OnReadable(m, io, fd, ks, env).effects)[Send(Data, k, Read(env, fd.value).value)] == 1
      {
        ForwardEachDelivers(m, ks, fd.value, env, k);
      }
    }
  }

  // Message transitions

  /** Subscribe resets the entry of the id to `None`, whatever was there, and
      makes no reactor call. */
  lemma SubscribeResets(m: Clients, msg: Msg, ks: seq<u16>, env: Env)
    requires msg.kind == Subscribe
    ensures OnMessage(m, msg, ks, env) == Outcome(m[msg.clientId := None], [], Ok)
  {
  }

  /** Unsubscribe of an absent id changes nothing; of a present id it removes
      the key and, for a bound entry, unregisters the descriptor then kills
      the child. Only an unregister failure aborts, and then nothing was done
      but the removal. */
  lemma UnsubscribeTearsDown(m: Clients, msg: Msg, ks: seq<u16>, env: Env)
    requires msg.kind == Unsubscribe
    ensures var r := OnMessage(m, msg, ks, env);
      var id := msg.clientId;
      && (id !in m ==> r == Outcome(m, [], Ok))
      && (id in m ==> r.state == m - {id})
      && (id in m && m[id].None? ==> r.effects == [] && r.status == Ok)
      && (id in m && m[id].Some? ==> (r.status.Ok? <==> m[id].value.fd !in env.unregisterFails))
      && (id in m && m[id].Some? && r.status.Ok? ==>
            r.effects == [UnregisterIO(m[id].value.fd), Kill(m[id].value.child)])
      && (r.status.Err? ==> r.effects == [] && r.status == Err(UnregisterError))
  {
  }

  /** Data for an id that is not subscribed is an error: the step aborts
      before monitoring and readiness, with no effect. */
  lemma DataUnknownAborts(m: Clients, evt: Event, ks1: seq<u16>, ks2: seq<u16>, env: Env)
    requires evt.msg.Some? && evt.msg.value.kind == Data && evt.msg.value.clientId !in m
    ensures Step(m, evt, ks1, ks2, env) == Outcome(m, [], Err(UnknownClient))
  {
  }

  /** The first Data for a subscribed id: on success exactly one child is
      spawned, its stdout registered once, the binding stored, and then the
      payload written. On failure nothing is written; when the spawn or the
      registration failed the registry is unchanged and at most the spawn
      happened, so a child whose registration failed is left running. */
  lemma DataSpawnsOnFirst(m: Clients, msg: Msg, ks: seq<u16>, env: Env)
    requires msg.kind == Data && msg.clientId in m && m[msg.clientId].None?
    ensures var r := OnMessage(m, msg, ks, env);
      var id := msg.clientId;
      && (r.status.Ok? ==> env.spawn.Some?)
      && (r.status.Ok? ==>
            r.state == m[id := Some(ClientData(env.spawn.value.fd, env.spawn.value.pid))])
      && (r.status.Ok? ==>
            r.effects == [Spawn(env.spawn.value.pid, env.spawn.value.fd, []), RegisterIO(env.spawn.value.fd),
                          WriteStdin(env.spawn.value.pid, msg.data)])
      && (r.status.Err? ==> forall e :: e in r.effects ==> !e.WriteStdin?)
      && (r.status.Err? && (env.spawn.None? || env.spawn.value.fd in env.registerFails) ==>
            r.state == m && forall e :: e in r.effects ==> e.Spawn?)
      && (env.spawn.Some? && env.spawn.value.fd !in env.registerFails && env.spawn.value.pid in env.stdinFails ==>
            && r.state == m[id := Some(ClientData(env.spawn.value.fd, env.spawn.value.pid))]
            && r.effects == [Spawn(env.spawn.value.pid, env.spawn.value.fd, []), RegisterIO(env.spawn.value.fd)]
            && r.status == Err(WriteError))
  {
  }

  /** Data for a bound entry only feeds its child: no spawn, no registration,
      and the registry is unchanged; the step fails exactly when the write
      fails. */
  lemma DataReusesChild(m: Clients, msg: Msg, ks: seq<u16>, env: Env)
    requires msg.kind == Data && msg.clientId in m && m[msg.clientId].Some?
    ensures var r := OnMessage(m, msg, ks, env);
      var c := m[msg.clientId].value.child;
      && r.state == m
      && (r.status.Ok? <==> c !in env.stdinFails)
      && (r.status.Ok? ==> r.effects == [WriteStdin(c, msg.data)])
      && (r.status.Err? ==> r.effects == [] && r.status == Err(WriteError))
  {
  }

  // The whole step

  /** The only messages a message transition sends are empty Unsubscribe
      notices. */
  lemma MessageSendsOnlyNotices(m: Clients, msg: Msg, ks: seq<u16>, env: Env)
    ensures forall e :: e in OnMessage(m, msg, ks, env).effects && e.Send? ==> e.kind == Unsubscribe && e.bytes == []
  {
    if msg.kind == UnsubscribeAll {
      UnsubscribeEachShape(m, ks, env);
    }
  }

  /** Every outbound message of a step carries at most `BufSize` bytes. */
  lemma StepPayloadsBounded(m: Clients, evt: Event, ks1: seq<u16>, ks2: seq<u16>, env: Env)
    ensures forall e :: e in Step(m, evt, ks1, ks2, env).effects && e.Send? ==> |e.bytes| <= BufSize
  {
    var h := Handled(m, evt, ks1, env);
    if evt.msg.Some? {
      MessageSendsOnlyNotices(m, evt.msg.value, ks1, env);
    }
    if h.status.Ok? {
      var p := Monitor(h.state, ks2, env);
      PollEachShape(h.state, ks2, env);
      if p.status.Ok? && evt.io.Some? && evt.fd.Some? && evt.io.value.readable {
        ForwardEachShape(p.state, ks2, evt.fd.value, env);
      }
    }
  }

  /** Readiness runs after `monitor_clients`: a binding whose child exited
      before the step's monitor pass is never read in that step. */
  lemma ReapedNeverRead(m: Clients, evt: Event, ks1: seq<u16>, ks2: seq<u16>, env: Env, k: u16)
    requires IsEnumeration(ks2, Handled(m, evt, ks1, env).state.Keys)
    requires Exits(Handled(m, evt, ks1, env).state, k, env)
    ensures forall b :: Send(Data, k, b) !in Step(m, evt, ks1, ks2, env).effects
  {
    var h := Handled(m, evt, ks1, env);
    if evt.msg.Some? {
      MessageSendsOnlyNotices(m, evt.msg.value, ks1, env);
    }
    if h.status.Ok? {
      var p := Monitor(h.state, ks2, env);
      PollEachShape(h.state, ks2, env);
      MonitorReaps(h.state, ks2, env);
      if p.status.Ok? && evt.io.Some? && evt.fd.Some? && evt.io.value.readable {
        assert p.state[k] == None;
        ForwardEachShape(p.state, ks2, evt.fd.value, env);
      }
    }
  }

  // Balance of descriptor registrations

  /** Every bound descriptor is registered exactly once in the trace `t`, and
      no other descriptor is registered. */
  ghost predicate Balanced(m: Clients, t: seq<Effect>)
  {
    FdsDistinct(m) && forall fd :: Balance(t, fd) == if fd in BoundFds(m) then 1 else 0
  }

  /** A Subscribe that would drop a live binding. */
  predicate Rebinds(m: Clients, evt: Event)
  {
    evt.msg.Some? && evt.msg.value.kind == Subscribe && evt.msg.value.clientId in m && m[evt.msg.value.clientId].Some?
  }

  lemma BoundFdsRemove(m: Clients, id: u16)
    requires FdsDistinct(m) && id in m
    ensures FdsDistinct(m - {id}) && FdsDistinct(m[id := None])
    ensures BoundFds(m - {id}) == BoundFds(m[id := None])
    ensures BoundFds(m - {id}) == BoundFds(m) - (if m[id].Some? then {m[id].value.fd} else {})
  {
    var gone := if m[id].Some? then {m[id].value.fd} else {};
    forall fd | fd in BoundFds(m) - gone
      ensures fd in BoundFds(m - {id})
    {
      var k :| k in m && m[k].Some? && m[k].value.fd == fd;
      assert k != id;
      assert k in m - {id};
    }
    forall fd | fd in BoundFds(m[id := None])
      ensures fd in BoundFds(m - {id})
    {
      var k :| k in m[id := None] && m[id := None][k].Some? && m[id := None][k].value.fd == fd;
      assert k in m - {id};
    }
    forall fd | fd in BoundFds(m - {id})
      ensures fd in BoundFds(m[id := None])
    {
      var k :| k in m - {id} && (m - {id})[k].Some? && (m - {id})[k].value.fd == fd;
      assert k in m[id := None] && m[id := None][k] == m[k];
    }
  }

  lemma BoundFdsBind(m: Clients, id: u16, cd: ClientData)
    requires FdsDistinct(m) && id in m && m[id].None? && cd.fd !in BoundFds(m)
    ensures FdsDistinct(m[id := Some(cd)])
    ensures BoundFds(m[id := Some(cd)]) == BoundFds(m) + {cd.fd}
  {
    var m' := m[id := Some(cd)];
    assert cd.fd in BoundFds(m') by {
      assert m'[id] == Some(cd);
    }
    forall fd | fd in BoundFds(m)
      ensures fd in BoundFds(m')
    {
      var k :| k in m && m[k].Some? && m[k].value.fd == fd;
      assert k in m' && m'[k] == m[k];
    }
    forall a, b | a in m' && b in m' && m'[a].Some? && m'[b].Some? && m'[a].value.fd == m'[b].value.fd
      ensures a == b
    {
    }
  }

  /** Subscribe of an id without a live binding keeps the balance. */
  lemma SubscribeKeepsBalanced(m: Clients, t: seq<Effect>, msg: Msg, ks: seq<u16>, env: Env)
    requires Balanced(m, t) && msg.kind == Subscribe
    requires msg.clientId !in m || m[msg.clientId].None?
    ensures var r := OnMessage(m, msg, ks, env); Balanced(r.state, t + r.effects)
  {
    var id := msg.clientId;
    assert t + [] == t;
    if id in m {
      BoundFdsRemove(m, id);
      assert m[id := None] == m;
    } else {
      assert m[id := None] == m[id := None] - {id} + map[id := None];
      var m' := m[id := None];
      BoundFdsRemove(m', id);
      assert m' - {id} == m;
    }
  }

  /** Unsubscribe keeps the balance when it succeeds. */
  lemma UnsubscribeKeepsBalanced(m: Clients, t: seq<Effect>, msg: Msg, ks: seq<u16>, env: Env)
    requires Balanced(m, t) && msg.kind == Unsubscribe
    ensures var r := OnMessage(m, msg, ks, env); r.status.Ok? ==> Balanced(r.state, t + r.effects)
  {
    var id := msg.clientId;
    var r := OnMessage(m, msg, ks, env);
    if r.status.Ok? {
      if id !in m {
        assert t + [] == t;
      } else {
        BoundFdsRemove(m, id);
        forall fd
          ensures Balance(t + r.effects, fd) == if fd in BoundFds(r.state) then 1 else 0
        {
          BalanceAppend(t, r.effects, fd);
        }
      }
    }
  }

  /** UnsubscribeAll keeps the balance when it succeeds: every bound
      descriptor is unregistered and the registry ends empty. */
  lemma UnsubscribeAllKeepsBalanced(m: Clients, t: seq<Effect>, msg: Msg, ks: seq<u16>, env: Env)
    requires Balanced(m, t) && msg.kind == UnsubscribeAll && IsEnumeration(ks, m.Keys)
    ensures var r := OnMessage(m, msg, ks, env); r.status.Ok? ==> Balanced(r.state, t + r.effects)
  {
    var r := OnMessage(m, msg, ks, env);
    if r.status.Ok? {
      UnsubscribeAllNotifiesEach(m, msg, ks, env);
      UnsubscribeAllKillsEach(m, msg, ks, env);
      UnsubscribeAllUnregistersEach(m, msg, ks, env);
      forall fd
        ensures Balance(t + r.effects, fd) == 0
      {
        BalanceAppend(t, r.effects, fd);
      }
    }
  }

  /** The first Data for an entry without a process keeps the balance when
      it succeeds, provided the new descriptor is not already registered. */
  lemma SpawnKeepsBalanced(m: Clients, t: seq<Effect>, id: u16, data: seq<byte>, env: Env)
    requires Balanced(m, t) && id in m && m[id].None?
    requires env.spawn.Some? ==> Balance(t, env.spawn.value.fd) == 0
    ensures var r := OnData(m, id, data, env); r.status.Ok? ==> Balanced(r.state, t + r.effects)
  {
    var r := OnData(m, id, data, env);
    if r.status.Ok? {
      var p := env.spawn.value;
      BoundFdsBind(m, id, ClientData(p.fd, p.pid));
      assert r.effects == [Spawn(p.pid, p.fd, []), RegisterIO(p.fd), WriteStdin(p.pid, data)];
      forall fd
        ensures Balance(t + r.effects, fd) == if fd in BoundFds(r.state) then 1 else 0
      {
        BalanceAppend(t, r.effects, fd);
        BalanceOfStart(p.pid, p.fd, [], data, fd);
      }
    }
  }

  /** Data keeps the balance when it succeeds, provided the descriptor of a
      newly spawned child is not already registered. */
  lemma DataKeepsBalanced(m: Clients, t: seq<Effect>, id: u16, data: seq<byte>, env: Env)
    requires Balanced(m, t)
    requires env.spawn.Some? ==> Balance(t, env.spawn.value.fd) == 0
    ensures var r := OnData(m, id, data, env); r.status.Ok? ==> Balanced(r.state, t + r.effects)
  {
    var r := OnData(m, id, data, env);
    if id in m && m[id].None? {
      SpawnKeepsBalanced(m, t, id, data, env);
    } else if r.status.Ok? {
      assert r.state == m;
      forall fd
        ensures Balance(t + r.effects, fd) == Balance(t, fd)
      {
        assert RegisterIO(fd) !in r.effects && UnregisterIO(fd) !in r.effects;
        BalanceAppend(t, r.effects, fd);
      }
    }
  }

  /** Every message transition except a re-subscribe of a live binding keeps
      the balance when it succeeds. */
  lemma MessageKeepsBalanced(m: Clients, t: seq<Effect>, msg: Msg, ks: seq<u16>, env: Env)
    requires Balanced(m, t) && IsEnumeration(ks, m.Keys)
    requires !(msg.kind == Subscribe && msg.clientId in m && m[msg.clientId].Some?)
    requires env.spawn.Some? ==> Balance(t, env.spawn.value.fd) == 0
    ensures var r := OnMessage(m, msg, ks, env); r.status.Ok? ==> Balanced(r.state, t + r.effects)
  {
    match msg.kind
    case Subscribe => SubscribeKeepsBalanced(m, t, msg, ks, env);
    case Unsubscribe => UnsubscribeKeepsBalanced(m, t, msg, ks, env);
    case UnsubscribeAll => UnsubscribeAllKeepsBalanced(m, t, msg, ks, env);
    case Data => DataKeepsBalanced(m, t, msg.clientId, msg.data, env);
    case Other => assert t + [] == t;
  }

  lemma BoundFdsReaped(m: Clients, env: Env)
    requires FdsDistinct(m)
    ensures FdsDistinct(Reaped(m, env))
    ensures BoundFds(Reaped(m, env)) == BoundFds(m) - ExitedFds(m, env)
  {
    var r := Reaped(m, env);
    forall fd | fd in BoundFds(m) - ExitedFds(m, env)
      ensures fd in BoundFds(r)
    {
      var k :| k in m && m[k].Some? && m[k].value.fd == fd;
      assert !Exits(m, k, env);
      assert r[k] == m[k];
    }
    forall fd | fd in BoundFds(r)
      ensures fd in BoundFds(m) - ExitedFds(m, env)
    {
      var k :| k in r && r[k].Some? && r[k].value.fd == fd;
      assert r[k] == m[k];
    }
  }

  /** A successful monitor pass keeps the balance: the descriptors it
      unregisters are exactly those of the bindings it resets. */
  lemma MonitorKeepsBalanced(m: Clients, t: seq<Effect>, ks: seq<u16>, env: Env)
    requires Balanced(m, t) && IsEnumeration(ks, m.Keys)
    ensures var r := Monitor(m, ks, env); r.status.Ok? ==> Balanced(r.state, t + r.effects)
  {
    var r := Monitor(m, ks, env);
    if r.status.Ok? {
      MonitorReaps(m, ks, env);
      MonitorUnregistersExited(m, ks, env);
      BoundFdsReaped(m, env);
      forall fd
        ensures Balance(t + r.effects, fd) == if fd in BoundFds(r.state) then 1 else 0
      {
        BalanceAppend(t, r.effects, fd);
      }
    }
  }

  /** Readiness neither registers nor unregisters anything. */
  lemma ReadinessKeepsBalance(m: Clients, io: Option<IoEvent>, fd: Option<Fd>, ks: seq<u16>, env: Env, t: seq<Effect>, d: Fd)
    ensures Balance(t + OnReadable(m, io, fd, ks, env).effects, d) == Balance(t, d)
  {
    var r := OnReadable(m, io, fd, ks, env);
    if io.Some? && fd.Some? && io.value.readable {
      ForwardEachShape(m, ks, fd.value, env);
    }
    assert RegisterIO(d) !in r.effects && UnregisterIO(d) !in r.effects;
    BalanceAppend(t, r.effects, d);
  }

  /** A successful step keeps every bound descriptor registered exactly once
      and no other, provided the step is not a re-subscribe of a live binding
      and the OS hands out a descriptor that is not registered. */
  lemma StepKeepsBalanced(m: Clients, t: seq<Effect>, evt: Event, ks1: seq<u16>, ks2: seq<u16>, env: Env)
    requires Balanced(m, t) && !Rebinds(m, evt)
    requires IsEnumeration(ks1, m.Keys) && IsEnumeration(ks2, Handled(m, evt, ks1, env).state.Keys)
    requires env.spawn.Some? ==> Balance(t, env.spawn.value.fd) == 0
    ensures var r := Step(m, evt, ks1, ks2, env); r.status.Ok? ==> Balanced(r.state, t + r.effects)
  {
    var r := Step(m, evt, ks1, ks2, env);
    if r.status.Ok? {
      var h := Handled(m, evt, ks1, env);
      if evt.msg.Some? {
        MessageKeepsBalanced(m, t, evt.msg.value, ks1, env);
      } else {
        assert t + [] == t;
      }
      var t1 := t + h.effects;
      var p := Monitor(h.state, ks2, env);
      MonitorKeepsBalanced(h.state, t1, ks2, env);
      var t2 := t1 + p.effects;
      var f := OnReadable(p.state, evt.io, evt.fd, ks2, env);
      AppendAssoc(t, h.effects, p.effects);
      AppendAssoc(t, h.effects + p.effects, f.effects);
      assert t + r.effects == t2 + f.effects;
      forall d
        ensures Balance(t + r.effects, d) == if d in BoundFds(r.state) then 1 else 0
      {
        ReadinessKeepsBalance(p.state, evt.io, evt.fd, ks2, env, t2, d);
      }
    }
  }

  /** A Subscribe for an id with a live binding drops the binding with no
      reactor call: its descriptor stays registered while no entry owns it,
      and its child is neither killed nor tracked, so the balance is lost. */
  lemma ResubscribeLeaks(m: Clients, t: seq<Effect>, msg: Msg, ks: seq<u16>, env: Env)
    requires Balanced(m, t) && msg.kind == Subscribe && msg.clientId in m && m[msg.clientId].Some?
    ensures var r := OnMessage(m, msg, ks, env);
      var fd := m[msg.clientId].value.fd;
      && r.status.Ok? && r.effects == []
      && Balance(t + r.effects, fd) == 1
      && fd !in BoundFds(r.state)
      && !Balanced(r.state, t + r.effects)
  {
    var id := msg.clientId;
    var fd := m[id].value.fd;
    assert m[id].value.fd in BoundFds(m);
    BoundFdsRemove(m, id);
    assert t + [] == t;
  }

  // A client's life

  /** With no child exited and none failing to be waited for, the monitor's
      poll does nothing. */
  lemma {:induction false} QuietPoll(m: Clients, ks: seq<u16>, env: Env)
    requires env.exited == {} && env.waitFails == {}
    ensures PollEach(m, ks, env) == Outcome([], [], Ok)
    decreases |ks|
  {
    if ks != [] {
      QuietPoll(m, ks[1..], env);
    }
  }

  /** Subscribe, one Data, then Unsubscribe for one id, in three steps without
      readiness events and with no process exiting: exactly one child is
      spawned, its stdout registered, the payload written, then the
      descriptor unregistered and the child killed, in that order, and the
      registry ends without the id. */
  lemma SubscribeDataUnsubscribe(m: Clients, id: u16, size: nat, hello: seq<byte>, data: seq<byte>, ks: seq<u16>, env: Env)
    requires env.exited == {} && env.waitFails == {}
    requires env.spawn.Some? && env.spawn.value.fd !in env.registerFails && env.spawn.value.fd !in env.unregisterFails
    requires env.spawn.value.pid !in env.stdinFails
    ensures var p := env.spawn.value;
      var s1 := Step(m, Event(Some(Msg(Subscribe, id, size, hello)), None, None), ks, ks, env);
      var s2 := Step(s1.state, Event(Some(Msg(Data, id, |data|, data)), None, None), ks, ks, env);
      var s3 := Step(s2.state, Event(Some(Msg(Unsubscribe, id, 0, [])), None, None), ks, ks, env);
      && s1.status.Ok? && s2.status.Ok? && s3.status.Ok?
      && s3.state == m - {id}
      && s1.effects + s2.effects + s3.effects ==
           [Spawn(p.pid, p.fd, []), RegisterIO(p.fd), WriteStdin(p.pid, data), UnregisterIO(p.fd), Kill(p.pid)]
  {
    var p := env.spawn.value;
    var m1 := m[id := None];
    var m2 := m1[id := Some(ClientData(p.fd, p.pid))];
    QuietPoll(m1, ks, env);
    QuietPoll(m2, ks, env);
    QuietPoll(m2 - {id}, ks, env);
    assert m2 - {id} == m - {id};
  }
}
