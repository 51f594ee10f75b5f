/** The identity policy (src/shp2p.rs): every subscribed client carries the
    peer label it subscribed with, and gets its own child process, spawned on
    its first Data message with the label and the client id in its
    environment. */
module Identity {
  import opened Tunnel
  import Label
  import Utf8
  import Decimal

  /** An entry: the descriptor of the child's stdout (`NoFd` when there is no
      child), the child, and the peer label. */
  datatype ClientData = ClientData(fd: Fd, child: Option<Pid>, user: string)

  type Clients = map<u16, ClientData>

  /** An entry without a process. */
  function Unbound(user: string): ClientData
  {
    ClientData(NoFd, None, user)
  }

  /** The field invariant: a child is present exactly when the descriptor is set. */
  predicate WellFormed(cd: ClientData)
  {
    cd.child.Some? <==> cd.fd != NoFd
  }

  predicate AllWellFormed(m: Clients)
  {
    forall k :: k in m ==> WellFormed(m[k])
  }

  /** `k` has a child and its stdout is `fd`. */
  predicate BoundTo(m: Clients, k: u16, fd: Fd)
  {
    k in m && m[k].child.Some? && m[k].fd == fd
  }

  /** `k` has a child and the OS reports it as exited. */
  predicate Exits(m: Clients, k: u16, env: Env)
  {
    k in m && m[k].child.Some? && m[k].child.value in env.exited
  }

  function OwnsFd(m: Clients, fd: Fd): u16 -> bool
  {
    (k: u16) => BoundTo(m, k, fd)
  }

  function OwnsChild(m: Clients, pid: Pid): u16 -> bool
  {
    (k: u16) => k in m && m[k].child == Some(pid)
  }

  function ReapsFd(m: Clients, env: Env, fd: Fd): u16 -> bool
  {
    (k: u16) => Exits(m, k, env) && BoundTo(m, k, fd)
  }

  /** The descriptors of the entries that have a child. */
  function BoundFds(m: Clients): set<Fd>
  {
    set k | k in m && m[k].child.Some? :: m[k].fd
  }

  /** The descriptors of the entries whose child exited. */
  function ExitedFds(m: Clients, env: Env): set<Fd>
  {
    set k | Exits(m, k, env) :: m[k].fd
  }

  /** The environment of a spawned child: its peer label and its client id. */
  function SpawnVars(user: string, id: u16): seq<(string, string)>
  {
    [("CUSER", user), ("CID", Decimal.Render(id))]
  }

  // ---------------------------------------------------------------------------
  // Specification of one step

  /** `unsubscribe_client`: unregister the descriptor and kill the child of an
      entry that has one; nothing for an entry without a process. */
  function TearDown(cd: ClientData, env: Env): Run
  {
    match cd.child
    case None => Run([], Ok)
    case Some(pid) => Stop(cd.fd, pid, env)
  }

  /** One turn of the UnsubscribeAll loop. */
  function Notice(k: u16, cd: ClientData, env: Env): Run
  {
    Then(Emit(Unsubscribe, k, [], env), TearDown(cd, env))
  }

  /** The UnsubscribeAll loop over the keys in order `ks`. */
  function UnsubscribeEach(m: Clients, ks: seq<u16>, env: Env): Run
    decreases |ks|
  {
    if ks == [] then Run([], Ok)
    else
      var k := ks[0];
      var here := if k in m then Notice(k, m[k], env) else Emit(Unsubscribe, k, [], env);
      Then(here, UnsubscribeEach(m, ks[1..], env))
  }

  /** A Subscribe message: the peer label replaces the entry of the id; a
      payload that does not decode aborts with the registry unchanged. */
  function OnSubscribe(m: Clients, msg: Msg): Outcome<Clients>
  {
    match Label.PeerLabel(msg.data, msg.size)
    case Rejected(e) => Outcome(m, [], Err(e))
    case Label(user) => Outcome(m[msg.clientId := Unbound(user)], [], Ok)
  }

  /** A Data message: an unknown id is ignored; an entry without a process
      spawns one with its label and id in the environment, registers its
      stdout READABLE and records it; then the payload goes to the child. */
  function OnData(m: Clients, id: u16, data: seq<byte>, env: Env): Outcome<Clients>
  {
    if id !in m then Outcome(m, [], Ok)
    else
      var cd := m[id];
      match cd.child
      case Some(pid) => WithState(m, Feed(pid, data, env))
      case None =>
        match env.spawn
        case None => Outcome(m, [], Err(SpawnError))
        case Some(p) =>
          var started := Then(Run([Spawn(p.pid, p.fd, SpawnVars(cd.user, id))], Ok), Register(p.fd, env));
          if started.status.Err? then WithState(m, started)
          else WithState(m[id := cd.(child := Some(p.pid), fd := p.fd)], Then(started, Feed(p.pid, data, env)))
  }

  /** The message part of `step_handle`. */
  function OnMessage(m: Clients, msg: Msg, ks: seq<u16>, env: Env): Outcome<Clients>
  {
    var id := msg.clientId;
    match msg.kind
    case Subscribe => OnSubscribe(m, msg)
    case Unsubscribe =>
      if id !in m then Outcome(m, [], Ok)
      else WithState(m - {id}, TearDown(m[id], env))
    case UnsubscribeAll =>
      var r := UnsubscribeEach(m, ks, env);
      WithState(if r.status.Ok? then map[] else m, r)
    case Data => OnData(m, id, msg.data, env)
    case Other => Outcome(m, [], Ok)
  }

  /** `monitor_clients`: in order `ks`, every entry whose child exited has its
      descriptor unregistered and is reset in place; an error stops the loop
      and keeps the entries already reset. */
  function ReapEach(m: Clients, ks: seq<u16>, env: Env): Outcome<Clients>
    decreases |ks|
  {
    if ks == [] then Outcome(m, [], Ok)
    else
      var k := ks[0];
      if k !in m || m[k].child.None? then ReapEach(m, ks[1..], env)
      else
        var cd := m[k];
        if cd.child.value in env.waitFails then Outcome(m, [], Err(WaitError))
        else if cd.child.value !in env.exited then ReapEach(m, ks[1..], env)
        else
          var u := Unregister(cd.fd, env);
          if u.status.Err? then Outcome(m, u.effects, u.status)
          else
            var rest := ReapEach(m[k := Unbound(cd.user)], ks[1..], env);
            Outcome(rest.state, u.effects + rest.effects, rest.status)
  }

  /** Reference meaning of a successful monitor pass: every entry whose child
      exited loses its process and keeps its label, every other entry is kept. */
  function Reset(m: Clients, env: Env): Clients
  {
    map k | k in m :: if Exits(m, k, env) then Unbound(m[k].user) else m[k]
  }

  /** One read from `fd` sent as an outbound Data message tagged with `k`. */
  function ForwardTo(k: u16, fd: Fd, env: Env): Run
  {
    match Read(env, fd)
    case None => Run([], Err(ReadError))
    case Some(bytes) => Emit(Data, k, bytes, env)
  }

  /** The readiness loop: every entry with a child whose descriptor is `fd`. */
  function ForwardEach(m: Clients, ks: seq<u16>, fd: Fd, env: Env): Run
    decreases |ks|
  {
    if ks == [] then Run([], Ok)
    else
      var k := ks[0];
      var here := if BoundTo(m, k, fd) then ForwardTo(k, fd, env) else Run([], Ok);
      Then(here, ForwardEach(m, ks[1..], fd, env))
  }

  /** The readiness part of `step_handle`. */
  function OnReadable(m: Clients, io: Option<IoEvent>, fd: Option<Fd>, ks: seq<u16>, env: Env): Run
  {
    if io.None? || fd.None? || !io.value.readable then Run([], Ok)
    else ForwardEach(m, ks, fd.value, env)
  }

  function Handled(m: Clients, evt: Event, ks: seq<u16>, env: Env): Outcome<Clients>
  {
    if evt.msg.Some? then OnMessage(m, evt.msg.value, ks, env) else Outcome(m, [], Ok)
  }

  /** `step_handle`: the message, then `monitor_clients`, then readiness;
      `ks1` and `ks2` are the key orders as in the exclusive policy. */
  function Step(m: Clients, evt: Event, ks1: seq<u16>, ks2: seq<u16>, env: Env): Outcome<Clients>
  {
    var h := Handled(m, evt, ks1, env);
    if h.status.Err? then h
    else
      var p := ReapEach(h.state, ks2, env);
      if p.status.Err? then Outcome(p.state, h.effects + p.effects, p.status)
      else
        var f := OnReadable(p.state, evt.io, evt.fd, ks2, env);
        Outcome(p.state, h.effects + p.effects + f.effects, f.status)
  }

  // ---------------------------------------------------------------------------
  // The dispatcher

  /** `unsubscribe_client`. */
  method UnsubscribeClient(cd: ClientData, topic: Reactor) returns (status: Status)
    modifies topic`trace
    ensures topic.trace == old(topic.trace) + TearDown(cd, topic.env).effects
    ensures status == TearDown(cd, topic.env).status
  {
    status := Ok;
    if cd.child.Some? {
      status := topic.UnregisterIo(cd.fd);
      if status.Err? {
        return;
      }
      topic.KillChild(cd.child.value);
    }
  }

  /** One turn of the UnsubscribeAll loop. */
  method NotifyOne(k: u16, cd: ClientData, topic: Reactor) returns (status: Status)
    modifies topic`trace
    ensures topic.trace == old(topic.trace) + Notice(k, cd, topic.env).effects
    ensures status == Notice(k, cd, topic.env).status
  {
    status := topic.Write(Unsubscribe, k, []);
    if status.Err? {
      return;
    }
    status := UnsubscribeClient(cd, topic);
  }

  /** The loop of the UnsubscribeAll branch, over the entries of `m` in order `ks`. */
  method NotifyAll(m: Clients, ks: seq<u16>, topic: Reactor) returns (status: Status)
    modifies topic`trace
    ensures topic.trace == old(topic.trace) + UnsubscribeEach(m, ks, topic.env).effects
    ensures status == UnsubscribeEach(m, ks, topic.env).status
  {
    ghost var env := topic.env;
    ghost var whole := UnsubscribeEach(m, ks, env);
    ghost var done: seq<Effect> := [];
    var i := 0;
    assert ks[0..] == ks;
    while i < |ks|
      invariant 0 <= i <= |ks| && topic.env == env
      invariant topic.trace == old(topic.trace) + done
      invariant whole.effects == done + UnsubscribeEach(m, ks[i..], env).effects
      invariant whole.status == UnsubscribeEach(m, ks[i..], env).status
    {
      var k := ks[i];
      ghost var here := if k in m then Notice(k, m[k], env) else Emit(Unsubscribe, k, [], env);
      ghost var next := UnsubscribeEach(m, ks[i + 1..], env);
      assert ks[i..][0] == k && ks[i..][1..] == ks[i + 1..];
      AppendAssoc(done, here.effects, next.effects);
      AppendAssoc(old(topic.trace), done, here.effects);
      if k in m {
        status := NotifyOne(k, m[k], topic);
      } else {
        status := topic.Write(Unsubscribe, k, []);
      }
      if status.Err? {
        return;
      }
      done := done + here.effects;
      i := i + 1;
    }
    assert ks[i..] == [];
    assert done + [] == done;
    status := Ok;
  }

  /** One turn of the readiness loop: read from `ready` and send the bytes
      tagged with `k`. */
  method ForwardOne(k: u16, ready: Fd, topic: Reactor) returns (status: Status)
    modifies topic`trace
    ensures topic.trace == old(topic.trace) + ForwardTo(k, ready, topic.env).effects
    ensures status == ForwardTo(k, ready, topic.env).status
  {
    var bytes := topic.ReadStdout(ready);
    if bytes.None? {
      return Err(ReadError);
    }
    status := topic.Write(Data, k, bytes.value);
  }

  /** The readiness loop: every entry bound to the ready descriptor `ready`
      is sent one read from it. */
  method ForwardAll(m: Clients, ks: seq<u16>, ready: Fd, topic: Reactor) returns (status: Status)
    modifies topic`trace
    ensures topic.trace == old(topic.trace) + ForwardEach(m, ks, ready, topic.env).effects
    ensures status == ForwardEach(m, ks, ready, topic.env).status
  {
    ghost var env := topic.env;
    ghost var whole := ForwardEach(m, ks, ready, env);
    ghost var done: seq<Effect> := [];
    var i := 0;
    assert ks[0..] == ks;
    while i < |ks|
      invariant 0 <= i <= |ks| && topic.env == env
      invariant topic.trace == old(topic.trace) + done
      invariant whole.effects == done + ForwardEach(m, ks[i..], ready, env).effects
      invariant whole.status == ForwardEach(m, ks[i..], ready, env).status
    {
      var k := ks[i];
      assert ks[i..][0] == k && ks[i..][1..] == ks[i + 1..];
      ghost var next := ForwardEach(m, ks[i + 1..], ready, env);
      if BoundTo(m, k, ready) {
        ghost var here := ForwardTo(k, ready, env);
        AppendAssoc(done, here.effects, next.effects);
        AppendAssoc(old(topic.trace), done, here.effects);
        status := ForwardOne(k, ready, topic);
        if status.Err? {
          return;
        }
        done := done + here.effects;
      }
      i := i + 1;
    }
    assert ks[i..] == [];
    assert done + [] == done;
    status := Ok;
  }

  class Registry {
    var clients: Clients

    constructor ()
      ensures clients == map[]
    {
      clients := map[];
    }

    /** The Data branch. */
    method ForwardData(id: u16, data: seq<byte>, topic: Reactor) returns (status: Status)
      modifies this, topic`trace
      ensures var r := OnData(old(clients), id, data, topic.env);
        clients == r.state && topic.trace == old(topic.trace) + r.effects && status == r.status
    {
      if id !in clients {
        return Ok;
      }
      var cd := clients[id];
      var child: Pid;
      match cd.child {
        case Some(pid) =>
          child := pid;
        case None =>
          var spawned := topic.SpawnChild(SpawnVars(cd.user, id));
          if spawned.None? {
            return Err(SpawnError);
          }
          var p := spawned.value;
          status := topic.RegisterIo(p.fd);
          if status.Err? {
            return;
          }
          clients := clients[id := cd.(child := Some(p.pid), fd := p.fd)];
          child := p.pid;
      }
      status := topic.WriteStdinOf(child, data);
    }

    /** The message part of `step_handle`. */
    method HandleMessage(msg: Msg, ks: seq<u16>, topic: Reactor) returns (status: Status)
      modifies this, topic`trace
      ensures var r := OnMessage(old(clients), msg, ks, topic.env);
        clients == r.state && topic.trace == old(topic.trace) + r.effects && status == r.status
    {
      var id := msg.clientId;
      match msg.kind {
        case Subscribe =>
          match Label.PeerLabel(msg.data, msg.size) {
            case Rejected(e) =>
              status := Err(e);
            case Label(user) =>
              clients := clients[id := Unbound(user)];
              status := Ok;
          }
        case Unsubscribe =>
          if id !in clients {
            status := Ok;
          } else {
            var entry := clients[id];
            clients := clients - {id};
            status := UnsubscribeClient(entry, topic);
          }
        case UnsubscribeAll =>
          status := NotifyAll(clients, ks, topic);
          if status.Ok? {
            clients := map[];
          }
        case Data =>
          status := ForwardData(id, msg.data, topic);
        case Other =>
          status := Ok;
      }
    }

    /** `monitor_clients`: reset every entry whose child exited, in place. */
    method MonitorClients(ks: seq<u16>, topic: Reactor) returns (status: Status)
      modifies this, topic`trace
      ensures var r := ReapEach(old(clients), ks, topic.env);
        clients == r.state && topic.trace == old(topic.trace) + r.effects && status == r.status
    {
      ghost var env := topic.env;
      ghost var whole := ReapEach(clients, ks, env);
      ghost var done: seq<Effect> := [];
      var i := 0;
      assert ks[0..] == ks;
      while i < |ks|
        invariant 0 <= i <= |ks| && topic.env == env
        invariant topic.trace == old(topic.trace) + done
        invariant whole.state == ReapEach(clients, ks[i..], env).state
        invariant whole.effects == done + ReapEach(clients, ks[i..], env).effects
        invariant whole.status == ReapEach(clients, ks[i..], env).status
      {
        var k := ks[i];
        assert ks[i..][0] == k && ks[i..][1..] == ks[i + 1..];
        if k in clients && clients[k].child.Some? {
          var cd := clients[k];
          var waited, exited := topic.TryWait(cd.child.value);
          if waited.Err? {
            assert done + [] == done;
            return waited;
          }
          if exited {
            ghost var next := ReapEach(clients[k := Unbound(cd.user)], ks[i + 1..], env);
            ghost var dropped := [UnregisterIO(cd.fd)];
            AppendAssoc(done, dropped, next.effects);
            AppendAssoc(old(topic.trace), done, dropped);
            status := topic.UnregisterIo(cd.fd);
            if status.Err? {
              assert done + [] == done;
              return;
            }
            clients := clients[k := cd.(fd := NoFd, child := None)];
            done := done + dropped;
          }
        }
        i := i + 1;
      }
      assert ks[i..] == [];
      assert done + [] == done;
      status := Ok;
    }

    /** The readiness part of `step_handle`. */
    method ForwardOutput(io: Option<IoEvent>, fd: Option<Fd>, ks: seq<u16>, topic: Reactor) returns (status: Status)
      modifies topic`trace
      ensures var r := OnReadable(clients, io, fd, ks, topic.env);
        topic.trace == old(topic.trace) + r.effects && status == r.status
    {
      if io.None? || fd.None? || !io.value.readable {
        return Ok;
      }
      status := ForwardAll(clients, ks, fd.value, topic);
    }

    /** `step_handle`. */
    method StepHandle(evt: Event, topic: Reactor) returns (status: Status, ghost ks1: seq<u16>, ghost ks2: seq<u16>)
      modifies this, topic`trace
      ensures IsEnumeration(ks1, old(clients).Keys)
      ensures IsEnumeration(ks2, Handled(old(clients), evt, ks1, topic.env).state.Keys)
      ensures var r := Step(old(clients), evt, ks1, ks2, topic.env);
        clients == r.state && topic.trace == old(topic.trace) + r.effects && status == r.status
    {
      ghost var env := topic.env;
      var order := KeyOrder(clients.Keys);
      ks1 := order;
      status := Ok;
      if evt.msg.Some? {
        status := HandleMessage(evt.msg.value, order, topic);
      } else {
        assert old(topic.trace) + [] == old(topic.trace);
      }
      ghost var h := Handled(old(clients), evt, ks1, env);
      assert clients == h.state && topic.trace == old(topic.trace) + h.effects && status == h.status;
      var after := KeyOrder(clients.Keys);
      ks2 := after;
      if status.Err? {
        return;
      }
      ghost var p := ReapEach(h.state, ks2, env);
      status := MonitorClients(after, topic);
      AppendAssoc(old(topic.trace), h.effects, p.effects);
      if status.Err? {
        return;
      }
      ghost var f := OnReadable(p.state, evt.io, evt.fd, ks2, env);
      status := ForwardOutput(evt.io, evt.fd, after, topic);
      AppendAssoc(old(topic.trace), h.effects + p.effects, f.effects);
    }
  }

  // ---------------------------------------------------------------------------
  // Properties

  /** No two entries with a child share a descriptor. */
  ghost predicate FdsDistinct(m: Clients)
  {
    forall a, b :: a in m && b in m && m[a].child.Some? && m[b].child.Some? && m[a].fd == m[b].fd ==> a == b
  }

  /** The monitor does not fail on `k`: its child, if any, can be waited for
      and, once exited, its descriptor can be unregistered. */
  predicate CanReap(m: Clients, k: u16, env: Env)
  {
    k in m && m[k].child.Some? ==>
      m[k].child.value !in env.waitFails && (m[k].child.value in env.exited ==> m[k].fd !in env.unregisterFails)
  }

  /** `Reset` restricted to the keys of `ks`. */
  function ResetAmong(m: Clients, ks: seq<u16>, env: Env): Clients
  {
    map k | k in m :: if k in ks && Exits(m, k, env) then Unbound(m[k].user) else m[k]
  }

  // Reaping

  /** The monitor keeps every key and every label, whether it succeeds or
      not: an entry is either left as it was or, when its child exited,
      reset to have no process. */
  lemma {:induction false} ReapEachKeeps(m: Clients, ks: seq<u16>, env: Env)
    ensures ReapEach(m, ks, env).state.Keys == m.Keys
    ensures forall k :: k in m ==>
      ReapEach(m, ks, env).state[k] == m[k] || (Exits(m, k, env) && ReapEach(m, ks, env).state[k] == Unbound(m[k].user))
    decreases |ks|
  {
    if ks != [] {
      var k := ks[0];
      if k !in m || m[k].child.None? || m[k].child.value in env.waitFails {
        ReapEachKeeps(m, ks[1..], env);
      } else if m[k].child.value !in env.exited {
        ReapEachKeeps(m, ks[1..], env);
      } else if Unregister(m[k].fd, env).status.Ok? {
        var m' := m[k := Unbound(m[k].user)];
        ReapEachKeeps(m', ks[1..], env);
        assert !Exits(m', k, env);
        assert forall j :: j in m && j != k ==> m'[j] == m[j] && (Exits(m', j, env) <==> Exits(m, j, env));
      }
    }
  }

  /** When the monitor fails: some child could not be waited for, or an
      exited child's descriptor could not be unregistered. */
  lemma {:induction false} ReapEachStatus(m: Clients, ks: seq<u16>, env: Env)
    requires NoDup(ks)
    ensures ReapEach(m, ks, env).status.Ok? <==> forall k :: k in ks ==> CanReap(m, k, env)
    decreases |ks|
  {
    if ks != [] {
      var k := ks[0];
      NoDupTail(ks);
      assert forall j :: j in ks <==> j == k || j in ks[1..];
      if k !in m || m[k].child.None? || m[k].child.value in env.waitFails {
        ReapEachStatus(m, ks[1..], env);
      } else if m[k].child.value !in env.exited {
        ReapEachStatus(m, ks[1..], env);
      } else if Unregister(m[k].fd, env).status.Ok? {
        var m' := m[k := Unbound(m[k].user)];
        ReapEachStatus(m', ks[1..], env);
        assert forall j :: j in ks[1..] ==> j != k;
        assert forall j :: j in ks[1..] ==> (CanReap(m', j, env) <==> CanReap(m, j, env));
      }
    }
  }

  /** The monitor only unregisters descriptors of exited children. */
  lemma {:induction false} ReapEachShape(m: Clients, ks: seq<u16>, env: Env)
    ensures forall e :: e in ReapEach(m, ks, env).effects ==> e.UnregisterIO? && e.fd in ExitedFds(m, env)
    decreases |ks|
  {
    if ks != [] {
      var k := ks[0];
      if k !in m || m[k].child.None? || m[k].child.value in env.waitFails {
        ReapEachShape(m, ks[1..], env);
      } else if m[k].child.value !in env.exited {
        ReapEachShape(m, ks[1..], env);
      } else {
        assert m[k].fd in ExitedFds(m, env);
        if Unregister(m[k].fd, env).status.Ok? {
          var m' := m[k := Unbound(m[k].user)];
          ReapEachShape(m', ks[1..], env);
          forall fd | fd in ExitedFds(m', env)
            ensures fd in ExitedFds(m, env)
          {
            var j :| Exits(m', j, env) && m'[j].fd == fd;
            assert j != k && m'[j] == m[j];
          }
        }
      }
    }
  }

  /** A successful monitor pass over a duplicate-free order resets exactly
      the entries of the order whose child exited. */
  lemma {:induction false} ReapEachResets(m: Clients, ks: seq<u16>, env: Env)
    requires NoDup(ks) && ReapEach(m, ks, env).status.Ok?
    ensures ReapEach(m, ks, env).state == ResetAmong(m, ks, env)
    decreases |ks|
  {
    if ks != [] {
      var k := ks[0];
      NoDupTail(ks);
      assert forall j :: j in ks <==> j == k || j in ks[1..];
      if k !in m || m[k].child.None? || m[k].child.value !in env.exited {
        ReapEachResets(m, ks[1..], env);
      } else {
        var m' := m[k := Unbound(m[k].user)];
        ReapEachResets(m', ks[1..], env);
        assert !Exits(m', k, env);
        assert forall j :: j in m && j != k ==> m'[j] == m[j] && (Exits(m', j, env) <==> Exits(m, j, env));
      }
    }
  }

  /** A successful monitor pass over a duplicate-free order unregisters a
      descriptor once per exited entry of the order bound to it. */
  lemma {:induction false} ReapEachUnregisters(m: Clients, ks: seq<u16>, env: Env, fd: Fd)
    requires NoDup(ks) && ReapEach(m, ks, env).status.Ok?
    ensures multiset(ReapEach(m, ks, env).effects)[UnregisterIO(fd)] == Count(ks, ReapsFd(m, env, fd))
    decreases |ks|
  {
    if ks != [] {
      var k := ks[0];
      NoDupTail(ks);
      if k !in m || m[k].child.None? || m[k].child.value !in env.exited {
        ReapEachUnregisters(m, ks[1..], env, fd);
      } else {
        var m' := m[k := Unbound(m[k].user)];
        var rest := ReapEach(m', ks[1..], env);
        ReapEachUnregisters(m', ks[1..], env, fd);
        assert forall j :: j in ks[1..] ==> j != k && (j in m ==> m'[j] == m[j]);
        CountSame(ks[1..], ReapsFd(m', env, fd), ReapsFd(m, env, fd));
        var here := [UnregisterIO(m[k].fd)];
        assert ReapEach(m, ks, env).effects == here + rest.effects;
        assert multiset(here)[UnregisterIO(fd)] == if ReapsFd(m, env, fd)(k) then 1 else 0;
      }
    }
  }

  /** `monitor_clients`: the keys and labels never change and every entry is
      either kept or, if its child exited, reset; when it succeeds exactly
      the entries whose child exited are reset, so that a later Data spawns
      again; it fails exactly when some child cannot be reaped. */
  lemma MonitorResets(m: Clients, ks: seq<u16>, env: Env)
    requires IsEnumeration(ks, m.Keys)
    ensures var r := ReapEach(m, ks, env);
      && r.state.Keys == m.Keys
      && (forall k :: k in m ==> r.state[k].user == m[k].user)
      && (forall k :: k in m && !Exits(m, k, env) ==> r.state[k] == m[k])
      && (r.status.Ok? <==> forall k :: k in m ==> CanReap(m, k, env))
      && (r.status.Ok? ==> r.state == Reset(m, env))
  {
    var r := ReapEach(m, ks, env);
    ReapEachKeeps(m, ks, env);
    ReapEachStatus(m, ks, env);
    if r.status.Ok? {
      ReapEachResets(m, ks, env);
      assert ResetAmong(m, ks, env) == Reset(m, env);
    }
  }

  /** `monitor_clients`: when it succeeds, and no two children share a
      descriptor, each exited child's descriptor is unregistered exactly
      once and no other; nothing is ever registered. */
  lemma MonitorUnregistersExited(m: Clients, ks: seq<u16>, env: Env)
    requires IsEnumeration(ks, m.Keys) && FdsDistinct(m)
    ensures var r := ReapEach(m, ks, env);
      && (forall fd :: multiset(r.effects)[RegisterIO(fd)] == 0)
      && (r.status.Ok? ==> forall fd :: multiset(r.effects)[UnregisterIO(fd)] == if fd in ExitedFds(m, env) then 1 else 0)
  {
    var r := ReapEach(m, ks, env);
    ReapEachShape(m, ks, env);
    forall fd
      ensures multiset(r.effects)[RegisterIO(fd)] == 0
    {
      assert RegisterIO(fd) !in r.effects;
    }
    if r.status.Ok? {
      forall fd
        ensures multiset(r.effects)[UnregisterIO(fd)] == if fd in ExitedFds(m, env) then 1 else 0
      {
        ReapEachUnregisters(m, ks, env, fd);
        CountAtMostOne(ks, ReapsFd(m, env, fd));
        if fd in ExitedFds(m, env) {
          var k :| Exits(m, k, env) && m[k].fd == fd;
          assert k in ks && ReapsFd(m, env, fd)(k);
        }
      }
    }
  }

  // UnsubscribeAll

  /** When the UnsubscribeAll loop fails: some client could not be told, or
      the descriptor of a child could not be unregistered. */
  lemma {:induction false} UnsubscribeEachStatus(m: Clients, ks: seq<u16>, env: Env)
    ensures UnsubscribeEach(m, ks, env).status.Ok? <==>
      forall k :: k in ks ==> k !in env.sendFails && (k in m && m[k].child.Some? ==> m[k].fd !in env.unregisterFails)
    decreases |ks|
  {
    if ks != [] {
      UnsubscribeEachStatus(m, ks[1..], env);
      assert forall j :: j in ks <==> j == ks[0] || j in ks[1..];
    }
  }

  /** The UnsubscribeAll loop only tells clients in `ks`, and unregisters and
      kills only for entries that have a child. */
  lemma {:induction false} UnsubscribeEachShape(m: Clients, ks: seq<u16>, env: Env)
    ensures forall e :: e in UnsubscribeEach(m, ks, env).effects ==>
      || (e.Send? && e.kind == Unsubscribe && e.id in ks && e.bytes == [])
      || (e.UnregisterIO? && e.fd in BoundFds(m))
      || (e.Kill? && exists k :: OwnsChild(m, e.pid)(k))
    decreases |ks|
  {
    if ks != [] {
      UnsubscribeEachShape(m, ks[1..], env);
      var k := ks[0];
      if k in m && m[k].child.Some? {
        assert m[k].fd in BoundFds(m);
        assert OwnsChild(m, m[k].child.value)(k);
      }
    }
  }

  /** The effects of a successful turn of the UnsubscribeAll loop. */
  lemma NoticeEffects(m: Clients, k: u16, env: Env)
    requires (if k in m then Notice(k, m[k], env) else Emit(Unsubscribe, k, [], env)).status.Ok?
    ensures (if k in m then Notice(k, m[k], env) else Emit(Unsubscribe, k, [], env)).effects ==
      [Send(Unsubscribe, k, [])] + (if k in m && m[k].child.Some? then [UnregisterIO(m[k].fd), Kill(m[k].child.value)] else [])
  {
  }

  /** A successful UnsubscribeAll loop tells each key of `ks` once. */
  lemma {:induction false} UnsubscribeEachNotices(m: Clients, ks: seq<u16>, env: Env, id: u16)
    requires UnsubscribeEach(m, ks, env).status.Ok?
    ensures multiset(UnsubscribeEach(m, ks, env).effects)[Send(Unsubscribe, id, [])] == Count(ks, Is(id))
    decreases |ks|
  {
    if ks != [] {
      var k := ks[0];
      var here := if k in m then Notice(k, m[k], env) else Emit(Unsubscribe, k, [], env);
      var rest := UnsubscribeEach(m, ks[1..], env);
      NoticeEffects(m, k, env);
      UnsubscribeEachNotices(m, ks[1..], env, id);
      assert UnsubscribeEach(m, ks, env).effects == here.effects + rest.effects;
      assert multiset(here.effects)[Send(Unsubscribe, id, [])] == if k == id then 1 else 0;
    }
  }

  /** A successful UnsubscribeAll loop unregisters a descriptor once per
      entry of `ks` whose child owns it, and registers nothing. */
  lemma {:induction false} UnsubscribeEachUnregisters(m: Clients, ks: seq<u16>, env: Env, fd: Fd)
    requires UnsubscribeEach(m, ks, env).status.Ok?
    ensures multiset(UnsubscribeEach(m, ks, env).effects)[UnregisterIO(fd)] == Count(ks, OwnsFd(m, fd))
    ensures multiset(UnsubscribeEach(m, ks, env).effects)[RegisterIO(fd)] == 0
    decreases |ks|
  {
    if ks != [] {
      var k := ks[0];
      var here := if k in m then Notice(k, m[k], env) else Emit(Unsubscribe, k, [], env);
      var rest := UnsubscribeEach(m, ks[1..], env);
      NoticeEffects(m, k, env);
      UnsubscribeEachUnregisters(m, ks[1..], env, fd);
      assert UnsubscribeEach(m, ks, env).effects == here.effects + rest.effects;
      assert multiset(here.effects)[UnregisterIO(fd)] == if BoundTo(m, k, fd) then 1 else 0;
      assert multiset(here.effects)[RegisterIO(fd)] == 0;
    }
  }

  /** A successful UnsubscribeAll loop kills a child once per entry of `ks`
      owning it. */
  lemma {:induction false} UnsubscribeEachKills(m: Clients, ks: seq<u16>, env: Env, pid: Pid)
    requires UnsubscribeEach(m, ks, env).status.Ok?
    ensures multiset(UnsubscribeEach(m, ks, env).effects)[Kill(pid)] == Count(ks, OwnsChild(m, pid))
    decreases |ks|
  {
    if ks != [] {
      var k := ks[0];
      var here := if k in m then Notice(k, m[k], env) else Emit(Unsubscribe, k, [], env);
      var rest := UnsubscribeEach(m, ks[1..], env);
      NoticeEffects(m, k, env);
      UnsubscribeEachKills(m, ks[1..], env, pid);
      assert UnsubscribeEach(m, ks, env).effects == here.effects + rest.effects;
      assert multiset(here.effects)[Kill(pid)] == if OwnsChild(m, pid)(k) then 1 else 0;
    }
  }

  /** UnsubscribeAll: when it succeeds every subscribed client is told
      exactly once, whether it has a process or not, and the registry ends
      empty; when it fails the registry is left as it was. */
  lemma UnsubscribeAllNotifiesEach(m: Clients, msg: Msg, ks: seq<u16>, env: Env)
    requires msg.kind == UnsubscribeAll && IsEnumeration(ks, m.Keys)
    ensures var r := OnMessage(m, msg, ks, env);
      && (r.status.Err? ==> r.state == m)
      && (r.status.Ok? ==> r.state == map[])
      && (r.status.Ok? ==> forall id :: multiset(r.effects)[Send(Unsubscribe, id, [])] == if id in m then 1 else 0)
  {
    var r := OnMessage(m, msg, ks, env);
    if r.status.Ok? {
      forall id
        ensures multiset(r.effects)[Send(Unsubscribe, id, [])] == if id in m then 1 else 0
      {
        UnsubscribeEachNotices(m, ks, env, id);
        CountIs(ks, id);
      }
    }
  }

  /** UnsubscribeAll: kills and unregistrations only concern entries with a
      child; when it succeeds every child is killed and nothing is
      registered. */
  lemma UnsubscribeAllKillsEach(m: Clients, msg: Msg, ks: seq<u16>, env: Env)
    requires msg.kind == UnsubscribeAll && IsEnumeration(ks, m.Keys)
    ensures var r := OnMessage(m, msg, ks, env);
      && (forall e :: e in r.effects && e.Kill? ==> exists k :: OwnsChild(m, e.pid)(k))
      && (forall e :: e in r.effects && e.UnregisterIO? ==> e.fd in BoundFds(m))
      && (r.status.Ok? ==> forall k :: k in m && m[k].child.Some? ==> Kill(m[k].child.value) in r.effects)
      && (forall fd :: r.status.Ok? ==> multiset(r.effects)[RegisterIO(fd)] == 0)
  {
    var r := OnMessage(m, msg, ks, env);
    UnsubscribeEachShape(m, ks, env);
    if r.status.Ok? {
      forall k | k in m && m[k].child.Some?
        ensures Kill(m[k].child.value) in r.effects
      {
        UnsubscribeEachKills(m, ks, env, m[k].child.value);
        CountPositive(ks, OwnsChild(m, m[k].child.value), k);
      }
      forall fd
        ensures multiset(r.effects)[RegisterIO(fd)] == 0
      {
        UnsubscribeEachUnregisters(m, ks, env, fd);
      }
    }
  }

  /** UnsubscribeAll: when it succeeds, and no two children share a
      descriptor, every descriptor of a child is unregistered exactly once
      and no other. */
  lemma UnsubscribeAllUnregistersEach(m: Clients, msg: Msg, ks: seq<u16>, env: Env)
    requires msg.kind == UnsubscribeAll && IsEnumeration(ks, m.Keys) && FdsDistinct(m)
    ensures var r := OnMessage(m, msg, ks, env);
      r.status.Ok? ==> forall fd :: multiset(r.effects)[UnregisterIO(fd)] == if fd in BoundFds(m) then 1 else 0
  {
    var r := OnMessage(m, msg, ks, env);
    if r.status.Ok? {
      forall fd
        ensures multiset(r.effects)[UnregisterIO(fd)] == if fd in BoundFds(m) then 1 else 0
      {
        UnsubscribeEachUnregisters(m, ks, env, fd);
        CountAtMostOne(ks, OwnsFd(m, fd));
        if fd in BoundFds(m) {
          var k :| k in m && m[k].child.Some? && m[k].fd == fd;
          assert k in ks && OwnsFd(m, fd)(k);
        }
      }
    }
  }

  // Message transitions

  /** Subscribe decodes the label from the payload without its last byte and
      stores an entry with no process under the id, whatever was there; a
      payload too short or not UTF-8 aborts with the registry unchanged.
      Subscribe makes no reactor call. */
  lemma SubscribeDecodesLabel(m: Clients, msg: Msg, ks: seq<u16>, env: Env)
    requires msg.kind == Subscribe
    ensures var r := OnMessage(m, msg, ks, env);
      && r.effects == []
      && (r.status.Ok? <==> 1 <= msg.size <= |msg.data| + 1 && Utf8.Decode(msg.data[..msg.size - 1]).Some?)
      && (r.status.Err? ==> r.state == m && (r.status.error == Panic || r.status.error == DecodeError))
      && (r.status.Ok? ==>
            var user := Utf8.Decode(msg.data[..msg.size - 1]).value;
            && r.state == m[msg.clientId := ClientData(NoFd, None, user)]
            && Utf8.Encode(user) == msg.data[..msg.size - 1])
  {
    var r := OnMessage(m, msg, ks, env);
    if r.status.Ok? {
      Utf8.EncodeDecode(msg.data[..msg.size - 1]);
    }
  }

  /** Unsubscribe of an absent id changes nothing; of a present id it removes
      the key and, only when the entry has a child, unregisters its
      descriptor then kills it. Only an unregister failure aborts. */
  lemma UnsubscribeTearsDown(m: Clients, msg: Msg, ks: seq<u16>, env: Env)
    requires msg.kind == Unsubscribe
    ensures var r := OnMessage(m, msg, ks, env);
      var id := msg.clientId;
      && (id !in m ==> r == Outcome(m, [], Ok))
      && (id in m ==> r.state == m - {id})
      && (id in m && m[id].child.None? ==> r.effects == [] && r.status == Ok)
      && (id in m && m[id].child.Some? ==> (r.status.Ok? <==> m[id].fd !in env.unregisterFails))
      && (id in m && m[id].child.Some? && r.status.Ok? ==>
            r.effects == [UnregisterIO(m[id].fd), Kill(m[id].child.value)])
      && (r.status.Err? ==> r.effects == [] && r.status == Err(UnregisterError))
  {
  }

  /** Data for an id that is not subscribed is ignored: the step goes on as
      if the event carried no message. */
  lemma DataUnknownIgnored(m: Clients, evt: Event, ks1: seq<u16>, ks2: seq<u16>, env: Env)
    requires evt.msg.Some? && evt.msg.value.kind == Data && evt.msg.value.clientId !in m
    ensures Step(m, evt, ks1, ks2, env) == Step(m, evt.(msg := None), ks1, ks2, env)
  {
  }

  /** The spawn environment names the client: `CUSER` is its label and `CID`
      its id in one to five decimal digits, which parse back to the id. */
  lemma SpawnVarsIdentify(user: string, id: u16)
    ensures var vars := SpawnVars(user, id);
      && |vars| == 2 && vars[0] == ("CUSER", user) && vars[1].0 == "CID"
      && Decimal.Parse(vars[1].1) == Some(id as nat)
      && 1 <= |vars[1].1| <= 5
  {
    Decimal.ParseRender(id as nat);
    Decimal.RenderWidth(id);
  }

  /** The first Data for an entry without a process: on success one child is
      spawned with the entry's label and id in its environment, its stdout
      registered once, the entry updated with both the descriptor and the
      child, and then the payload written. On failure nothing is written;
      when the spawn or the registration failed the registry is unchanged. */
  lemma DataSpawnsWithIdentity(m: Clients, msg: Msg, ks: seq<u16>, env: Env)
    requires msg.kind == Data && msg.clientId in m && m[msg.clientId].child.None?
    ensures var r := OnMessage(m, msg, ks, env);
      var id := msg.clientId;
      && (r.status.Ok? ==> env.spawn.Some?)
      && (r.status.Ok? ==>
            r.state == m[id := ClientData(env.spawn.value.fd, Some(env.spawn.value.pid), m[id].user)])
      && (r.status.Ok? ==>
            r.effects == [Spawn(env.spawn.value.pid, env.spawn.value.fd, SpawnVars(m[id].user, id)),
                          RegisterIO(env.spawn.value.fd), WriteStdin(env.spawn.value.pid, msg.data)])
      && (r.status.Err? ==> forall e :: e in r.effects ==> !e.WriteStdin?)
      && (r.status.Err? && (env.spawn.None? || env.spawn.value.fd in env.registerFails) ==>
            r.state == m && forall e :: e in r.effects ==> e.Spawn?)
      && (env.spawn.Some? && env.spawn.value.fd !in env.registerFails && env.spawn.value.pid in env.stdinFails ==>
            && r.state == m[id := ClientData(env.spawn.value.fd, Some(env.spawn.value.pid), m[id].user)]
            && r.effects == [Spawn(env.spawn.value.pid, env.spawn.value.fd, SpawnVars(m[id].user, id)),
                             RegisterIO(env.spawn.value.fd)]
            && r.status == Err(WriteError))
  {
  }

  /** Data for an entry with a child only feeds that child: no spawn, no
      registration, and the registry is unchanged; the step fails exactly
      when the write fails. */
  lemma DataReusesChild(m: Clients, msg: Msg, ks: seq<u16>, env: Env)
    requires msg.kind == Data && msg.clientId in m && m[msg.clientId].child.Some?
    ensures var r := OnMessage(m, msg, ks, env);
      var c := m[msg.clientId].child.value;
      && r.state == m
      && (r.status.Ok? <==> c !in env.stdinFails)
      && (r.status.Ok? ==> r.effects == [WriteStdin(c, msg.data)])
      && (r.status.Err? ==> r.effects == [] && r.status == Err(WriteError))
  {
  }

  /** Every message transition keeps the field invariant: a child is present
      exactly when the descriptor is set. */
  lemma MessageKeepsWellFormed(m: Clients, msg: Msg, ks: seq<u16>, env: Env)
    requires AllWellFormed(m)
    ensures AllWellFormed(OnMessage(m, msg, ks, env).state)
  {
  }

  /** Every step, successful or not, keeps the field invariant. */
  lemma StepKeepsWellFormed(m: Clients, evt: Event, ks1: seq<u16>, ks2: seq<u16>, env: Env)
    requires AllWellFormed(m)
    ensures AllWellFormed(Step(m, evt, ks1, ks2, env).state)
  {
    var h := Handled(m, evt, ks1, env);
    if evt.msg.Some? {
      MessageKeepsWellFormed(m, evt.msg.value, ks1, env);
    }
    ReapEachKeeps(h.state, ks2, env);
  }

  // Readiness

  /** The readiness loop only sends Data messages, each tagged with a key of
      `ks` whose entry has a child and owns the ready descriptor, carrying the
      bytes of the read, so at most `BufSize` bytes. */
  lemma {:induction false} ForwardEachShape(m: Clients, ks: seq<u16>, fd: Fd, env: Env)
    ensures forall e :: e in ForwardEach(m, ks, fd, env).effects ==>
      e.Send? && e.kind == Data && e.id in ks && BoundTo(m, e.id, fd)
      && Read(env, fd) == Some(e.bytes) && |e.bytes| <= BufSize
    decreases |ks|
  {
    if ks != [] {
      ForwardEachShape(m, ks[1..], fd, env);
    }
  }

  /** When the readiness loop fails: a read from the ready descriptor failed,
      or a client owning it could not be sent to. */
  lemma {:induction false} ForwardEachStatus(m: Clients, ks: seq<u16>, fd: Fd, env: Env)
    ensures ForwardEach(m, ks, fd, env).status.Ok? <==>
      forall k :: k in ks && BoundTo(m, k, fd) ==> fd !in env.readFails && k !in env.sendFails
    decreases |ks|
  {
    if ks != [] {
      ForwardEachStatus(m, ks[1..], fd, env);
      assert forall j :: j in ks <==> j == ks[0] || j in ks[1..];
    }
  }

  /** A successful readiness loop over a duplicate-free order sends the read
      bytes exactly once to every client in the order that owns the
      descriptor. */
  lemma {:induction false} ForwardEachDelivers(m: Clients, ks: seq<u16>, fd: Fd, env: Env, id: u16)
    requires ForwardEach(m, ks, fd, env).status.Ok? && NoDup(ks)
    requires id in ks && BoundTo(m, id, fd)
    ensures Read(env, fd).Some?
    ensures multiset(ForwardEach(m, ks, fd, env).effects)[Send(Data, id, Read(env, fd).value)] == 1
    decreases |ks|
  {
    var k := ks[0];
    var rest := ForwardEach(m, ks[1..], fd, env);
    NoDupTail(ks);
    if k == id {
      ForwardEachShape(m, ks[1..], fd, env);
      assert Send(Data, id, Read(env, fd).value) !in rest.effects;
      assert ForwardEach(m, ks, fd, env).effects == [Send(Data, id, Read(env, fd).value)] + rest.effects;
    } else {
      assert id in ks[1..];
      ForwardEachDelivers(m, ks[1..], fd, env, id);
      var here := if BoundTo(m, k, fd) then ForwardTo(k, fd, env) else Run([], Ok);
      assert ForwardEach(m, ks, fd, env).effects == here.effects + rest.effects;
      assert multiset(here.effects)[Send(Data, id, Read(env, fd).value)] == 0;
    }
  }

  /** Readiness: nothing happens without an event, without a descriptor or for
      an event that is not readable; otherwise exactly the entries with a
      child whose descriptor is the ready one are sent the bytes read, once
      each when it succeeds, at most `BufSize` bytes. */
  lemma ReadinessRoutesToOwners(m: Clients, io: Option<IoEvent>, fd: Option<Fd>, ks: seq<u16>, env: Env)
    requires IsEnumeration(ks, m.Keys)
    ensures var r := OnReadable(m, io, fd, ks, env);
      && (io.None? || fd.None? || !io.value.readable ==> r == Run([], Ok))
      && (forall e :: e in r.effects ==>
            e.Send? && e.kind == Data && BoundTo(m, e.id, fd.value) && |e.bytes| <= BufSize)
      && (r.status.Ok? && io.Some? && fd.Some? && io.value.readable ==>
            forall k :: BoundTo(m, k, fd.value) ==>
              Read(env, fd.value).Some? && multiset(r.effects)[Send(Data, k, Read(env, fd.value).value)] == 1)
  {
    if io.Some? && fd.Some? && io.value.readable {
      ForwardEachShape(m, ks, fd.value, env);
      forall k | BoundTo(m, k, fd.value) && OnReadable(m, io, fd, ks, env).status.Ok?
        ensures Read(env, fd.value).Some?
        ensures multiset(OnReadable(m, io, fd, ks, env).effects)[Send(Data, k, Read(env, fd.value).value)] == 1
      {
        ForwardEachDelivers(m, ks, fd.value, env, k);
      }
    }
  }

  // The whole step

  /** The only messages a message transition sends are empty Unsubscribe
      notices. */
  lemma MessageSendsOnlyNotices(m: Clients, msg: Msg, ks: seq<u16>, env: Env)
    ensures forall e :: e in OnMessage(m, msg, ks, env).effects && e.Send? ==> e.kind == Unsubscribe && e.bytes == []
  {
    if msg.kind == UnsubscribeAll {
      UnsubscribeEachShape(m, ks, env);
    }
  }

  /** Every outbound message of a step carries at most `BufSize` bytes. */
  lemma StepPayloadsBounded(m: Clients, evt: Event, ks1: seq<u16>, ks2: seq<u16>, env: Env)
    ensures forall e :: e in Step(m, evt, ks1, ks2, env).effects && e.Send? ==> |e.bytes| <= BufSize
  {
    var h := Handled(m, evt, ks1, env);
    if evt.msg.Some? {
      MessageSendsOnlyNotices(m, evt.msg.value, ks1, env);
    }
    if h.status.Ok? {
      var p := ReapEach(h.state, ks2, env);
      ReapEachShape(h.state, ks2, env);
      if p.status.Ok? && evt.io.Some? && evt.fd.Some? && evt.io.value.readable {
        ForwardEachShape(p.state, ks2, evt.fd.value, env);
      }
    }
  }

  /** Readiness runs after `monitor_clients`: an entry whose child exited
      before the step's monitor pass is never read in that step. */
  lemma ReapedNeverRead(m: Clients, evt: Event, ks1: seq<u16>, ks2: seq<u16>, env: Env, k: u16)
    requires IsEnumeration(ks2, Handled(m, evt, ks1, env).state.Keys)
    requires Exits(Handled(m, evt, ks1, env).state, k, env)
    ensures forall b :: Send(Data, k, b) !in Step(m, evt, ks1, ks2, env).effects
  {
    var h := Handled(m, evt, ks1, env);
    if evt.msg.Some? {
      MessageSendsOnlyNotices(m, evt.msg.value, ks1, env);
    }
    if h.status.Ok? {
      var p := ReapEach(h.state, ks2, env);
      ReapEachShape(h.state, ks2, env);
      MonitorResets(h.state, ks2, env);
      if p.status.Ok? && evt.io.Some? && evt.fd.Some? && evt.io.value.readable {
        assert p.state[k].child.None?;
        ForwardEachShape(p.state, ks2, evt.fd.value, env);
      }
    }
  }

  // Balance of descriptor registrations

  /** Every descriptor of a child is registered exactly once in the trace
      `t`, and no other descriptor is registered. */
  ghost predicate Balanced(m: Clients, t: seq<Effect>)
  {
    FdsDistinct(m) && forall fd :: Balance(t, fd) == if fd in BoundFds(m) then 1 else 0
  }

  /** A Subscribe that would overwrite an entry with a child. */
  predicate Rebinds(m: Clients, evt: Event)
  {
    evt.msg.Some? && evt.msg.value.kind == Subscribe && evt.msg.value.clientId in m && m[evt.msg.value.clientId].child.Some?
  }

  lemma BoundFdsRemove(m: Clients, id: u16)
    requires FdsDistinct(m) && id in m
    ensures FdsDistinct(m - {id})
    ensures BoundFds(m - {id}) == BoundFds(m) - (if m[id].child.Some? then {m[id].fd} else {})
  {
    var gone := if m[id].child.Some? then {m[id].fd} else {};
    forall fd | fd in BoundFds(m) - gone
      ensures fd in BoundFds(m - {id})
    {
      var k :| k in m && m[k].child.Some? && m[k].fd == fd;
      assert k != id;
      assert k in m - {id};
    }
  }

  /** Storing an entry without a child where there was none with a child
      changes no bound descriptor. */
  lemma BoundFdsUnbound(m: Clients, id: u16, user: string)
    requires FdsDistinct(m) && (id !in m || m[id].child.None?)
    ensures FdsDistinct(m[id := Unbound(user)])
    ensures BoundFds(m[id := Unbound(user)]) == BoundFds(m)
  {
    var m' := m[id := Unbound(user)];
    forall fd | fd in BoundFds(m)
      ensures fd in BoundFds(m')
    {
      var k :| k in m && m[k].child.Some? && m[k].fd == fd;
      assert k != id && m'[k] == m[k];
    }
    forall fd | fd in BoundFds(m')
      ensures fd in BoundFds(m)
    {
      var k :| k in m' && m'[k].child.Some? && m'[k].fd == fd;
      assert k != id && m'[k] == m[k];
    }
  }

  lemma BoundFdsBind(m: Clients, id: u16, fd: Fd, pid: Pid)
    requires FdsDistinct(m) && id in m && m[id].child.None? && fd !in BoundFds(m)
    ensures FdsDistinct(m[id := ClientData(fd, Some(pid), m[id].user)])
    ensures BoundFds(m[id := ClientData(fd, Some(pid), m[id].user)]) == BoundFds(m) + {fd}
  {
    var m' := m[id := ClientData(fd, Some(pid), m[id].user)];
    assert fd in BoundFds(m') by {
      assert m'[id].child.Some? && m'[id].fd == fd;
    }
    forall d | d in BoundFds(m)
      ensures d in BoundFds(m')
    {
      var k :| k in m && m[k].child.Some? && m[k].fd == d;
      assert k in m' && m'[k] == m[k];
    }
    forall a, b | a in m' && b in m' && m'[a].child.Some? && m'[b].child.Some? && m'[a].fd == m'[b].fd
      ensures a == b
    {
      if a != id && b != id {
        assert m'[a] == m[a] && m'[b] == m[b];
      }
    }
  }

  /** Subscribe of an id without a child keeps the balance. */
  lemma SubscribeKeepsBalanced(m: Clients, t: seq<Effect>, msg: Msg, ks: seq<u16>, env: Env)
    requires Balanced(m, t) && msg.kind == Subscribe
    requires msg.clientId !in m || m[msg.clientId].child.None?
    ensures var r := OnMessage(m, msg, ks, env); Balanced(r.state, t + r.effects)
  {
    assert t + [] == t;
    match Label.PeerLabel(msg.data, msg.size)
    case Rejected(e) =>
    case Label(user) => BoundFdsUnbound(m, msg.clientId, user);
  }

  /** Unsubscribe keeps the balance when it succeeds. */
  lemma UnsubscribeKeepsBalanced(m: Clients, t: seq<Effect>, msg: Msg, ks: seq<u16>, env: Env)
    requires Balanced(m, t) && msg.kind == Unsubscribe
    ensures var r := OnMessage(m, msg, ks, env); r.status.Ok? ==> Balanced(r.state, t + r.effects)
  {
    var id := msg.clientId;
    var r := OnMessage(m, msg, ks, env);
    if r.status.Ok? {
      if id !in m {
        assert t + [] == t;
      } else {
        BoundFdsRemove(m, id);
        forall fd
          ensures Balance(t + r.effects, fd) == if fd in BoundFds(r.state) then 1 else 0
        {
          BalanceAppend(t, r.effects, fd);
        }
      }
    }
  }

  /** UnsubscribeAll keeps the balance when it succeeds: every descriptor of
      a child is unregistered and the registry ends empty. */
  lemma UnsubscribeAllKeepsBalanced(m: Clients, t: seq<Effect>, msg: Msg, ks: seq<u16>, env: Env)
    requires Balanced(m, t) && msg.kind == UnsubscribeAll && IsEnumeration(ks, m.Keys)
    ensures var r := OnMessage(m, msg, ks, env); r.status.Ok? ==> Balanced(r.state, t + r.effects)
  {
    var r := OnMessage(m, msg, ks, env);
    if r.status.Ok? {
      UnsubscribeAllNotifiesEach(m, msg, ks, env);
      UnsubscribeAllKillsEach(m, msg, ks, env);
      UnsubscribeAllUnregistersEach(m, msg, ks, env);
      forall fd
        ensures Balance(t + r.effects, fd) == 0
      {
        BalanceAppend(t, r.effects, fd);
      }
    }
  }

  /** The first Data for an entry without a process keeps the balance when
      it succeeds, provided the new descriptor is not already registered. */
  lemma SpawnKeepsBalanced(m: Clients, t: seq<Effect>, id: u16, data: seq<byte>, env: Env)
    requires Balanced(m, t) && id in m && m[id].child.None?
    requires env.spawn.Some? ==> Balance(t, env.spawn.value.fd) == 0
    ensures var r := OnData(m, id, data, env); r.status.Ok? ==> Balanced(r.state, t + r.effects)
  {
    var r := OnData(m, id, data, env);
    if r.status.Ok? {
      var p := env.spawn.value;
      BoundFdsBind(m, id, p.fd, p.pid);
      assert r.effects == [Spawn(p.pid, p.fd, SpawnVars(m[id].user, id)), RegisterIO(p.fd), WriteStdin(p.pid, data)];
      forall fd
        ensures Balance(t + r.effects, fd) == if fd in BoundFds(r.state) then 1 else 0
      {
        BalanceAppend(t, r.effects, fd);
        BalanceOfStart(p.pid, p.fd, SpawnVars(m[id].user, id), data, fd);
      }
    }
  }

  /** Data keeps the balance when it succeeds, provided the descriptor of a
      newly spawned child is not already registered. */
  lemma DataKeepsBalanced(m: Clients, t: seq<Effect>, id: u16, data: seq<byte>, env: Env)
    requires Balanced(m, t)
    requires env.spawn.Some? ==> Balance(t, env.spawn.value.fd) == 0
    ensures var r := OnData(m, id, data, env); r.status.Ok? ==> Balanced(r.state, t + r.effects)
  {
    var r := OnData(m, id, data, env);
    if id in m && m[id].child.None? {
      SpawnKeepsBalanced(m, t, id, data, env);
    } else if r.status.Ok? {
      assert r.state == m;
      forall fd
        ensures Balance(t + r.effects, fd) == Balance(t, fd)
      {
        assert RegisterIO(fd) !in r.effects && UnregisterIO(fd) !in r.effects;
        BalanceAppend(t, r.effects, fd);
      }
    }
  }

  /** Every message transition except a re-subscribe of an entry with a child
      keeps the balance when it succeeds. */
  lemma MessageKeepsBalanced(m: Clients, t: seq<Effect>, msg: Msg, ks: seq<u16>, env: Env)
    requires Balanced(m, t) && IsEnumeration(ks, m.Keys)
    requires !(msg.kind == Subscribe && msg.clientId in m && m[msg.clientId].child.Some?)
    requires env.spawn.Some? ==> Balance(t, env.spawn.value.fd) == 0
    ensures var r := OnMessage(m, msg, ks, env); r.status.Ok? ==> Balanced(r.state, t + r.effects)
  {
    match msg.kind
    case Subscribe => SubscribeKeepsBalanced(m, t, msg, ks, env);
    case Unsubscribe => UnsubscribeKeepsBalanced(m, t, msg, ks, env);
    case UnsubscribeAll => UnsubscribeAllKeepsBalanced(m, t, msg, ks, env);
    case Data => DataKeepsBalanced(m, t, msg.clientId, msg.data, env);
    case Other => assert t + [] == t;
  }

  lemma BoundFdsReset(m: Clients, env: Env)
    requires FdsDistinct(m)
    ensures FdsDistinct(Reset(m, env))
    ensures BoundFds(Reset(m, env)) == BoundFds(m) - ExitedFds(m, env)
  {
    var r := Reset(m, env);
    forall fd | fd in BoundFds(m) - ExitedFds(m, env)
      ensures fd in BoundFds(r)
    {
      var k :| k in m && m[k].child.Some? && m[k].fd == fd;
      assert !Exits(m, k, env);
      assert r[k] == m[k];
    }
    forall fd | fd in BoundFds(r)
      ensures fd in BoundFds(m) - ExitedFds(m, env)
    {
      var k :| k in r && r[k].child.Some? && r[k].fd == fd;
      assert r[k] == m[k];
    }
  }

  /** A successful monitor pass keeps the balance: the descriptors it
      unregisters are exactly those of the entries it resets. */
  lemma MonitorKeepsBalanced(m: Clients, t: seq<Effect>, ks: seq<u16>, env: Env)
    requires Balanced(m, t) && IsEnumeration(ks, m.Keys)
    ensures var r := ReapEach(m, ks, env); r.status.Ok? ==> Balanced(r.state, t + r.effects)
  {
    var r := ReapEach(m, ks, env);
    if r.status.Ok? {
      MonitorResets(m, ks, env);
      MonitorUnregistersExited(m, ks, env);
      BoundFdsReset(m, env);
      forall fd
        ensures Balance(t + r.effects, fd) == if fd in BoundFds(r.state) then 1 else 0
      {
        BalanceAppend(t, r.effects, fd);
      }
    }
  }

  /** Readiness neither registers nor unregisters anything. */
  lemma ReadinessKeepsBalance(m: Clients, io: Option<IoEvent>, fd: Option<Fd>, ks: seq<u16>, env: Env, t: seq<Effect>, d: Fd)
    ensures Balance(t + OnReadable(m, io, fd, ks, env).effects, d) == Balance(t, d)
  {
    var r := OnReadable(m, io, fd, ks, env);
    if io.Some? && fd.Some? && io.value.readable {
      ForwardEachShape(m, ks, fd.value, env);
    }
    assert RegisterIO(d) !in r.effects && UnregisterIO(d) !in r.effects;
    BalanceAppend(t, r.effects, d);
  }

  /** A successful step keeps every descriptor of a child registered exactly
      once and no other, provided the step is not a re-subscribe of an entry
      with a child and the OS hands out a descriptor that is not registered. */
  lemma StepKeepsBalanced(m: Clients, t: seq<Effect>, evt: Event, ks1: seq<u16>, ks2: seq<u16>, env: Env)
    requires Balanced(m, t) && !Rebinds(m, evt)
    requires IsEnumeration(ks1, m.Keys) && IsEnumeration(ks2, Handled(m, evt, ks1, env).state.Keys)
    requires env.spawn.Some? ==> Balance(t, env.spawn.value.fd) == 0
    ensures var r := Step(m, evt, ks1, ks2, env); r.status.Ok? ==> Balanced(r.state, t + r.effects)
  {
    var r := Step(m, evt, ks1, ks2, env);
    if r.status.Ok? {
      var h := Handled(m, evt, ks1, env);
      if evt.msg.Some? {
        MessageKeepsBalanced(m, t, evt.msg.value, ks1, env);
      } else {
        assert t + [] == t;
      }
      var t1 := t + h.effects;
      var p := ReapEach(h.state, ks2, env);
      MonitorKeepsBalanced(h.state, t1, ks2, env);
      var t2 := t1 + p.effects;
      var f := OnReadable(p.state, evt.io, evt.fd, ks2, env);
      AppendAssoc(t, h.effects, p.effects);
      AppendAssoc(t, h.effects + p.effects, f.effects);
      assert t + r.effects == t2 + f.effects;
      forall d
        ensures Balance(t + r.effects, d) == if d in BoundFds(r.state) then 1 else 0
      {
        ReadinessKeepsBalance(p.state, evt.io, evt.fd, ks2, env, t2, d);
      }
    }
  }

  /** A Subscribe that decodes, for an id whose entry has a child, replaces the
      entry with no reactor call: the descriptor stays registered while no
      entry owns it, and the child is neither killed nor tracked, so the
      balance is lost. */
  lemma ResubscribeLeaks(m: Clients, t: seq<Effect>, msg: Msg, ks: seq<u16>, env: Env)
    requires Balanced(m, t) && msg.kind == Subscribe && msg.clientId in m && m[msg.clientId].child.Some?
    requires Label.PeerLabel(msg.data, msg.size).Label?
    ensures var r := OnMessage(m, msg, ks, env);
      var fd := m[msg.clientId].fd;
      && r.status.Ok? && r.effects == []
      && Balance(t + r.effects, fd) == 1
      && fd !in BoundFds(r.state)
      && !Balanced(r.state, t + r.effects)
  {
    var id := msg.clientId;
    var fd := m[id].fd;
    var r := OnMessage(m, msg, ks, env);
    assert fd in BoundFds(m);
    assert t + [] == t;
  }

  // A client's life

  /** With no child exited and none failing to be waited for, the monitor
      does nothing. */
  lemma {:induction false} QuietReap(m: Clients, ks: seq<u16>, env: Env)
    requires env.exited == {} && env.waitFails == {}
    ensures ReapEach(m, ks, env) == Outcome(m, [], Ok)
    decreases |ks|
  {
    if ks != [] {
      QuietReap(m, ks[1..], env);
    }
  }

  /** Subscribe with label `user`, one Data, then Unsubscribe for one id, in
      three steps without readiness events and with no process exiting:
      exactly one child is spawned with `user` and the id in its environment,
      its stdout registered, the payload written, then the descriptor
      unregistered and the child killed, in that order, and the registry
      ends without the id. */
  lemma SubscribeDataUnsubscribe(m: Clients, id: u16, user: string, data: seq<byte>, ks: seq<u16>, env: Env)
    requires env.exited == {} && env.waitFails == {}
    requires env.spawn.Some? && env.spawn.value.fd !in env.registerFails && env.spawn.value.fd !in env.unregisterFails
    requires env.spawn.value.pid !in env.stdinFails
    ensures var p := env.spawn.value;
      var hello := Utf8.Encode(user) + [0];
      var s1 := Step(m, Event(Some(Msg(Subscribe, id, |hello|, hello)), None, None), ks, ks, env);
      var s2 := Step(s1.state, Event(Some(Msg(Data, id, |data|, data)), None, None), ks, ks, env);
      var s3 := Step(s2.state, Event(Some(Msg(Unsubscribe, id, 0, [])), None, None), ks, ks, env);
      && s1.status.Ok? && s2.status.Ok? && s3.status.Ok?
      && s3.state == m - {id}
      && s1.effects + s2.effects + s3.effects ==
           [Spawn(p.pid, p.fd, SpawnVars(user, id)), RegisterIO(p.fd), WriteStdin(p.pid, data),
            UnregisterIO(p.fd), Kill(p.pid)]
  {
    var p := env.spawn.value;
    var hello := Utf8.Encode(user) + [0];
    Label.SubscribePayload(user, 0);
    var m1 := m[id := Unbound(user)];
    var m2 := m1[id := ClientData(p.fd, Some(p.pid), user)];
    var e1 := Event(Some(Msg(Subscribe, id, |hello|, hello)), None, None);
    var e2 := Event(Some(Msg(Data, id, |data|, data)), None, None);
    var e3 := Event(Some(Msg(Unsubscribe, id, 0, [])), None, None);
    QuietSubscribe(m, id, user, ks, env);
    QuietSpawn(m1, id, user, data, ks, env);
    QuietUnsubscribe(m2, id, ks, env);
    assert m2 - {id} == m - {id};
  }

  /** A quiet Subscribe step records the label without a process. */
  lemma QuietSubscribe(m: Clients, id: u16, user: string, ks: seq<u16>, env: Env)
    requires env.exited == {} && env.waitFails == {}
    ensures var hello := Utf8.Encode(user) + [0];
      Step(m, Event(Some(Msg(Subscribe, id, |hello|, hello)), None, None), ks, ks, env) ==
        Outcome(m[id := Unbound(user)], [], Ok)
  {
    var hello := Utf8.Encode(user) + [0];
    Label.SubscribePayload(user, 0);
    QuietStep(m, Event(Some(Msg(Subscribe, id, |hello|, hello)), None, None), ks, env);
  }

  /** A quiet Data step for a labelled entry without a process spawns,
      registers and feeds one child and binds it to the entry. */
  lemma QuietSpawn(m: Clients, id: u16, user: string, data: seq<byte>, ks: seq<u16>, env: Env)
    requires env.exited == {} && env.waitFails == {}
    requires id in m && m[id] == Unbound(user)
    requires env.spawn.Some? && env.spawn.value.fd !in env.registerFails
    requires env.spawn.value.pid !in env.stdinFails
    ensures var p := env.spawn.value;
      Step(m, Event(Some(Msg(Data, id, |data|, data)), None, None), ks, ks, env) ==
        Outcome(m[id := ClientData(p.fd, Some(p.pid), user)],
                [Spawn(p.pid, p.fd, SpawnVars(user, id)), RegisterIO(p.fd), WriteStdin(p.pid, data)], Ok)
  {
    QuietStep(m, Event(Some(Msg(Data, id, |data|, data)), None, None), ks, env);
  }

  /** A quiet Unsubscribe step for a bound entry unregisters its descriptor,
      kills its child and drops the entry. */
  lemma QuietUnsubscribe(m: Clients, id: u16, ks: seq<u16>, env: Env)
    requires env.exited == {} && env.waitFails == {}
    requires id in m && m[id].child.Some? && m[id].fd !in env.unregisterFails
    ensures Step(m, Event(Some(Msg(Unsubscribe, id, 0, [])), None, None), ks, ks, env) ==
      Outcome(m - {id}, [UnregisterIO(m[id].fd), Kill(m[id].child.value)], Ok)
  {
    QuietStep(m, Event(Some(Msg(Unsubscribe, id, 0, [])), None, None), ks, env);
  }

  /** A step without a readiness event, while no process exits, is its
      message part alone. */
  lemma QuietStep(m: Clients, evt: Event, ks: seq<u16>, env: Env)
    requires env.exited == {} && env.waitFails == {} && evt.io.None?
    ensures Step(m, evt, ks, ks, env) == Handled(m, evt, ks, env)
  {
    var h := Handled(m, evt, ks, env);
    QuietReap(h.state, ks, env);
    assert h.effects + [] + [] == h.effects;
  }
}
