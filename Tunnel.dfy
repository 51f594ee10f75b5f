/** Shared vocabulary of the three bridge policies: transport messages, the
    per-step answers of the reactor and the OS, the record of effects, and the
    sequential combinators that model `?` early returns. */
module Tunnel {

  /** An unsigned byte. */
  type byte = x: int | 0 <= x < 0x100

  /** A transport client identifier (`u16`). */
  type u16 = x: int | 0 <= x < 0x1_0000

  /** An OS descriptor (`RawFd`); the identity policy uses -1 for "none". */
  type Fd = int

  /** A child process, named by its process identifier. */
  type Pid = nat

  /** Size of the read buffer: one readiness event reads at most this many bytes. */
  const BufSize: nat := 2048

  /** The descriptor value the identity policy stores when no process is bound. */
  const NoFd: Fd := -1

  datatype Option<T> = None | Some(value: T)

  /** Message kinds of the transport; every kind the dispatcher does not handle is `Other`. */
  datatype Kind = Subscribe | Unsubscribe | UnsubscribeAll | Data | Other

  /** An inbound message: `size` is the length field, `data` the payload bytes. */
  datatype Msg = Msg(kind: Kind, clientId: u16, size: nat, data: seq<byte>)

  datatype IoEvent = IoEvent(readable: bool)

  /** What the reactor hands the handler in one step: at most one message and
      at most one readiness notification (event and descriptor). */
  datatype Event = Event(msg: Option<Msg>, io: Option<IoEvent>, fd: Option<Fd>)

  datatype Error =
    | SpawnError       // Command::spawn failed
    | RegisterError    // register_io failed
    | UnregisterError  // unregister_io failed
    | SendError        // writing an outbound message to the topic failed
    | WriteError       // writing to a child's stdin failed
    | WaitError        // try_wait failed
    | ReadError        // reading a child's stdout failed
    | DecodeError      // the subscribe payload is not UTF-8
    | UnknownClient    // Data for an id that is not subscribed (exclusive policy)
    | Panic            // the payload slice is out of range

  /** How a step (or part of one) ended: `Err` is an early return with `?`. */
  datatype Status = Ok | Err(error: Error)

  /** A freshly spawned child and the descriptor of its piped stdout. */
  datatype Spawned = Spawned(pid: Pid, fd: nat)

  /** Effects on the reactor, the transport and the children, in the order they
      took place. A call that fails leaves no effect; `Kill` is recorded as
      issued because its failure is only logged. */
  datatype Effect =
    | Spawn(pid: Pid, fd: Fd, vars: seq<(string, string)>)
    | RegisterIO(fd: Fd)
    | UnregisterIO(fd: Fd)
    | Kill(pid: Pid)
    | WriteStdin(pid: Pid, bytes: seq<byte>)
    | Send(kind: Kind, id: u16, bytes: seq<byte>)

  /** The answers the OS and the reactor give during one step. */
  datatype Env = Env(
    spawn: Option<Spawned>,      // result of Command::spawn (None: SpawnError)
    registerFails: set<Fd>,      // register_io(fd) returns an error
    unregisterFails: set<Fd>,    // unregister_io(fd) returns an error
    sendFails: set<u16>,         // topic.write of a message tagged with this id fails
    stdinFails: set<Pid>,        // write_all to this child's stdin fails
    waitFails: set<Pid>,         // try_wait on this child fails
    exited: set<Pid>,            // try_wait on this child reports an exit status
    readFails: set<Fd>,          // read on this descriptor fails
    pending: map<Fd, seq<byte>>  // bytes waiting to be read on a descriptor
  )

  /** The effects of a sequence of calls and how it ended. */
  datatype Run = Run(effects: seq<Effect>, status: Status)

  /** A run that also yields a new state. */
  datatype Outcome<S> = Outcome(state: S, effects: seq<Effect>, status: Status)

  /** `a` followed by `b`, unless `a` returned early with an error. */
  function Then(a: Run, b: Run): (r: Run)
    ensures a.status.Ok? ==> r.effects == a.effects + b.effects && r.status == b.status
    ensures a.status.Err? ==> r == a
  {
    if a.status.Err? then a else Run(a.effects + b.effects, b.status)
  }

  function WithState<S>(s: S, r: Run): Outcome<S>
  {
    Outcome(s, r.effects, r.status)
  }

  function Register(fd: Fd, env: Env): Run
  {
    if fd in env.registerFails then Run([], Err(RegisterError)) else Run([RegisterIO(fd)], Ok)
  }

  function Unregister(fd: Fd, env: Env): Run
  {
    if fd in env.unregisterFails then Run([], Err(UnregisterError)) else Run([UnregisterIO(fd)], Ok)
  }

  /** `topic.write` of an outbound message. */
  function Emit(kind: Kind, id: u16, bytes: seq<byte>, env: Env): Run
  {
    if id in env.sendFails then Run([], Err(SendError)) else Run([Send(kind, id, bytes)], Ok)
  }

  /** `write_all` of a payload to a child's stdin. */
  function Feed(pid: Pid, bytes: seq<byte>, env: Env): Run
  {
    if pid in env.stdinFails then Run([], Err(WriteError)) else Run([WriteStdin(pid, bytes)], Ok)
  }

  /** Teardown of a binding: unregister its descriptor (an error aborts), then
      kill the child (an error is only logged). */
  function Stop(fd: Fd, pid: Pid, env: Env): (r: Run)
    ensures fd in env.unregisterFails <==> r.status.Err?
    ensures r.status.Ok? ==> r.effects == [UnregisterIO(fd), Kill(pid)]
    ensures r.status.Err? ==> r.effects == []
  {
    Then(Unregister(fd, env), Run([Kill(pid)], Ok))
  }

  /** One `read` into the 2048-byte buffer: the first bytes pending on `fd`. */
  function Read(env: Env, fd: Fd): (r: Option<seq<byte>>)
    ensures r.Some? <==> fd !in env.readFails
    ensures r.Some? ==> |r.value| <= BufSize
    ensures r.Some? && fd in env.pending ==> r.value <= env.pending[fd]
    ensures r.Some? && fd in env.pending && |env.pending[fd]| <= BufSize ==> r.value == env.pending[fd]
  {
    if fd in env.readFails then None
    else
      var avail := if fd in env.pending then env.pending[fd] else [];
      Some(if |avail| <= BufSize then avail else avail[..BufSize])
  }

  /** Registrations minus unregistrations of `fd` in a trace. */
  function Balance(t: seq<Effect>, fd: Fd): int
  {
    multiset(t)[RegisterIO(fd)] as int - multiset(t)[UnregisterIO(fd)] as int
  }

  /** Regrouping of trace segments, stated once so that loop proofs need not
      rediscover it. */
  lemma AppendAssoc(a: seq<Effect>, b: seq<Effect>, c: seq<Effect>)
    ensures a + (b + c) == (a + b) + c
  {
  }

  lemma BalanceAppend(t: seq<Effect>, e: seq<Effect>, fd: Fd)
    ensures Balance(t + e, fd) == Balance(t, fd) + Balance(e, fd)
  {
    assert multiset(t + e) == multiset(t) + multiset(e);
  }

  /** Spawning a child, registering its stdout and feeding it registers that
      descriptor once and nothing else. */
  lemma BalanceOfStart(pid: Pid, started: Fd, vars: seq<(string, string)>, bytes: seq<byte>, fd: Fd)
    ensures Balance([Spawn(pid, started, vars), RegisterIO(started), WriteStdin(pid, bytes)], fd) == if fd == started then 1 else 0
  {
    var e := [Spawn(pid, started, vars), RegisterIO(started), WriteStdin(pid, bytes)];
    assert multiset(e) == multiset{Spawn(pid, started, vars), RegisterIO(started), WriteStdin(pid, bytes)};
  }

  ghost predicate NoDup(ks: seq<u16>)
  {
    forall i, j :: 0 <= i < j < |ks| ==> ks[i] != ks[j]
  }

  /** `ks` visits every key of `keys` exactly once: an iteration order of a map. */
  ghost predicate IsEnumeration(ks: seq<u16>, keys: set<u16>)
  {
    NoDup(ks) && forall k :: k in ks <==> k in keys
  }

  /** The order in which `HashMap::iter`/`iter_mut` visit the keys; the order
      is not specified, so any enumeration may be returned. */
  method KeyOrder(keys: set<u16>) returns (ks: seq<u16>)
    ensures IsEnumeration(ks, keys)
  {
    ks := [];
    var rest := keys;
    while rest != {}
      invariant NoDup(ks)
      invariant forall k :: k in ks ==> k !in rest
      invariant forall k :: k in keys <==> k in ks || k in rest
      decreases |rest|
    {
      var k :| k in rest;
      ks := ks + [k];
      rest := rest - {k};
    }
  }

  /** Number of keys in `ks` satisfying `p`. */
  function Count(ks: seq<u16>, p: u16 -> bool): nat
  {
    if ks == [] then 0 else (if p(ks[0]) then 1 else 0) + Count(ks[1..], p)
  }

  function Is(id: u16): u16 -> bool
  {
    (k: u16) => k == id
  }

  /** A key of the order that satisfies `p` is counted. */
  lemma {:induction false} CountPositive(ks: seq<u16>, p: u16 -> bool, k: u16)
    requires k in ks && p(k)
    ensures Count(ks, p) >= 1
    decreases |ks|
  {
    if ks[0] != k {
      assert k in ks[1..];
      CountPositive(ks[1..], p, k);
    }
  }

  lemma {:induction false} NoDupTail(ks: seq<u16>)
    requires NoDup(ks) && ks != []
    ensures NoDup(ks[1..]) && ks[0] !in ks[1..]
  {
    forall j | 0 <= j < |ks[1..]|
      ensures ks[1..][j] != ks[0]
    {
      assert ks[1..][j] == ks[j + 1];
    }
  }

  /** When at most one key satisfies `p`, counting it along a duplicate-free
      order gives one exactly when some key of the order does. */
  lemma {:induction false} CountAtMostOne(ks: seq<u16>, p: u16 -> bool)
    requires NoDup(ks)
    requires forall a, b :: a in ks && b in ks && p(a) && p(b) ==> a == b
    ensures Count(ks, p) == if exists k :: k in ks && p(k) then 1 else 0
    decreases |ks|
  {
    if ks != [] {
      NoDupTail(ks);
      CountAtMostOne(ks[1..], p);
      assert forall k :: k in ks <==> k == ks[0] || k in ks[1..];
      if p(ks[0]) {
        assert !exists k :: k in ks[1..] && p(k);
      }
    }
  }

  /** Two predicates that agree on the keys of an order count the same. */
  lemma {:induction false} CountSame(ks: seq<u16>, p: u16 -> bool, q: u16 -> bool)
    requires forall k :: k in ks ==> p(k) == q(k)
    ensures Count(ks, p) == Count(ks, q)
    decreases |ks|
  {
    if ks != [] {
      assert forall k :: k in ks[1..] ==> k in ks;
      CountSame(ks[1..], p, q);
    }
  }

  /** A duplicate-free order mentions each key at most once. */
  lemma CountIs(ks: seq<u16>, id: u16)
    requires NoDup(ks)
    ensures Count(ks, Is(id)) == if id in ks then 1 else 0
  {
    CountAtMostOne(ks, Is(id));
  }

  /** A duplicate-free order of `n` keys enumerates a set of `n` keys. */
  lemma {:induction false} EnumerationSize(ks: seq<u16>, keys: set<u16>)
    requires IsEnumeration(ks, keys)
    ensures |ks| == |keys|
    decreases |ks|
  {
    if ks != [] {
      NoDupTail(ks);
      EnumerationSize(ks[1..], keys - {ks[0]});
    } else {
      assert keys == {};
    }
  }

  /** The reactor (the `Topic`) and the OS below it, as the dispatcher sees
      them: every call is answered from `env` and its effect appended to `trace`. */
  class Reactor {
    var env: Env
    ghost var trace: seq<Effect>

    constructor (env: Env)
      ensures this.env == env && trace == []
    {
      this.env := env;
      trace := [];
    }

    /** Command::spawn with piped stdin/stdout and extra environment variables. */
    method SpawnChild(vars: seq<(string, string)>) returns (r: Option<Spawned>)
      modifies this`trace
      ensures r == env.spawn
      ensures trace == old(trace) + (if r.Some? then [Spawn(r.value.pid, r.value.fd, vars)] else [])
    {
      r := env.spawn;
      if r.Some? {
        trace := trace + [Spawn(r.value.pid, r.value.fd, vars)];
      }
    }

    method RegisterIo(fd: Fd) returns (s: Status)
      modifies this`trace
      ensures trace == old(trace) + Register(fd, env).effects && s == Register(fd, env).status
    {
      if fd in env.registerFails {
        return Err(RegisterError);
      }
      trace := trace + [RegisterIO(fd)];
      s := Ok;
    }

    method UnregisterIo(fd: Fd) returns (s: Status)
      modifies this`trace
      ensures trace == old(trace) + Unregister(fd, env).effects && s == Unregister(fd, env).status
    {
      if fd in env.unregisterFails {
        return Err(UnregisterError);
      }
      trace := trace + [UnregisterIO(fd)];
      s := Ok;
    }

    /** Child::kill; an error (the child has already exited) is only logged. */
    method KillChild(pid: Pid)
      modifies this`trace
      ensures trace == old(trace) + [Kill(pid)]
    {
      trace := trace + [Kill(pid)];
    }

    /** Child::try_wait: an error, or whether the child has exited. */
    method TryWait(pid: Pid) returns (s: Status, exited: bool)
      ensures s.Ok? <==> pid !in env.waitFails
      ensures s.Err? ==> s.error == WaitError
      ensures exited <==> s.Ok? && pid in env.exited
    {
      if pid in env.waitFails {
        return Err(WaitError), false;
      }
      s, exited := Ok, pid in env.exited;
    }

    /** write_all of a payload to a child's stdin. */
    method WriteStdinOf(pid: Pid, bytes: seq<byte>) returns (s: Status)
      modifies this`trace
      ensures trace == old(trace) + Feed(pid, bytes, env).effects && s == Feed(pid, bytes, env).status
    {
      if pid in env.stdinFails {
        return Err(WriteError);
      }
      trace := trace + [WriteStdin(pid, bytes)];
      s := Ok;
    }

    /** One read from a child's stdout into the 2048-byte buffer. */
    method ReadStdout(fd: Fd) returns (r: Option<seq<byte>>)
      ensures r == Read(env, fd)
    {
      r := Read(env, fd);
    }

    /** topic.write of an outbound message. */
    method Write(kind: Kind, id: u16, bytes: seq<byte>) returns (s: Status)
      modifies this`trace
      ensures trace == old(trace) + Emit(kind, id, bytes, env).effects && s == Emit(kind, id, bytes, env).status
    {
      if id in env.sendFails {
        return Err(SendError);
      }
      trace := trace + [Send(kind, id, bytes)];
      s := Ok;
    }
  }
}
