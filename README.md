# Shell-script tunnel backends, modelled in Dafny

The repository links a publish/subscribe channel (a "topic" of the latpr
tunnel) to child processes that run a shell command. The repository has three
backends. Each one registers a per-step handler with the topic. Given an event
(at most one inbound message, and at most one readiness notification with a
descriptor), the handler does three things in order:

1. It updates a registry of subscribed clients.
2. It spawns, feeds or tears down child processes.
3. It forwards what a child wrote on its stdout back over the topic.

The three backends differ in how clients map to processes:

| policy | source | registry | processes |
|---|---|---|---|
| exclusive (`Exclusive`) | `src/main.rs` | `u16 -> Option<ClientData{fd, child}>` | one child per client, spawned on the client's first Data message; reaped when it exits |
| identity (`Identity`) | `src/shp2p.rs` | `u16 -> ClientData{fd, child: Option, user}` | as exclusive; the child is started with `CUSER=<peer label>` and `CID=<decimal id>` |
| broadcast (`Broadcast`) | `src/shbcast.rs` | `u16 -> String` | one shared child, spawned and registered at start-up; every client's Data goes to it, and every read is fanned out to all subscribers |

## How the model is built

- `Tunnel.dfy` holds the shared vocabulary:
  - messages and events;
  - the `Effect` trace of calls that took effect: `Spawn`, `RegisterIO`, `UnregisterIO`, `Kill`, `WriteStdin` and `Send`;
  - `Env`, a per-step oracle that stands in for the OS and the reactor: which calls fail, the spawn result, which children exited, and the bytes pending on each descriptor;
  - the `Reactor` class, whose methods perform one call each against `Env` and extend a ghost `trace`;
  - `KeyOrder`, which picks an arbitrary duplicate-free enumeration of a map's keys. This is the unspecified `HashMap` iteration order.
- Each policy module has two layers.
  - The first is pure specification functions: `OnMessage`, the reaping function, `OnReadable` and `Step`. Loops are written as folds over an explicit key order, and a Rust `?` is modelled as an `Err` status that ends the step.
  - The second is a class with the registry as a mutable field. Its methods carry the source's loops, with invariants, and each method is proved to produce exactly the specification's new state, trace and status.
  - Lemmas about the specification functions state the behaviour the code promises. Order-independent facts are stated over multisets of effects.
- `Utf8.dfy` decodes the peer label. `Decimal.dfy` renders the `CID` variable. `Label.dfy` cuts the subscribe payload and decodes it.

Where the code and the project's own documentation disagree, the model follows the code:

- **Teardown order.** The documentation speaks of "kill and unregister". The code of `unsubscribe_client` unregisters the descriptor first and kills second. A failed unregister returns early, before the kill.
- **Data for an unknown id.** In the exclusive backend, `ok_or(...)?` turns this into an error that aborts the step (`src/main.rs:80-82`). The identity backend only logs it.
- **A failed write to a child's stdin.** The documentation calls it recoverable. The code ends the step with `stdin.write_all(&msg.data)?` (`src/main.rs:108`, `src/shp2p.rs:124`, `src/shbcast.rs:52`), and the model's `Feed` returns `Err(WriteError)`.
- **Subscribing an id twice.** Re-subscribing an id that holds a live child overwrites the binding with `None` and makes no reactor call. The child and its registration are leaked. `ResubscribeLeaks` exhibits this.

When UnsubscribeAll stops early on an error in the exclusive or identity backend, the map is left as it was. The entries visited before the error stay in it, although their descriptors are already unregistered and their children killed, because the source clears the map only after the loop (`src/main.rs:71-76`, `src/shp2p.rs:86-91`). A step error ends the service loop (`src/main.rs:212-215`), so no later step sees those entries.

## Model

| member | source | states |
|---|---|---|
| Tunnel.Stop | src/main.rs:26-42 | tearing down a binding fails exactly when unregistering its descriptor fails, and then has no effect; otherwise it is exactly `UnregisterIO(fd)` followed by `Kill(child)` |
| Tunnel.Read | src/main.rs:139 | a read succeeds unless the descriptor reports an error; it returns at most 2048 bytes, a prefix of the pending bytes, and all of them when they fit |
| Tunnel.KeyOrder | src/main.rs:71 | the map's iteration order visits every key exactly once and nothing else |
| Tunnel.Reactor.SpawnChild | src/main.rs:86-89 | returns the OS's answer; the trace gains one `Spawn` with the given environment exactly when the spawn succeeds |
| Tunnel.Reactor.RegisterIo | src/main.rs:95 | the trace gains `RegisterIO(fd)` exactly when registration succeeds; the status reports a `RegisterError` otherwise |
| Tunnel.Reactor.UnregisterIo | src/main.rs:32 | the trace gains `UnregisterIO(fd)` exactly when unregistration succeeds; the status reports an `UnregisterError` otherwise |
| Tunnel.Reactor.KillChild | src/main.rs:34-39 | the kill is always recorded; its failure is only logged, so there is no status |
| Tunnel.Reactor.TryWait | src/main.rs:158 | fails with `WaitError` exactly for children whose wait errors; reports an exit exactly for exited children when it succeeds |
| Tunnel.Reactor.WriteStdinOf | src/main.rs:107-109 | the trace gains `WriteStdin(child, bytes)` exactly when the write succeeds |
| Tunnel.Reactor.ReadStdout | src/main.rs:139 | returns what the descriptor yields, as `Read` describes |
| Tunnel.Reactor.Write | src/main.rs:73 | the trace gains the outbound message exactly when the topic accepts it |
| Utf8.DecodeFirst | src/shp2p.rs:55 | a decoded character consumes between one and four bytes, never more than are present |
| Utf8.EncodeChar | src/shp2p.rs:55 | a character encodes as one to four bytes |
| Utf8.DecodeFirstEncodeChar | src/shp2p.rs:55 | decoding the encoding of a character, whatever follows it, yields that character and consumes exactly its encoding |
| Utf8.DecodeEncode | src/shp2p.rs:55 | every string decodes back from its encoding |
| Utf8.EncodeCharDecodeFirst | src/shp2p.rs:55 | the decoder accepts only canonical forms: a decoded character re-encodes to exactly the bytes consumed |
| Utf8.EncodeDecode | src/shp2p.rs:55 | every byte string the decoder accepts is the encoding of its decoding |
| Utf8.EncodeAscii | src/shp2p.rs:55 | ASCII text encodes byte for byte |
| Decimal.Render | src/shp2p.rs:103 | `format!("{}", id)` is a non-empty string of decimal digits, with a leading `0` only for zero |
| Decimal.ParseRender | src/shp2p.rs:103 | parsing the rendering of a number gives the number back |
| Decimal.RenderParse | src/shp2p.rs:103 | a digit string without a leading zero is the rendering of its value |
| Decimal.RenderWidth | src/shp2p.rs:103 | a 16-bit id renders in one to five digits |
| Label.PeerLabel | src/shp2p.rs:55 | the slice panics exactly when `size` is 0 or `size - 1` exceeds the payload; it is a `DecodeError` exactly when `data[..size-1]` is not UTF-8; a label encodes exactly to `data[..size-1]`; the result is a label exactly when `1 <= size <= |data| + 1` and the slice decodes |
| Label.SubscribePayload | src/shp2p.rs:55 | an encoded label followed by any terminator byte, with `size` counting the terminator, yields that label |
| Label.AlicePayload | src/shp2p.rs:55 | the payload `alice` followed by NUL, size 6, yields the label `alice` |
| Exclusive.UnsubscribeClient | src/main.rs:26-42 | trace and status are those of the teardown of the entry |
| Exclusive.NotifyOne | src/main.rs:72-74 | one turn of the UnsubscribeAll loop: the outbound Unsubscribe for the key, then its teardown |
| Exclusive.NotifyAll | src/main.rs:71-75 | the UnsubscribeAll loop produces the trace and status of the fold over the key order |
| Exclusive.PollAll | src/main.rs:154-172 | the first loop of `monitor_clients` returns the list of exited keys and produces the trace and status of the fold |
| Exclusive.ForwardOne | src/main.rs:137-143 | one read from the ready descriptor, sent as a Data message tagged with the key |
| Exclusive.ForwardAll | src/main.rs:132-145 | the readiness loop produces the trace and status of the fold over the entries bound to the descriptor |
| Exclusive.Registry.constructor | src/main.rs:202 | the registry starts empty |
| Exclusive.Registry.UnsubscribeEveryone | src/main.rs:69-77 | UnsubscribeAll: the registry is cleared on success and unchanged on an early error; the trace is that of the fold |
| Exclusive.Registry.ForwardData | src/main.rs:78-110 | the Data branch mutates the registry, trace and status exactly as `OnData` describes |
| Exclusive.Registry.HandleMessage | src/main.rs:50-119 | the message part of `step_handle` mutates registry, trace and status exactly as `OnMessage` describes |
| Exclusive.Registry.MonitorClients | src/main.rs:150-177 | both loops of `monitor_clients` mutate registry, trace and status exactly as `Monitor` describes |
| Exclusive.Registry.ForwardOutput | src/main.rs:121-146 | the readiness part produces the trace and status of `OnReadable` and leaves the registry alone |
| Exclusive.Registry.StepHandle | src/main.rs:44-148 | a whole step, for the iteration orders it used, produces the registry, trace and status of `Step` |
| Exclusive.UnsubscribeEachStatus | src/main.rs:71-75 | the UnsubscribeAll loop succeeds exactly when no outbound notice fails and no bound entry's unregister fails |
| Exclusive.UnsubscribeEachShape | src/main.rs:71-75 | whether or not it fails, the loop emits only empty Unsubscribe notices to visited keys, unregistrations of bound descriptors, and kills of owned children |
| Exclusive.UnsubscribeEachNotices | src/main.rs:72-73 | a successful loop sends each id as many notices as the key order visits it |
| Exclusive.UnsubscribeEachUnregisters | src/main.rs:74 | a successful loop unregisters each descriptor once per visited entry bound to it, and registers nothing |
| Exclusive.UnsubscribeEachKills | src/main.rs:74 | a successful loop kills each child once per visited entry that owns it |
| Exclusive.UnsubscribeAllNotifiesEach | src/main.rs:69-77 | UnsubscribeAll sends exactly one empty Unsubscribe per subscribed id and empties the registry; an early error leaves the registry as it was |
| Exclusive.UnsubscribeAllKillsEach | src/main.rs:69-77 | UnsubscribeAll kills and unregisters only bound entries, whatever the outcome; on success it kills every bound child and registers nothing |
| Exclusive.UnsubscribeAllUnregistersEach | src/main.rs:69-77 | with distinct descriptors, a successful UnsubscribeAll unregisters every bound descriptor exactly once and nothing else |
| Exclusive.PollEachStatus | src/main.rs:155-172 | the first monitor loop succeeds exactly when no bound child's wait fails and every exited child's descriptor can be unregistered |
| Exclusive.PollEachShape | src/main.rs:155-172 | the first loop only unregisters descriptors of exited children, and lists only visited keys whose child exited |
| Exclusive.PollEachFindsAll | src/main.rs:155-172 | a successful first loop lists every visited key whose child exited |
| Exclusive.PollEachUnregisters | src/main.rs:166 | a successful first loop unregisters each descriptor once per visited exited entry bound to it |
| Exclusive.UnbindResets | src/main.rs:173-175 | the second loop resets exactly the listed keys to `None` and keeps every other entry |
| Exclusive.MonitorReaps | src/main.rs:150-177 | `monitor_clients` never changes the key set; on success exactly the exited entries become `None`; an early error leaves the registry unchanged |
| Exclusive.MonitorUnregistersExited | src/main.rs:150-177 | the monitor registers nothing, and on success unregisters exactly the descriptors of exited children, once each |
| Exclusive.ForwardEachShape | src/main.rs:132-145 | the readiness loop sends only Data messages, tagged with a visited key bound to the ready descriptor and carrying the bytes read, at most 2048 |
| Exclusive.ForwardEachStatus | src/main.rs:132-145 | the readiness loop succeeds exactly when, if any entry is bound to the descriptor, the read succeeds and every such key's send succeeds |
| Exclusive.ForwardEachDelivers | src/main.rs:136-145 | on success every visited key bound to the descriptor gets exactly one Data message with the bytes read |
| Exclusive.ReadinessRoutesToOwners | src/main.rs:121-146 | no event, no descriptor, or not readable: nothing happens; otherwise only the owners of the descriptor get data, and on success each of them exactly once |
| Exclusive.SubscribeResets | src/main.rs:52-55 | Subscribe sets the entry to `None`, whatever it held, with no effect and no error |
| Exclusive.UnsubscribeTearsDown | src/main.rs:56-68 | Unsubscribe of an absent id changes nothing; of a present id it removes the key, and for a bound entry emits exactly `UnregisterIO` then `Kill`, failing only when the unregister fails |
| Exclusive.DataUnknownAborts | src/main.rs:80-82 | Data for an id that is not subscribed aborts the whole step with no effect and no change |
| Exclusive.DataSpawnsOnFirst | src/main.rs:83-103 | Data for a `None` entry spawns one child, registers its stdout once, binds it and writes the payload; on failure no payload is written; if the write alone fails the binding stays, the effects are the spawn and the registration, and the status is `WriteError` |
| Exclusive.DataReusesChild | src/main.rs:104-109 | Data for a bound entry only writes the payload to its child, and leaves the registry as it was; it fails exactly when that write fails, with `WriteError` and no effect |
| Exclusive.MessageSendsOnlyNotices | src/main.rs:50-119 | the only outbound messages of the message part are empty Unsubscribe notices |
| Exclusive.StepPayloadsBounded | src/main.rs:131 | every outbound message of a step carries at most 2048 bytes |
| Exclusive.ReapedNeverRead | src/main.rs:120-145 | a child found exited in a step is never read in that step, because reaping comes before readiness |
| Exclusive.BoundFdsRemove | src/main.rs:62-67 | removing or resetting an entry removes exactly its descriptor from the bound ones |
| Exclusive.BoundFdsBind | src/main.rs:97 | binding a fresh descriptor adds exactly that descriptor |
| Exclusive.SubscribeKeepsBalanced | src/main.rs:52-55 | Subscribe of an unbound id keeps every bound descriptor registered exactly once |
| Exclusive.UnsubscribeKeepsBalanced | src/main.rs:56-68 | a successful Unsubscribe keeps registrations balanced with bindings |
| Exclusive.UnsubscribeAllKeepsBalanced | src/main.rs:69-77 | a successful UnsubscribeAll keeps registrations balanced with bindings |
| Exclusive.SpawnKeepsBalanced | src/main.rs:84-103 | a successful first Data registers exactly the new binding's descriptor |
| Exclusive.DataKeepsBalanced | src/main.rs:78-110 | a successful Data keeps registrations balanced with bindings |
| Exclusive.MessageKeepsBalanced | src/main.rs:50-119 | every successful message, other than a re-subscribe of a bound id, keeps registrations balanced with bindings |
| Exclusive.BoundFdsReaped | src/main.rs:173-175 | after reaping, the bound descriptors are the old ones minus those of exited children |
| Exclusive.MonitorKeepsBalanced | src/main.rs:150-177 | a successful monitor pass keeps registrations balanced with bindings |
| Exclusive.ReadinessKeepsBalance | src/main.rs:121-146 | readiness handling never registers or unregisters |
| Exclusive.StepKeepsBalanced | src/main.rs:44-148 | a successful step that does not re-subscribe a bound id keeps every bound descriptor registered exactly once and no other |
| Exclusive.ResubscribeLeaks | src/main.rs:52-55 | re-subscribing a bound id succeeds with no effect, drops the binding and leaves its descriptor registered, so the balance breaks |
| Exclusive.QuietPoll | src/main.rs:155-172 | with no exits and no wait errors the monitor finds nothing and does nothing |
| Exclusive.SubscribeDataUnsubscribe | src/main.rs:44-148 | Subscribe, Data, Unsubscribe in three quiet steps spawn, register, feed, unregister and kill one child, in that order, and leave the id unsubscribed |
| Identity.UnsubscribeClient | src/shp2p.rs:28-44 | trace and status are those of the teardown of the entry |
| Identity.NotifyOne | src/shp2p.rs:87-89 | one turn of the UnsubscribeAll loop: the outbound Unsubscribe for the key, then its teardown |
| Identity.NotifyAll | src/shp2p.rs:86-90 | the UnsubscribeAll loop produces the trace and status of the fold over the key order |
| Identity.ForwardOne | src/shp2p.rs:152-158 | one read from the ready descriptor, sent as a Data message tagged with the key |
| Identity.ForwardAll | src/shp2p.rs:150-160 | the readiness loop produces the trace and status of the fold over the entries bound to the descriptor |
| Identity.Registry.constructor | src/shp2p.rs:217 | the registry starts empty |
| Identity.Registry.ForwardData | src/shp2p.rs:93-128 | the Data branch, with the entry's fields overwritten in place, mutates registry, trace and status exactly as `OnData` describes |
| Identity.Registry.HandleMessage | src/shp2p.rs:52-137 | the message part of `step_handle` mutates registry, trace and status exactly as `OnMessage` describes |
| Identity.Registry.MonitorClients | src/shp2p.rs:165-189 | the in-place reaping loop mutates registry, trace and status exactly as `ReapEach` describes |
| Identity.Registry.ForwardOutput | src/shp2p.rs:139-161 | the readiness part produces the trace and status of `OnReadable` and leaves the registry alone |
| Identity.Registry.StepHandle | src/shp2p.rs:46-163 | a whole step, for the iteration orders it used, produces the registry, trace and status of `Step` |
| Identity.ReapEachKeeps | src/shp2p.rs:169-187 | reaping keeps the key set, and each entry is either unchanged or, if its child exited, reset with its label kept |
| Identity.ReapEachStatus | src/shp2p.rs:169-187 | reaping succeeds exactly when no visited child's wait fails and every exited child's descriptor can be unregistered |
| Identity.ReapEachShape | src/shp2p.rs:180 | reaping only unregisters descriptors of exited children |
| Identity.ReapEachResets | src/shp2p.rs:180-182 | a successful pass resets exactly the visited exited entries |
| Identity.ReapEachUnregisters | src/shp2p.rs:180 | a successful pass unregisters each descriptor once per visited exited entry bound to it |
| Identity.MonitorResets | src/shp2p.rs:165-189 | `monitor_clients` keeps the keys and every label, leaves non-exited entries alone, succeeds exactly when every entry can be reaped, and then resets exactly the exited ones |
| Identity.MonitorUnregistersExited | src/shp2p.rs:165-189 | the monitor registers nothing, and on success unregisters exactly the descriptors of exited children, once each |
| Identity.UnsubscribeEachStatus | src/shp2p.rs:86-90 | the UnsubscribeAll loop succeeds exactly when no notice fails and no entry with a child fails to unregister |
| Identity.UnsubscribeEachShape | src/shp2p.rs:86-90 | the loop emits only empty Unsubscribe notices to visited keys, unregistrations of bound descriptors and kills of owned children |
| Identity.NoticeEffects | src/shp2p.rs:87-89 | a successful turn sends the notice and, only for an entry with a child, unregisters and kills it |
| Identity.UnsubscribeEachNotices | src/shp2p.rs:87-88 | a successful loop sends each id as many notices as the key order visits it |
| Identity.UnsubscribeEachUnregisters | src/shp2p.rs:89 | a successful loop unregisters each descriptor once per visited entry bound to it, and registers nothing |
| Identity.UnsubscribeEachKills | src/shp2p.rs:89 | a successful loop kills each child once per visited entry that owns it |
| Identity.UnsubscribeAllNotifiesEach | src/shp2p.rs:84-92 | UnsubscribeAll sends exactly one empty Unsubscribe per subscribed id and empties the registry; an early error leaves the registry as it was |
| Identity.UnsubscribeAllKillsEach | src/shp2p.rs:84-92 | UnsubscribeAll kills and unregisters only entries that have a child, kills all of them on success, and registers nothing |
| Identity.UnsubscribeAllUnregistersEach | src/shp2p.rs:84-92 | with distinct descriptors, a successful UnsubscribeAll unregisters every bound descriptor exactly once and nothing else |
| Identity.SubscribeDecodesLabel | src/shp2p.rs:54-70 | Subscribe has no effect; it succeeds exactly when `data[..size-1]` is in range and valid UTF-8, and then stores the decoded label with `fd = -1` and no child; otherwise it fails with a panic or decode error and leaves the registry unchanged |
| Identity.UnsubscribeTearsDown | src/shp2p.rs:71-83 | Unsubscribe of an absent id changes nothing; of a present id it removes the key, and for an entry with a child emits exactly `UnregisterIO` then `Kill`, failing only when the unregister fails |
| Identity.DataUnknownIgnored | src/shp2p.rs:95-96 | a step with Data for an unknown id is the same step without the message |
| Identity.SpawnVarsIdentify | src/shp2p.rs:101-106 | the child's environment is `CUSER` set to the label and `CID` set to one to five digits that parse back to the id |
| Identity.DataSpawnsWithIdentity | src/shp2p.rs:97-125 | Data for an entry without a child spawns one with that environment, registers its stdout once, records child and descriptor and writes the payload; on failure no payload is written; if the write alone fails the child and descriptor stay recorded, the effects are the spawn and the registration, and the status is `WriteError` |
| Identity.DataReusesChild | src/shp2p.rs:120-125 | Data for an entry with a child only writes the payload to it, and leaves the registry as it was; it fails exactly when that write fails, with `WriteError` and no effect |
| Identity.MessageKeepsWellFormed | src/shp2p.rs:113-114 | after any message, an entry has a child exactly when its descriptor is not -1 |
| Identity.StepKeepsWellFormed | src/shp2p.rs:181-182 | after any step, including reaping, an entry has a child exactly when its descriptor is not -1 |
| Identity.ForwardEachShape | src/shp2p.rs:150-160 | the readiness loop sends only Data messages, tagged with a visited key whose child owns the ready descriptor and carrying the bytes read, at most 2048 |
| Identity.ForwardEachStatus | src/shp2p.rs:150-160 | the readiness loop succeeds exactly when, if any entry owns the descriptor, the read succeeds and every such key's send succeeds |
| Identity.ForwardEachDelivers | src/shp2p.rs:150-160 | on success every visited key owning the descriptor gets exactly one Data message with the bytes read |
| Identity.ReadinessRoutesToOwners | src/shp2p.rs:139-161 | no event, no descriptor, or not readable: nothing happens; otherwise only entries with a child on that descriptor get data, and on success each of them exactly once |
| Identity.MessageSendsOnlyNotices | src/shp2p.rs:52-137 | the only outbound messages of the message part are empty Unsubscribe notices |
| Identity.StepPayloadsBounded | src/shp2p.rs:149 | every outbound message of a step carries at most 2048 bytes |
| Identity.ReapedNeverRead | src/shp2p.rs:138-161 | a child found exited in a step is never read in that step |
| Identity.BoundFdsRemove | src/shp2p.rs:77-82 | removing an entry removes exactly its descriptor from the bound ones |
| Identity.BoundFdsUnbound | src/shp2p.rs:62-69 | storing an entry without a child, over an entry without one, keeps the bound descriptors |
| Identity.BoundFdsBind | src/shp2p.rs:113-114 | binding a fresh descriptor adds exactly that descriptor |
| Identity.SubscribeKeepsBalanced | src/shp2p.rs:54-70 | Subscribe of an id without a child keeps every bound descriptor registered exactly once |
| Identity.UnsubscribeKeepsBalanced | src/shp2p.rs:71-83 | a successful Unsubscribe keeps registrations balanced with bindings |
| Identity.UnsubscribeAllKeepsBalanced | src/shp2p.rs:84-92 | a successful UnsubscribeAll keeps registrations balanced with bindings |
| Identity.SpawnKeepsBalanced | src/shp2p.rs:99-119 | a successful first Data registers exactly the new binding's descriptor |
| Identity.DataKeepsBalanced | src/shp2p.rs:93-128 | a successful Data keeps registrations balanced with bindings |
| Identity.MessageKeepsBalanced | src/shp2p.rs:52-137 | every successful message, other than a re-subscribe of an id with a child, keeps registrations balanced with bindings |
| Identity.BoundFdsReset | src/shp2p.rs:181-182 | after reaping, the bound descriptors are the old ones minus those of exited children |
| Identity.MonitorKeepsBalanced | src/shp2p.rs:165-189 | a successful monitor pass keeps registrations balanced with bindings |
| Identity.ReadinessKeepsBalance | src/shp2p.rs:139-161 | readiness handling never registers or unregisters |
| Identity.StepKeepsBalanced | src/shp2p.rs:46-163 | a successful step that does not re-subscribe an id with a child keeps every bound descriptor registered exactly once and no other |
| Identity.ResubscribeLeaks | src/shp2p.rs:62-69 | re-subscribing an id with a child succeeds with no effect, drops the child and leaves its descriptor registered, so the balance breaks |
| Identity.QuietReap | src/shp2p.rs:169-187 | with no exits and no wait errors the monitor changes nothing and does nothing |
| Identity.QuietStep | src/shp2p.rs:138-146 | a step with no readiness event, while nothing exits, is its message part alone |
| Identity.QuietSubscribe | src/shp2p.rs:54-70 | a quiet Subscribe with an encoded label and terminator records the label without a process |
| Identity.QuietSpawn | src/shp2p.rs:97-125 | a quiet Data for a labelled entry without a process spawns it with `CUSER`/`CID`, registers, binds and feeds it |
| Identity.QuietUnsubscribe | src/shp2p.rs:71-83 | a quiet Unsubscribe of a bound entry unregisters, kills and drops it |
| Identity.SubscribeDataUnsubscribe | src/shp2p.rs:46-163 | Subscribe with a label, Data, Unsubscribe in three quiet steps spawn one child with that label and the id, register, feed, unregister and kill it, in that order, and leave the id unsubscribed |
| Broadcast.NotifyAll | src/shbcast.rs:43-46 | the UnsubscribeAll loop produces the trace and status of the fold over the key order |
| Broadcast.SendAll | src/shbcast.rs:78-81 | the fan-out loop produces the trace and status of the fold over the key order |
| Broadcast.Hub.constructor | src/shbcast.rs:113 | the hub starts with no subscribers and the shared process |
| Broadcast.Hub.HandleMessage | src/shbcast.rs:24-63 | the message part mutates subscribers, trace and status exactly as `OnMessage` describes |
| Broadcast.Hub.ForwardOutput | src/shbcast.rs:64-83 | the readiness part produces the trace and status of `OnReadable` |
| Broadcast.Hub.StepHandle | src/shbcast.rs:17-85 | a whole step, for the iteration orders it used, produces the subscribers, trace and status of `Step` |
| Broadcast.Start | src/shbcast.rs:115-132 | start-up produces the trace and status of `Launch`, and on success a fresh hub with no subscribers bound to the spawned process |
| Broadcast.LaunchRegistersOnce | src/shbcast.rs:115-132 | start-up succeeds exactly when the spawn and the registration succeed, and then spawns and registers the shared child exactly once |
| Broadcast.NoticeEachStatus | src/shbcast.rs:43-46 | the UnsubscribeAll loop succeeds exactly when no notice fails |
| Broadcast.NoticeEachSends | src/shbcast.rs:43-46 | a successful loop sends, in key order, one empty Unsubscribe per key |
| Broadcast.NoticeEachShape | src/shbcast.rs:43-46 | any run of the loop sends only empty Unsubscribe notices to visited keys |
| Broadcast.FanOutSends | src/shbcast.rs:78-81 | a successful fan-out sends, in key order, one Data message per key with the same bytes |
| Broadcast.FanOutShape | src/shbcast.rs:78-81 | the fan-out sends only Data messages with the bytes read to visited keys, and succeeds exactly when no send fails |
| Broadcast.SubscribeDecodesLabel | src/shbcast.rs:26-30 | Subscribe has no effect; it succeeds exactly when `data[..size-1]` is in range and valid UTF-8, and then stores the decoded label; otherwise it fails with a panic or decode error and leaves the subscribers unchanged |
| Broadcast.UnsubscribeRemoves | src/shbcast.rs:31-40 | Unsubscribe has no effect and never fails; it removes just that id and keeps every other subscriber |
| Broadcast.UnsubscribeAllNotifiesEach | src/shbcast.rs:41-48 | UnsubscribeAll sends exactly one empty Unsubscribe per subscriber and nothing else, succeeds exactly when no send fails, then clears the map; an early error leaves it unchanged |
| Broadcast.DataFeedsShared | src/shbcast.rs:49-54 | Data from any id, subscribed or not, writes the payload to the shared process and leaves the subscribers unchanged; it fails only when the write fails |
| Broadcast.ReadinessIgnoresFd | src/shbcast.rs:68-71 | readiness handling does not depend on the descriptor value |
| Broadcast.ReadinessFansOut | src/shbcast.rs:64-83 | no event, no descriptor, or not readable: nothing happens; a failed read aborts; otherwise one read of at most 2048 bytes goes to every subscriber, exactly once each, and nowhere else |
| Broadcast.StepLeavesProcess | src/shbcast.rs:17-85 | a step only sends messages or writes the message payload to the shared process; it never spawns, kills, registers or unregisters |
| Broadcast.StepKeepsRegistration | src/shbcast.rs:17-85 | the shared process stays registered exactly once across every step |
| Broadcast.StepPayloadsBounded | src/shbcast.rs:74 | every outbound message of a step carries at most 2048 bytes |

## Left out

- Processes, pipes and the system calls `spawn`, `read`, `write_all`, `kill` and `try_wait`: each is an answer of the per-step `Env` oracle. The same `Env` serves a whole step, so two reads of one descriptor within a step return the same bytes.
- The latpr `Topic` transport, its wire format, the internals of `register_io` and `unregister_io`, and each `main`'s `step()` loop: only their effects appear, as trace entries.
- Logging macros, `env::args()` lookups, `LOG::init_log`, the `clean_up`/`on_exit` signal path, the `args.len() != 4` check and `STEP_TO_MS`: no behavioural content for the registry.
- The `stdin`/`stdout` `.as_ref()` checks that yield `None`, and the `ok_or` re-lookups after an insert: with piped stdio and a just-inserted entry these branches cannot be taken, so the model omits them.
- Spawn failures are whatever the `Env` oracle says; they are not tied to the spawn's arguments. In particular Rust's `Command` refuses an environment value with an interior NUL, so a label such as `a\0b` (valid UTF-8, accepted by Subscribe) makes the identity backend's next spawn fail. Identity.QuietSpawn and Identity.SubscribeDataUnsubscribe take a successful spawn as given for any label, and so do not capture this.
- A kill that fails is only logged by the source, so `Kill` is recorded as issued and never fails.
- A spawned child's stdout descriptor is modelled as a non-negative number, as the OS hands it out.
- A panic from an out-of-range payload slice is modelled as the step ending with `Err(Panic)`; unwinding is not modelled.
- `Broadcast`: the shared `process` is mutated through `&mut Child`. This appears only as `WriteStdin` and reads in the trace; the pipe buffers are part of `Env`.
- The order in which a `HashMap` is visited is not modelled beyond "some enumeration of the keys". Ordered statements are made for a given order, and order-free statements count effects as multisets.
- Exclusive.StepKeepsBalanced: requires that the descriptor of a freshly spawned child is not registered already, because the OS hands out a free descriptor and the model has no other way to know it.
- Identity.StepKeepsBalanced: requires the same of a freshly spawned child's descriptor, for the same reason.
