# Aurora.SignalR core, modelled in Dafny

This project models the logic of a SignalR-based publish/subscribe channel. It has three parts.

- **Hub client registry (`hub.dfy`, module `Hub`).** Sessions call `Register(name[, version])` and `DeRegister(name)` on the hub. The transport reports a session's end through `OnDisconnected`. The registry maps each connection id to the record the session registered with. Each new registration also adds the session to the group named after the client. Every change is announced to the administrative group, whose name is spelled `"ManamgementGroup"` as in the hub. `Registry` is a value snapshot of the dictionary, the group memberships and the notifications sent. `RegisterEffect`, `DeRegisterEffect` and `DisconnectEffect` state what each operation does to that snapshot, and the lemmas beside them state what the operations promise. The class `ManagedHub` performs the operations in place and is proved against those functions, keeping the invariant `Consistent`.
- **Client connection manager (`client.dfy`, module `ClientConnection`).** The class `Client` holds:
  - the handle (a `HubConnection` object or null);
  - `lastError`;
  - the retry wait;
  - a "reconnect loop running" flag;
  - the trace configuration;
  - the life-cycle events it raised;
  - the calls it handed to the transport.

  The transport is an oracle. Each connect attempt takes a `StartOutcome` and each remote call a `CallOutcome`. The transport's state-change and Closed notifications are calls to the handler methods. The background reconnect loop is the flag plus the method `ReconnectLoop`, which runs the loop body once per supplied outcome.
- **Configuration (`config.dfy`, module `Config`).** `HubUrl` and `ProxyName` derive the connect URL and the hub proxy name from the socket address and the hub path.

`wrappers.dfy` holds the `Option`, `Result` and `Outcome` types used for null returns and exceptions.

## Model

| member | source | states |
|---|---|---|
| `Config.Defaults` | Config/SignalRConfig.cs:12-40 | The declared defaults are an empty socket, an empty hub path and no system proxy; with them the URL is `"/"` and the proxy name is empty |
| `Config.TrimEnd` | Config/SignalRConfig.cs:36 | The result is a prefix of the input, does not end with the trimmed character, and only that character was removed |
| `Config.TrimStart` | Config/SignalRConfig.cs:36 | The result is a suffix of the input, does not start with the trimmed character, and only that character was removed |
| `Config.HubUrl` | Config/SignalRConfig.cs:36 | The connect URL is never empty; its shape is stated by `HubUrlJoinsWithOneSlash` |
| `Config.HubUrlJoinsWithOneSlash` | Config/SignalRConfig.cs:36 | The URL is the socket minus trailing slashes, exactly one slash, then the hub minus leading slashes; no slash is next to the joining slash |
| `Config.TrimEndAbsorbs` | Config/SignalRConfig.cs:36 | Appending any number of trimmed characters does not change TrimEnd |
| `Config.TrimStartAbsorbs` | Config/SignalRConfig.cs:36 | Prepending any number of trimmed characters does not change TrimStart |
| `Config.HubUrlIgnoresExtraSlashes` | Config/SignalRConfig.cs:36 | Extra trailing slashes on the socket or extra leading slashes on the hub path leave the URL unchanged |
| `Config.TrimIdempotent` | Config/SignalRConfig.cs:36 | Trimming an already trimmed string changes nothing, at either end |
| `Config.LastSeparator` | Config/SignalRConfig.cs:40 | Index of the last `/`, `\` or `:`, or -1; no separator follows it |
| `Config.ProxyName` | Config/SignalRConfig.cs:40 | The proxy name is a suffix of the hub path, contains no separator, and is preceded by a separator whenever it is shorter than the path |
| `Config.ProxyNameOfPlainName` | Config/SignalRConfig.cs:40 | A hub path without separators is its own proxy name |
| `Hub.IndexOf` | Hub/ManagedHub.cs:128 | First index of the character, or -1 exactly when it does not occur |
| `Hub.TranslateClientName` | Hub/ManagedHub.cs:126-132 | The result is a prefix of the name. It is the whole name iff there is no `_` or the name starts with `_`. Otherwise it is the non-empty, underscore-free part before the first `_` |
| `Hub.TranslateIdempotent` | Hub/ManagedHub.cs:126-132 | Translating twice is translating once |
| `Hub.SuffixedNameTranslatesToRoot` | Hub/ManagedHub.cs:126-132 | `root + "_" + suffix` translates to `root` when root is non-empty and free of `_` |
| `Hub.Lookup` | Hub/ManagedHub.cs:118-124 | None exactly when the session has no record; otherwise the record stored under the session's id |
| `Hub.FirstMatch` | Hub/ManagedHub.cs:137-141 | Returns the first entry with the given name and at least the given version, and None iff no entry qualifies |
| `Hub.InOrder` | Hub/ManagedHub.cs:137-139 | Enumerating the dictionary in a given key order yields only its records, and every record whose key is listed |
| `Hub.InOrderConcat` | Hub/ManagedHub.cs:137-139 | Enumerating one run of ids and then another yields the first run's records followed by the second's, so the entries keep the enumeration order |
| `Hub.InOrderSingle` | Hub/ManagedHub.cs:137-139 | A single id yields its record when it has one, and nothing otherwise |
| `Hub.ManagedHub.GetRegisteredClientFromClientName` | Hub/ManagedHub.cs:134-143 | A returned record is registered, has the name and a version at least the minimum. None is returned iff no registered record qualifies |
| `Hub.ManagedHub.GetRegisteredClientFromConnectionId` | Hub/ManagedHub.cs:118-124 | None iff the session has no record. A found record is the one stored under the caller's id; it carries that id, never carries the reserved name, and its session is in its group |
| `Hub.RegisterEffect` | Hub/ManagedHub.cs:77-93 | Register fails exactly for the reserved name, and otherwise replies with the caller's id, which then has a record. Only the caller can gain a record, and a session that already has one changes nothing |
| `Hub.DeRegisterEffect` | Hub/ManagedHub.cs:99-114 | DeRegister replies with the caller's id, leaves the caller without a record, and always appends `ClientDisconnected` of the translated name |
| `Hub.DisconnectEffect` | Hub/ManagedHub.cs:47-59 | OnDisconnected changes nothing for an unregistered session; for a registered one the record's id loses its record and `ClientDisconnected` of the registered name is appended |
| `Hub.RegisterRejectsReservedName` | Hub/ManagedHub.cs:77-81 | Registering under `"ManamgementGroup"` fails and changes no record, membership or notification |
| `Hub.RegisterNewSession` | Hub/ManagedHub.cs:83-90 | An unregistered session gains exactly one record (name, version, id) and joins group `name`. Exactly one `ClientConnected(name)` is sent, the reply is the caller's id, and nothing outside the caller changes |
| `Hub.RegisterIdempotent` | Hub/ManagedHub.cs:83-92 | After a successful Register, a further Register on that session (any name, any version) returns the same id and changes nothing |
| `Hub.DeRegisterEffects` | Hub/ManagedHub.cs:99-114 | Exactly one `ClientDisconnected(TranslateClientName(name))` is sent, with or without a record. The caller's record is removed. The caller leaves only the translated name's group. Nothing outside the caller changes |
| `Hub.DisconnectEffects` | Hub/ManagedHub.cs:47-59 | A registered session loses its record and its membership of the group it registered under. One `ClientDisconnected` is sent with the registered name. An unregistered session changes nothing. Nothing outside the caller changes |
| `Hub.EffectsPreserveConsistency` | Hub/ManagedHub.cs:47-114 | Register, DeRegister and OnDisconnected keep every record under its own id, free of the reserved name, and in its group |
| `Hub.DeRegisterPreservesConsistency` | Hub/ManagedHub.cs:99-114 | DeRegister keeps every remaining record under its own id and in its group |
| `Hub.SecondRemovalIsNoOp` | Hub/ManagedHub.cs:47-114 | After either removal, a second OnDisconnected changes nothing, and a DeRegister leaves the records unchanged |
| `Hub.DisconnectUndoesRegister` | Hub/ManagedHub.cs:47-90 | Register followed by OnDisconnected restores the records and memberships. The administrative group sees the name connect and disconnect |
| `Hub.DeRegisterUndoesRegister` | Hub/ManagedHub.cs:77-114 | DeRegister under the registered name undoes Register in the same way, when TranslateClientName leaves the name unchanged (no `_`, or a leading `_`) |
| `Hub.DeRegisterSuffixedNameKeepsGroup` | Hub/ManagedHub.cs:77-114 | A session registered as `root_suffix` that deregisters with that name loses its record but stays in group `root_suffix`. The notifications name `root_suffix` on connect and `root` on disconnect |
| `Hub.ManagedHub.constructor` | Hub/ManagedHub.cs:29 | The registry starts empty and consistent |
| `Hub.ManagedHub.Register` | Hub/ManagedHub.cs:67-70 | Register(name) is Register(name, 0): reply and new state are `RegisterEffect` with version 0; consistency kept |
| `Hub.ManagedHub.RegisterVersioned` | Hub/ManagedHub.cs:77-93 | Reply and new state are those of `RegisterEffect`; consistency kept |
| `Hub.ManagedHub.DeRegister` | Hub/ManagedHub.cs:99-114 | Reply and new state are those of `DeRegisterEffect`; consistency kept |
| `Hub.ManagedHub.OnDisconnected` | Hub/ManagedHub.cs:47-59 | New state is `DisconnectEffect` of the old one; consistency kept |
| `ClientConnection.EventFor` | Client/Client.cs:386-396 | A notification into Connected raises Connected; one into Connecting, Reconnecting or Disconnected raises Disconnected |
| `ClientConnection.EventsFor` | Client/Client.cs:383-397 | A run of notifications raises one event per notification, in order: the i-th event is the one for the i-th new state |
| `ClientConnection.NewStates` | Client/Client.cs:383-397 | The states a run of notifications enters, in order |
| `ClientConnection.EventsForAppend` | Client/Client.cs:383-397 | One more notification appends exactly its event to the run's events |
| `ClientConnection.EventsCountEntries` | Client/Client.cs:383-397 | Over any run, Connected is raised as often as Connected is entered; Disconnected is raised once for every other notification |
| `ClientConnection.Client.HubConnectionOnStateChanged` | Client/Client.cs:383-398 | Exactly one event is appended, chosen by the new state |
| `ClientConnection.Client.HandleStateChanges` | Client/Client.cs:383-398 | Delivering a run of notifications to the handler appends exactly `EventsFor` of the run; Connected is raised once per entry into Connected |
| `ClientConnection.ReplaceChar` | Client/Client.cs:148 | Same length; each replaced character becomes the replacement, others are kept; the replaced character no longer occurs |
| `ClientConnection.SanitizeTracePath` | Client/Client.cs:148 | The stored trace path has the input's length and contains no `#` |
| `ClientConnection.TraceActionFor` | Client/Client.cs:338-351 | No tracing iff the level is None. A missing-file error iff the level is set and the path empty. Otherwise the trace is written to the path |
| `ClientConnection.SetTraceAsWritten` | Client/Client.cs:145-150 | As written, with a level set and a non-empty path, SetTrace throws when opening the trace file fails, and otherwise throws a null reference exactly when there is no connection handle; with no level or no path it does not throw |
| `ClientConnection.SetTraceBeforeFirstConnectThrows` | Client/Client.cs:338-345 | `SetTrace(Messages, "trace.log")` before any connection throws a null reference |
| `ClientConnection.Client.SetTrace` | Client/Client.cs:145-150 | Stores the level and the `#`-free path. With a handle and a level and path set, the handle writes to that path at level All, unless opening the file fails; that failure reaches the caller and leaves the handle untouched. Without a handle it never faults |
| `ClientConnection.Client.ApplyTrace` | Client/Client.cs:336-353 | With a handle, a level set and a path, the handle writes to the path at level All, or the failure to open the file is returned; otherwise the handle is untouched and nothing fails |
| `ClientConnection.HubConnection.constructor` | Client/Client.cs:300-310 | A new handle carries the client's URL, proxy setting and proxy name, starts Disconnected, and has no trace attached |
| `ClientConnection.Client.IsConnected` | Client/Client.cs:91 | Connected exactly when there is a handle and the transport reports it Connected |
| `ClientConnection.Client.constructor` | Client/Client.cs:125-130 | Stores URL, proxy name and proxy flag. No handle, no error, no loop. Retry wait 60, tracing off |
| `ClientConnection.Client.WithoutSystemProxy` | Client/Client.cs:115-117 | As the constructor, without the system proxy |
| `ClientConnection.Client.FromConfig` | Client/Client.cs:107-109 | As the constructor, with the URL, proxy name and proxy flag derived from the configuration |
| `ClientConnection.Client.Close` | Client/Client.cs:136-139 | Stops the existing connection: its state becomes Disconnected |
| `ClientConnection.Client.StartReconnectLoop` | Client/Client.cs:364-378 | Does nothing when a loop is running or the retry wait is 0; otherwise exactly one loop becomes active |
| `ClientConnection.Client.HubConnectionOnClosed` | Client/Client.cs:355-360 | The Closed notification requests a reconnect loop under the same guard |
| `ClientConnection.Client.Connect` | Client/Client.cs:290-334 | Returns true iff the start succeeds, and exactly when connected afterwards. Success: a fresh handle, no last error, the trace configuration attached, loop flag unchanged. Failure: no handle, the error recorded, a loop requested |
| `ClientConnection.Client.CheckConnectionState` | Client/Client.cs:404-435 | Returns true iff connected afterwards. Already connected: true with nothing changed. Otherwise what Connect does: on success a fresh handle with the trace configuration attached, no last error and the loop flag unchanged; on failure no handle, the error recorded and a loop requested |
| `ClientConnection.Client.InvokeMethod` | Client/Client.cs:158-187 | Not connected after the check: the default value, the transport is not called, there is no handle, the connect error is recorded and a loop is requested. Connected: the loop flag is unchanged, a new handle is fresh and carries the trace configuration, and the call is handed over once. Its reply is returned, or the default with the error recorded when it throws |
| `ClientConnection.Client.RegisterEvent` | Client/Client.cs:193-283 | For every arity 0 to 7: None exactly when the check leaves the client unconnected, and then there is no handle, the connect error is recorded and a loop is requested. Otherwise a subscription for that event and arity, handed to the transport once, with the loop flag unchanged, the last error cleared only by a new connection, and a new handle carrying the trace configuration |
| `ClientConnection.Client.ReconnectLoop` | Client/Client.cs:369-377 | Repeats the check until it succeeds, then the loop ends. It succeeds iff some attempt starts, and stops at the first one that does. On success the last error is unchanged if the client was already connected, and otherwise cleared, with a fresh handle carrying the trace configuration. While none does, the loop stays active with no handle and the last attempt's error; with no attempt at all, nothing changes |

## Left out

- Hub/Service.cs and Hub/ErrorHandlingPipelineModule.cs: OWIN self-hosting, CORS and error logging. They are hosting glue.
- All NLog output, including the trace-level logging of invocation arguments in `InvokeMethod`.
- Concurrency. The client's lock, `Task.Run`, `Thread.Sleep` and `Task.Status` polling are not modelled. The loop is a flag, and `ReconnectLoop` runs its body sequentially. A task that is scheduled but not yet Running, which would let a second loop start, is not modelled. Neither is the concurrent `DeRegister`/`OnDisconnected` race on the dictionary, nor the null record that `TryRemove` leaves on line 55 when it loses that race. The hub runs one operation at a time.
- CheckConnectionState's restart of a handle in state Disconnected (Client/Client.cs:416-433). Run sequentially, the handle is Connected at that point, so the model asserts the branch is not reached. Only a concurrent state change reaches it.
- ReconnectLoop: the model observes only as many rounds as it is given outcomes. A loop whose outcomes all fail stays active rather than running forever. The wait of `ConnectionRetryWait` seconds is not modelled. Neither is the exception a negative or overflowing wait would raise in `Thread.Sleep`.
- Connect: a single start outcome stands for every exception inside the try block. That covers the URL, the proxy, the trace `StreamWriter` and `Start().Wait()`. Several steps are not modelled:
  - closing the previous handle's trace writer;
  - the web-proxy objects (only the flag is kept on the handle);
  - the auth header;
  - the slow-connection and error callbacks, which only log.

  The state-change notifications the transport raises while starting reach the client through `HubConnectionOnStateChanged`. Connect itself does not raise them.
- `m_Proxy` is not a separate field. The proxy name is kept on the handle, and calls are recorded in `calls` only when the handle is Connected.
- InvokeMethod records only the method name and the argument count. The result type's default value is a parameter.
- RegisterEvent does not model the handler itself, or an exception thrown by the transport's `On`, which the source does not catch.
- Group membership changes are applied at once. The source does not await the tasks they return. Broadcasts are appended to `outbox` and not delivered. `base.OnDisconnected` is not modelled.
- TranslateClientName: the culture-sensitive `IndexOf` with `InvariantCultureIgnoreCase` is modelled as an ordinal search for `_`.
- ProxyName: `Path.GetFileName` follows .NET Framework, with separators `/`, `\` and `:`. Its exception for invalid path characters is not modelled. Null strings are not modelled anywhere.
- Trace levels are five distinct values, and the check `> None` is modelled as `!= Off`. A handle's trace settings before the client attaches any are left as `None`.
- `SignalRConfig.ToString` and the reading of configuration values are not modelled.
- Close: it requires a handle, because the source dereferences it unchecked. The Closed notification that stopping raises arrives separately through `HubConnectionOnClosed`.
- SetTrace: Connect attaches the stored trace configuration to every new handle (Client/Client.cs:317), so the public SetTrace only needs to attach it when a handle exists. The code does not check for a handle. The model follows the code in `SetTraceAsWritten`, and `Client.SetTrace` carries the corrected guard (see Findings). Opening the trace file is an outcome parameter; in `Connect` its failure is one of the failures the start outcome stands for. The writer's `AutoFlush` and the closing of the replaced writer are not modelled.

## Findings

| source | as written | input that shows it | evidently intended | confidence | as-written member | corrected member |
|---|---|---|---|---|---|---|
| Client/Client.cs:145-150, 336-353 | The public `SetTrace` stores the configuration and then sets `m_HubConnection.TraceWriter` without checking for a handle | `SetTrace(Messages, "trace.log")` on a client that has not connected yet throws a NullReferenceException | Store the configuration, attach it to the handle only when one exists, and let the next Connect attach it | medium, not executed | `ClientConnection.SetTraceAsWritten` (with `SetTraceBeforeFirstConnectThrows`) | `ClientConnection.Client.SetTrace` (with `Client.ApplyTrace` and `Client.Connect`) |
