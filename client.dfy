/**
  The client side: one logical connection to the hub. The SignalR transport
  is abstracted. A `HubConnection` object stands for the transport handle and
  holds its state and trace settings. The outcome of each start attempt and
  each remote call is a parameter (an oracle) of the operation that needs it.
  State changes and the Closed notification arrive as calls to the handlers.
 */
module ClientConnection {
  import opened Wrappers
  import Config

  /** The transport's connection states. */
  datatype ConnectionState = Connecting | Connected | Reconnecting | Disconnected

  /** A state-change notification of the transport. */
  datatype StateChange = StateChange(oldState: ConnectionState, newState: ConnectionState)

  /** The client's two life-cycle events, raised for its consumers. */
  datatype ClientEvent = ConnectedEvent | DisconnectedEvent

  /** Trace verbosity; `Off` is the source's `None`. */
  datatype TraceLevel = Off | Messages | Events | StateChanges | All

  /** An exception raised by the transport. */
  datatype Error = Error(description: string)

  /** How an attempt to create and start a connection ends. */
  datatype StartOutcome = Started | StartFailed(error: Error)

  /** How a remote invocation ends. */
  datatype CallOutcome<T> = Replied(value: T) | CallFailed(error: Error)

  /** The requests the client hands to the transport. */
  datatype RemoteCall = Invoke(methodName: string, argCount: nat) | Subscribe(eventName: string, arity: nat)

  /** The disposable token a subscription returns. */
  datatype Subscription = Subscription(eventName: string, arity: nat)

  /**
    The exceptions the trace set-up raises: the null handle it dereferences,
    or the failure of opening the trace file for writing.
   */
  datatype Fault = NullReference | WriterFailed(error: Error)

  /** Seconds the reconnect loop waits between attempts, unless changed. */
  const DefaultRetryWait: int := 60

  /** The most handler arguments a subscription supports. */
  const MaxArity: nat := 7

  // ---------------------------------------------------------------------------
  // Pure decisions
  // ---------------------------------------------------------------------------

  /** The event raised for a state-change notification into `s`. */
  function EventFor(s: ConnectionState): (e: ClientEvent)
    ensures e == ConnectedEvent <==> s == Connected
    ensures e == DisconnectedEvent <==> s in {Connecting, Reconnecting, Disconnected}
  {
    match s
    case Connected => ConnectedEvent
    case Reconnecting => DisconnectedEvent
    case Connecting => DisconnectedEvent
    case Disconnected => DisconnectedEvent
  }

  /** The events raised for a run of notifications, in order. */
  function EventsFor(changes: seq<StateChange>): (es: seq<ClientEvent>)
    ensures |es| == |changes|
    ensures forall i :: 0 <= i < |changes| ==> es[i] == EventFor(changes[i].newState)
  {
    if |changes| == 0 then [] else [EventFor(changes[0].newState)] + EventsFor(changes[1..])
  }

  /** How many times `x` occurs in `s`. */
  function Occurrences<T(==)>(s: seq<T>, x: T): nat
  {
    if |s| == 0 then 0 else (if s[0] == x then 1 else 0) + Occurrences(s[1..], x)
  }

  /** The states a run of notifications enters. */
  function NewStates(changes: seq<StateChange>): (states: seq<ConnectionState>)
    ensures |states| == |changes|
    ensures forall i :: 0 <= i < |changes| ==> states[i] == changes[i].newState
  {
    if |changes| == 0 then [] else [changes[0].newState] + NewStates(changes[1..])
  }

  /**
    Over any run of notifications, Connected is raised once per entry into
    Connected and Disconnected once per entry into any other state.
   */
  lemma {:induction false} EventsCountEntries(changes: seq<StateChange>)
    ensures Occurrences(EventsFor(changes), ConnectedEvent) == Occurrences(NewStates(changes), Connected)
    ensures Occurrences(EventsFor(changes), DisconnectedEvent) == |changes| - Occurrences(NewStates(changes), Connected)
  {
    if |changes| > 0 {
      EventsCountEntries(changes[1..]);
    }
  }

  /** One more notification raises one more event, at the end. */
  lemma EventsForAppend(changes: seq<StateChange>, change: StateChange)
    ensures EventsFor(changes + [change]) == EventsFor(changes) + [EventFor(change.newState)]
  {
    var l, r := EventsFor(changes + [change]), EventsFor(changes) + [EventFor(change.newState)];
    assert |l| == |r|;
    assert forall i :: 0 <= i < |l| ==> l[i] == r[i];
  }

  /** `s` with every `from` replaced by `to` (String.Replace). */
  function ReplaceChar(s: string, from: char, to: char): (r: string)
    ensures |r| == |s|
    ensures forall i :: 0 <= i < |s| ==> r[i] == if s[i] == from then to else s[i]
    ensures from != to ==> from !in r
  {
    if |s| == 0 then [] else [if s[0] == from then to else s[0]] + ReplaceChar(s[1..], from, to)
  }

  /** The trace path as stored: every `#` becomes `-`. */
  function SanitizeTracePath(traceFile: string): (path: string)
    ensures '#' !in path
    ensures |path| == |traceFile|
  {
    ReplaceChar(traceFile, '#', '-')
  }

  /** What the trace set-up does with a configuration. */
  datatype TraceAction = NoTrace | MissingTraceFile | WriteTo(file: string)

  function TraceActionFor(level: TraceLevel, traceFile: string): (a: TraceAction)
    ensures a == NoTrace <==> level == Off
    ensures a == MissingTraceFile <==> level != Off && traceFile == ""
    ensures a.WriteTo? ==> a.file == traceFile
  {
    if level == Off then NoTrace
    else if traceFile == "" then MissingTraceFile
    else WriteTo(traceFile)
  }

  /**
    The public SetTrace as the source writes it, reduced to whether it throws:
    it stores the configuration, opens the trace file (`open` is how that
    ends) and then attaches it to the connection handle without checking
    that there is a handle.
   */
  function SetTraceAsWritten(level: TraceLevel, traceFile: string, hasHandle: bool, open: Outcome<Error>)
    : (r: Outcome<Fault>)
    ensures r.Fail? <==> level != Off && traceFile != "" && (open.Fail? || !hasHandle)
    ensures r == Fail(NullReference) <==> level != Off && traceFile != "" && open.Pass? && !hasHandle
    ensures open.Fail? && r.Fail? ==> r.error == WriterFailed(open.error)
  {
    match TraceActionFor(level, SanitizeTracePath(traceFile))
    case WriteTo(_) =>
      if open.Fail? then Fail(WriterFailed(open.error))
      else if hasHandle then Pass
      else Fail(NullReference)
    case _ => Pass
  }

  /** Tracing configured on a client that has not connected yet throws. */
  lemma SetTraceBeforeFirstConnectThrows()
    ensures SetTraceAsWritten(Messages, "trace.log", false, Pass) == Fail(NullReference)
  {
  }

  // ---------------------------------------------------------------------------
  // The transport handle
  // ---------------------------------------------------------------------------

  /**
    A transport connection object. Its state belongs to the transport; the
    trace settings are what the client attached to it (None: left as the
    transport sets them).
   */
  class HubConnection {
    const url: string
    const useSystemProxy: bool
    const proxyName: string
    var state: ConnectionState
    var traceWriter: Option<string>
    var traceLevel: Option<TraceLevel>

    constructor (url: string, useSystemProxy: bool, proxyName: string)
      ensures this.url == url && this.useSystemProxy == useSystemProxy && this.proxyName == proxyName
      ensures state == Disconnected && traceWriter == None && traceLevel == None
    {
      this.url, this.useSystemProxy, this.proxyName := url, useSystemProxy, proxyName;
      state, traceWriter, traceLevel := Disconnected, None, None;
    }
  }

  // ---------------------------------------------------------------------------
  // The connection manager
  // ---------------------------------------------------------------------------

  class Client {
    const hubUrl: string
    const proxyName: string
    const useSystemProxy: bool
    /** The current transport handle, null before the first and after a failed connect. */
    var handle: HubConnection?
    var lastError: Option<Error>
    var connectionRetryWait: int
    /** The background reconnect loop is running. */
    var reconnectLoopActive: bool
    var trace: TraceLevel
    /** The sanitised trace path; "" stands for an unset path. */
    var traceFile: string
    /** The life-cycle events raised so far. */
    var events: seq<ClientEvent>
    /** The invocations and subscriptions handed to the transport so far. */
    var calls: seq<RemoteCall>

    ghost predicate Valid()
      reads this, handle
    {
      && '#' !in traceFile
      && (handle != null ==>
            handle.url == hubUrl && handle.proxyName == proxyName && handle.useSystemProxy == useSystemProxy)
    }

    /**
      The handle carries the stored trace configuration as a fresh handle gets
      it from Connect: the path at level All when tracing is to be written,
      and no trace settings otherwise.
     */
    ghost predicate TraceAttached()
      reads this, handle
    {
      && handle != null
      && match TraceActionFor(trace, traceFile)
         case WriteTo(file) => handle.traceWriter == Some(file) && handle.traceLevel == Some(All)
         case _ => handle.traceWriter == None && handle.traceLevel == None
    }

    /** True when there is a handle and the transport reports it Connected. */
    function IsConnected(): (connected: bool)
      reads this, handle
      ensures connected <==> handle != null && handle.state == Connected
    {
      handle != null && handle.state == Connected
    }

    constructor (hubUrl: string, proxyName: string, useSystemProxy: bool)
      ensures Valid()
      ensures this.hubUrl == hubUrl && this.proxyName == proxyName && this.useSystemProxy == useSystemProxy
      ensures handle == null && lastError == None && !reconnectLoopActive
      ensures connectionRetryWait == DefaultRetryWait && trace == Off && traceFile == ""
      ensures events == [] && calls == []
    {
      this.hubUrl, this.proxyName, this.useSystemProxy := hubUrl, proxyName, useSystemProxy;
      handle, lastError, reconnectLoopActive := null, None, false;
      connectionRetryWait, trace, traceFile := DefaultRetryWait, Off, "";
      events, calls := [], [];
    }

    /** A client that connects without the system proxy. */
    constructor WithoutSystemProxy(hubUrl: string, proxyName: string)
      ensures Valid()
      ensures this.hubUrl == hubUrl && this.proxyName == proxyName && !useSystemProxy
      ensures handle == null && lastError == None && !reconnectLoopActive
      ensures connectionRetryWait == DefaultRetryWait && trace == Off && traceFile == ""
      ensures events == [] && calls == []
    {
      this.hubUrl, this.proxyName, this.useSystemProxy := hubUrl, proxyName, false;
      handle, lastError, reconnectLoopActive := null, None, false;
      connectionRetryWait, trace, traceFile := DefaultRetryWait, Off, "";
      events, calls := [], [];
    }

    /** A client for the URL and proxy name a configuration derives. */
    constructor FromConfig(config: Config.SignalRConfig)
      ensures Valid()
      ensures hubUrl == Config.HubUrl(config) && proxyName == Config.ProxyName(config)
      ensures useSystemProxy == config.useSystemProxy
      ensures handle == null && lastError == None && !reconnectLoopActive
      ensures connectionRetryWait == DefaultRetryWait && trace == Off && traceFile == ""
      ensures events == [] && calls == []
    {
      var url, name := Config.HubUrl(config), Config.ProxyName(config);
      hubUrl, proxyName, useSystemProxy := url, name, config.useSystemProxy;
      handle, lastError, reconnectLoopActive := null, None, false;
      connectionRetryWait, trace, traceFile := DefaultRetryWait, Off, "";
      events, calls := [], [];
    }

    /** Close: stops the current connection, which must exist. */
    method Close()
      requires handle != null
      modifies handle`state
      ensures handle.state == Disconnected
    {
      handle.state := Disconnected;
    }

    /**
      SetTrace(level, traceFile): stores the level and the sanitised path and
      attaches them to the current handle when there is one. `open` is how
      opening the trace file ends; its failure reaches the caller as
      `Fail(error)`, with the configuration stored and the handle untouched.
     */
    method SetTrace(level: TraceLevel, traceFile: string, open: Outcome<Error>) returns (r: Outcome<Error>)
      requires Valid()
      modifies this`trace, this`traceFile, handle
      ensures Valid()
      ensures trace == level && this.traceFile == SanitizeTracePath(traceFile)
      ensures handle == old(handle)
      ensures handle != null ==> handle.state == old(handle.state)
      ensures r.Fail? <==> handle != null && TraceActionFor(level, this.traceFile).WriteTo? && open.Fail?
      ensures r.Fail? ==> r.error == open.error
      ensures handle != null && TraceActionFor(level, this.traceFile).WriteTo? && open.Pass? ==>
                handle.traceWriter == Some(this.traceFile) && handle.traceLevel == Some(All)
      ensures handle != null && !(TraceActionFor(level, this.traceFile).WriteTo? && open.Pass?) ==>
                handle.traceWriter == old(handle.traceWriter) && handle.traceLevel == old(handle.traceLevel)
    {
      trace := level;
      this.traceFile := SanitizeTracePath(traceFile);
      r := ApplyTrace(open);
    }

    /**
      The private SetTrace(), with the handle checked before the trace file is
      opened: with a handle, a level above Off and a path, the handle writes
      its trace to that path at level All, unless opening the file fails.
     */
    method ApplyTrace(open: Outcome<Error>) returns (r: Outcome<Error>)
      modifies handle
      ensures handle != null ==> handle.state == old(handle.state)
      ensures r.Fail? <==> handle != null && TraceActionFor(trace, traceFile).WriteTo? && open.Fail?
      ensures r.Fail? ==> r.error == open.error
      ensures handle != null && TraceActionFor(trace, traceFile).WriteTo? && open.Pass? ==>
                handle.traceWriter == Some(traceFile) && handle.traceLevel == Some(All)
      ensures handle != null && !(TraceActionFor(trace, traceFile).WriteTo? && open.Pass?) ==>
                handle.traceWriter == old(handle.traceWriter) && handle.traceLevel == old(handle.traceLevel)
    {
      r := Pass;
      if trace != Off && traceFile != "" && handle != null {
        match open
        case Fail(e) =>
          r := Fail(e);
        case Pass =>
          handle.traceWriter := Some(traceFile);
          handle.traceLevel := Some(All);
      }
    }

    /**
      StartReconnectLoop: does nothing when a loop is already running or the
      retry wait is 0, and otherwise starts one.
     */
    method StartReconnectLoop()
      modifies this`reconnectLoopActive
      ensures reconnectLoopActive == (old(reconnectLoopActive) || connectionRetryWait != 0)
    {
      if reconnectLoopActive || connectionRetryWait == 0 {
        return;
      }
      reconnectLoopActive := true;
    }

    /** The transport's Closed notification: request a reconnect loop. */
    method HubConnectionOnClosed()
      modifies this`reconnectLoopActive
      ensures reconnectLoopActive == (old(reconnectLoopActive) || connectionRetryWait != 0)
    {
      StartReconnectLoop();
    }

    /** The transport's StateChanged notification: raise exactly one event. */
    method HubConnectionOnStateChanged(change: StateChange)
      modifies this`events
      ensures events == old(events) + [EventFor(change.newState)]
      ensures change.newState == Connected ==> events[|events| - 1] == ConnectedEvent
      ensures change.newState != Connected ==> events[|events| - 1] == DisconnectedEvent
    {
      match change.newState
      case Connected =>
        events := events + [ConnectedEvent];
      case Reconnecting =>
        events := events + [DisconnectedEvent];
      case Connecting =>
        events := events + [DisconnectedEvent];
      case Disconnected =>
        events := events + [DisconnectedEvent];
    }

    /**
      A run of StateChanged notifications, delivered one after another: the
      events raised are those of `EventsFor`, so Connected is raised once per
      entry into Connected.
     */
    method HandleStateChanges(changes: seq<StateChange>)
      modifies this`events
      ensures events == old(events) + EventsFor(changes)
      ensures Occurrences(events[|old(events)|..], ConnectedEvent) == Occurrences(NewStates(changes), Connected)
    {
      var i := 0;
      while i < |changes|
        invariant 0 <= i <= |changes|
        invariant events == old(events) + EventsFor(changes[..i])
      {
        HubConnectionOnStateChanged(changes[i]);
        EventsForAppend(changes[..i], changes[i]);
        assert changes[..i + 1] == changes[..i] + [changes[i]];
        i := i + 1;
      }
      assert changes[..i] == changes;
      assert events[|old(events)|..] == EventsFor(changes);
      EventsCountEntries(changes);
    }

    /**
      Connect: clears the last error, creates a fresh handle, applies the trace
      configuration and starts it. On failure the handle is dropped, the error
      kept and a reconnect loop requested.
     */
    method Connect(outcome: StartOutcome) returns (ok: bool)
      requires Valid()
      modifies this`handle, this`lastError, this`reconnectLoopActive
      ensures Valid()
      ensures ok <==> outcome.Started?
      ensures ok <==> IsConnected()
      ensures ok ==> fresh(handle) && lastError == None
      ensures ok ==> TraceAttached()
      ensures !ok ==> handle == null && lastError == Some(outcome.error)
      ensures reconnectLoopActive == (old(reconnectLoopActive) || (!ok && connectionRetryWait != 0))
    {
      lastError := None;
      handle := new HubConnection(hubUrl, useSystemProxy, proxyName);
      // A failure to open the trace file is one of the failures `outcome` stands for.
      var _ := ApplyTrace(Pass);
      match outcome
      case Started =>
        handle.state := Connected;
        ok := true;
      case StartFailed(e) =>
        lastError := Some(e);
        handle := null;
        ok := false;
        StartReconnectLoop();
    }

    /**
      CheckConnectionState: true at once when connected, otherwise the result
      of a fresh Connect. It returns true exactly when the client is connected
      afterwards.
     */
    method CheckConnectionState(outcome: StartOutcome) returns (ok: bool)
      requires Valid()
      modifies this`handle, this`lastError, this`reconnectLoopActive
      ensures Valid()
      ensures ok <==> IsConnected()
      ensures old(IsConnected()) ==>
                ok && handle == old(handle) && lastError == old(lastError)
                && reconnectLoopActive == old(reconnectLoopActive)
      ensures !old(IsConnected()) ==> (ok <==> outcome.Started?)
      ensures !old(IsConnected()) && ok ==>
                fresh(handle) && lastError == None && reconnectLoopActive == old(reconnectLoopActive)
      ensures !old(IsConnected()) && ok ==> TraceAttached()
      ensures !old(IsConnected()) && !ok ==>
                handle == null && lastError == Some(outcome.error)
                && reconnectLoopActive == (old(reconnectLoopActive) || connectionRetryWait != 0)
    {
      if handle == null || handle.state != Connected {
        ok := Connect(outcome);
        return;
      }
      // Without a concurrent state change the handle is still Connected here,
      // so the restart of a Disconnected handle is not reached.
      assert IsConnected();
      ok := true;
    }

    /**
      InvokeMethod: when the connectivity check fails, returns `default`
      without calling the transport; otherwise hands the call to the
      transport, and when the call throws records the error and returns
      `default`.
     */
    method InvokeMethod<T>(methodName: string, argCount: nat, outcome: StartOutcome, reply: CallOutcome<T>, default: T)
      returns (r: T)
      requires Valid()
      modifies this`handle, this`lastError, this`reconnectLoopActive, this`calls
      ensures Valid()
      ensures old(IsConnected()) ==> handle == old(handle) && IsConnected()
      ensures !old(IsConnected()) ==> (IsConnected() <==> outcome.Started?)
      ensures !old(IsConnected()) && IsConnected() ==> fresh(handle) && TraceAttached()
      ensures !IsConnected() ==>
                handle == null && lastError == Some(outcome.error)
                && reconnectLoopActive == (old(reconnectLoopActive) || connectionRetryWait != 0)
      ensures IsConnected() ==> reconnectLoopActive == old(reconnectLoopActive)
      ensures !IsConnected() ==> r == default && calls == old(calls)
      ensures IsConnected() ==> calls == old(calls) + [Invoke(methodName, argCount)]
      ensures IsConnected() && reply.Replied? ==>
                r == reply.value && lastError == (if old(IsConnected()) then old(lastError) else None)
      ensures IsConnected() && reply.CallFailed? ==> r == default && lastError == Some(reply.error)
    {
      var connected := CheckConnectionState(outcome);
      if !connected {
        return default;
      }
      calls := calls + [Invoke(methodName, argCount)];
      match reply
      case Replied(value) =>
        r := value;
      case CallFailed(e) =>
        lastError := Some(e);
        r := default;
    }

    /**
      RegisterEvent for a handler of `arity` arguments: a subscription when the
      connectivity check succeeds, None (null) otherwise.
     */
    method RegisterEvent(eventName: string, arity: nat, outcome: StartOutcome) returns (r: Option<Subscription>)
      requires Valid()
      requires arity <= MaxArity
      modifies this`handle, this`lastError, this`reconnectLoopActive, this`calls
      ensures Valid()
      ensures old(IsConnected()) ==> handle == old(handle) && lastError == old(lastError)
      ensures !old(IsConnected()) ==> (IsConnected() <==> outcome.Started?)
      ensures !old(IsConnected()) && IsConnected() ==> fresh(handle) && lastError == None && TraceAttached()
      ensures !IsConnected() ==>
                handle == null && lastError == Some(outcome.error)
                && reconnectLoopActive == (old(reconnectLoopActive) || connectionRetryWait != 0)
      ensures IsConnected() ==> reconnectLoopActive == old(reconnectLoopActive)
      ensures r.None? <==> !IsConnected()
      ensures r.Some? ==> r.value == Subscription(eventName, arity)
                          && calls == old(calls) + [Subscribe(eventName, arity)]
      ensures r.None? ==> calls == old(calls)
    {
      r := None;
      var connected := CheckConnectionState(outcome);
      if connected {
        calls := calls + [Subscribe(eventName, arity)];
        r := Some(Subscription(eventName, arity));
      }
    }

    /**
      The reconnect loop's body, run once per element of `outcomes` (the
      outcome of that round's connect attempt) until a connectivity check
      succeeds; then the loop ends. When the outcomes run out first the loop
      is still running.
     */
    method ReconnectLoop(outcomes: seq<StartOutcome>) returns (connected: bool, rounds: nat)
      requires Valid() && reconnectLoopActive
      modifies this`handle, this`lastError, this`reconnectLoopActive
      ensures Valid()
      ensures rounds <= |outcomes|
      ensures connected ==> IsConnected() && !reconnectLoopActive && rounds > 0
      ensures !connected ==> reconnectLoopActive && rounds == |outcomes|
      ensures rounds == 0 ==> handle == old(handle) && lastError == old(lastError)
      ensures !connected && rounds > 0 ==>
                outcomes[rounds - 1].StartFailed? && handle == null && lastError == Some(outcomes[rounds - 1].error)
      ensures old(IsConnected()) && |outcomes| > 0 ==> connected && rounds == 1 && handle == old(handle)
      ensures !old(IsConnected()) ==> (connected <==> Started in outcomes)
      ensures !old(IsConnected()) && connected ==>
                outcomes[rounds - 1] == Started && Started !in outcomes[..rounds - 1]
      ensures old(IsConnected()) && connected ==> lastError == old(lastError)
      ensures !old(IsConnected()) && connected ==> fresh(handle) && lastError == None && TraceAttached()
    {
      connected, rounds := false, 0;
      while !connected && rounds < |outcomes|
        invariant Valid()
        invariant rounds <= |outcomes|
        invariant reconnectLoopActive
        invariant connected ==> IsConnected() && rounds > 0
        invariant !connected && rounds > 0 ==>
                    outcomes[rounds - 1].StartFailed? && handle == null && lastError == Some(outcomes[rounds - 1].error)
        invariant rounds == 0 ==> handle == old(handle) && lastError == old(lastError) && !connected
        invariant old(IsConnected()) && connected ==> lastError == old(lastError)
        invariant !old(IsConnected()) && connected ==> fresh(handle) && lastError == None && TraceAttached()
        invariant old(IsConnected()) ==> rounds == 0 || (connected && rounds == 1 && handle == old(handle))
        invariant !old(IsConnected()) && !connected ==> Started !in outcomes[..rounds]
        invariant !old(IsConnected()) && connected ==>
                    outcomes[rounds - 1] == Started && Started !in outcomes[..rounds - 1]
      {
        // The wait of connectionRetryWait seconds before each check is not modelled.
        connected := CheckConnectionState(outcomes[rounds]);
        assert outcomes[..rounds + 1] == outcomes[..rounds] + [outcomes[rounds]];
        rounds := rounds + 1;
      }
      if connected {
        reconnectLoopActive := false;
      }
      assert !old(IsConnected()) && !connected ==> outcomes[..rounds] == outcomes;
    }
  }
}
