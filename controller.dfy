/** `PlayController` (handlers/www/assets/app-simplified.js): the scope
    fields of the play page, the socket callbacks `connect` registers and
    the open/close/message listeners that run them, the window-resize
    debounce, terminal input, `runCommand`, `uploadFiles` and the session
    fetch. HTTP requests, dialogs, navigation and timers that are not
    instance timers are recorded as `Effect`s for the environment. */
module PlayController {
  import opened JsValues
  import opened Instances
  import opened EventChannel
  import opened InstanceStore
  import opened Resize
  import opened Helpers
  import opened Upload

  /** The callbacks `connect` registers with `socket.on`. */
  datatype Handler =
    | OnConnect | OnDisconnect | OnSessionReady | OnBuilderOut | OnSessionEnd
    | OnInstanceNew | OnInstanceDelete | OnViewportResize | OnStats
    | OnTerminalStatus | OnTerminalOut | OnPort | OnSwarmPort | OnSessionTimer

  /** The `socket.on` calls of `connect`, in source order. */
  function AppRegistrations(): seq<(string, Handler)> {
    []
    + [("connect", OnConnect)]
    + [("disconnect", OnDisconnect)]
    + [("session ready", OnSessionReady)]
    + [("session builder out", OnBuilderOut)]
    + [("session end", OnSessionEnd)]
    + [("instance new", OnInstanceNew)]
    + [("instance delete", OnInstanceDelete)]
    + [("instance viewport resize", OnViewportResize)]
    + [("instance stats", OnStats)]
    + [("instance terminal status", OnTerminalStatus)]
    + [("instance terminal out", OnTerminalOut)]
    + [("instance port", OnPort)]
    + [("instance swarm port", OnSwarmPort)]
    + [("session timer", OnSessionTimer)]
  }

  /** The registrations in three runs: the session callbacks, the instance
      callbacks and the session timer. */

  function SessionRegistrations(): seq<(string, Handler)> {
    []
    + [("connect", OnConnect)]
    + [("disconnect", OnDisconnect)]
    + [("session ready", OnSessionReady)]
    + [("session builder out", OnBuilderOut)]
    + [("session end", OnSessionEnd)]
  }

  function InstanceRegistrations(): seq<(string, Handler)> {
    []
    + [("instance new", OnInstanceNew)]
    + [("instance delete", OnInstanceDelete)]
    + [("instance viewport resize", OnViewportResize)]
    + [("instance stats", OnStats)]
    + [("instance terminal status", OnTerminalStatus)]
    + [("instance terminal out", OnTerminalOut)]
    + [("instance port", OnPort)]
    + [("instance swarm port", OnSwarmPort)]
  }

  function TimerRegistrations(): seq<(string, Handler)> {
    [("session timer", OnSessionTimer)]
  }

  /** Reference table: which callback an event name is handled by. */
  function HandlerFor(name: string): Option<Handler> {
    if name == "connect" then Some(OnConnect)
    else if name == "disconnect" then Some(OnDisconnect)
    else if name == "session ready" then Some(OnSessionReady)
    else if name == "session builder out" then Some(OnBuilderOut)
    else if name == "session end" then Some(OnSessionEnd)
    else if name == "instance new" then Some(OnInstanceNew)
    else if name == "instance delete" then Some(OnInstanceDelete)
    else if name == "instance viewport resize" then Some(OnViewportResize)
    else if name == "instance stats" then Some(OnStats)
    else if name == "instance terminal status" then Some(OnTerminalStatus)
    else if name == "instance terminal out" then Some(OnTerminalOut)
    else if name == "instance port" then Some(OnPort)
    else if name == "instance swarm port" then Some(OnSwarmPort)
    else if name == "session timer" then Some(OnSessionTimer)
    else None
  }

  /** The callbacks for `name` according to the reference table. */
  function AppHandlers(name: string): seq<Handler> {
    if HandlerFor(name).Some? then [HandlerFor(name).value] else []
  }

  /** One more registration adds its callback to its own name only. */
  lemma NamedSnoc<H>(log: seq<(string, H)>, n: string, h: H, name: string)
    ensures Named(log + [(n, h)], name) == Named(log, name) + (if n == name then [h] else [])
  {
    assert (log + [(n, h)])[..|log|] == log;
  }

  /** The callbacks of two registration runs are those of the first run
      followed by those of the second. */
  lemma {:induction false} NamedAppend<H>(a: seq<(string, H)>, b: seq<(string, H)>, name: string)
    ensures Named(a + b, name) == Named(a, name) + Named(b, name)
    decreases |b|
  {
    if b == [] {
      assert a + b == a;
    } else {
      var init := b[..|b| - 1];
      assert (a + b)[..|a + b| - 1] == a + init;
      assert (a + b)[|a + b| - 1] == b[|b| - 1];
      NamedAppend(a, init, name);
    }
  }

  /** The callbacks that act on the session rather than on an instance. */
  predicate SessionHandler(h: Handler) {
    h.OnConnect? || h.OnDisconnect? || h.OnSessionReady? || h.OnBuilderOut? || h.OnSessionEnd?
  }

  /** The session run registers exactly the session callbacks of the table. */
  lemma SessionListeners(name: string)
    ensures Named(SessionRegistrations(), name)
         == if HandlerFor(name).Some? && SessionHandler(HandlerFor(name).value) then [HandlerFor(name).value] else []
  {
    var r0: seq<(string, Handler)> := [];
    var r1 := r0 + [("connect", OnConnect)];
    NamedSnoc(r0, "connect", OnConnect, name);
    var r2 := r1 + [("disconnect", OnDisconnect)];
    NamedSnoc(r1, "disconnect", OnDisconnect, name);
    var r3 := r2 + [("session ready", OnSessionReady)];
    NamedSnoc(r2, "session ready", OnSessionReady, name);
    var r4 := r3 + [("session builder out", OnBuilderOut)];
    NamedSnoc(r3, "session builder out", OnBuilderOut, name);
    NamedSnoc(r4, "session end", OnSessionEnd, name);
  }

  /** The instance run registers exactly the store callbacks of the table. */
  lemma InstanceListeners(name: string)
    ensures Named(InstanceRegistrations(), name)
         == if HandlerFor(name).Some? && StoreHandler(HandlerFor(name).value) then [HandlerFor(name).value] else []
  {
    var r0: seq<(string, Handler)> := [];
    var r1 := r0 + [("instance new", OnInstanceNew)];
    NamedSnoc(r0, "instance new", OnInstanceNew, name);
    var r2 := r1 + [("instance delete", OnInstanceDelete)];
    NamedSnoc(r1, "instance delete", OnInstanceDelete, name);
    var r3 := r2 + [("instance viewport resize", OnViewportResize)];
    NamedSnoc(r2, "instance viewport resize", OnViewportResize, name);
    var r4 := r3 + [("instance stats", OnStats)];
    NamedSnoc(r3, "instance stats", OnStats, name);
    var r5 := r4 + [("instance terminal status", OnTerminalStatus)];
    NamedSnoc(r4, "instance terminal status", OnTerminalStatus, name);
    var r6 := r5 + [("instance terminal out", OnTerminalOut)];
    NamedSnoc(r5, "instance terminal out", OnTerminalOut, name);
    var r7 := r6 + [("instance port", OnPort)];
    NamedSnoc(r6, "instance port", OnPort, name);
    NamedSnoc(r7, "instance swarm port", OnSwarmPort, name);
  }

  /** The last registration is the session timer's. */
  lemma TimerListener(name: string)
    ensures Named(TimerRegistrations(), name)
         == if HandlerFor(name) == Some(OnSessionTimer) then [OnSessionTimer] else []
  {
    NamedSnoc([], "session timer", OnSessionTimer, name);
    assert [] + TimerRegistrations() == TimerRegistrations();
  }

  /** `connect` registers the three runs one after the other. */
  lemma RegistrationRuns()
    ensures AppRegistrations() == SessionRegistrations() + InstanceRegistrations() + TimerRegistrations()
  {
  }

  /** Every event name of the page has exactly its one callback, and every
      other name has none. */
  lemma AppListeners(name: string)
    ensures Named(AppRegistrations(), name) == AppHandlers(name)
  {
    var session, instance, timer := SessionRegistrations(), InstanceRegistrations(), TimerRegistrations();
    RegistrationRuns();
    NamedAppend(session + instance, timer, name);
    NamedAppend(session, instance, name);
    SessionListeners(name);
    InstanceListeners(name);
    TimerListener(name);
    JoinGroups(HandlerFor(name), Named(session, name), Named(instance, name), Named(timer, name));
  }

  /** A callback belongs to exactly one of the three registration runs. */
  lemma JoinGroups(h: Option<Handler>, session: seq<Handler>, instance: seq<Handler>, timer: seq<Handler>)
    requires session == if h.Some? && SessionHandler(h.value) then [h.value] else []
    requires instance == if h.Some? && StoreHandler(h.value) then [h.value] else []
    requires timer == if h == Some(OnSessionTimer) then [OnSessionTimer] else []
    ensures session + instance + timer == if h.Some? then [h.value] else []
  {
  }

  /** The calls a dispatch makes: each callback with the frame's arguments. */
  function Calls(hs: seq<Handler>, args: seq<Value>): (cs: seq<(Handler, seq<Value>)>)
    ensures |cs| == |hs| && forall k :: 0 <= k < |hs| ==> cs[k] == (hs[k], args)
    decreases |hs|
  {
    if hs == [] then [] else Calls(hs[..|hs| - 1], args) + [(hs[|hs| - 1], args)]
  }

  /** One more callback run adds its call at the end. */
  lemma CallsStep(hs: seq<Handler>, i: nat, args: seq<Value>)
    requires i < |hs|
    ensures Calls(hs[..i + 1], args) == Calls(hs[..i], args) + [(hs[i], args)]
  {
    assert hs[..i + 1][..i] == hs[..i];
  }

  /** The callbacks whose work is on the instance store. */
  predicate StoreHandler(h: Handler) {
    || h.OnInstanceNew? || h.OnInstanceDelete? || h.OnViewportResize? || h.OnStats?
    || h.OnTerminalStatus? || h.OnTerminalOut? || h.OnPort? || h.OnSwarmPort?
  }

  /** Outbound actions other than socket frames. */
  datatype Effect =
    | FetchSession          // GET /sessions/<id>
    | FetchPlayground       // GET /my/playground
    | ScheduleSessionRetry  // $timeout(getSession, 2000)
    | Alert(title: string, content: string, thenGo: Option<string>)
    | OpenBuilderDialog
    | CloseSocket

  /** The controller's scope fields and resize state, other than the call log. */
  datatype ScopeFields = ScopeFields(
    connected: bool, isAlive: bool, ttl: Value, ready: Value, builderTerminal: Option<seq<Value>>,
    resizeSlot: Slot, resizeTrace: seq<ResizeEvent>, effects: seq<Effect>)

  const NoContainer := Alert("No Container", "Please wait for your Docker container to be ready.", None)
  const SessionExpired := Alert("Session Expired", "Your session has expired and your container has been deleted.", Some("/"))
  const SessionNotFound := Alert("Session Not Found", "This session no longer exists.", Some("/"))

  /** The `socket.on` calls of `connect`, in order, on a fresh socket. */
  method RegisterAll() returns (s: Channel<Handler>)
    ensures fresh(s) && s.Valid() && s.sent == [] && s.registrations == AppRegistrations()
  {
    s := new Channel<Handler>();
    s.On("connect", OnConnect);
    s.On("disconnect", OnDisconnect);
    s.On("session ready", OnSessionReady);
    s.On("session builder out", OnBuilderOut);
    s.On("session end", OnSessionEnd);
    s.On("instance new", OnInstanceNew);
    s.On("instance delete", OnInstanceDelete);
    s.On("instance viewport resize", OnViewportResize);
    s.On("instance stats", OnStats);
    s.On("instance terminal status", OnTerminalStatus);
    s.On("instance terminal out", OnTerminalOut);
    s.On("instance port", OnPort);
    s.On("instance swarm port", OnSwarmPort);
    s.On("session timer", OnSessionTimer);
  }

  /** A registration log under which every event name has exactly the
      page's callbacks. */
  ghost predicate DispatchesApp(registrations: seq<(string, Handler)>) {
    forall name :: Named(registrations, name) == AppHandlers(name)
  }

  /** The socket `connect` sets up: each event name of the page has exactly
      its one callback. */
  method ConnectSocket() returns (s: Channel<Handler>)
    ensures fresh(s) && s.Valid() && s.sent == []
    ensures forall name :: Named(s.registrations, name) == AppHandlers(name)
  {
    s := RegisterAll();
    forall name
      ensures Named(s.registrations, name) == AppHandlers(name)
    {
      AppListeners(name);
    }
  }

  class Controller {
    const sessionId: string
    const host: string
    const socket: Channel<Handler>
    const store: Store
    const uploadStatus: UploadStatus
    var connected: bool
    var isAlive: bool
    var ttl: Value
    var ready: Value
    var builderTerminal: Option<seq<Value>>
    var resizeSlot: Slot
    ghost var resizeTrace: seq<ResizeEvent>
    var effects: seq<Effect>
    ghost var invoked: seq<(Handler, seq<Value>)>

    ghost predicate Valid()
      reads this, socket, store
    {
      && socket.Valid() && store.Valid()
      && DispatchesApp(socket.registrations)
      && FiresOnlyWhenPending(resizeTrace) && Replay(resizeTrace).slot == resizeSlot
    }

    /** `$scope.instance && $scope.instance.term`. */
    predicate HasTerm()
      reads this, store
      requires store.Valid()
    {
      store.instance.Some? && store.heap[store.instance.value].term.Some?
    }

    /** `$scope.instance.name`, or `None` where reading it throws. */
    function InstanceName(): Option<Value>
      reads this, store
      requires store.Valid()
    {
      if store.instance.None? then None else Some(store.heap[store.instance.value].name)
    }

    /** The text `$scope.instance.name` gives when concatenated into a URL. */
    function InstanceNameText(): (t: Option<string>)
      reads this, store
      requires store.Valid()
      ensures t.None? <==> InstanceName().None?
      ensures t.Some? ==> t.value == ToJsString(InstanceName().value)
    {
      if store.instance.None? then None else Some(ToJsString(store.heap[store.instance.value].name))
    }

    /** The start of the controller: scope defaults, the session id taken
        from the page path, and `connect()` registering every callback. */
    constructor (pathname: string, host: string)
      ensures Valid() && fresh(socket) && fresh(store) && fresh(uploadStatus)
      ensures sessionId == LastSegment(pathname) && this.host == host
      ensures store.instance == None && store.heap == map[] && store.timers == []
      ensures socket.sent == [] && effects == [] && invoked == []
      ensures !connected && isAlive && ttl == Str("--:--:--") && builderTerminal == None
      ensures resizeSlot == Idle && uploadStatus.message == "" && uploadStatus.progress == Some(0)
    {
      sessionId := LastSegment(pathname);
      this.host := host;
      var s := ConnectSocket();
      socket := s;
      store := new Store();
      uploadStatus := new UploadStatus();
      connected := false;
      isAlive := true;
      ttl := Str("--:--:--");
      ready := Undefined;
      builderTerminal := None;
      resizeSlot := Idle;
      resizeTrace := [];
      effects := [];
      invoked := [];
    }

    // ----- Socket callbacks -----

    /** `connect`: mark connected, join the session room and reload the
        session and playground state. */
    method HandleConnect()
      requires Valid()
      modifies this`connected, this`effects, socket`sent
      ensures Valid() && connected
      ensures socket.sent == old(socket.sent) + [Frame("session", [Str(sessionId)])]
      ensures effects == old(effects) + [FetchSession, FetchPlayground]
    {
      connected := true;
      socket.Emit("session", [Str(sessionId)]);
      effects := effects + [FetchSession, FetchPlayground];
    }

    /** `session ready`: store the state and open the builder dialog when it is falsy. */
    method HandleSessionReady(state: Value)
      requires Valid()
      modifies this`ready, this`effects
      ensures Valid() && ready == state
      ensures effects == old(effects) + (if Truthy(state) then [] else [OpenBuilderDialog])
    {
      ready := state;
      if !Truthy(state) {
        effects := effects + [OpenBuilderDialog];
      }
    }

    /** `session builder out`: write to the builder terminal when there is one. */
    method HandleBuilderOut(data: Value)
      requires Valid()
      modifies this`builderTerminal
      ensures Valid()
      ensures builderTerminal == (if old(builderTerminal).Some? then Some(old(builderTerminal).value + [data]) else None)
    {
      if builderTerminal.Some? {
        builderTerminal := Some(builderTerminal.value + [data]);
      }
    }

    /** `session end`: tell the user (then go home), mark the session dead
        and close the socket. */
    method HandleSessionEnd()
      requires Valid()
      modifies this`isAlive, this`effects
      ensures Valid() && !isAlive
      ensures effects == old(effects) + [SessionExpired, CloseSocket]
    {
      effects := effects + [SessionExpired];
      isAlive := false;
      effects := effects + [CloseSocket];
    }

    /** The scope fields and the resize state, as one value. */
    ghost function Fields(): ScopeFields
      reads this
    {
      ScopeFields(connected, isAlive, ttl, ready, builderTerminal, resizeSlot, resizeTrace, effects)
    }

    /** Reference definition of what callback `h`, run with `args`, does to
        the state: the scope callbacks change the scope and the socket and
        leave the store alone; the instance callbacks change only the store,
        as its own effect predicates say. `threw` is the `TypeError` of
        `instance stats`. */
    twostate predicate Handled(h: Handler, args: seq<Value>, threw: bool)
      requires old(store.Valid())
      reads this, socket, store
    {
      match h
      case OnConnect =>
        && Fields() == old(Fields()).(connected := true, effects := old(effects) + [FetchSession, FetchPlayground])
        && socket.sent == old(socket.sent) + [Frame("session", [Str(sessionId)])] && unchanged(store) && !threw
      case OnDisconnect =>
        Fields() == old(Fields()).(connected := false) && socket.sent == old(socket.sent) && unchanged(store) && !threw
      case OnSessionReady =>
        && Fields() == old(Fields()).(ready := Arg(args, 0),
                                      effects := old(effects) + (if Truthy(Arg(args, 0)) then [] else [OpenBuilderDialog]))
        && socket.sent == old(socket.sent) && unchanged(store) && !threw
      case OnBuilderOut =>
        && Fields() == old(Fields()).(builderTerminal :=
             if old(builderTerminal).Some? then Some(old(builderTerminal).value + [Arg(args, 0)]) else None)
        && socket.sent == old(socket.sent) && unchanged(store) && !threw
      case OnSessionEnd =>
        && Fields() == old(Fields()).(isAlive := false, effects := old(effects) + [SessionExpired, CloseSocket])
        && socket.sent == old(socket.sent) && unchanged(store) && !threw
      case OnSessionTimer =>
        Fields() == old(Fields()).(ttl := Arg(args, 0)) && socket.sent == old(socket.sent) && unchanged(store) && !threw
      case OnInstanceNew =>
        store.InstanceAdded(Arg(args, 0), Arg(args, 1), Arg(args, 2), Arg(args, 3)) && ScopeKept() && !threw
      case OnInstanceDelete => store.InstanceDeleted(Arg(args, 0)) && ScopeKept() && !threw
      case OnViewportResize => store.ViewportResizeApplied(Arg(args, 0), Arg(args, 1)) && ScopeKept() && !threw
      case OnStats => store.StatsApplied(Arg(args, 0), threw) && ScopeKept()
      case OnTerminalStatus => store.StatusSet(Arg(args, 0), Arg(args, 1)) && ScopeKept() && !threw
      case OnTerminalOut => store.OutputDelivered(Arg(args, 0), Arg(args, 1)) && ScopeKept() && !threw
      case OnPort => store.PortAdded(Arg(args, 1), Arg(args, 2)) && ScopeKept() && !threw
      case OnSwarmPort => store.SwarmPortAdded(Arg(args, 1), Arg(args, 2)) && ScopeKept() && !threw
    }

    /** The scope fields and the sent frames are as they were. */
    twostate predicate ScopeKept()
      reads this, socket
    {
      Fields() == old(Fields()) && socket.sent == old(socket.sent)
    }

    /** Run one registered callback with the frame's arguments spread
        positionally. Only `instance stats` can throw: reading `stats.instance`
        of `null` or `undefined` while there is an instance. */
    method Invoke(h: Handler, args: seq<Value>) returns (threw: bool)
      requires Valid()
      modifies this, socket, store
      ensures Valid()
      ensures invoked == old(invoked) + [(h, args)]
      ensures threw <==> h == OnStats && old(store.instance).Some? && Prop(Arg(args, 0), "instance").None?
      ensures Handled(h, args, threw)
    {
      if StoreHandler(h) {
        threw := InvokeOnStore(h, args);
      } else {
        InvokeOnScope(h, args);
        threw := false;
      }
      invoked := invoked + [(h, args)];
    }

    /** The callbacks that work on the scope and the socket. */
    method InvokeOnScope(h: Handler, args: seq<Value>)
      requires Valid() && !StoreHandler(h)
      modifies this`connected, this`ready, this`builderTerminal, this`isAlive, this`effects, this`ttl, socket`sent
      ensures Valid() && Handled(h, args, false)
    {
      match h {
        case OnConnect => HandleConnect();
        case OnDisconnect => connected := false;
        case OnSessionReady => HandleSessionReady(Arg(args, 0));
        case OnBuilderOut => HandleBuilderOut(Arg(args, 0));
        case OnSessionEnd => HandleSessionEnd();
        case OnSessionTimer => ttl := Arg(args, 0);
      }
    }

    /** The callbacks that work on the instance store. */
    method InvokeOnStore(h: Handler, args: seq<Value>) returns (threw: bool)
      requires Valid() && StoreHandler(h)
      modifies store
      ensures Valid() && Handled(h, args, threw)
      ensures threw <==> h == OnStats && old(store.instance).Some? && Prop(Arg(args, 0), "instance").None?
    {
      threw := false;
      match h {
        case OnInstanceNew => store.InstanceNew(Arg(args, 0), Arg(args, 1), Arg(args, 2), Arg(args, 3));
        case OnInstanceDelete => store.InstanceDelete(Arg(args, 0));
        case OnViewportResize => store.ViewportResize(Arg(args, 0), Arg(args, 1));
        case OnStats => threw := store.InstanceStats(Arg(args, 0));
        case OnTerminalStatus => store.TerminalStatus(Arg(args, 0), Arg(args, 1));
        case OnTerminalOut => store.TerminalOut(Arg(args, 0), Arg(args, 1));
        case OnPort => store.InstancePort(Arg(args, 0), Arg(args, 1), Arg(args, 2));
        case OnSwarmPort => store.SwarmPort(Arg(args, 0), Arg(args, 1), Arg(args, 2));
      }
    }

    // ----- The socket's own listeners -----

    /** The `message` listener: every callback registered for the frame's
        name runs, in registration order, until one throws; a name without
        callbacks runs nothing. */
    method MessageReceived(f: Frame) returns (threw: bool)
      requires Valid()
      modifies this, socket, store
      ensures Valid()
      ensures var ls := AppHandlers(f.name);
        && (!threw ==> invoked == old(invoked) + Calls(ls, f.args))
        && (threw ==> exists k :: 0 <= k < |ls| && ls[k] == OnStats
                                  && invoked == old(invoked) + Calls(ls[..k + 1], f.args))
        && (ls == [] ==> !threw && unchanged(this) && unchanged(socket) && unchanged(store))
        && (|ls| == 1 ==> Handled(ls[0], f.args, threw))
    {
      var ls := socket.Listeners(f.name);
      threw := RunListeners(ls, f.args);
    }

    /** The loop of the `message` listener over the callbacks `ls`. */
    method RunListeners(ls: seq<Handler>, args: seq<Value>) returns (threw: bool)
      requires Valid()
      modifies this, socket, store
      ensures Valid()
      ensures !threw ==> invoked == old(invoked) + Calls(ls, args)
      ensures threw ==> exists k :: 0 <= k < |ls| && ls[k] == OnStats
                                    && invoked == old(invoked) + Calls(ls[..k + 1], args)
      ensures ls == [] ==> !threw && unchanged(this) && unchanged(socket) && unchanged(store)
      ensures |ls| == 1 ==> Handled(ls[0], args, threw)
    {
      var i := 0;
      while i < |ls|
        invariant 0 <= i <= |ls| && Valid()
        invariant invoked == old(invoked) + Calls(ls[..i], args)
        invariant i == 0 ==> unchanged(this) && unchanged(socket) && unchanged(store)
        invariant i == 1 ==> Handled(ls[0], args, false)
      {
        CallsStep(ls, i, args);
        var t := Invoke(ls[i], args);
        if t {
          assert ls[i] == OnStats && invoked == old(invoked) + Calls(ls[..i + 1], args);
          threw := true;
          return;
        }
        i := i + 1;
      }
      assert ls[..i] == ls;
      threw := false;
    }

    /** A frame whose name nobody registered leaves every part of the state alone. */
    method MessageUnknown(f: Frame) returns (threw: bool)
      requires Valid() && HandlerFor(f.name).None?
      modifies this, socket, store
      ensures Valid() && !threw
      ensures unchanged(this) && unchanged(socket) && unchanged(store)
    {
      threw := MessageReceived(f);
    }

    /** The `open` listener: mark connected and run the `connect` callbacks. */
    method SocketOpened()
      requires Valid()
      modifies this, socket, store
      ensures Valid()
      ensures invoked == old(invoked) + [(OnConnect, [])]
      ensures socket.sent == old(socket.sent) + [Frame("session", [Str(sessionId)])]
      ensures Fields() == old(Fields()).(connected := true, effects := old(effects) + [FetchSession, FetchPlayground])
      ensures unchanged(store)
    {
      connected := true;
      var ls := socket.Listeners("connect");
      // `Valid` fixes the list at the one `connect` callback, so the loop runs once.
      var i := 0;
      while i < |ls|
        invariant 0 <= i <= |ls| == 1 && ls == [OnConnect] && Valid() && unchanged(store)
        invariant i == 0 ==> && Fields() == old(Fields()).(connected := true)
                             && invoked == old(invoked) && socket.sent == old(socket.sent)
        invariant i == 1 ==> && Fields() == old(Fields()).(connected := true, effects := old(effects) + [FetchSession, FetchPlayground])
                             && invoked == old(invoked) + [(OnConnect, [])]
                             && socket.sent == old(socket.sent) + [Frame("session", [Str(sessionId)])]
      {
        var _ := Invoke(ls[i], []);
        i := i + 1;
      }
    }

    /** The `close` listener: mark disconnected and run the `disconnect` callbacks. */
    method SocketClosed()
      requires Valid()
      modifies this, socket, store
      ensures Valid()
      ensures invoked == old(invoked) + [(OnDisconnect, [])]
      ensures Fields() == old(Fields()).(connected := false)
      ensures socket.sent == old(socket.sent) && unchanged(store)
    {
      connected := false;
      var ls := socket.Listeners("disconnect");
      // `Valid` fixes the list at the one `disconnect` callback, so the loop runs once.
      var i := 0;
      while i < |ls|
        invariant 0 <= i <= |ls| == 1 && ls == [OnDisconnect] && Valid() && unchanged(store)
        invariant Fields() == old(Fields()).(connected := false) && socket.sent == old(socket.sent)
        invariant invoked == old(invoked) + (if i == 0 then [] else [(OnDisconnect, [])])
      {
        var _ := Invoke(ls[i], []);
        i := i + 1;
      }
    }

    // ----- Window resize -----

    /** A browser `resize`: arm the timeout when the instance has a terminal
        and none is pending. */
    method WindowResize()
      requires Valid()
      modifies this`resizeSlot, this`resizeTrace
      ensures Valid()
      ensures resizeTrace == old(resizeTrace) + [WindowResized(HasTerm())]
      ensures resizeSlot == OnWindowResized(old(resizeSlot), HasTerm()).0
    {
      var hasTerm := store.instance.Some? && store.heap[store.instance.value].term.Some?;
      ExtendTrace(resizeTrace, WindowResized(hasTerm));
      if hasTerm && resizeSlot.Idle? {
        resizeSlot := Pending;
      }
      resizeTrace := resizeTrace + [WindowResized(hasTerm)];
    }

    /** The pending resize timeout fires: free the slot, then send the
        geometry the current terminal proposes now, `(cols, rows)`; without a
        current terminal reading it throws and nothing is sent. */
    method FireResize(cols: Value, rows: Value)
      requires Valid() && resizeSlot.Pending?
      modifies this`resizeSlot, this`resizeTrace, socket`sent
      ensures Valid() && resizeSlot == Idle
      ensures resizeTrace == old(resizeTrace) + [TimerFired(if HasTerm() then Some((cols, rows)) else None)]
      ensures socket.sent == old(socket.sent) + (if HasTerm() then [Frame("instance viewport resize", [cols, rows])] else [])
    {
      var geometry := if store.instance.Some? && store.heap[store.instance.value].term.Some? then Some((cols, rows)) else None;
      ExtendTrace(resizeTrace, TimerFired(geometry));
      resizeSlot := Idle;
      resizeTrace := resizeTrace + [TimerFired(geometry)];
      if geometry.Some? {
        socket.Emit("instance viewport resize", [cols, rows]);
      }
    }

    // ----- Terminal input and commands -----

    /** The `term.on('data')` callback bound for instance object `r`: it
        sends the keystrokes under the name of that object, even when
        `$scope.instance` has moved on since. */
    method TermData(r: Ref, data: Value)
      requires Valid() && r in store.heap && store.heap[r].term.Some? && store.heap[r].term.value.inputBound
      modifies socket`sent
      ensures Valid()
      ensures socket.sent == old(socket.sent) + [Frame("instance terminal in", [store.heap[r].name, data])]
    {
      socket.Emit("instance terminal in", [store.heap[r].name, data]);
    }

    /** `runCommand(command)`: with no instance, tell the user; otherwise send
        the command, newline-terminated, to the instance's terminal. */
    method RunCommand(command: string)
      requires Valid()
      modifies this`effects, socket`sent
      ensures Valid()
      ensures store.instance.None? ==> effects == old(effects) + [NoContainer] && socket.sent == old(socket.sent)
      ensures store.instance.Some? ==>
        (effects == old(effects) &&
         socket.sent == old(socket.sent) + [Frame("instance terminal in", [InstanceName().value, Str(WithTrailingNewline(command))])])
    {
      if store.instance.None? {
        effects := effects + [NoContainer];
        return;
      }
      var cmd := if |command| > 0 && command[|command| - 1] == '\n' then command else command + "\n";
      socket.Emit("instance terminal in", [store.heap[store.instance.value].name, Str(cmd)]);
    }

    // ----- Uploads -----

    /** `uploadFiles(files)`: with no instance, tell the user; otherwise start
        a chain over the files and take the first one. */
    method UploadFiles(files: seq<string>) returns (chain: Option<UploadChain>)
      requires Valid()
      modifies this`effects, uploadStatus
      ensures Valid()
      ensures store.instance.None? <==> chain.None?
      ensures chain.None? ==> effects == old(effects) + [NoContainer] && unchanged(uploadStatus)
      ensures chain.Some? ==>
        && fresh(chain.value) && chain.value.Valid() && chain.value.status == uploadStatus
        && chain.value.sessionId == sessionId && chain.value.original == files && effects == old(effects)
        && (files == [] ==> chain.value.phase == Drained && uploadStatus.message == "" && uploadStatus.progress == Some(0))
        && (files != [] ==> chain.value.phase == Uploading(files[0]) && uploadStatus.message == StatusLine(1, |files|, files[0])
                            && chain.value.requests == [Post(UploadUrl(sessionId, ToJsString(InstanceName().value)), files[0])])
    {
      if store.instance.None? {
        effects := effects + [NoContainer];
        return None;
      }
      var name := InstanceNameText();
      var c := StartChain(uploadStatus, sessionId, files, name.value);
      assert Valid() && InstanceNameText() == name;
      chain := Some(c);
    }

    /** The post of the chain's current file settled: its `finally` takes the
        next file, reading `$scope.instance.name` as it is now. */
    method UploadSettled(chain: UploadChain)
      requires Valid() && chain.Valid() && chain.phase.Uploading? && chain.status == uploadStatus
      modifies chain`files, chain`phase, chain`shown, chain`requests, uploadStatus
      ensures Valid() && chain.Valid()
      ensures chain.phase.Drained? ==> chain.shown == Schedule(chain.original) && uploadStatus.message == "" && uploadStatus.progress == Some(0)
      ensures old(chain.files) != [] ==>
        chain.files == old(chain.files)[1..] && chain.phase == (if InstanceName().None? then Stalled else Uploading(old(chain.files)[0]))
    {
      chain.Next(InstanceNameText());
    }

    // ----- Session loading -----

    /** `getSession` succeeded: take the first instance when there is one
        (with port list defaults, and a terminal set up at once), or retry
        in two seconds. */
    method SessionLoaded(instances: seq<ServerInstance>)
      requires Valid()
      modifies this`effects, store
      ensures Valid()
      ensures instances != [] ==>
        && store.instance == Some(old(store.nextRef))
        && store.heap == old(store.heap)[old(store.nextRef) := TermCreated(FromServer(instances[0]))]
        && store.timers == old(store.timers) + [DomReady(old(store.nextRef))] && effects == old(effects)
      ensures instances == [] ==> effects == old(effects) + [ScheduleSessionRetry] && unchanged(store)
    {
      if |instances| > 0 {
        store.Load(instances[0]);
      } else {
        effects := effects + [ScheduleSessionRetry];
      }
    }

    /** `getSession` failed with `status`: only a 404 is reported, and then
        the page goes home. */
    method SessionLoadFailed(status: Value)
      requires Valid()
      modifies this`effects
      ensures Valid()
      ensures effects == old(effects) + (if status == Num(404) then [SessionNotFound] else [])
    {
      if status == Num(404) {
        effects := effects + [SessionNotFound];
      }
    }

    /** The two-second retry of `getSession` fired. */
    method SessionRetryFired()
      requires Valid()
      modifies this`effects
      ensures Valid() && effects == old(effects) + [FetchSession]
    {
      effects := effects + [FetchSession];
    }

    /** The builder dialog finished opening: `createBuilderTerminal` makes a fresh terminal. */
    method BuilderDialogOpened()
      requires Valid()
      modifies this`builderTerminal
      ensures Valid() && builderTerminal == Some([])
    {
      builderTerminal := Some([]);
    }

    /** `getProxyUrl(instance, port)` for the current instance. */
    function CurrentProxyUrl(port: nat): (url: string)
      reads this, store
      requires store.Valid()
      ensures url == "" <==> store.instance.None?
    {
      ProxyUrl(store.Current(), port, host)
    }
  }
}
