/** `wifi_communication_module.c`: the life cycle of the WiFi module, run by the state machine engine. The TCP and UDP
    modules it calls are answers of the environment. */
module WifiModule {
  import opened Basics
  import opened StateMachine

  const CONNECTING_TIMEOUT := 20
  const DISCONNECT_TIMEOUT := 3

  // ---- states and events ----

  const STARTING := 0
  const STARTED := 1
  const DISCONNECTED := 2
  const CONNECTING := 3
  const CONNECTING_TO_AP := 4
  const ACQUIRING := 5
  const CONNECTED := 6
  const SEND := 7
  const SEND_TO := 8
  const RECEIVE := 9
  const RECEIVE_FROM := 10
  const CLOSING_SOCKET := 11
  const DISCONNECTING := 12
  const RESET := 13
  const STOPPING := 14
  const STOPPED := 15

  const EVENT_DISCONNECT := 0
  const EVENT_CONNECT := 1
  const EVENT_DISCONNECT_SOCKET_CLOSED := 2
  const EVENT_SEND := 3
  const EVENT_SEND_TO := 4
  const EVENT_RECEIVE := 5
  const EVENT_RECEIVE_FROM := 6
  const EVENT_STOP := 7
  const EVENT_STOP_SOCKET_CLOSED := 8
  const EVENT_CONNECTING := 9
  const EVENT_CONNECTED := 10
  const EVENT_ACQUIRING := 11
  const EVENT_ACQUIRED := 12
  const EVENT_DISCONNECTING := 13
  const EVENT_DISCONNECTED := 14
  const EVENT_SEQUENCE_TIMEOUT := 15
  const EVENT_ERROR := 16
  const EVENT_CLOSE_SOCKET := 17
  const EVENT_PROCESS := 18
  const EVENT_DONE := 19

  /** The events `remove_send_and_receive_events` takes off the queue. */
  const TRANSFERS: set<nat> := {EVENT_SEND, EVENT_SEND_TO, EVENT_RECEIVE, EVENT_RECEIVE_FROM, EVENT_CONNECT}

  const WIFI_SUCCESS: Byte := 0x00
  const WIFI_ERROR: Byte := 0x10
  const WIFI_TIMEOUT: Byte := 0x20
  const WIFI_DISCONNECTED: Byte := 0x30
  const WIFI_OPERATION_FAILED: Byte := 0x40
  const WIFI_PARAMETERS_MISSING: Byte := 0x50
  const WIFI_SOCKET_CLOSED: Byte := 0x60

  /** What the machine asks of the driver and how that ended, and what it makes of the driver's reports of a connection, when it
      handles them: `accepted` unless a static address is set and not the one acquired. `Request` and `Failed` mark a new request
      and an error. */
  datatype Call =
    | Start(ok: bool)
    | Connect
    | Associated
    | Addressed(accepted: bool)
    | Disconnect
    | Reset
    | Stop
    | Request
    | Failed(kind: Byte, state: nat)

  datatype Vars = Vars(timer: nat, error: nat, calls: seq<Call>)

  /** The environment of one handler call: whether the driver call succeeded, whether the process handles want to go on,
      the results of the TCP and UDP modules, and what the configuration holds. */
  datatype Answer = Answer(ok: bool, more: bool, tcpError: Byte, udpError: Byte, ssidSet: bool, staticIpSet: bool)

  function Ask(v: Vars, call: Call): Vars {
    v.(calls := v.calls + [call])
  }

  /** `set_wifi_communication_module_error`. */
  function Fail(v: Vars, kind: Byte, state: nat): Vars {
    Ask(v, Failed(kind, state)).(error := if v.error == 0 then kind + state else v.error)
  }

  /** `tcp_to_wifi_error_type` of the upper half of a TCP error. */
  function TcpKind(error: Byte): (kind: Byte) {
    match error / 0x10
    case 1 => WIFI_OPERATION_FAILED
    case 2 => WIFI_TIMEOUT
    case 3 => WIFI_SOCKET_CLOSED
    case 4 => WIFI_PARAMETERS_MISSING
    case _ => WIFI_SUCCESS
  }

  /** `udp_to_wifi_error_type`. */
  function UdpKind(error: Byte): (kind: Byte) {
    match error / 0x10
    case 1 => WIFI_OPERATION_FAILED
    case 2 => WIFI_PARAMETERS_MISSING
    case _ => WIFI_SUCCESS
  }

  // ---- handlers ----

  function Quiet(v: Vars, consumed: bool): Reaction<Vars> {
    Reaction(v, consumed, [])
  }

  /** Forgets everything queued and resets the module. */
  function GiveUp(v: Vars, kind: Byte, state: nat): Reaction<Vars> {
    Reaction(Fail(v, kind, state), true, [ClearQueue, Go(RESET)])
  }

  /** Forgets queued transfers and resets the module. */
  function Abandon(v: Vars, kind: Byte, state: nat): Reaction<Vars> {
    Reaction(Fail(v, kind, state), true, [Discard(TRANSFERS), Go(RESET)])
  }

  predicate IsTransfer(event: nat) {
    EVENT_SEND <= event <= EVENT_RECEIVE_FROM
  }

  function Handler(v: Vars, state: int, event: nat, a: Answer): Reaction<Vars> {
    if state == STARTING then Starting(v, event, a)
    else if state == STARTED then if event == ENTERING then Reaction(v, true, [SetChild(DISCONNECTED)]) else Quiet(v, false)
    else if state == DISCONNECTED then Disconnected(v, event, a)
    else if state == CONNECTING then Connecting(v, event)
    else if state == CONNECTING_TO_AP then ConnectingToAp(v, event, a)
    else if state == ACQUIRING then Acquiring(v, event, a)
    else if state == CONNECTED then Connected(v, event)
    else if state == SEND || state == RECEIVE then Transferring(v, state, event, a.tcpError, TcpKind(a.tcpError))
    else if state == SEND_TO || state == RECEIVE_FROM then Transferring(v, state, event, a.udpError, UdpKind(a.udpError))
    else if state == CLOSING_SOCKET then ClosingSocket(v, event, a)
    else if state == DISCONNECTING then Disconnecting(v, event, a)
    else if state == RESET then Resetting(v, event, a)
    else if state == STOPPING then Stopping(v, event, a)
    else if state == STOPPED then Stopped(v, event)
    else if event == EVENT_PROCESS then Reaction(v, true, [Post(if a.more then EVENT_PROCESS else EVENT_DONE)])
    else Quiet(v, event != LEAVING)
  }

  function Stopped(v: Vars, event: nat): Reaction<Vars> {
    if event == EVENT_CONNECT || IsTransfer(event) then Reaction(v, true, [Post(event), Go(STARTING)])
    else Quiet(v, event == ENTERING)
  }

  function Starting(v: Vars, event: nat, a: Answer): Reaction<Vars> {
    if event == ENTERING then
      var started := Ask(v, Start(a.ok));
      if a.ok then Reaction(started, true, [Go(STARTED)])
      else Reaction(Fail(started, WIFI_OPERATION_FAILED, STARTING), true, [ClearQueue, Go(STOPPED)])
    else if event == EVENT_CONNECT || IsTransfer(event) then Reaction(v, true, [Post(event)])
    else Quiet(v, false)
  }

  function Resetting(v: Vars, event: nat, a: Answer): Reaction<Vars> {
    if event == ENTERING then Reaction(v, true, [Post(EVENT_PROCESS)])
    else if event == EVENT_PROCESS then Reaction(v, true, [Post(if a.more then EVENT_PROCESS else EVENT_DONE)])
    else if event == EVENT_DONE then
      var reset := Ask(v, Reset);
      Reaction(if a.ok then reset else Fail(reset, WIFI_OPERATION_FAILED, RESET), true, [Go(DISCONNECTED)])
    else if event == EVENT_STOP_SOCKET_CLOSED || event == EVENT_STOP then Reaction(v, true, [Post(EVENT_STOP)])
    else Quiet(v, false)
  }

  function Disconnected(v: Vars, event: nat, a: Answer): Reaction<Vars> {
    if event == EVENT_STOP then Reaction(v, true, [Go(STOPPING)])
    else if event == EVENT_CONNECT then Reaction(v, true, [Go(CONNECTING)])
    else if IsTransfer(event) then
      if a.ssidSet then Reaction(v, true, [Post(event), Go(CONNECTING)])
      else Quiet(Fail(v, WIFI_PARAMETERS_MISSING, DISCONNECTED), true)
    else if event == EVENT_ERROR then Abandon(v, WIFI_ERROR, DISCONNECTED)
    else Quiet(v, event == ENTERING)
  }

  function Connecting(v: Vars, event: nat): Reaction<Vars> {
    if event == ENTERING then Reaction(v.(timer := CONNECTING_TIMEOUT), true, [SetChild(CONNECTING_TO_AP)])
    else if IsTransfer(event) then Reaction(v, true, [Post(event)])
    else if event == LEAVING then Quiet(v.(timer := 0), false)
    else Quiet(v, false)
  }

  function ConnectingToAp(v: Vars, event: nat, a: Answer): Reaction<Vars> {
    if event == ENTERING then
      var asked := Ask(v, Connect);
      if a.ok then Reaction(asked, true, [Post(EVENT_CONNECTING)])
      else GiveUp(asked, WIFI_OPERATION_FAILED, CONNECTING_TO_AP)
    else if event == EVENT_CONNECTING || event == EVENT_ACQUIRED then Reaction(v, true, [Post(event)])
    else if event == EVENT_CONNECTED then Reaction(Ask(v, Associated), true, [Go(ACQUIRING)])
    else if event == EVENT_DISCONNECTED then GiveUp(v, WIFI_DISCONNECTED, CONNECTING_TO_AP)
    else if event == EVENT_SEQUENCE_TIMEOUT then GiveUp(v, WIFI_TIMEOUT, CONNECTING_TO_AP)
    else if event == EVENT_ERROR then GiveUp(v, WIFI_ERROR, CONNECTING_TO_AP)
    else Quiet(v, false)
  }

  /** `a.ok` answers whether the address acquired is the static one asked for. */
  function Acquiring(v: Vars, event: nat, a: Answer): Reaction<Vars> {
    if event == ENTERING || event == EVENT_ACQUIRING then Reaction(v, true, [Post(EVENT_ACQUIRING)])
    else if event == EVENT_ACQUIRED then
      if a.staticIpSet && !a.ok then GiveUp(Ask(v, Addressed(false)), WIFI_OPERATION_FAILED, ACQUIRING)
      else Reaction(Ask(v, Addressed(true)), true, [Go(CONNECTED)])
    else if event == EVENT_DISCONNECTED then GiveUp(v, WIFI_DISCONNECTED, ACQUIRING)
    else if event == EVENT_SEQUENCE_TIMEOUT then GiveUp(v, WIFI_TIMEOUT, ACQUIRING)
    else if event == EVENT_ERROR then GiveUp(v, WIFI_ERROR, ACQUIRING)
    else Quiet(v, false)
  }

  function Connected(v: Vars, event: nat): Reaction<Vars> {
    if event == ENTERING then Reaction(v, true, [SetChild(NO_STATE)])
    else if event == EVENT_SEND then Reaction(v, true, [Go(SEND)])
    else if event == EVENT_SEND_TO then Reaction(v, true, [Go(SEND_TO)])
    else if event == EVENT_RECEIVE then Reaction(v, true, [Go(RECEIVE)])
    else if event == EVENT_RECEIVE_FROM then Reaction(v, true, [Go(RECEIVE_FROM)])
    else if event == EVENT_CLOSE_SOCKET then Reaction(v, true, [Go(CLOSING_SOCKET)])
    else if event == EVENT_DISCONNECT then Reaction(v, true, [Post(EVENT_DISCONNECT_SOCKET_CLOSED), Go(DISCONNECTING)])
    else if event == EVENT_DISCONNECT_SOCKET_CLOSED then Reaction(v, true, [Go(DISCONNECTING)])
    else if event == EVENT_STOP then Reaction(v, true, [Post(EVENT_STOP_SOCKET_CLOSED), Go(CLOSING_SOCKET)])
    else if event == EVENT_STOP_SOCKET_CLOSED then Reaction(v, true, [Post(EVENT_STOP), Go(DISCONNECTING)])
    else if event == EVENT_DISCONNECTED then Abandon(v, WIFI_DISCONNECTED, CONNECTED)
    else if event == EVENT_ERROR then Abandon(v, WIFI_ERROR, CONNECTED)
    else Quiet(v, false)
  }

  /** The handlers of sending and receiving, over TCP or UDP. */
  function Transferring(v: Vars, state: nat, event: nat, error: Byte, kind: Byte): Reaction<Vars> {
    if event == ENTERING then Reaction(v, true, [Post(EVENT_PROCESS)])
    else if event == EVENT_DONE then
      if error == 0 then Reaction(v, true, [Go(CONNECTED)]) else GiveUp(v, kind, state)
    else if event == EVENT_DISCONNECTED then GiveUp(v, WIFI_DISCONNECTED, state)
    else if event == EVENT_ERROR then GiveUp(v, WIFI_ERROR, state)
    else Quiet(v, false)
  }

  function ClosingSocket(v: Vars, event: nat, a: Answer): Reaction<Vars> {
    if event == ENTERING then Reaction(v, true, [Post(EVENT_PROCESS)])
    else if event == EVENT_PROCESS then Reaction(v, true, [Post(if a.more then EVENT_PROCESS else EVENT_DONE)])
    else if event == EVENT_DONE then
      if (a.tcpError == 0 && a.udpError == 0) || a.tcpError / 0x10 == 3 then Reaction(v, true, [Go(CONNECTED)])
      else Abandon(v, WIFI_OPERATION_FAILED, CLOSING_SOCKET)
    else if event == EVENT_DISCONNECT_SOCKET_CLOSED || event == EVENT_STOP_SOCKET_CLOSED then Reaction(v, true, [Post(event)])
    else if event == EVENT_DISCONNECTED then Abandon(v, WIFI_DISCONNECTED, CLOSING_SOCKET)
    else if event == EVENT_ERROR then Abandon(v, WIFI_ERROR, CLOSING_SOCKET)
    else Quiet(v, event != LEAVING)
  }

  function Disconnecting(v: Vars, event: nat, a: Answer): Reaction<Vars> {
    if event == ENTERING then
      var asked := Ask(v, Disconnect).(timer := DISCONNECT_TIMEOUT);
      if a.ok then Reaction(asked, true, [Post(EVENT_DISCONNECTING)])
      else Abandon(asked, WIFI_OPERATION_FAILED, DISCONNECTING)
    else if event == EVENT_STOP || event == EVENT_DISCONNECTING then Reaction(v, true, [Post(event)])
    else if event == EVENT_DISCONNECTED then Reaction(v, true, [Go(DISCONNECTED)])
    else if event == EVENT_SEQUENCE_TIMEOUT then Abandon(v, WIFI_TIMEOUT, DISCONNECTING)
    else if event == EVENT_ERROR then Abandon(v, WIFI_ERROR, DISCONNECTING)
    else if event == LEAVING then Quiet(v.(timer := 0), false)
    else Quiet(v, false)
  }

  function Stopping(v: Vars, event: nat, a: Answer): Reaction<Vars> {
    if event == ENTERING then
      var stopped := Ask(v, Stop);
      Reaction(if a.ok then stopped else Fail(stopped, WIFI_OPERATION_FAILED, STOPPING), true, [Go(STOPPED)])
    else Quiet(v, false)
  }

  // ---- machine ----

  const PARENT: seq<int> := [ROOT, ROOT, STARTED, STARTED, CONNECTING, CONNECTING, STARTED, CONNECTED, CONNECTED, CONNECTED, CONNECTED,
                             CONNECTED, STARTED, STARTED, ROOT, ROOT]
  const RANK: seq<nat> := [1, 0, 0, 1, 0, 0, 0, 0, 0, 0, 0, 0, 1, 0, 1, 0]

  function Wifi(): Machine<Vars, Answer> {
    Machine(PARENT, RANK, Handler)
  }

  type State = Config<Vars>

  // ---- leaving ----

  /** The states whose leaving stops the sequence timer, s or below it. */
  predicate Timed(current: seq<int>, s: int)
    requires Structured(Wifi(), current) && IsState(Wifi(), s)
    decreases |PARENT| - s
  {
    s == CONNECTING || s == DISCONNECTING || (current[s + 1] != NO_STATE && Timed(current, current[s + 1]))
  }

  function Unwatched(v: Vars, timed: bool): Vars {
    if timed then v.(timer := 0) else v
  }

  lemma HandlerLeaves(v: Vars, s: nat, a: Answer)
    requires s < |PARENT|
    ensures Handler(v, s, LEAVING, a) == Quiet(Unwatched(v, s == CONNECTING || s == DISCONNECTING), false)
  {
  }

  lemma Offered0(env: nat -> Answer, c: State, s: nat)
    requires Structured(Wifi(), c.current) && s < |PARENT|
    ensures var r := Offer(Wifi(), env, c, s, LEAVING, 0);
            r == (c.(vars := Unwatched(c.vars, s == CONNECTING || s == DISCONNECTING), log := r.0.log), false)
  {
    hide Structured, Handler;
    HandlerLeaves(c.vars, s, env(|c.log|));
    Offer0(Wifi(), env, c, s, LEAVING, 0);
  }

  lemma {:induction false} LeavingTells(env: nat -> Answer, c: State, s: int)
    requires Structured(Wifi(), c.current) && 0 <= s < |PARENT|
    ensures var r := Dispatch(Wifi(), env, c, s, LEAVING, 0);
            r == (c.(vars := Unwatched(c.vars, Timed(c.current, s)), log := r.0.log), false)
    decreases |PARENT| - s
  {
    hide Handler, Offer;
    var k := c.current[s + 1];
    if k == NO_STATE {
      Offered0(env, c, s);
    } else {
      LeavingTells(env, c, k);
      Offered0(env, Dispatch(Wifi(), env, c, k, LEAVING, 0).0, s);
    }
  }

  /** The configuration in which t is entered. */
  function Entering(c: State, t: nat, log: seq<Notice>): State
    requires Structured(Wifi(), c.current) && t < |PARENT|
  {
    var p := PARENT[t];
    var timed := c.current[p + 1] != NO_STATE && Timed(c.current, c.current[p + 1]);
    Config(c.current[p + 1 := t], c.queue, Unwatched(c.vars, timed), log, c.fault || !Active(Wifi(), c.current, p))
  }

  lemma LeavingIs(env: nat -> Answer, c: State, t: nat)
    requires Structured(Wifi(), c.current) && t < |PARENT|
    ensures Structured(Wifi(), Left(Wifi(), env, c, PARENT[t]).current)
    ensures var left := Left(Wifi(), env, c, PARENT[t]);
            Moved(Wifi(), left, t) == Entering(c, t, left.log)
  {
    hide Dispatch, Active, Timed;
    var p := PARENT[t];
    ChildOrNone(Wifi(), c.current, p);
    if c.current[p + 1] != NO_STATE {
      LeavingTells(env, c, c.current[p + 1]);
    }
  }

  // ---- entering ----

  /** The states whose entry only posts an event. */
  const POSTING: set<nat> := {ACQUIRING, SEND, SEND_TO, RECEIVE, RECEIVE_FROM, CLOSING_SOCKET, RESET}

  function FirstEvent(t: nat): nat {
    if t == ACQUIRING then EVENT_ACQUIRING else EVENT_PROCESS
  }

  /** A leaf has no child to enter. */
  lemma Leaf(c: State, t: nat)
    requires Structured(Wifi(), c.current) && t < |PARENT| && t != STARTED && t != CONNECTING && t != CONNECTED
    ensures c.current[t + 1] == NO_STATE
  {
    ChildOrNone(Wifi(), c.current, t);
  }

  lemma Routes(v: Vars, e: nat, a: Answer)
    ensures Handler(v, STARTING, e, a) == Starting(v, e, a) && Handler(v, DISCONNECTED, e, a) == Disconnected(v, e, a)
    ensures Handler(v, CONNECTING, e, a) == Connecting(v, e) && Handler(v, CONNECTING_TO_AP, e, a) == ConnectingToAp(v, e, a)
    ensures Handler(v, ACQUIRING, e, a) == Acquiring(v, e, a) && Handler(v, CONNECTED, e, a) == Connected(v, e)
    ensures Handler(v, CLOSING_SOCKET, e, a) == ClosingSocket(v, e, a) && Handler(v, DISCONNECTING, e, a) == Disconnecting(v, e, a)
    ensures Handler(v, RESET, e, a) == Resetting(v, e, a) && Handler(v, STOPPING, e, a) == Stopping(v, e, a)
    ensures Handler(v, STOPPED, e, a) == Stopped(v, e)
    ensures Handler(v, STARTED, ENTERING, a) == Reaction(v, true, [SetChild(DISCONNECTED)])
  {
    hide Starting, Disconnected, Connecting, ConnectingToAp, Acquiring, Connected, ClosingSocket, Disconnecting, Resetting, Stopping,
         Stopped, Transferring;
  }

  lemma PostingHandler(v: Vars, t: nat, a: Answer)
    requires t in POSTING
    ensures Handler(v, t, ENTERING, a) == Reaction(v, true, [Post(FirstEvent(t))])
  {
  }

  lemma EnteringKeeps(c: State, t: nat, log: seq<Notice>)
    requires Structured(Wifi(), c.current) && t < |PARENT|
    ensures var e := Entering(c, t, log); Structured(Wifi(), e.current) && e.queue == c.queue && e.log == log
    ensures forall log' :: Entering(c, t, log').(log := log) == Entering(c, t, log)
  {
    hide Active, Timed;
  }

  /** Some driver call is answered so. */
  ghost predicate Given(env: nat -> Answer, ok: bool) {
    exists n :: ok == env(n).ok
  }

  /** What arriving at t is, for the answer x the environment gives there. */
  lemma Arrives(env: nat -> Answer, c: State, t: nat) returns (x: Answer)
    requires Structured(Wifi(), c.current) && t < |PARENT|
    ensures var r, e := Arriving(Wifi(), env, c, t), Entering(c, t, Arriving(Wifi(), env, c, t).log);
            && Structured(Wifi(), r.current) && r.queue == c.queue
            && r == e.(vars := Handler(e.vars, t, ENTERING, x).vars)
            && Entry(Wifi(), env, c, t) == Handler(e.vars, t, ENTERING, x).actions
    ensures Given(env, x.ok)
  {
    hide Handler, Left, Entering, Structured;
    LeavingIs(env, c, t);
    var left := Left(Wifi(), env, c, PARENT[t]);
    var entering := Moved(Wifi(), left, t);
    EnteringKeeps(c, t, left.log);
    EnteringKeeps(c, t, Arriving(Wifi(), env, c, t).log);
    x := env(|entering.log|);
  }

  lemma ToPosting(env: nat -> Answer, c: State, t: nat, bound: nat)
    requires Structured(Wifi(), c.current) && t in POSTING && bound > 0
    ensures var r := Transitioned(Wifi(), env, c, t, bound);
            r == Entering(c, t, r.log).(queue := Posted(c.queue, FirstEvent(t)))
  {
    hide Handler, Transitioned, EnterChildren, Posted, Structured, Entering, Arriving, Entry;
    var x := Arrives(env, c, t);
    var a := Arriving(Wifi(), env, c, t);
    PostingHandler(Entering(c, t, a.log).vars, t, x);
    Enter1(Wifi(), env, c, t, Post(FirstEvent(t)), bound);
    Leaf(a, t);
    NoChildren(Wifi(), env, a.(queue := Posted(a.queue, FirstEvent(t))), t, 0);
  }

  lemma ToQuiet(env: nat -> Answer, c: State, t: nat, bound: nat)
    requires Structured(Wifi(), c.current) && t in {DISCONNECTED, STOPPED} && bound > 0
    ensures var r := Transitioned(Wifi(), env, c, t, bound); r == Entering(c, t, r.log)
  {
    hide Handler, Transitioned, EnterChildren, Structured, Entering, Arriving, Entry,
         Starting, Connecting, ConnectingToAp, Acquiring, Connected, ClosingSocket, Disconnecting, Resetting, Stopping;
    var x := Arrives(env, c, t);
    var a := Arriving(Wifi(), env, c, t);
    Routes(Entering(c, t, a.log).vars, ENTERING, x);
    Enter0(Wifi(), env, c, t, bound);
    Leaf(a, t);
    NoChildren(Wifi(), env, a, t, 0);
  }

  lemma ToConnected(env: nat -> Answer, c: State, bound: nat)
    requires Structured(Wifi(), c.current) && bound > 0
    ensures |c.current| == 17
    ensures var r := Transitioned(Wifi(), env, c, CONNECTED, bound);
            var e := Entering(c, CONNECTED, r.log);
            r == e.(current := e.current[CONNECTED + 1 := NO_STATE])
  {
    hide Handler, Transitioned, Acted, EnterChildren, Entering, Arriving, Entry,
         Starting, Disconnected, Connecting, ConnectingToAp, Acquiring, ClosingSocket, Disconnecting, Resetting, Stopping, Stopped;
    var x := Arrives(env, c, CONNECTED);
    var a := Arriving(Wifi(), env, c, CONNECTED);
    Routes(Entering(c, CONNECTED, a.log).vars, ENTERING, x);
    EnterAndChoose(Wifi(), env, c, CONNECTED, NO_STATE, bound);
    NoChildren(Wifi(), env, a.(current := a.current[CONNECTED + 1 := NO_STATE]), CONNECTED, 0);
  }

  lemma ToStarted(env: nat -> Answer, c: State, bound: nat)
    requires Structured(Wifi(), c.current) && bound > 0
    ensures |c.current| == 17
    ensures var r := Transitioned(Wifi(), env, c, STARTED, bound);
            var e := Entering(c, STARTED, r.log);
            r == e.(current := e.current[STARTED + 1 := DISCONNECTED])
  {
    hide Handler, Transitioned, Acted, EnterChildren, Entering, Arriving, Entry,
         Starting, Disconnected, Connecting, ConnectingToAp, Acquiring, Connected, ClosingSocket, Disconnecting, Resetting, Stopping, Stopped;
    var x := Arrives(env, c, STARTED);
    var a := Arriving(Wifi(), env, c, STARTED);
    Routes(Entering(c, STARTED, a.log).vars, ENTERING, x);
    EnterAndChoose(Wifi(), env, c, STARTED, DISCONNECTED, bound);
    var b := a.(current := a.current[STARTED + 1 := DISCONNECTED]);
    EntersDisconnected(env, b);
    EnteringKeeps(c, STARTED, Transitioned(Wifi(), env, c, STARTED, bound).log);
  }

  lemma {:induction false} EntersDisconnected(env: nat -> Answer, c: State)
    requires Structured(Wifi(), c.current) && |c.current| == 17 && c.current[STARTED + 1] == DISCONNECTED
    ensures var r := EnterChildren(Wifi(), env, c, STARTED, 0); r == c.(log := r.log)
  {
    hide Handler, Offer,
         Starting, Connecting, ConnectingToAp, Acquiring, Connected, ClosingSocket, Disconnecting, Resetting, Stopping, Stopped;
    Routes(c.vars, ENTERING, env(|c.log|));
    Offer0(Wifi(), env, c, DISCONNECTED, ENTERING, 0);
    var r := Offer(Wifi(), env, c, DISCONNECTED, ENTERING, 0).0;
    Leaf(r, DISCONNECTED);
    NoChildren(Wifi(), env, r, DISCONNECTED, 0);
  }

  /** Outside the started state, and in its disconnected state, no timer runs for a state. */
  lemma EnterFrom(c: State, t: nat, log: seq<Notice>)
    requires Structured(Wifi(), c.current) && t < |PARENT| && PARENT[t] == ROOT
    requires c.current[0] in {STARTING, STOPPING, STOPPED} || (c.current[0] == STARTED && c.current[STARTED + 1] == DISCONNECTED)
    ensures Entering(c, t, log) == c.(current := c.current[0 := t], log := log)
  {
    hide Structured;
    Leaf(c, STARTING);
    Leaf(c, STOPPING);
    Leaf(c, STOPPED);
    Leaf(c, DISCONNECTED);
  }

  /** Entering the starting state starts the module, or does not, and goes on. */
  lemma ToStarting(env: nat -> Answer, c: State, bound: nat) returns (ok: bool)
    requires Structured(Wifi(), c.current) && |c.current| == 17 && bound > 1 && c.current[0] == STOPPED
    ensures var r, asked := Transitioned(Wifi(), env, c, STARTING, bound), Ask(c.vars, Start(ok));
            r == if ok then c.(vars := asked, current := c.current[0 := STARTED][STARTED + 1 := DISCONNECTED], log := r.log)
                 else c.(vars := Fail(asked, WIFI_OPERATION_FAILED, STARTING), current := c.current[0 := STOPPED], queue := [],
                         log := r.log)
    ensures Given(env, ok)
  {
    hide Given, Handler, Transitioned, Acted, EnterChildren, Structured, Entering, Arriving, Entry, Ask, Fail,
         Disconnected, Connecting, ConnectingToAp, Acquiring, Connected, ClosingSocket, Disconnecting, Resetting, Stopping, Stopped;
    var x := Arrives(env, c, STARTING);
    var a := Arriving(Wifi(), env, c, STARTING);
    EnterFrom(c, STARTING, a.log);
    Routes(c.vars, ENTERING, x);
    ok := x.ok;
    if ok {
      ToStarted(env, a, 1);
      var r := Transitioned(Wifi(), env, a, STARTED, 1);
      EnterFrom(a, STARTED, r.log);
      Leaf(r, STARTING);
      EnterAndGo(Wifi(), env, c, STARTING, STARTED, bound);
    } else {
      var b := a.(queue := []);
      ToQuiet(env, b, STOPPED, 1);
      var r := Transitioned(Wifi(), env, b, STOPPED, 1);
      EnterFrom(b, STOPPED, r.log);
      Leaf(r, STARTING);
      EnterClearAndGo(Wifi(), env, c, STARTING, STOPPED, bound);
    }
  }

  /** Entering the stopping state stops the module, or fails to, and goes on. */
  lemma ToStopping(env: nat -> Answer, c: State, bound: nat) returns (ok: bool)
    requires Structured(Wifi(), c.current) && |c.current| == 17 && bound > 1
    requires c.current[0] == STARTED && c.current[STARTED + 1] == DISCONNECTED
    ensures var r, asked := Transitioned(Wifi(), env, c, STOPPING, bound), Ask(c.vars, Stop);
            r == c.(vars := if ok then asked else Fail(asked, WIFI_OPERATION_FAILED, STOPPING),
                    current := c.current[0 := STOPPED], log := r.log)
  {
    hide Handler, Transitioned, Acted, EnterChildren, Structured, Entering, Arriving, Entry, Ask, Fail,
         Starting, Disconnected, Connecting, ConnectingToAp, Acquiring, Connected, ClosingSocket, Disconnecting, Resetting, Stopped;
    var x := Arrives(env, c, STOPPING);
    var a := Arriving(Wifi(), env, c, STOPPING);
    EnterFrom(c, STOPPING, a.log);
    Routes(c.vars, ENTERING, x);
    ok := x.ok;
    ToQuiet(env, a, STOPPED, 1);
    var r := Transitioned(Wifi(), env, a, STOPPED, 1);
    EnterFrom(a, STOPPED, r.log);
    Leaf(r, STOPPING);
    EnterAndGo(Wifi(), env, c, STOPPING, STOPPED, bound);
  }

  predicate AmongStarted(current: seq<int>)
    requires |current| == 17
  {
    current[0] == STARTED && current[STARTED + 1] in {DISCONNECTED, CONNECTING, CONNECTED, DISCONNECTING, RESET}
  }

  /** A transition among the children of the started state stops the timer of the one that is left. */
  lemma EnterAmongStarted(c: State, t: nat, log: seq<Notice>)
    requires Structured(Wifi(), c.current) && |c.current| == 17 && t < |PARENT| && PARENT[t] == STARTED && AmongStarted(c.current)
    ensures Entering(c, t, log)
            == c.(current := c.current[STARTED + 1 := t],
                  vars := Unwatched(c.vars, c.current[STARTED + 1] in {CONNECTING, DISCONNECTING}), log := log)
  {
    hide Structured;
    assert Active(Wifi(), c.current, STARTED);
    Leaf(c, DISCONNECTED);
    Leaf(c, RESET);
    if c.current[STARTED + 1] == CONNECTED {
      UntimedConnected(c.current);
    }
  }

  lemma UntimedConnected(current: seq<int>)
    requires Structured(Wifi(), current)
    ensures !Timed(current, CONNECTED)
  {
    ChildOrNone(Wifi(), current, CONNECTED);
    var k := current[CONNECTED + 1];
    if k != NO_STATE {
      ChildOrNone(Wifi(), current, k);
    }
  }

  /** Entering the disconnecting state asks for the disconnection, or gives up and resets. */
  lemma ToDisconnecting(env: nat -> Answer, c: State, bound: nat) returns (ok: bool)
    requires Structured(Wifi(), c.current) && |c.current| == 17 && bound > 1
    requires c.current[0] == STARTED && c.current[STARTED + 1] == CONNECTED
    ensures var r, asked := Transitioned(Wifi(), env, c, DISCONNECTING, bound), Ask(c.vars, Disconnect).(timer := DISCONNECT_TIMEOUT);
            r == if ok then c.(vars := asked, current := c.current[STARTED + 1 := DISCONNECTING],
                               queue := Posted(c.queue, EVENT_DISCONNECTING), log := r.log)
                 else c.(vars := Fail(asked, WIFI_OPERATION_FAILED, DISCONNECTING).(timer := 0),
                         current := c.current[STARTED + 1 := RESET],
                         queue := Posted(Without(c.queue, TRANSFERS), EVENT_PROCESS), log := r.log)
  {
    hide Handler, Transitioned, Acted, EnterChildren, Structured, Entering, Arriving, Entry, Ask, Fail, Posted, Without,
         Starting, Disconnected, Connecting, ConnectingToAp, Acquiring, Connected, ClosingSocket, Resetting, Stopping, Stopped;
    var x := Arrives(env, c, DISCONNECTING);
    var a := Arriving(Wifi(), env, c, DISCONNECTING);
    EnterAmongStarted(c, DISCONNECTING, a.log);
    Routes(c.vars, ENTERING, x);
    ok := x.ok;
    if ok {
      Enter1(Wifi(), env, c, DISCONNECTING, Post(EVENT_DISCONNECTING), bound);
      Acts(Wifi(), env, a, DISCONNECTING, 1);
      Leaf(a, DISCONNECTING);
      NoChildren(Wifi(), env, a.(queue := Posted(a.queue, EVENT_DISCONNECTING)), DISCONNECTING, 1);
    } else {
      var b := a.(queue := Without(a.queue, TRANSFERS));
      ToPosting(env, b, RESET, 1);
      var r := Transitioned(Wifi(), env, b, RESET, 1);
      EnterAmongStarted(b, RESET, r.log);
      Leaf(r, DISCONNECTING);
      EnterDiscardAndGo(Wifi(), env, c, DISCONNECTING, TRANSFERS, RESET, bound);
    }
  }

  function Connects(c: State): State
    requires |c.current| == 17
  {
    c.(vars := c.vars.(timer := CONNECTING_TIMEOUT), current := c.current[STARTED + 1 := CONNECTING][CONNECTING + 1 := CONNECTING_TO_AP])
  }

  /** Entering the connecting state asks for the connection, or gives up and resets. */
  lemma ToConnecting(env: nat -> Answer, c: State, bound: nat) returns (ok: bool)
    requires Structured(Wifi(), c.current) && |c.current| == 17 && bound > 1
    requires c.current[0] == STARTED && c.current[STARTED + 1] == DISCONNECTED
    ensures var r, b, asked := Transitioned(Wifi(), env, c, CONNECTING, bound), Connects(c), Ask(Connects(c).vars, Connect);
            r == if ok then b.(vars := asked, queue := Posted(c.queue, EVENT_CONNECTING), log := r.log)
                 else b.(vars := Fail(asked, WIFI_OPERATION_FAILED, CONNECTING_TO_AP).(timer := 0),
                         current := b.current[STARTED + 1 := RESET], queue := Posted([], EVENT_PROCESS), log := r.log)
    ensures Given(env, ok)
  {
    hide Given, Handler, Transitioned, Acted, Structured, EnterChildren, Entering, Arriving, Entry, Ask, Fail, Posted, Without,
         Starting, Disconnected, ConnectingToAp, Acquiring, Connected, ClosingSocket, Resetting, Stopping, Stopped, Disconnecting;
    var x := Arrives(env, c, CONNECTING);
    var a := Arriving(Wifi(), env, c, CONNECTING);
    EnterAmongStarted(c, CONNECTING, a.log);
    Routes(c.vars, ENTERING, x);
    EnterAndChoose(Wifi(), env, c, CONNECTING, CONNECTING_TO_AP, bound);
    var b := Connects(c).(log := a.log);
    ok := EntersConnectingToAp(env, b);
  }

  lemma {:induction false} EntersConnectingToAp(env: nat -> Answer, c: State) returns (ok: bool)
    requires Structured(Wifi(), c.current) && |c.current| == 17
    requires c.current[0] == STARTED && c.current[STARTED + 1] == CONNECTING && c.current[CONNECTING + 1] == CONNECTING_TO_AP
    ensures var r, asked := EnterChildren(Wifi(), env, c, CONNECTING, 1), Ask(c.vars, Connect);
            r == if ok then c.(vars := asked, queue := Posted(c.queue, EVENT_CONNECTING), log := r.log)
                 else c.(vars := Fail(asked, WIFI_OPERATION_FAILED, CONNECTING_TO_AP).(timer := 0),
                         current := c.current[STARTED + 1 := RESET], queue := Posted([], EVENT_PROCESS), log := r.log)
    ensures Given(env, ok)
  {
    hide Handler, Transitioned, Acted, Offer, Structured, Entering, Ask, Fail, Posted,
         Starting, Disconnected, Connecting, Acquiring, Connected, ClosingSocket, Resetting, Stopping, Stopped, Disconnecting;
    Routes(c.vars, ENTERING, env(|c.log|));
    ok := env(|c.log|).ok;
    var told := Told(Wifi(), env, c, CONNECTING_TO_AP, ENTERING);
    Acts(Wifi(), env, told, CONNECTING_TO_AP, 1);
    if ok {
      Offer1(Wifi(), env, c, CONNECTING_TO_AP, ENTERING, Post(EVENT_CONNECTING), 1);
    } else {
      Offer2(Wifi(), env, c, CONNECTING_TO_AP, ENTERING, ClearQueue, Go(RESET), 1);
      var b := told.(queue := []);
      Acts(Wifi(), env, b, CONNECTING_TO_AP, 1);
      ToPosting(env, b, RESET, 1);
      EnterAmongStarted(b, RESET, Transitioned(Wifi(), env, b, RESET, 1).log);
    }
    var r := Offer(Wifi(), env, c, CONNECTING_TO_AP, ENTERING, 1).0;
    Leaf(r, CONNECTING_TO_AP);
    NoChildren(Wifi(), env, r, CONNECTING_TO_AP, 1);
  }

  // ---- the discipline of driver calls ----

  /** Off until the driver reports a start; joined, attached and online from a connection request up to a disconnection request
      or a reset, as the driver reports the connection and the address. */
  datatype Phase = Off | Ready | Joined | Attached | Online | Parted

  /** What a reader of the calls knows: whether all were in order, the phase of the module, and the byte of the first
      failure since the last request. */
  datatype Watch = Watch(ok: bool, phase: Phase, error: nat)

  /** The kind is the upper half of the byte and the state the lower half. */
  predicate Decodes(kind: Byte, state: nat) {
    kind % 0x10 == 0 && state < 0x10 && kind + state > 0
  }

  function Watched(calls: seq<Call>): Watch {
    if calls == [] then Watch(true, Off, 0)
    else Next(Watched(calls[..|calls| - 1]), calls[|calls| - 1])
  }

  function Next(w: Watch, call: Call): Watch {
    match call
    case Start(ok) => Watch(w.ok && w.phase == Off, if ok then Ready else Off, w.error)
    case Connect => Watch(w.ok && (w.phase == Ready || w.phase == Parted), Joined, w.error)
    case Associated => Watch(w.ok && w.phase == Joined, Attached, w.error)
    case Addressed(accepted) => Watch(w.ok && w.phase == Attached, if accepted then Online else Attached, w.error)
    case Disconnect => Watch(w.ok && w.phase == Online, Parted, w.error)
    case Reset => Watch(w.ok && w.phase != Off, Ready, w.error)
    case Stop => Watch(w.ok && (w.phase == Ready || w.phase == Parted), Off, w.error)
    case Request => w.(error := 0)
    case Failed(kind, state) => w.(ok := w.ok && Decodes(kind, state), error := if w.error == 0 then kind + state else w.error)
  }

  lemma WatchNext(v: Vars, call: Call)
    ensures Watched(Ask(v, call).calls) == Next(Watched(v.calls), call)
  {
    assert (v.calls + [call])[..|v.calls|] == v.calls;
  }

  lemma WatchFail(v: Vars, kind: Byte, state: nat)
    requires v.error == Watched(v.calls).error && Decodes(kind, state)
    ensures var w, f := Watched(v.calls), Fail(v, kind, state);
            && Watched(f.calls).ok == w.ok && Watched(f.calls).phase == w.phase
            && f.error == Watched(f.calls).error && f.timer == v.timer
  {
    WatchNext(v, Failed(kind, state));
  }

  // ---- what every step keeps ----

  predicate AtRest(current: seq<int>)
    requires |current| == 17
  {
    && (current[0] == STOPPED || AmongStarted(current))
    && (current[STARTED + 1] == CONNECTING ==> current[CONNECTING + 1] in {CONNECTING_TO_AP, ACQUIRING})
  }

  ghost predicate VarsAgree(v: Vars, current: seq<int>)
    requires |current| == 17
  {
    var w, k := Watched(v.calls), current[STARTED + 1];
    && w.ok && v.error == w.error
    && (current[0] == STOPPED <==> w.phase == Off)
    && (current[0] == STARTED && k == DISCONNECTED ==> w.phase == Ready || w.phase == Parted)
    && (current[0] == STARTED && k == CONNECTING ==>
          w.phase == if current[CONNECTING + 1] == CONNECTING_TO_AP then Joined else Attached)
    && (current[0] == STARTED && k == CONNECTED ==> w.phase == Online)
    && (current[0] == STARTED && k == DISCONNECTING ==> w.phase == Parted)
    && (v.timer > 0 ==> current[0] == STARTED && k in {CONNECTING, DISCONNECTING})
  }

  /** A queue as the module keeps it. */
  predicate OnlyEvents(queue: seq<nat>) {
    |queue| <= QUEUE_SIZE && forall e :: e in queue ==> e <= EVENT_DONE
  }

  ghost predicate Good(c: State) {
    && Structured(Wifi(), c.current) && |c.current| == 17
    && !c.fault && AtRest(c.current) && VarsAgree(c.vars, c.current) && OnlyEvents(c.queue)
  }

  lemma PostedEvents(queue: seq<nat>, e: nat)
    requires OnlyEvents(queue) && e <= EVENT_DONE
    ensures OnlyEvents(Posted(queue, e))
  {
    PostedMembers(queue, e);
  }

  lemma WithoutEvents(queue: seq<nat>)
    requires OnlyEvents(queue)
    ensures OnlyEvents(Without(queue, TRANSFERS))
  {
    WithoutMembers(queue, TRANSFERS);
  }

  /** What the handler of an active state makes of an event keeps everything, and is nothing if it does not consume it. */
  ghost predicate Keeps(c: State, r: (State, bool)) {
    Good(r.0) && (r.1 || r.0 == c.(log := r.0.log))
  }

  /** The module is reset, with these events left queued before the first step of the reset, and with the variables v but that no
      timer runs. */
  ghost predicate Resets(c: State, r: (State, bool), queue: seq<nat>, v: Vars)
    requires |c.current| == 17
  {
    && r.1 && r.0.current == c.current[STARTED + 1 := RESET] && r.0.queue == Posted(queue, EVENT_PROCESS)
    && r.0.vars == v.(timer := r.0.vars.timer)
  }

  /** The state t under the started one is entered, or under the connected one, with the variables v but for the timer. */
  ghost predicate Goes(c: State, r: (State, bool), t: nat, queue: seq<nat>, v: Vars)
    requires |c.current| == 17
  {
    && r.1 && r.0.queue == queue && r.0.vars == v.(timer := r.0.vars.timer) && |r.0.current| == 17 && r.0.current[0] == STARTED
    && if SEND <= t <= CLOSING_SOCKET then r.0.current[STARTED + 1] == CONNECTED && r.0.current[CONNECTED + 1] == t
       else r.0.current[STARTED + 1] == t && (t == CONNECTED ==> r.0.current[CONNECTED + 1] == NO_STATE)
  }

  /** Nothing changes but that e is queued. */
  ghost predicate Queues(c: State, r: (State, bool), e: nat) {
    r == (c.(queue := Posted(c.queue, e), log := r.0.log), true)
  }

  /** Every reset after an error, with the variables v: nothing queued is left but the first step of the reset, or no transfer is. */
  lemma GivesUp(env: nat -> Answer, c: State, s: nat, event: nat, v: Vars, kind: Byte, first: Action, bound: nat)
    requires Good(c) && c.current[0] == STARTED && s < |PARENT| && bound > 0
    requires first == ClearQueue || first == Discard(TRANSFERS)
    requires Decodes(kind, s)
    requires v.timer == c.vars.timer && Watched(v.calls).ok && Watched(v.calls).error == v.error && Watched(v.calls).phase != Off
    requires Handler(c.vars, s, event, env(|c.log|)) == Reaction(Fail(v, kind, s), true, [first, Go(RESET)])
    ensures Keeps(c, Offer(Wifi(), env, c, s, event, bound))
    ensures var r := Offer(Wifi(), env, c, s, event, bound);
            Resets(c, r, if first == ClearQueue then [] else Without(c.queue, TRANSFERS), Fail(v, kind, s))
  {
    hide Handler, Offer, Transitioned, Acted, Structured, Posted, Without, Watched, Fail;
    WatchFail(v, kind, s);
    var told := Told(Wifi(), env, c, s, event);
    Offer2(Wifi(), env, c, s, event, first, Go(RESET), bound);
    Acts(Wifi(), env, told, s, bound);
    WithoutEvents(c.queue);
    var b := told.(queue := if first == ClearQueue then [] else Without(told.queue, TRANSFERS));
    Acts(Wifi(), env, b, s, bound);
    ToPosting(env, b, RESET, bound);
    EnterAmongStarted(b, RESET, Transitioned(Wifi(), env, b, RESET, bound).log);
    PostedEvents(b.queue, EVENT_PROCESS);
  }

  /** Every event put back. */
  lemma Reposts(env: nat -> Answer, c: State, s: int, event: nat, e: nat, bound: nat)
    requires Good(c) && IsState(Wifi(), s) && e <= EVENT_DONE
    requires Handler(c.vars, s, event, env(|c.log|)) == Reaction(c.vars, true, [Post(e)])
    ensures Keeps(c, Offer(Wifi(), env, c, s, event, bound)) && Queues(c, Offer(Wifi(), env, c, s, event, bound), e)
  {
    hide Handler, Offer, Structured, Posted, Watched;
    Offer1(Wifi(), env, c, s, event, Post(e), bound);
    PostedEvents(c.queue, e);
  }

  /** Every event passed on, or taken without effect. */
  lemma Passes(env: nat -> Answer, c: State, s: int, event: nat, bound: nat)
    requires Good(c) && IsState(Wifi(), s)
    requires var r := Handler(c.vars, s, event, env(|c.log|)); r.vars == c.vars && r.actions == []
    ensures Keeps(c, Offer(Wifi(), env, c, s, event, bound))
    ensures var r := Offer(Wifi(), env, c, s, event, bound);
            r == (c.(log := r.0.log), Handler(c.vars, s, event, env(|c.log|)).consumed)
  {
    hide Handler, Offer, Structured, Watched;
    Offer0(Wifi(), env, c, s, event, bound);
  }

  lemma StoppedOffer(env: nat -> Answer, c: State, event: nat, bound: nat)
    requires Good(c) && event <= EVENT_DONE && bound > 1 && c.current[0] == STOPPED
    ensures var r := Offer(Wifi(), env, c, STOPPED, event, bound);
            && Keeps(c, r) && (r.1 <==> event == EVENT_CONNECT || IsTransfer(event))
            && (r.1 ==>
                  if r.0.current[0] == STOPPED then
                    r.0.queue == [] && r.0.vars == Fail(Ask(c.vars, Start(false)), WIFI_OPERATION_FAILED, STARTING)
                  else Goes(c, r, DISCONNECTED, Posted(c.queue, event), Ask(c.vars, Start(true))))
  {
    hide Handler, Offer, Transitioned, Structured, Posted, Without, Watched, Fail,
         Starting, Disconnected, Connecting, ConnectingToAp, Acquiring, Connected, ClosingSocket, Disconnecting, Resetting, Stopping;
    Routes(c.vars, event, env(|c.log|));
    if event == EVENT_CONNECT || IsTransfer(event) {
      var told := Told(Wifi(), env, c, STOPPED, event);
      Offer2(Wifi(), env, c, STOPPED, event, Post(event), Go(STARTING), bound);
      PostedEvents(c.queue, event);
      var b := told.(queue := Posted(told.queue, event));
      var ok := ToStarting(env, b, bound);
      WatchNext(c.vars, Start(ok));
      WatchFail(Ask(c.vars, Start(ok)), WIFI_OPERATION_FAILED, STARTING);
    } else {
      Passes(env, c, STOPPED, event, bound);
    }
  }

  lemma DisconnectedOffer(env: nat -> Answer, c: State, event: nat, bound: nat)
    requires Good(c) && event <= EVENT_DONE && bound > 1 && c.current[0] == STARTED && c.current[STARTED + 1] == DISCONNECTED
    ensures var r := Offer(Wifi(), env, c, DISCONNECTED, event, bound);
            && Keeps(c, r)
            && (event == EVENT_STOP ==> r.1 && r.0.current[0] == STOPPED && r.0.queue == c.queue)
            && (event == EVENT_CONNECT || (IsTransfer(event) && env(|c.log|).ssidSet) ==>
                  ConnectsOrResets(c, r, if event == EVENT_CONNECT then c.queue else Posted(c.queue, event)))
            && (IsTransfer(event) && !env(|c.log|).ssidSet ==>
                  r == (c.(vars := Fail(c.vars, WIFI_PARAMETERS_MISSING, DISCONNECTED), log := r.0.log), true))
            && (event == EVENT_ERROR ==> Resets(c, r, Without(c.queue, TRANSFERS), Fail(c.vars, WIFI_ERROR, DISCONNECTED)))
            && (!IsTransfer(event) && event !in {EVENT_STOP, EVENT_CONNECT, EVENT_ERROR} ==> r == (c.(log := r.0.log), false))
  {
    hide Handler, Offer, Transitioned, Structured, Posted, Without, Watched, Fail,
         Starting, Connecting, ConnectingToAp, Acquiring, Connected, ClosingSocket, Disconnecting, Resetting, Stopping, Stopped;
    Routes(c.vars, event, env(|c.log|));
    var told := Told(Wifi(), env, c, DISCONNECTED, event);
    if event == EVENT_STOP {
      Offer1(Wifi(), env, c, DISCONNECTED, event, Go(STOPPING), bound);
      var ok := ToStopping(env, told, bound);
      WatchNext(c.vars, Stop);
      WatchFail(Ask(c.vars, Stop), WIFI_OPERATION_FAILED, STOPPING);
    } else if event == EVENT_CONNECT {
      Offer1(Wifi(), env, c, DISCONNECTED, event, Go(CONNECTING), bound);
      ConnectKeeps(env, told, bound);
    } else if IsTransfer(event) {
      if env(|c.log|).ssidSet {
        Offer2(Wifi(), env, c, DISCONNECTED, event, Post(event), Go(CONNECTING), bound);
        PostedEvents(c.queue, event);
        ConnectKeeps(env, told.(queue := Posted(told.queue, event)), bound);
      } else {
        Offer0(Wifi(), env, c, DISCONNECTED, event, bound);
        WatchFail(c.vars, WIFI_PARAMETERS_MISSING, DISCONNECTED);
      }
    } else if event == EVENT_ERROR {
      GivesUp(env, c, DISCONNECTED, event, c.vars, WIFI_ERROR, Discard(TRANSFERS), bound);
    } else {
      Passes(env, c, DISCONNECTED, event, bound);
    }
  }

  /** The connection is asked for, with these events queued, or that fails and nothing is left queued but the reset. */
  ghost predicate ConnectsOrResets(c: State, r: (State, bool), queue: seq<nat>)
    requires |c.current| == 17
  {
    && r.1 && |r.0.current| == 17 && r.0.current[0] == STARTED
    && var asked := Ask(c.vars, Connect);
       if r.0.current[STARTED + 1] == RESET then
         && r.0.queue == Posted([], EVENT_PROCESS)
         && r.0.vars == Fail(asked, WIFI_OPERATION_FAILED, CONNECTING_TO_AP).(timer := r.0.vars.timer)
       else
         && r.0.current[STARTED + 1] == CONNECTING && r.0.current[CONNECTING + 1] == CONNECTING_TO_AP
         && r.0.queue == Posted(queue, EVENT_CONNECTING) && r.0.vars == asked.(timer := CONNECTING_TIMEOUT)
  }

  lemma ConnectKeeps(env: nat -> Answer, c: State, bound: nat)
    requires Good(c) && bound > 1 && c.current[0] == STARTED && c.current[STARTED + 1] == DISCONNECTED
    ensures var r := Transitioned(Wifi(), env, c, CONNECTING, bound);
            Good(r) && ConnectsOrResets(c, (r, true), c.queue)
  {
    hide Transitioned, Structured, Posted, Watched;
    var ok := ToConnecting(env, c, bound);
    var v := Connects(c).vars;
    WatchNext(v, Connect);
    WatchFail(Ask(v, Connect), WIFI_OPERATION_FAILED, CONNECTING_TO_AP);
    PostedEvents(c.queue, EVENT_CONNECTING);
    PostedEvents([], EVENT_PROCESS);
  }

  lemma ConnectingOffer(env: nat -> Answer, c: State, event: nat, bound: nat)
    requires Good(c) && event <= EVENT_DONE && bound > 1 && c.current[0] == STARTED && c.current[STARTED + 1] == CONNECTING
    ensures var r := Offer(Wifi(), env, c, CONNECTING, event, bound);
            Keeps(c, r) && (r.1 <==> IsTransfer(event)) && (r.1 ==> Queues(c, r, event))
  {
    hide Handler, Offer, Transitioned, Structured, Posted, Without, Watched, Fail,
         Starting, Disconnected, ConnectingToAp, Acquiring, Connected, ClosingSocket, Disconnecting, Resetting, Stopping, Stopped;
    Routes(c.vars, event, env(|c.log|));
    if IsTransfer(event) {
      Reposts(env, c, CONNECTING, event, event, bound);
    } else {
      Passes(env, c, CONNECTING, event, bound);
    }
  }

  lemma ConnectingToApOffer(env: nat -> Answer, c: State, event: nat, bound: nat)
    requires Good(c) && event <= EVENT_DONE && bound > 1 && c.current[0] == STARTED && c.current[STARTED + 1] == CONNECTING
    requires c.current[CONNECTING + 1] == CONNECTING_TO_AP
    ensures var r, v := Offer(Wifi(), env, c, CONNECTING_TO_AP, event, bound), c.vars;
            && Keeps(c, r)
            && (event == EVENT_CONNECTED ==>
                  r == (c.(vars := Ask(v, Associated), current := c.current[CONNECTING + 1 := ACQUIRING],
                           queue := Posted(c.queue, EVENT_ACQUIRING), log := r.0.log), true))
            && (event == EVENT_CONNECTING || event == EVENT_ACQUIRED ==> Queues(c, r, event))
            && (event == EVENT_DISCONNECTED ==> Resets(c, r, [], Fail(v, WIFI_DISCONNECTED, CONNECTING_TO_AP)))
            && (event == EVENT_SEQUENCE_TIMEOUT ==> Resets(c, r, [], Fail(v, WIFI_TIMEOUT, CONNECTING_TO_AP)))
            && (event == EVENT_ERROR ==> Resets(c, r, [], Fail(v, WIFI_ERROR, CONNECTING_TO_AP)))
            && (event !in {EVENT_CONNECTED, EVENT_CONNECTING, EVENT_ACQUIRED, EVENT_DISCONNECTED, EVENT_SEQUENCE_TIMEOUT, EVENT_ERROR} ==>
                  r == (c.(log := r.0.log), false))
  {
    hide Handler, Offer, Transitioned, Structured, Posted, Without, Watched, Fail,
         Starting, Disconnected, Connecting, Acquiring, Connected, ClosingSocket, Disconnecting, Resetting, Stopping, Stopped;
    Routes(c.vars, event, env(|c.log|));
    if event == EVENT_CONNECTING || event == EVENT_ACQUIRED {
      Reposts(env, c, CONNECTING_TO_AP, event, event, bound);
    } else if event == EVENT_CONNECTED {
      var told := Told(Wifi(), env, c, CONNECTING_TO_AP, event);
      WatchNext(c.vars, Associated);
      Offer1(Wifi(), env, c, CONNECTING_TO_AP, event, Go(ACQUIRING), bound);
      ToPosting(env, told, ACQUIRING, bound);
      EnterAcquiring(told, Transitioned(Wifi(), env, told, ACQUIRING, bound).log);
      PostedEvents(c.queue, EVENT_ACQUIRING);
    } else if event == EVENT_DISCONNECTED {
      GivesUp(env, c, CONNECTING_TO_AP, event, c.vars, WIFI_DISCONNECTED, ClearQueue, bound);
    } else if event == EVENT_SEQUENCE_TIMEOUT {
      GivesUp(env, c, CONNECTING_TO_AP, event, c.vars, WIFI_TIMEOUT, ClearQueue, bound);
    } else if event == EVENT_ERROR {
      GivesUp(env, c, CONNECTING_TO_AP, event, c.vars, WIFI_ERROR, ClearQueue, bound);
    } else {
      Passes(env, c, CONNECTING_TO_AP, event, bound);
    }
  }

  lemma EnterAcquiring(c: State, log: seq<Notice>)
    requires Structured(Wifi(), c.current) && |c.current| == 17 && c.current[0] == STARTED && c.current[STARTED + 1] == CONNECTING
    requires c.current[CONNECTING + 1] == CONNECTING_TO_AP
    ensures Entering(c, ACQUIRING, log) == c.(current := c.current[CONNECTING + 1 := ACQUIRING], log := log)
  {
    hide Structured;
    Leaf(c, CONNECTING_TO_AP);
    assert Active(Wifi(), c.current, STARTED);
  }

  lemma AcquiringOffer(env: nat -> Answer, c: State, event: nat, bound: nat)
    requires Good(c) && event <= EVENT_DONE && bound > 1 && c.current[0] == STARTED && c.current[STARTED + 1] == CONNECTING
    requires c.current[CONNECTING + 1] == ACQUIRING
    ensures var r, v, wrong := Offer(Wifi(), env, c, ACQUIRING, event, bound), c.vars, env(|c.log|).staticIpSet && !env(|c.log|).ok;
            && Keeps(c, r)
            && (event == EVENT_ACQUIRING ==> Queues(c, r, event))
            && (event == EVENT_ACQUIRED ==>
                  if wrong then Resets(c, r, [], Fail(Ask(v, Addressed(false)), WIFI_OPERATION_FAILED, ACQUIRING))
                  else Goes(c, r, CONNECTED, c.queue, Ask(v, Addressed(true))))
            && (event == EVENT_DISCONNECTED ==> Resets(c, r, [], Fail(v, WIFI_DISCONNECTED, ACQUIRING)))
            && (event == EVENT_SEQUENCE_TIMEOUT ==> Resets(c, r, [], Fail(v, WIFI_TIMEOUT, ACQUIRING)))
            && (event == EVENT_ERROR ==> Resets(c, r, [], Fail(v, WIFI_ERROR, ACQUIRING)))
            && (event !in {EVENT_ACQUIRING, EVENT_ACQUIRED, EVENT_DISCONNECTED, EVENT_SEQUENCE_TIMEOUT, EVENT_ERROR} ==>
                  r == (c.(log := r.0.log), false))
  {
    hide Handler, Offer, Transitioned, Structured, Posted, Without, Watched, Fail,
         Starting, Disconnected, Connecting, ConnectingToAp, Connected, ClosingSocket, Disconnecting, Resetting, Stopping, Stopped;
    var x := env(|c.log|);
    Routes(c.vars, event, x);
    if event == EVENT_ACQUIRING {
      Reposts(env, c, ACQUIRING, event, event, bound);
    } else if event == EVENT_ACQUIRED {
      if x.staticIpSet && !x.ok {
        WatchNext(c.vars, Addressed(false));
        GivesUp(env, c, ACQUIRING, event, Ask(c.vars, Addressed(false)), WIFI_OPERATION_FAILED, ClearQueue, bound);
      } else {
        WatchNext(c.vars, Addressed(true));
        ConnectedKeeps(env, c, ACQUIRING, event, Ask(c.vars, Addressed(true)), bound);
      }
    } else if event == EVENT_DISCONNECTED {
      GivesUp(env, c, ACQUIRING, event, c.vars, WIFI_DISCONNECTED, ClearQueue, bound);
    } else if event == EVENT_SEQUENCE_TIMEOUT {
      GivesUp(env, c, ACQUIRING, event, c.vars, WIFI_TIMEOUT, ClearQueue, bound);
    } else if event == EVENT_ERROR {
      GivesUp(env, c, ACQUIRING, event, c.vars, WIFI_ERROR, ClearQueue, bound);
    } else {
      Passes(env, c, ACQUIRING, event, bound);
    }
  }

  /** Going to the connected state with the variables v. */
  lemma ConnectedKeeps(env: nat -> Answer, c: State, s: nat, event: nat, v: Vars, bound: nat)
    requires Good(c) && s < |PARENT| && bound > 1 && c.current[0] == STARTED && c.current[STARTED + 1] in {CONNECTING, CONNECTED}
    requires v.timer == c.vars.timer && Watched(v.calls) == Watch(true, Online, v.error)
    requires Handler(c.vars, s, event, env(|c.log|)) == Reaction(v, true, [Go(CONNECTED)])
    ensures var r := Offer(Wifi(), env, c, s, event, bound); Keeps(c, r) && Goes(c, r, CONNECTED, c.queue, v)
  {
    hide Handler, Offer, Transitioned, Posted, Watched;
    var told := Told(Wifi(), env, c, s, event);
    Offer1(Wifi(), env, c, s, event, Go(CONNECTED), bound);
    ToConnected(env, told, bound);
    EnterAmongStarted(told, CONNECTED, Transitioned(Wifi(), env, told, CONNECTED, bound).log);
  }

  /** Going from the connected state into one of its children. */
  lemma ConnectedGoes(env: nat -> Answer, c: State, t: nat, bound: nat)
    requires Good(c) && bound > 1 && c.current[0] == STARTED && c.current[STARTED + 1] == CONNECTED
    requires t in {SEND, SEND_TO, RECEIVE, RECEIVE_FROM, CLOSING_SOCKET}
    ensures var r := Transitioned(Wifi(), env, c, t, bound);
            Good(r) && Goes(c, (r, true), t, Posted(c.queue, EVENT_PROCESS), c.vars)
  {
    hide Transitioned, Posted, Watched;
    ToPosting(env, c, t, bound);
    EnterTransfer(c, t, Transitioned(Wifi(), env, c, t, bound).log);
    PostedEvents(c.queue, EVENT_PROCESS);
  }

  lemma EnterTransfer(c: State, t: nat, log: seq<Notice>)
    requires Structured(Wifi(), c.current) && |c.current| == 17 && c.current[0] == STARTED && c.current[STARTED + 1] == CONNECTED
    requires t < |PARENT| && PARENT[t] == CONNECTED
    ensures Entering(c, t, log) == c.(current := c.current[CONNECTED + 1 := t], log := log)
  {
    UntimedConnected(c.current);
    assert Active(Wifi(), c.current, STARTED);
  }

  /** The disconnection is asked for, with these events queued, or that fails and no transfer is left queued. */
  ghost predicate DisconnectsOrResets(c: State, r: (State, bool), queue: seq<nat>)
    requires |c.current| == 17
  {
    && r.1 && |r.0.current| == 17 && r.0.current[0] == STARTED
    && var asked := Ask(c.vars, Disconnect);
       if r.0.current[STARTED + 1] == RESET then
         && r.0.queue == Posted(Without(queue, TRANSFERS), EVENT_PROCESS)
         && r.0.vars == Fail(asked, WIFI_OPERATION_FAILED, DISCONNECTING).(timer := r.0.vars.timer)
       else
         && r.0.current[STARTED + 1] == DISCONNECTING && r.0.queue == Posted(queue, EVENT_DISCONNECTING)
         && r.0.vars == asked.(timer := DISCONNECT_TIMEOUT)
  }

  lemma DisconnectKeeps(env: nat -> Answer, c: State, bound: nat)
    requires Good(c) && bound > 1 && c.current[0] == STARTED && c.current[STARTED + 1] == CONNECTED
    ensures var r := Transitioned(Wifi(), env, c, DISCONNECTING, bound);
            Good(r) && DisconnectsOrResets(c, (r, true), c.queue)
  {
    hide Transitioned, Structured, Posted, Watched, Without;
    var ok := ToDisconnecting(env, c, bound);
    var v := Ask(c.vars, Disconnect).(timer := DISCONNECT_TIMEOUT);
    WatchNext(c.vars, Disconnect);
    WatchFail(v, WIFI_OPERATION_FAILED, DISCONNECTING);
    PostedEvents(c.queue, EVENT_DISCONNECTING);
    WithoutEvents(c.queue);
    PostedEvents(Without(c.queue, TRANSFERS), EVENT_PROCESS);
  }

  /** The state under the connected one that serves a request. */
  function ServedIn(event: nat): nat {
    match event
    case 3 => SEND
    case 4 => SEND_TO
    case 5 => RECEIVE
    case 6 => RECEIVE_FROM
    case _ => CLOSING_SOCKET
  }

  lemma ConnectedOffer(env: nat -> Answer, c: State, event: nat, bound: nat)
    requires Good(c) && event <= EVENT_DONE && bound > 1 && c.current[0] == STARTED && c.current[STARTED + 1] == CONNECTED
    ensures var r, v, queue := Offer(Wifi(), env, c, CONNECTED, event, bound), c.vars, c.queue;
            && Keeps(c, r)
            && (IsTransfer(event) || event == EVENT_CLOSE_SOCKET ==> Goes(c, r, ServedIn(event), Posted(queue, EVENT_PROCESS), v))
            && (event == EVENT_STOP ==> Goes(c, r, CLOSING_SOCKET, Posted(Posted(queue, EVENT_STOP_SOCKET_CLOSED), EVENT_PROCESS), v))
            && (event == EVENT_DISCONNECT ==> DisconnectsOrResets(c, r, Posted(queue, EVENT_DISCONNECT_SOCKET_CLOSED)))
            && (event == EVENT_DISCONNECT_SOCKET_CLOSED ==> DisconnectsOrResets(c, r, queue))
            && (event == EVENT_STOP_SOCKET_CLOSED ==> DisconnectsOrResets(c, r, Posted(queue, EVENT_STOP)))
            && (event == EVENT_DISCONNECTED ==> Resets(c, r, Without(queue, TRANSFERS), Fail(v, WIFI_DISCONNECTED, CONNECTED)))
            && (event == EVENT_ERROR ==> Resets(c, r, Without(queue, TRANSFERS), Fail(v, WIFI_ERROR, CONNECTED)))
  {
    hide Handler, Offer, Transitioned, Structured, Posted, Without, Watched, Fail,
         Starting, Disconnected, Connecting, ConnectingToAp, Acquiring, ClosingSocket, Disconnecting, Resetting, Stopping, Stopped;
    Routes(c.vars, event, env(|c.log|));
    var actions, told := ActionsOf(Wifi(), env, c, CONNECTED, event), Told(Wifi(), env, c, CONNECTED, event);
    if event == EVENT_DISCONNECTED {
      GivesUp(env, c, CONNECTED, event, c.vars, WIFI_DISCONNECTED, Discard(TRANSFERS), bound);
    } else if event == EVENT_ERROR {
      GivesUp(env, c, CONNECTED, event, c.vars, WIFI_ERROR, Discard(TRANSFERS), bound);
    } else if |actions| == 0 {
      Passes(env, c, CONNECTED, event, bound);
    } else if |actions| == 1 {
      Offer1(Wifi(), env, c, CONNECTED, event, actions[0], bound);
      if actions[0].target == DISCONNECTING {
        DisconnectKeeps(env, told, bound);
      } else {
        ConnectedGoes(env, told, actions[0].target, bound);
      }
    } else {
      Offer2(Wifi(), env, c, CONNECTED, event, actions[0], actions[1], bound);
      var b := told.(queue := Posted(told.queue, actions[0].event));
      PostedEvents(c.queue, actions[0].event);
      if actions[1].target == DISCONNECTING {
        DisconnectKeeps(env, b, bound);
      } else {
        ConnectedGoes(env, b, actions[1].target, bound);
      }
    }
  }

  lemma TransferOffer(env: nat -> Answer, c: State, s: nat, event: nat, bound: nat)
    requires Good(c) && event <= EVENT_DONE && bound > 1 && c.current[0] == STARTED && c.current[STARTED + 1] == CONNECTED
    requires s in {SEND, SEND_TO, RECEIVE, RECEIVE_FROM} && c.current[CONNECTED + 1] == s
    ensures var r, v, x := Offer(Wifi(), env, c, s, event, bound), c.vars, env(|c.log|);
            var error := if s == SEND || s == RECEIVE then x.tcpError else x.udpError;
            var kind := if s == SEND || s == RECEIVE then TcpKind(x.tcpError) else UdpKind(x.udpError);
            && Keeps(c, r)
            && (event == EVENT_DONE ==> if error == 0 then Goes(c, r, CONNECTED, c.queue, v) else Resets(c, r, [], Fail(v, kind, s)))
            && (event == EVENT_DISCONNECTED ==> Resets(c, r, [], Fail(v, WIFI_DISCONNECTED, s)))
            && (event == EVENT_ERROR ==> Resets(c, r, [], Fail(v, WIFI_ERROR, s)))
            && (r.1 <==> event in {EVENT_DONE, EVENT_DISCONNECTED, EVENT_ERROR})
  {
    hide Handler, Offer, Transitioned, Structured, Posted, Without, Watched, Fail,
         Starting, Disconnected, Connecting, ConnectingToAp, Acquiring, Connected, ClosingSocket, Disconnecting, Resetting, Stopping, Stopped;
    var x := env(|c.log|);
    var tcp := s == SEND || s == RECEIVE;
    var error, kind := if tcp then x.tcpError else x.udpError, if tcp then TcpKind(x.tcpError) else UdpKind(x.udpError);
    assert Handler(c.vars, s, event, x) == Transferring(c.vars, s, event, error, kind) by {
      TransferRoute(c.vars, s, event, x);
    }
    if event == EVENT_DONE {
      if error == 0 {
        ConnectedKeeps(env, c, s, event, c.vars, bound);
      } else {
        GivesUp(env, c, s, event, c.vars, kind, ClearQueue, bound);
      }
    } else if event == EVENT_DISCONNECTED {
      GivesUp(env, c, s, event, c.vars, WIFI_DISCONNECTED, ClearQueue, bound);
    } else if event == EVENT_ERROR {
      GivesUp(env, c, s, event, c.vars, WIFI_ERROR, ClearQueue, bound);
    } else {
      Passes(env, c, s, event, bound);
    }
  }

  lemma TransferRoute(v: Vars, s: nat, event: nat, a: Answer)
    requires s in {SEND, SEND_TO, RECEIVE, RECEIVE_FROM}
    ensures Handler(v, s, event, a)
            == if s == SEND || s == RECEIVE then Transferring(v, s, event, a.tcpError, TcpKind(a.tcpError))
               else Transferring(v, s, event, a.udpError, UdpKind(a.udpError))
  {
    hide Transferring;
  }

  lemma ClosingSocketOffer(env: nat -> Answer, c: State, event: nat, bound: nat)
    requires Good(c) && event <= EVENT_DONE && bound > 1 && c.current[0] == STARTED && c.current[STARTED + 1] == CONNECTED
    requires c.current[CONNECTED + 1] == CLOSING_SOCKET
    ensures var r, v, x, kept := Offer(Wifi(), env, c, CLOSING_SOCKET, event, bound), c.vars, env(|c.log|), Without(c.queue, TRANSFERS);
            && Keeps(c, r)
            && (event == EVENT_PROCESS ==> Queues(c, r, if x.more then EVENT_PROCESS else EVENT_DONE))
            && (event == EVENT_DONE ==>
                  if (x.tcpError == 0 && x.udpError == 0) || x.tcpError / 0x10 == 3 then Goes(c, r, CONNECTED, c.queue, v)
                  else Resets(c, r, kept, Fail(v, WIFI_OPERATION_FAILED, CLOSING_SOCKET)))
            && (event == EVENT_DISCONNECT_SOCKET_CLOSED || event == EVENT_STOP_SOCKET_CLOSED ==> Queues(c, r, event))
            && (event == EVENT_DISCONNECTED ==> Resets(c, r, kept, Fail(v, WIFI_DISCONNECTED, CLOSING_SOCKET)))
            && (event == EVENT_ERROR ==> Resets(c, r, kept, Fail(v, WIFI_ERROR, CLOSING_SOCKET)))
  {
    hide Handler, Offer, Transitioned, Structured, Posted, Without, Watched, Fail,
         Starting, Disconnected, Connecting, ConnectingToAp, Acquiring, Connected, Disconnecting, Resetting, Stopping, Stopped;
    var x := env(|c.log|);
    Routes(c.vars, event, x);
    if event == EVENT_PROCESS {
      Reposts(env, c, CLOSING_SOCKET, event, if x.more then EVENT_PROCESS else EVENT_DONE, bound);
    } else if event == EVENT_DONE {
      if (x.tcpError == 0 && x.udpError == 0) || x.tcpError / 0x10 == 3 {
        ConnectedKeeps(env, c, CLOSING_SOCKET, event, c.vars, bound);
      } else {
        GivesUp(env, c, CLOSING_SOCKET, event, c.vars, WIFI_OPERATION_FAILED, Discard(TRANSFERS), bound);
      }
    } else if event == EVENT_DISCONNECT_SOCKET_CLOSED || event == EVENT_STOP_SOCKET_CLOSED {
      Reposts(env, c, CLOSING_SOCKET, event, event, bound);
    } else if event == EVENT_DISCONNECTED {
      GivesUp(env, c, CLOSING_SOCKET, event, c.vars, WIFI_DISCONNECTED, Discard(TRANSFERS), bound);
    } else if event == EVENT_ERROR {
      GivesUp(env, c, CLOSING_SOCKET, event, c.vars, WIFI_ERROR, Discard(TRANSFERS), bound);
    } else {
      Passes(env, c, CLOSING_SOCKET, event, bound);
    }
  }

  /** Going back to the disconnected state with the variables v. */
  lemma GoesDisconnected(env: nat -> Answer, c: State, s: nat, event: nat, v: Vars, bound: nat)
    requires Good(c) && s < |PARENT| && bound > 1 && c.current[0] == STARTED && c.current[STARTED + 1] in {DISCONNECTING, RESET}
    requires Handler(c.vars, s, event, env(|c.log|)) == Reaction(v, true, [Go(DISCONNECTED)])
    requires VarsAgree(v, c.current) && (Watched(v.calls).phase == Ready || Watched(v.calls).phase == Parted)
    ensures var r := Offer(Wifi(), env, c, s, event, bound); Keeps(c, r) && Goes(c, r, DISCONNECTED, c.queue, v)
  {
    hide Handler, Offer, Transitioned, Structured, Watched;
    var told := Told(Wifi(), env, c, s, event);
    Offer1(Wifi(), env, c, s, event, Go(DISCONNECTED), bound);
    ToQuiet(env, told, DISCONNECTED, bound);
    EnterAmongStarted(told, DISCONNECTED, Transitioned(Wifi(), env, told, DISCONNECTED, bound).log);
  }

  lemma DisconnectingOffer(env: nat -> Answer, c: State, event: nat, bound: nat)
    requires Good(c) && event <= EVENT_DONE && bound > 1 && c.current[0] == STARTED && c.current[STARTED + 1] == DISCONNECTING
    ensures var r, v, kept := Offer(Wifi(), env, c, DISCONNECTING, event, bound), c.vars, Without(c.queue, TRANSFERS);
            && Keeps(c, r)
            && (event == EVENT_STOP || event == EVENT_DISCONNECTING ==> Queues(c, r, event))
            && (event == EVENT_DISCONNECTED ==> Goes(c, r, DISCONNECTED, c.queue, v))
            && (event == EVENT_SEQUENCE_TIMEOUT ==> Resets(c, r, kept, Fail(v, WIFI_TIMEOUT, DISCONNECTING)))
            && (event == EVENT_ERROR ==> Resets(c, r, kept, Fail(v, WIFI_ERROR, DISCONNECTING)))
  {
    hide Handler, Offer, Transitioned, Structured, Posted, Without, Watched, Fail,
         Starting, Disconnected, Connecting, ConnectingToAp, Acquiring, Connected, ClosingSocket, Resetting, Stopping, Stopped;
    Routes(c.vars, event, env(|c.log|));
    if event == EVENT_STOP || event == EVENT_DISCONNECTING {
      Reposts(env, c, DISCONNECTING, event, event, bound);
    } else if event == EVENT_DISCONNECTED {
      GoesDisconnected(env, c, DISCONNECTING, event, c.vars, bound);
    } else if event == EVENT_SEQUENCE_TIMEOUT {
      GivesUp(env, c, DISCONNECTING, event, c.vars, WIFI_TIMEOUT, Discard(TRANSFERS), bound);
    } else if event == EVENT_ERROR {
      GivesUp(env, c, DISCONNECTING, event, c.vars, WIFI_ERROR, Discard(TRANSFERS), bound);
    } else {
      Passes(env, c, DISCONNECTING, event, bound);
    }
  }

  lemma ResetOffer(env: nat -> Answer, c: State, event: nat, bound: nat)
    requires Good(c) && event <= EVENT_DONE && bound > 1 && c.current[0] == STARTED && c.current[STARTED + 1] == RESET
    ensures var r, v, x := Offer(Wifi(), env, c, RESET, event, bound), c.vars, env(|c.log|);
            && Keeps(c, r)
            && (event == EVENT_PROCESS ==> Queues(c, r, if x.more then EVENT_PROCESS else EVENT_DONE))
            && (event == EVENT_STOP || event == EVENT_STOP_SOCKET_CLOSED ==> Queues(c, r, EVENT_STOP))
            && (event == EVENT_DONE ==>
                  Goes(c, r, DISCONNECTED, c.queue, if x.ok then Ask(v, Reset) else Fail(Ask(v, Reset), WIFI_OPERATION_FAILED, RESET)))
  {
    hide Handler, Offer, Transitioned, Structured, Posted, Without, Watched, Fail,
         Starting, Disconnected, Connecting, ConnectingToAp, Acquiring, Connected, ClosingSocket, Disconnecting, Stopping, Stopped;
    var x := env(|c.log|);
    Routes(c.vars, event, x);
    if event == EVENT_PROCESS {
      Reposts(env, c, RESET, event, if x.more then EVENT_PROCESS else EVENT_DONE, bound);
    } else if event == EVENT_DONE {
      WatchNext(c.vars, Reset);
      WatchFail(Ask(c.vars, Reset), WIFI_OPERATION_FAILED, RESET);
      GoesDisconnected(env, c, RESET, event, Resetting(c.vars, event, x).vars, bound);
    } else if event == EVENT_STOP || event == EVENT_STOP_SOCKET_CLOSED {
      Reposts(env, c, RESET, event, EVENT_STOP, bound);
    } else {
      Passes(env, c, RESET, event, bound);
    }
  }

  lemma RootOffer(env: nat -> Answer, c: State, event: nat, bound: nat)
    requires Good(c) && event <= EVENT_DONE
    ensures var r := Offer(Wifi(), env, c, ROOT, event, bound);
            && Keeps(c, r)
            && if event == EVENT_PROCESS then Queues(c, r, if env(|c.log|).more then EVENT_PROCESS else EVENT_DONE)
               else r.0 == c.(log := r.0.log)
  {
    hide Offer, Structured, Posted, Watched;
    if event == EVENT_PROCESS {
      Reposts(env, c, ROOT, event, if env(|c.log|).more then EVENT_PROCESS else EVENT_DONE, bound);
    } else {
      Passes(env, c, ROOT, event, bound);
    }
  }

  lemma StartedOffer(env: nat -> Answer, c: State, event: nat, bound: nat)
    requires Good(c) && event <= EVENT_DONE
    ensures var r := Offer(Wifi(), env, c, STARTED, event, bound); Keeps(c, r) && r == (c.(log := r.0.log), false)
  {
    hide Offer, Structured, Posted, Watched;
    Passes(env, c, STARTED, event, bound);
  }

  lemma OfferKeeps(env: nat -> Answer, c: State, s: int, event: nat, bound: nat)
    requires Good(c) && event <= EVENT_DONE && bound > 1 && IsState(Wifi(), s) && Active(Wifi(), c.current, s)
    ensures Keeps(c, Offer(Wifi(), env, c, s, event, bound))
  {
    hide Offer, Structured, VarsAgree, OnlyEvents, Keeps, Handler, Active;
    ActiveMeans(c, s);
    if s == ROOT { RootOffer(env, c, event, bound); }
    else if s == STOPPED { StoppedOffer(env, c, event, bound); }
    else if s == STARTED { StartedOffer(env, c, event, bound); }
    else if s == DISCONNECTED { DisconnectedOffer(env, c, event, bound); }
    else if s == CONNECTING { ConnectingOffer(env, c, event, bound); }
    else if s == CONNECTING_TO_AP { ConnectingToApOffer(env, c, event, bound); }
    else if s == ACQUIRING { AcquiringOffer(env, c, event, bound); }
    else if s == CONNECTED { ConnectedOffer(env, c, event, bound); }
    else if s == CLOSING_SOCKET { ClosingSocketOffer(env, c, event, bound); }
    else if s == DISCONNECTING { DisconnectingOffer(env, c, event, bound); }
    else if s == RESET { ResetOffer(env, c, event, bound); }
    else { TransferOffer(env, c, s, event, bound); }
  }

  lemma ActiveMeans(c: State, s: int)
    requires Good(c) && IsState(Wifi(), s) && Active(Wifi(), c.current, s)
    ensures s == ROOT || s == STOPPED ==> s == ROOT || c.current[0] == STOPPED
    ensures s !in {ROOT, STOPPED} ==> c.current[0] == STARTED && s != STARTING && s != STOPPING
    ensures s in {DISCONNECTED, CONNECTING, CONNECTED, DISCONNECTING, RESET} ==> c.current[STARTED + 1] == s
    ensures s in {CONNECTING_TO_AP, ACQUIRING} ==> c.current[STARTED + 1] == CONNECTING && c.current[CONNECTING + 1] == s
    ensures s in {SEND, SEND_TO, RECEIVE, RECEIVE_FROM, CLOSING_SOCKET} ==>
              c.current[STARTED + 1] == CONNECTED && c.current[CONNECTED + 1] == s
  {
    hide Structured, VarsAgree, OnlyEvents;
  }

  /** An event dispatched to an active state, and by it to its active children. */
  lemma {:induction false} DispatchKeeps(env: nat -> Answer, c: State, s: int, event: nat, bound: nat)
    requires Good(c) && event <= EVENT_DONE && bound > 1 && IsState(Wifi(), s) && Active(Wifi(), c.current, s)
    ensures Keeps(c, Dispatch(Wifi(), env, c, s, event, bound))
    decreases |PARENT| - s
  {
    hide Offer, AtRest, VarsAgree, OnlyEvents;
    var k := c.current[s + 1];
    if k == NO_STATE {
      OfferKeeps(env, c, s, event, bound);
    } else {
      DispatchKeeps(env, c, k, event, bound);
      var inner := Dispatch(Wifi(), env, c, k, event, bound);
      if !inner.1 {
        OfferKeeps(env, inner.0, s, event, bound);
      }
    }
  }

  // ---- runs ----

  /** What may happen to the module: a request (or an event raised by the driver), a second passing, a call of the process
      handle. */
  datatype Input =
    | RequestConnect | RequestSend | RequestSendTo | RequestReceive | RequestReceiveFrom | RequestCloseSocket
    | RequestDisconnect | RequestStop
    | DriverConnected | DriverAcquired | DriverDisconnected | DriverError
    | Second
    | CallHandle

  predicate IsRequest(input: Input) {
    input.RequestConnect? || input.RequestSend? || input.RequestSendTo? || input.RequestReceive? || input.RequestReceiveFrom?
    || input.RequestCloseSocket? || input.RequestDisconnect? || input.RequestStop?
  }

  /** The event a request or the driver puts into the queue. */
  function EventOf(input: Input): (event: nat)
    ensures event <= EVENT_DONE
  {
    match input
    case RequestConnect => EVENT_CONNECT
    case RequestSend => EVENT_SEND
    case RequestSendTo => EVENT_SEND_TO
    case RequestReceive => EVENT_RECEIVE
    case RequestReceiveFrom => EVENT_RECEIVE_FROM
    case RequestCloseSocket => EVENT_CLOSE_SOCKET
    case RequestDisconnect => EVENT_DISCONNECT
    case RequestStop => EVENT_STOP
    case DriverConnected => EVENT_CONNECTED
    case DriverAcquired => EVENT_ACQUIRED
    case DriverDisconnected => EVENT_DISCONNECTED
    case DriverError => EVENT_ERROR
    case _ => EVENT_SEQUENCE_TIMEOUT
  }

  function Requested(v: Vars): Vars {
    Ask(v, Request).(error := 0)
  }

  function Stepped(env: nat -> Answer, c: State, input: Input): (r: State)
    requires Structured(Wifi(), c.current)
    ensures Structured(Wifi(), r.current)
  {
    if input == CallHandle then Processed(Wifi(), env, c).0
    else if input == Second then
      if c.vars.timer == 0 then c
      else
        var ticked := c.(vars := c.vars.(timer := c.vars.timer - 1));
        if c.vars.timer == 1 then ticked.(queue := Posted(c.queue, EVENT_SEQUENCE_TIMEOUT)) else ticked
    else c.(vars := if IsRequest(input) then Requested(c.vars) else c.vars, queue := Posted(c.queue, EventOf(input)))
  }

  /** `init_wifi_communication_module` sets the states and makes no transition. */
  const START: seq<int> := [STOPPED, NO_STATE, DISCONNECTED, NO_STATE, CONNECTING_TO_AP, NO_STATE, NO_STATE, NO_STATE, NO_STATE,
                            NO_STATE, NO_STATE, NO_STATE, NO_STATE, NO_STATE, NO_STATE, NO_STATE, NO_STATE]

  function Initial(): (r: State)
    ensures Structured(Wifi(), r.current)
  {
    Config(START, [], Vars(0, 0, []), [], false)
  }

  function Run(env: nat -> Answer, inputs: seq<Input>): (r: State)
    ensures Structured(Wifi(), r.current)
  {
    if inputs == [] then Initial()
    else Stepped(env, Run(env, inputs[..|inputs| - 1]), inputs[|inputs| - 1])
  }

  lemma ProcessKeeps(env: nat -> Answer, c: State)
    requires Good(c)
    ensures Good(Processed(Wifi(), env, c).0)
  {
    hide Dispatch, Watched, Structured, Above;
    if c.queue != [] {
      var taken := c.(queue := c.queue[1..]);
      assert c.queue[0] in c.queue && forall e :: e in taken.queue ==> e in c.queue;
      assert RANK[0] == 1;
      DispatchKeeps(env, taken, ROOT, c.queue[0], Top(Wifi()));
    }
  }

  lemma StepKeeps(env: nat -> Answer, c: State, input: Input)
    requires Good(c)
    ensures Good(Stepped(env, c, input))
  {
    hide Processed, Posted, Watched, Structured, EventOf;
    WatchNext(c.vars, Request);
    PostedEvents(c.queue, EventOf(input));
    PostedEvents(c.queue, EVENT_SEQUENCE_TIMEOUT);
    ProcessKeeps(env, c);
  }

  lemma {:induction false} RunIsGood(env: nat -> Answer, inputs: seq<Input>)
    ensures Good(Run(env, inputs))
  {
    if inputs != [] {
      hide Good;
      RunIsGood(env, inputs[..|inputs| - 1]);
      StepKeeps(env, Run(env, inputs[..|inputs| - 1]), inputs[|inputs| - 1]);
    }
  }

  // ---- what holds of every run ----

  /** The module is started at the n-th call: the last call to start or stop it was a successful start. */
  ghost predicate StartedAt(calls: seq<Call>, n: nat) {
    exists i: nat :: i < n <= |calls| && calls[i] == Start(true) && forall j :: i < j < n ==> !calls[j].Stop? && !calls[j].Start?
  }

  /** A connection is asked for at i and was neither given up nor the module reset before the n-th call. */
  ghost predicate JoinedSince(calls: seq<Call>, i: nat, n: nat)
    requires n <= |calls|
  {
    i < n && calls[i].Connect? && forall j :: i < j < n ==> !calls[j].Disconnect? && !calls[j].Reset?
  }

  /** The driver is asked to connect, disconnect, reset or stop only while it is started, to start only while it is not, to
      disconnect only when it was online before, and never to connect again or stop without a disconnection or
      a reset in between. */
  ghost predicate InOrder(calls: seq<Call>) {
    && (forall n :: 0 <= n < |calls| && (calls[n].Connect? || calls[n].Disconnect? || calls[n].Reset? || calls[n].Stop?) ==>
                      StartedAt(calls, n))
    && (forall n :: 0 <= n < |calls| && calls[n].Start? ==> !StartedAt(calls, n))
    && (forall n :: 0 <= n < |calls| && calls[n].Disconnect? ==> OnlineAt(calls, n))
    && (forall n :: 0 <= n < |calls| && JoinedAt(calls, n) ==> !calls[n].Connect? && !calls[n].Stop?)
  }

  /** Before the n-th call a connection was asked for, then a report of one was handled, and it was not given up. */
  ghost predicate AttachedSince(calls: seq<Call>, i: nat, j: nat, n: nat)
    requires n <= |calls|
  {
    JoinedSince(calls, i, n) && i < j < n && calls[j].Associated?
  }

  ghost predicate AttachedAt(calls: seq<Call>, n: nat)
    requires n <= |calls|
  {
    exists i: nat, j: nat :: AttachedSince(calls, i, j, n)
  }

  /** After that, the report of an accepted address was handled. */
  ghost predicate OnlineSince(calls: seq<Call>, i: nat, j: nat, k: nat, n: nat)
    requires n <= |calls|
  {
    AttachedSince(calls, i, j, n) && j < k < n && calls[k] == Addressed(true)
  }

  ghost predicate OnlineAt(calls: seq<Call>, n: nat)
    requires n <= |calls|
  {
    exists i: nat, j: nat, k: nat :: OnlineSince(calls, i, j, k, n)
  }

  lemma AttachedNext(calls: seq<Call>, n: nat)
    requires 0 < n <= |calls| && !calls[n - 1].Disconnect? && !calls[n - 1].Reset?
    ensures JoinedAt(calls, n - 1) && calls[n - 1].Associated? ==> AttachedAt(calls, n)
    ensures AttachedAt(calls, n - 1) ==> AttachedAt(calls, n)
    ensures AttachedAt(calls, n - 1) && calls[n - 1] == Addressed(true) ==> OnlineAt(calls, n)
    ensures OnlineAt(calls, n - 1) ==> OnlineAt(calls, n)
  {
    if JoinedAt(calls, n - 1) && calls[n - 1].Associated? {
      var i: nat :| JoinedSince(calls, i, n - 1);
      assert AttachedSince(calls, i, n - 1, n);
    }
    if AttachedAt(calls, n - 1) {
      var i: nat, j: nat :| AttachedSince(calls, i, j, n - 1);
      assert AttachedSince(calls, i, j, n);
      if calls[n - 1] == Addressed(true) {
        assert OnlineSince(calls, i, j, n - 1, n);
      }
    }
    if OnlineAt(calls, n - 1) {
      var i: nat, j: nat, k: nat :| OnlineSince(calls, i, j, k, n - 1);
      assert OnlineSince(calls, i, j, k, n);
    }
  }

  lemma {:induction false} PhaseMeans(calls: seq<Call>, n: nat)
    requires n <= |calls| && Watched(calls[..n]).ok
    ensures var phase := Watched(calls[..n]).phase;
            && (phase != Off <==> StartedAt(calls, n))
            && (phase in {Joined, Attached, Online} <==> JoinedAt(calls, n))
            && (phase == Attached ==> AttachedAt(calls, n)) && (phase == Online ==> OnlineAt(calls, n))
    decreases n
  {
    if n > 0 {
      var front, call := calls[..n - 1], calls[n - 1];
      assert calls[..n][..n - 1] == front && Watched(calls[..n]) == Next(Watched(front), call);
      PhaseMeans(calls, n - 1);
      StartedNext(calls, n);
      JoinedNext(calls, n);
      if !call.Disconnect? && !call.Reset? {
        AttachedNext(calls, n);
      }
    }
  }

  lemma StartedNext(calls: seq<Call>, n: nat)
    requires 0 < n <= |calls|
    ensures StartedAt(calls, n) <==> calls[n - 1] == Start(true)
                                     || (StartedAt(calls, n - 1) && !calls[n - 1].Stop? && !calls[n - 1].Start?)
  {
  }

  ghost predicate JoinedAt(calls: seq<Call>, n: nat)
    requires n <= |calls|
  {
    exists i: nat :: JoinedSince(calls, i, n)
  }

  lemma JoinedNext(calls: seq<Call>, n: nat)
    requires 0 < n <= |calls|
    ensures JoinedAt(calls, n)
            <==> calls[n - 1].Connect? || (JoinedAt(calls, n - 1) && !calls[n - 1].Disconnect? && !calls[n - 1].Reset?)
  {
    var call := calls[n - 1];
    if call.Connect? {
      assert JoinedSince(calls, n - 1, n);
    } else {
      if JoinedAt(calls, n - 1) && !call.Disconnect? && !call.Reset? {
        var i: nat :| JoinedSince(calls, i, n - 1);
        assert JoinedSince(calls, i, n);
      }
      if JoinedAt(calls, n) {
        var i: nat :| JoinedSince(calls, i, n);
        assert JoinedSince(calls, i, n - 1);
      }
    }
  }

  lemma {:induction false} OkBefore(calls: seq<Call>, n: nat)
    requires n <= |calls| && Watched(calls).ok
    ensures Watched(calls[..n]).ok
    decreases |calls|
  {
    if n < |calls| {
      OkBefore(calls[..|calls| - 1], n);
      assert calls[..|calls| - 1][..n] == calls[..n];
    } else {
      assert calls[..n] == calls;
    }
  }

  lemma OkAt(calls: seq<Call>, n: nat)
    requires n < |calls| && Watched(calls).ok
    ensures Watched(calls[..n]).ok && Next(Watched(calls[..n]), calls[n]).ok
  {
    OkBefore(calls, n);
    OkBefore(calls, n + 1);
    assert calls[..n + 1][..n] == calls[..n];
  }

  /** Every run asks the driver in order, the started state is active exactly while the driver is started, and the connected
      state only after a connection was asked for, and then a report of a connection and one of an address that is not the wrong
      one were handled. The reports may be older than the request: see `OldConnectionExactly` and `OldAddressExactly`. */
  lemma DriverInOrder(env: nat -> Answer, inputs: seq<Input>)
    ensures var c := Run(env, inputs);
            && InOrder(c.vars.calls)
            && (Active(Wifi(), c.current, STARTED) <==> StartedAt(c.vars.calls, |c.vars.calls|))
            && (Active(Wifi(), c.current, CONNECTED) ==> OnlineAt(c.vars.calls, |c.vars.calls|))
  {
    hide Run, Structured, Watched, StartedAt, JoinedAt, AttachedAt, OnlineAt;
    var c := Run(env, inputs);
    var calls := c.vars.calls;
    RunIsGood(env, inputs);
    forall n: nat | n < |calls|
      ensures calls[n].Connect? || calls[n].Disconnect? || calls[n].Reset? || calls[n].Stop? ==> StartedAt(calls, n)
      ensures calls[n].Start? ==> !StartedAt(calls, n)
      ensures calls[n].Disconnect? ==> OnlineAt(calls, n)
      ensures JoinedAt(calls, n) ==> !calls[n].Connect? && !calls[n].Stop?
    {
      OkAt(calls, n);
      PhaseMeans(calls, n);
    }
    assert calls[..|calls|] == calls;
    PhaseMeans(calls, |calls|);
  }

  // ---- reports of the driver ----

  /** How often the report of a connection was taken up, and how often one of an address. */
  function Associations(calls: seq<Call>): nat {
    if calls == [] then 0 else Associations(calls[..|calls| - 1]) + if calls[|calls| - 1].Associated? then 1 else 0
  }

  function Addresses(calls: seq<Call>): nat {
    if calls == [] then 0 else Addresses(calls[..|calls| - 1]) + if calls[|calls| - 1].Addressed? then 1 else 0
  }

  lemma CountsNext(v: Vars, call: Call)
    ensures Associations(Ask(v, call).calls) == Associations(v.calls) + if call.Associated? then 1 else 0
    ensures Addresses(Ask(v, call).calls) == Addresses(v.calls) + if call.Addressed? then 1 else 0
  {
    assert (v.calls + [call])[..|v.calls|] == v.calls;
  }

  lemma OnlyReportsAssociate()
    ensures Untouched(Wifi(), EVENT_CONNECTED, (v: Vars) => Associations(v.calls))
  {
    forall v: Vars, s: int, event: nat, a: Answer | event != EVENT_CONNECTED
      ensures Post(EVENT_CONNECTED) !in Wifi().handler(v, s, event, a).actions
      ensures Associations(Wifi().handler(v, s, event, a).vars.calls) == Associations(v.calls)
    {
      HandlerCounts(v, s, event, a);
    }
  }

  lemma OnlyReportsAddress()
    ensures Untouched(Wifi(), EVENT_ACQUIRED, (v: Vars) => Addresses(v.calls))
  {
    forall v: Vars, s: int, event: nat, a: Answer | event != EVENT_ACQUIRED
      ensures Post(EVENT_ACQUIRED) !in Wifi().handler(v, s, event, a).actions
      ensures Addresses(Wifi().handler(v, s, event, a).vars.calls) == Addresses(v.calls)
    {
      HandlerCounts(v, s, event, a);
    }
  }

  /** A report is posted and taken up only when it is handled. */
  predicate CountsKept(v: Vars, event: nat, h: Reaction<Vars>) {
    && (event != EVENT_CONNECTED ==> Post(EVENT_CONNECTED) !in h.actions && Associations(h.vars.calls) == Associations(v.calls))
    && (event != EVENT_ACQUIRED ==> Post(EVENT_ACQUIRED) !in h.actions && Addresses(h.vars.calls) == Addresses(v.calls))
  }

  lemma AskCounts()
    ensures forall v, call {:trigger Ask(v, call)} ::
              && Associations(Ask(v, call).calls) == Associations(v.calls) + (if call.Associated? then 1 else 0)
              && Addresses(Ask(v, call).calls) == Addresses(v.calls) + (if call.Addressed? then 1 else 0)
  {
    forall v: Vars, call: Call
      ensures Associations(Ask(v, call).calls) == Associations(v.calls) + (if call.Associated? then 1 else 0)
      ensures Addresses(Ask(v, call).calls) == Addresses(v.calls) + (if call.Addressed? then 1 else 0)
    {
      CountsNext(v, call);
    }
  }

  lemma StartCounts(v: Vars, event: nat, a: Answer)
    ensures CountsKept(v, event, Starting(v, event, a))
    ensures CountsKept(v, event, Resetting(v, event, a))
    ensures CountsKept(v, event, Stopping(v, event, a))
  {
    hide Associations, Addresses;
    AskCounts();
  }

  lemma ConnectCounts(v: Vars, event: nat, a: Answer)
    ensures CountsKept(v, event, Disconnected(v, event, a))
    ensures CountsKept(v, event, ConnectingToAp(v, event, a))
    ensures CountsKept(v, event, Connecting(v, event))
  {
    hide Associations, Addresses;
    AskCounts();
  }

  lemma OnlineCounts(v: Vars, event: nat, a: Answer)
    ensures CountsKept(v, event, Acquiring(v, event, a))
    ensures CountsKept(v, event, Connected(v, event))
  {
    hide Associations, Addresses;
    AskCounts();
  }

  lemma EndCounts(v: Vars, event: nat, a: Answer)
    ensures CountsKept(v, event, Disconnecting(v, event, a))
    ensures CountsKept(v, event, ClosingSocket(v, event, a))
    ensures CountsKept(v, event, Stopped(v, event))
  {
    hide Associations, Addresses;
    AskCounts();
  }

  lemma TransferCounts(v: Vars, state: nat, event: nat, error: Byte, kind: Byte)
    ensures CountsKept(v, event, Transferring(v, state, event, error, kind))
  {
    hide Associations, Addresses;
    AskCounts();
  }

  lemma HandlerCounts(v: Vars, s: int, event: nat, a: Answer)
    ensures CountsKept(v, event, Handler(v, s, event, a))
  {
    hide Associations, Addresses, Starting, Disconnected, Connecting, ConnectingToAp, Acquiring, Connected, ClosingSocket, Disconnecting,
         Resetting, Stopping, Stopped, Transferring;
    if s == SEND || s == RECEIVE {
      TransferCounts(v, s, event, a.tcpError, TcpKind(a.tcpError));
    } else if s == SEND_TO || s == RECEIVE_FROM {
      TransferCounts(v, s, event, a.udpError, UdpKind(a.udpError));
    } else {
      StartCounts(v, event, a);
      ConnectCounts(v, event, a);
      OnlineCounts(v, event, a);
      EndCounts(v, event, a);
    }
  }

  lemma RunNext(env: nat -> Answer, inputs: seq<Input>, input: Input)
    ensures Run(env, inputs + [input]) == Stepped(env, Run(env, inputs), input)
  {
    hide Processed, Posted, Structured;
    assert (inputs + [input])[..|inputs|] == inputs;
  }

  lemma StepSilent(env: nat -> Answer, c: State, input: Input)
    requires Structured(Wifi(), c.current)
    ensures EVENT_CONNECTED !in c.queue && input != DriverConnected ==>
              var r := Stepped(env, c, input); EVENT_CONNECTED !in r.queue && Associations(r.vars.calls) == Associations(c.vars.calls)
    ensures EVENT_ACQUIRED !in c.queue && input != DriverAcquired ==>
              var r := Stepped(env, c, input); EVENT_ACQUIRED !in r.queue && Addresses(r.vars.calls) == Addresses(c.vars.calls)
  {
    hide Processed, Posted, Structured, Associations, Addresses, Untouched;
    if input == CallHandle {
      if EVENT_CONNECTED !in c.queue {
        OnlyReportsAssociate();
        SilentProcessed(Wifi(), env, c, EVENT_CONNECTED, (v: Vars) => Associations(v.calls));
      }
      if EVENT_ACQUIRED !in c.queue {
        OnlyReportsAddress();
        SilentProcessed(Wifi(), env, c, EVENT_ACQUIRED, (v: Vars) => Addresses(v.calls));
      }
    } else {
      CountsNext(c.vars, Request);
      PostedMembers(c.queue, EventOf(input));
      PostedMembers(c.queue, EVENT_SEQUENCE_TIMEOUT);
    }
  }

  /** The configuration after these inputs. */
  function After(env: nat -> Answer, c: State, inputs: seq<Input>): (r: State)
    requires Structured(Wifi(), c.current)
    ensures Structured(Wifi(), r.current)
  {
    if inputs == [] then c else Stepped(env, After(env, c, inputs[..|inputs| - 1]), inputs[|inputs| - 1])
  }

  lemma {:induction false} AfterSplits(env: nat -> Answer, c: State, inputs: seq<Input>, more: seq<Input>)
    requires Structured(Wifi(), c.current)
    ensures After(env, c, inputs + more) == After(env, After(env, c, inputs), more)
    decreases |more|
  {
    hide Stepped, Structured;
    if more == [] {
      assert inputs + more == inputs;
    } else {
      assert (inputs + more)[..|inputs + more| - 1] == inputs + more[..|more| - 1];
      AfterSplits(env, c, inputs, more[..|more| - 1]);
    }
  }

  lemma {:induction false} RunsOn(env: nat -> Answer, before: seq<Input>, since: seq<Input>)
    ensures Run(env, before + since) == After(env, Run(env, before), since)
    decreases |since|
  {
    hide Stepped, Structured, Run;
    if since == [] {
      assert before + since == before;
    } else {
      var front, input := since[..|since| - 1], since[|since| - 1];
      assert before + since == (before + front) + [input];
      RunsOn(env, before, front);
      RunNext(env, before + front, input);
    }
  }

  lemma {:induction false} SilentAfter(env: nat -> Answer, c: State, since: seq<Input>)
    requires Structured(Wifi(), c.current)
    ensures var r := After(env, c, since);
            && (EVENT_CONNECTED !in c.queue && DriverConnected !in since ==>
                  EVENT_CONNECTED !in r.queue && Associations(r.vars.calls) == Associations(c.vars.calls))
            && (EVENT_ACQUIRED !in c.queue && DriverAcquired !in since ==>
                  EVENT_ACQUIRED !in r.queue && Addresses(r.vars.calls) == Addresses(c.vars.calls))
    decreases |since|
  {
    hide Stepped, Associations, Addresses, Structured;
    if since != [] {
      var front, input := since[..|since| - 1], since[|since| - 1];
      assert input in since && forall x :: x in front ==> x in since;
      SilentAfter(env, c, front);
      StepSilent(env, After(env, c, front), input);
    }
  }

  /** Reports are taken from the queue only, where only the driver puts them: from any moment when none is queued, none is taken
      up unless the driver makes a new one. */
  lemma {:induction false} NoReportNoneTaken(env: nat -> Answer, before: seq<Input>, since: seq<Input>)
    ensures var c, r := Run(env, before), Run(env, before + since);
            && (EVENT_CONNECTED !in c.queue && DriverConnected !in since ==>
                  EVENT_CONNECTED !in r.queue && Associations(r.vars.calls) == Associations(c.vars.calls))
            && (EVENT_ACQUIRED !in c.queue && DriverAcquired !in since ==>
                  EVENT_ACQUIRED !in r.queue && Addresses(r.vars.calls) == Addresses(c.vars.calls))
  {
    hide Run, After, Associations, Addresses;
    RunsOn(env, before, since);
    SilentAfter(env, Run(env, before), since);
  }

  // ---- which queued report is taken up ----

  /** The report that a state waits for. */
  function Report(s: nat): nat {
    if s == CONNECTING_TO_AP then EVENT_CONNECTED else EVENT_ACQUIRED
  }

  /** The events that end waiting in s. */
  predicate Deciding(s: nat, e: nat) {
    e == Report(s) || e in {EVENT_DISCONNECTED, EVENT_SEQUENCE_TIMEOUT, EVENT_ERROR}
  }

  /** The place of the first event in the queue that ends waiting, or its length. */
  function Position(s: nat, queue: seq<nat>): (p: nat)
    ensures p <= |queue| && (p < |queue| ==> Deciding(s, queue[p]))
    ensures forall i :: 0 <= i < p ==> !Deciding(s, queue[i])
  {
    if queue == [] || Deciding(s, queue[0]) then 0 else 1 + Position(s, queue[1..])
  }

  /** The first event in the queue that ends waiting. */
  function First(s: nat, queue: seq<nat>): Option<nat> {
    if Position(s, queue) < |queue| then Some(queue[Position(s, queue)]) else None
  }

  lemma {:induction false} FirstStays(s: nat, queue: seq<nat>, more: seq<nat>)
    ensures First(s, queue).Some? ==> First(s, queue + more) == First(s, queue) && Position(s, queue + more) == Position(s, queue)
    ensures First(s, queue).None? ==> First(s, queue + more) == First(s, more)
  {
    if queue == [] {
      assert queue + more == more;
    } else if !Deciding(s, queue[0]) {
      assert (queue + more)[1..] == queue[1..] + more;
      FirstStays(s, queue[1..], more);
    }
  }

  /** How often the report that s waits for was taken up. */
  function TakenUp(s: nat, calls: seq<Call>): nat {
    if s == CONNECTING_TO_AP then Associations(calls) else Addresses(calls)
  }

  /** Waiting for the access point or for an address. */
  ghost predicate WaitsIn(c: State, s: nat) {
    && Good(c) && (s == CONNECTING_TO_AP || s == ACQUIRING)
    && c.current[0] == STARTED && c.current[STARTED + 1] == CONNECTING && c.current[CONNECTING + 1] == s
  }

  /** What a child of the connecting state consumes goes no further. */
  lemma ConnectingConsumes(env: nat -> Answer, c: State, s: nat, event: nat, bound: nat)
    requires Structured(Wifi(), c.current) && |c.current| == 17 && c.current[0] == STARTED && c.current[STARTED + 1] == CONNECTING
    requires (s == CONNECTING_TO_AP || s == ACQUIRING) && c.current[CONNECTING + 1] == s && Offer(Wifi(), env, c, s, event, bound).1
    ensures Dispatch(Wifi(), env, c, ROOT, event, bound) == Offer(Wifi(), env, c, s, event, bound)
  {
    hide Structured, Offer;
    var r := Offer(Wifi(), env, c, s, event, bound);
    Leaf(c, s);
    assert Dispatch(Wifi(), env, c, s, event, bound) == r;
    assert Dispatch(Wifi(), env, c, CONNECTING, event, bound) == r;
    assert Dispatch(Wifi(), env, c, STARTED, event, bound) == r;
  }

  /** c after an event that does not end waiting, with at most one such event queued. */
  ghost predicate OnlyQueues(c: State, r: State, s: nat) {
    && r == c.(queue := r.queue, log := r.log)
    && (r.queue == c.queue || exists e :: !Deciding(s, e) && r.queue == c.queue + [e])
  }

  lemma OneQueued(c: State, r: (State, bool), s: nat, e: nat)
    requires Queues(c, r, e) && |c.queue| < QUEUE_SIZE && !Deciding(s, e)
    ensures OnlyQueues(c, r.0, s)
  {
    PostedIs(c.queue, e);
  }

  lemma WaitingOffer(env: nat -> Answer, c: State, s: nat, event: nat, bound: nat)
    requires WaitsIn(c, s) && event <= EVENT_DONE && bound > 1 && |c.queue| < QUEUE_SIZE && !Deciding(s, event)
    ensures var r := Offer(Wifi(), env, c, s, event, bound); OnlyQueues(c, r.0, s) && (!r.1 ==> r.0 == c.(log := r.0.log))
  {
    hide Offer, Structured, Posted, Watched, VarsAgree;
    var r := Offer(Wifi(), env, c, s, event, bound);
    if s == CONNECTING_TO_AP {
      ConnectingToApOffer(env, c, event, bound);
    } else {
      AcquiringOffer(env, c, event, bound);
    }
    if r.1 {
      OneQueued(c, r, s, event);
    }
  }

  lemma WaitingDispatch(env: nat -> Answer, c: State, s: nat, event: nat, bound: nat)
    requires WaitsIn(c, s) && event <= EVENT_DONE && bound > 1 && |c.queue| < QUEUE_SIZE && !Deciding(s, event)
    ensures OnlyQueues(c, Dispatch(Wifi(), env, c, ROOT, event, bound).0, s)
  {
    hide Offer, Structured, Posted, Watched, VarsAgree;
    WaitingOffer(env, c, s, event, bound);
    Leaf(c, s);
    var leaf := Offer(Wifi(), env, c, s, event, bound);
    assert Dispatch(Wifi(), env, c, s, event, bound) == leaf;
    if leaf.1 {
      ConnectingConsumes(env, c, s, event, bound);
    } else {
      WaitingOutside(env, c, leaf.0, s, event, bound);
    }
  }

  /** The outer states, after one that did not consume the event. */
  lemma WaitingOutside(env: nat -> Answer, c: State, leaf: State, s: nat, event: nat, bound: nat)
    requires WaitsIn(c, s) && event <= EVENT_DONE && bound > 1 && |c.queue| < QUEUE_SIZE && !Deciding(s, event)
    requires leaf == c.(log := leaf.log) && Dispatch(Wifi(), env, c, s, event, bound) == (leaf, false)
    ensures OnlyQueues(c, Dispatch(Wifi(), env, c, ROOT, event, bound).0, s)
  {
    hide Offer, Structured, Posted, Watched, VarsAgree;
    ConnectingOffer(env, leaf, event, bound);
    var group := Offer(Wifi(), env, leaf, CONNECTING, event, bound);
    assert Dispatch(Wifi(), env, c, CONNECTING, event, bound) == group;
    if group.1 {
      OneQueued(leaf, group, s, event);
      assert Dispatch(Wifi(), env, c, STARTED, event, bound) == group;
    } else {
      StartedOffer(env, group.0, event, bound);
      var started := Offer(Wifi(), env, group.0, STARTED, event, bound);
      assert Dispatch(Wifi(), env, c, STARTED, event, bound) == started;
      RootOffer(env, started.0, event, bound);
      if event == EVENT_PROCESS {
        OneQueued(started.0, Offer(Wifi(), env, started.0, ROOT, event, bound), s,
                  if env(|started.0.log|).more then EVENT_PROCESS else EVENT_DONE);
      }
    }
  }

  /** The event that ends waiting: only the report is taken up, and any other leaves nothing queued but the reset. */
  lemma DecidingDispatch(env: nat -> Answer, c: State, s: nat, event: nat, bound: nat)
    requires WaitsIn(c, s) && bound > 1 && Deciding(s, event)
    ensures var r := Dispatch(Wifi(), env, c, ROOT, event, bound).0;
            && TakenUp(s, r.vars.calls) == TakenUp(s, c.vars.calls) + (if event == Report(s) then 1 else 0)
            && (event != Report(s) ==> r.queue == [EVENT_PROCESS])
  {
    hide Offer, Structured, Watched, VarsAgree, Posted, Associations, Addresses;
    AskCounts();
    PostedIs([], EVENT_PROCESS);
    assert [] + [EVENT_PROCESS] == [EVENT_PROCESS];
    if s == CONNECTING_TO_AP {
      ConnectingToApOffer(env, c, event, bound);
    } else {
      AcquiringOffer(env, c, event, bound);
    }
    ConnectingConsumes(env, c, s, event, bound);
  }

  function HandleCalls(inputs: seq<Input>): (n: nat)
    ensures n <= |inputs|
  {
    if inputs == [] then 0 else HandleCalls(inputs[..|inputs| - 1]) + if inputs[|inputs| - 1].CallHandle? then 1 else 0
  }

  /** Whatever else happens finds room in the queue. */
  ghost predicate Roomy(env: nat -> Answer, c: State, inputs: seq<Input>)
    requires Structured(Wifi(), c.current)
  {
    forall n :: 0 <= n < |inputs| && !inputs[n].CallHandle? ==> |After(env, c, inputs[..n]).queue| < QUEUE_SIZE
  }

  /** Still waiting for the same event, that many places nearer, with nothing taken up. */
  ghost predicate Nearer(c: State, r: State, s: nat, places: nat) {
    && WaitsIn(r, s) && First(s, r.queue) == First(s, c.queue) && Position(s, r.queue) + places == Position(s, c.queue)
    && TakenUp(s, r.vars.calls) == TakenUp(s, c.vars.calls)
  }

  lemma CallNearer(env: nat -> Answer, c: State, s: nat)
    requires WaitsIn(c, s) && First(s, c.queue).Some? && Position(s, c.queue) > 0
    ensures var r := Stepped(env, c, CallHandle); Nearer(c, r, s, 1) && r.vars == c.vars
  {
    hide Structured, Dispatch, Above, Watched, VarsAgree, Associations, Addresses;
    var event, rest := c.queue[0], c.(queue := c.queue[1..]);
    assert event in c.queue && forall e :: e in rest.queue ==> e in c.queue;
    assert RANK[0] == 1;
    StepKeeps(env, c, CallHandle);
    WaitingDispatch(env, rest, s, event, Top(Wifi()));
    var r := Stepped(env, c, CallHandle);
    if r.queue != rest.queue {
      var e :| !Deciding(s, e) && r.queue == rest.queue + [e];
      FirstStays(s, rest.queue, [e]);
    }
  }

  lemma OtherNearer(env: nat -> Answer, c: State, input: Input, s: nat)
    requires WaitsIn(c, s) && First(s, c.queue).Some? && !input.CallHandle? && |c.queue| < QUEUE_SIZE
    ensures Nearer(c, Stepped(env, c, input), s, 0)
  {
    hide Structured, Watched, VarsAgree, Associations, Addresses, Posted, EventOf, First, Position;
    StepKeeps(env, c, input);
    AskCounts();
    PostedIs(c.queue, EVENT_SEQUENCE_TIMEOUT);
    PostedIs(c.queue, EventOf(input));
    FirstStays(s, c.queue, [EVENT_SEQUENCE_TIMEOUT]);
    FirstStays(s, c.queue, [EventOf(input)]);
  }

  lemma NearerStill(c: State, d: State, r: State, s: nat, n: nat, m: nat)
    requires Nearer(c, d, s, n) && Nearer(d, r, s, m)
    ensures Nearer(c, r, s, n + m)
  {
  }

  lemma {:induction false} StaysNearer(env: nat -> Answer, c: State, inputs: seq<Input>, s: nat)
    requires WaitsIn(c, s) && First(s, c.queue).Some? && Roomy(env, c, inputs) && HandleCalls(inputs) <= Position(s, c.queue)
    ensures Nearer(c, After(env, c, inputs), s, HandleCalls(inputs))
    ensures HandleCalls(inputs) == |inputs| ==> After(env, c, inputs).vars == c.vars
  {
    hide Nearer, Stepped, Structured;
    if inputs == [] {
      NearerItself(c, s);
    } else {
      var front, input := inputs[..|inputs| - 1], inputs[|inputs| - 1];
      RoomyBefore(env, c, inputs);
      StaysNearer(env, c, front, s);
      var d := After(env, c, front);
      NearerMeans(c, d, s, HandleCalls(front));
      if input.CallHandle? {
        CallNearer(env, d, s);
      } else {
        OtherNearer(env, d, input, s);
      }
      NearerStill(c, d, Stepped(env, d, input), s, HandleCalls(front), if input.CallHandle? then 1 else 0);
    }
  }

  lemma NearerItself(c: State, s: nat)
    requires WaitsIn(c, s)
    ensures Nearer(c, c, s, 0)
  {
  }

  lemma NearerMeans(c: State, d: State, s: nat, n: nat)
    requires Nearer(c, d, s, n)
    ensures WaitsIn(d, s) && First(s, d.queue) == First(s, c.queue) && Position(s, d.queue) + n == Position(s, c.queue)
  {
  }

  lemma RoomyBefore(env: nat -> Answer, c: State, inputs: seq<Input>)
    requires Structured(Wifi(), c.current) && inputs != [] && Roomy(env, c, inputs)
    ensures Roomy(env, c, inputs[..|inputs| - 1])
    ensures !inputs[|inputs| - 1].CallHandle? ==> |After(env, c, inputs[..|inputs| - 1]).queue| < QUEUE_SIZE
  {
    hide After, Structured;
    var front := inputs[..|inputs| - 1];
    forall n | 0 <= n < |front| && !front[n].CallHandle?
      ensures |After(env, c, front[..n]).queue| < QUEUE_SIZE
    {
      assert front[..n] == inputs[..n] && front[n] == inputs[n];
    }
  }

  /** While a connection or an address is waited for, the first queued event that can end waiting does so, however old it is: when
      the process handle has been called for all events before it, whatever else happened meanwhile as long as no event was dropped,
      nothing was taken up, and the next call takes up a report if and only if that event is the one waited for. */
  lemma FirstDecides(env: nat -> Answer, c: State, inputs: seq<Input>, s: nat)
    requires WaitsIn(c, s) && First(s, c.queue).Some? && Roomy(env, c, inputs) && HandleCalls(inputs) == Position(s, c.queue)
    ensures var r := After(env, c, inputs);
            var d := Stepped(env, r, CallHandle);
            && WaitsIn(r, s) && TakenUp(s, r.vars.calls) == TakenUp(s, c.vars.calls)
            && (inputs == Handles(Position(s, c.queue)) ==> r.vars == c.vars)
            && TakenUp(s, d.vars.calls) == TakenUp(s, c.vars.calls) + (if First(s, c.queue) == Some(Report(s)) then 1 else 0)
            && (First(s, c.queue) != Some(Report(s)) ==> d.queue == [EVENT_PROCESS])
  {
    hide Structured, Dispatch, Above, Watched, VarsAgree, Associations, Addresses, TakenUp;
    StaysNearer(env, c, inputs, s);
    var r := After(env, c, inputs);
    assert RANK[0] == 1;
    assert r.queue[0] in r.queue && forall e :: e in r.queue[1..] ==> e in r.queue;
    DecidingDispatch(env, r.(queue := r.queue[1..]), s, r.queue[0], Top(Wifi()));
  }

  /** n calls of the process handle. */
  function Handles(n: nat): (inputs: seq<Input>)
    ensures |inputs| == n && forall i :: 0 <= i < n ==> inputs[i] == CallHandle
  {
    seq(n, _ => CallHandle)
  }

  lemma HandlesCount(n: nat)
    ensures HandleCalls(Handles(n)) == n
  {
    if n > 0 {
      assert Handles(n)[..n - 1] == Handles(n - 1);
      HandlesCount(n - 1);
    }
  }

  lemma OneMoreHandle(env: nat -> Answer, c: State, n: nat)
    requires Structured(Wifi(), c.current)
    ensures After(env, c, Handles(n + 1)) == Stepped(env, After(env, c, Handles(n)), CallHandle)
  {
    hide Stepped, Structured;
    assert Handles(n + 1)[..n] == Handles(n);
  }

  /** Only the process handle is called: some report is taken up. */
  ghost predicate SomeTakenUp(env: nat -> Answer, c: State, s: nat)
    requires Structured(Wifi(), c.current)
  {
    exists n: nat :: TakenUp(s, After(env, c, Handles(n)).vars.calls) > TakenUp(s, c.vars.calls)
  }

  /** If only the process handle is called from then on, then a report that is queued is taken up if and only if it comes before
      every disconnection, timeout and error in the queue. */
  lemma {:induction false} TakenUpExactly(env: nat -> Answer, c: State, s: nat)
    requires WaitsIn(c, s)
    ensures SomeTakenUp(env, c, s) <==> First(s, c.queue) == Some(Report(s))
  {
    hide Structured, After, Stepped, TakenUp, Position, First, VarsAgree, Watched;
    var k := Position(s, c.queue);
    if First(s, c.queue) == Some(Report(s)) {
      HandlesCount(k);
      FirstDecides(env, c, Handles(k), s);
      OneMoreHandle(env, c, k);
      assert TakenUp(s, After(env, c, Handles(k + 1)).vars.calls) > TakenUp(s, c.vars.calls);
    } else {
      forall n: nat
        ensures TakenUp(s, After(env, c, Handles(n)).vars.calls) == TakenUp(s, c.vars.calls)
      {
        NotTakenUp(env, c, s, n);
      }
    }
  }

  lemma NotTakenUp(env: nat -> Answer, c: State, s: nat, n: nat)
    requires WaitsIn(c, s) && First(s, c.queue) != Some(Report(s))
    ensures TakenUp(s, After(env, c, Handles(n)).vars.calls) == TakenUp(s, c.vars.calls)
  {
    hide Structured, After, Stepped, Associations, Addresses;
    var k := Position(s, c.queue);
    if First(s, c.queue).None? {
      SilentAfter(env, c, Handles(n));
    } else if n <= k {
      HandlesCount(n);
      StaysNearer(env, c, Handles(n), s);
    } else {
      HandlesCount(k);
      FirstDecides(env, c, Handles(k), s);
      OneMoreHandle(env, c, k);
      var d := After(env, c, Handles(k + 1));
      assert Handles(n) == Handles(k + 1) + Handles(n - k - 1);
      AfterSplits(env, c, Handles(k + 1), Handles(n - k - 1));
      SilentAfter(env, d, Handles(n - k - 1));
    }
  }

  /** No run ever has more events queued than the buffer holds. */
  lemma QueueIsBounded(env: nat -> Answer, inputs: seq<Input>)
    ensures |Run(env, inputs).queue| <= QUEUE_SIZE
  {
    hide Run, Structured, VarsAgree;
    RunIsGood(env, inputs);
  }

  /** The events queued before a connection is asked for, without the oldest one if the request itself is queued again and finds
      the buffer full. */
  function Older(queue: seq<nat>): seq<nat>
    requires queue != []
  {
    if queue[0] == EVENT_CONNECT || |queue| < QUEUE_SIZE then queue[1..] else queue[2..]
  }

  /** What is queued when the connection has been asked for. */
  lemma AskedQueue(env: nat -> Answer, c: State)
    requires Good(c) && c.current[0] == STARTED && c.current[STARTED + 1] == DISCONNECTED && c.queue != []
    requires WaitsIn(Stepped(env, c, CallHandle), CONNECTING_TO_AP)
    ensures var r := Stepped(env, c, CallHandle);
            First(CONNECTING_TO_AP, r.queue) == First(CONNECTING_TO_AP, Older(c.queue))
            && Associations(r.vars.calls) == Associations(c.vars.calls)
  {
    hide Structured, Offer, Posted, Watched, VarsAgree, Associations, Addresses, Above, Dispatch, First, Older;
    var event, rest, top := c.queue[0], c.(queue := c.queue[1..]), Top(Wifi());
    assert event in c.queue && forall e :: e in rest.queue ==> e in c.queue;
    assert RANK[0] == 1;
    DisconnectedOffer(env, rest, event, top);
    AskCounts();
    DisconnectedDispatch(env, rest, event, top);
    QueuedBehind(rest.queue, event);
    assert [event] + rest.queue == c.queue;
  }

  lemma DisconnectedDispatch(env: nat -> Answer, c: State, event: nat, bound: nat)
    requires Good(c) && c.current[0] == STARTED && c.current[STARTED + 1] == DISCONNECTED && event <= EVENT_DONE && bound > 1
    requires WaitsIn(Dispatch(Wifi(), env, c, ROOT, event, bound).0, CONNECTING_TO_AP)
    ensures event == EVENT_CONNECT || (IsTransfer(event) && env(|c.log|).ssidSet)
    ensures Dispatch(Wifi(), env, c, ROOT, event, bound) == Offer(Wifi(), env, c, DISCONNECTED, event, bound)
  {
    hide Offer, Structured, Posted, Watched, VarsAgree;
    DisconnectedOffer(env, c, event, bound);
    Leaf(c, DISCONNECTED);
    var leaf := Offer(Wifi(), env, c, DISCONNECTED, event, bound);
    assert Dispatch(Wifi(), env, c, DISCONNECTED, event, bound) == leaf;
    if leaf.1 {
      assert Dispatch(Wifi(), env, c, STARTED, event, bound) == leaf;
    } else {
      StartedOffer(env, leaf.0, event, bound);
      var started := Offer(Wifi(), env, leaf.0, STARTED, event, bound);
      assert Dispatch(Wifi(), env, c, STARTED, event, bound) == started;
      RootOffer(env, started.0, event, bound);
    }
  }

  lemma QueuedBehind(rest: seq<nat>, event: nat)
    requires |rest| < QUEUE_SIZE && (event == EVENT_CONNECT || IsTransfer(event))
    ensures var queue := if event == EVENT_CONNECT then rest else Posted(rest, event);
            First(CONNECTING_TO_AP, Posted(queue, EVENT_CONNECTING)) == First(CONNECTING_TO_AP, Older([event] + rest))
  {
    hide First;
    var kept := Older([event] + rest);
    PostedIs(rest, event);
    PostedFull(rest + [event], EVENT_CONNECTING);
    PostedIs(rest + [event], EVENT_CONNECTING);
    PostedIs(rest, EVENT_CONNECTING);
    FirstStays(CONNECTING_TO_AP, kept, [event] + [EVENT_CONNECTING]);
    FirstStays(CONNECTING_TO_AP, kept, [EVENT_CONNECTING]);
    NoneFirst(event);
    assert ([event] + rest)[1..] == rest;
    assert rest + [event] + [EVENT_CONNECTING] == rest + ([event] + [EVENT_CONNECTING]);
    if |rest| == QUEUE_SIZE - 1 {
      assert ([event] + rest)[2..] == rest[1..];
      assert (rest + [event])[1..] + [EVENT_CONNECTING] == rest[1..] + ([event] + [EVENT_CONNECTING]);
    }
  }

  lemma PostedFull(queue: seq<nat>, e: nat)
    ensures |queue| == QUEUE_SIZE ==> Posted(queue, e) == queue[1..] + [e]
  {
  }

  lemma NoneFirst(event: nat)
    requires event == EVENT_CONNECT || IsTransfer(event)
    ensures First(CONNECTING_TO_AP, [event] + [EVENT_CONNECTING]) == None && First(CONNECTING_TO_AP, [EVENT_CONNECTING]) == None
  {
  }

  /** A connection reported before it was asked for is taken for the answer, if only the process handle is called after the
      request, if and only if it is queued then before every disconnection, timeout and error. */
  lemma {:induction false} OldConnectionExactly(env: nat -> Answer, before: seq<Input>)
    requires var c := Run(env, before);
             && c.queue != [] && Active(Wifi(), c.current, DISCONNECTED)
             && WaitsIn(Run(env, before + [CallHandle]), CONNECTING_TO_AP)
    ensures var c := Run(env, before);
            (exists n: nat :: Associations(Run(env, before + [CallHandle] + Handles(n)).vars.calls) > Associations(c.vars.calls))
            <==> First(CONNECTING_TO_AP, Older(c.queue)) == Some(EVENT_CONNECTED)
  {
    hide Run, Structured, VarsAgree, Watched, Stepped, After, First, Older, Associations;
    var c, d := Run(env, before), Run(env, before + [CallHandle]);
    RunIsGood(env, before);
    RunNext(env, before, CallHandle);
    ActiveMeans(c, DISCONNECTED);
    AskedQueue(env, c);
    TakenUpExactly(env, d, CONNECTING_TO_AP);
    forall n: nat
      ensures Run(env, before + [CallHandle] + Handles(n)) == After(env, d, Handles(n))
    {
      RunsOn(env, before + [CallHandle], Handles(n));
    }
  }

  /** The same for an address reported before the connection report that is being taken up. */
  lemma {:induction false} OldAddressExactly(env: nat -> Answer, before: seq<Input>)
    requires var c := Run(env, before); WaitsIn(c, CONNECTING_TO_AP) && c.queue != [] && c.queue[0] == EVENT_CONNECTED
    ensures var c := Run(env, before);
            (exists n: nat :: Addresses(Run(env, before + [CallHandle] + Handles(n)).vars.calls) > Addresses(c.vars.calls))
            <==> First(ACQUIRING, c.queue[1..]) == Some(EVENT_ACQUIRED)
  {
    hide Run, Structured, VarsAgree, Watched, Stepped, After, First, Addresses;
    var c, d := Run(env, before), Run(env, before + [CallHandle]);
    RunNext(env, before, CallHandle);
    RunIsGood(env, before + [CallHandle]);
    AcquiringQueue(env, c);
    TakenUpExactly(env, d, ACQUIRING);
    forall n: nat
      ensures Run(env, before + [CallHandle] + Handles(n)) == After(env, d, Handles(n))
    {
      RunsOn(env, before + [CallHandle], Handles(n));
    }
  }

  lemma AcquiringQueue(env: nat -> Answer, c: State)
    requires WaitsIn(c, CONNECTING_TO_AP) && c.queue != [] && c.queue[0] == EVENT_CONNECTED
    ensures var r := Stepped(env, c, CallHandle);
            && WaitsIn(r, ACQUIRING) && First(ACQUIRING, r.queue) == First(ACQUIRING, c.queue[1..])
            && Addresses(r.vars.calls) == Addresses(c.vars.calls)
  {
    hide Structured, Offer, Posted, Watched, VarsAgree, Associations, Addresses, Above, Dispatch;
    var rest, top := c.(queue := c.queue[1..]), Top(Wifi());
    assert forall e :: e in rest.queue ==> e in c.queue;
    assert RANK[0] == 1;
    StepKeeps(env, c, CallHandle);
    AskCounts();
    ConnectingToApOffer(env, rest, EVENT_CONNECTED, top);
    ConnectingConsumes(env, rest, CONNECTING_TO_AP, EVENT_CONNECTED, top);
    PostedIs(rest.queue, EVENT_ACQUIRING);
    FirstStays(ACQUIRING, rest.queue, [EVENT_ACQUIRING]);
  }

  // ---- a report that is older than the request ----

  /** Every driver call succeeds. */
  function Willing(): nat -> Answer {
    (n: nat) => Answer(true, false, 0, 0, true, false)
  }

  const STALE: seq<Input> := [RequestConnect, CallHandle, DriverConnected, CallHandle, CallHandle]

  /** The driver reports a connection before it is asked for one, and nothing afterwards; the report is taken for the answer. */
  lemma {:induction false} StaleReport()
    ensures Run(Willing(), STALE[..3]).vars.calls == [Request, Start(true)]
    ensures Run(Willing(), STALE).vars.calls == [Request, Start(true), Connect, Associated]
    ensures Active(Wifi(), Run(Willing(), STALE).current, ACQUIRING)
  {
    hide Processed, Run, Structured, Good, Initial, Posted;
    var env := Willing();
    var one, two, three := STALE[..1], STALE[..2], STALE[..3];
    assert one == [] + [RequestConnect] && two == one + [CallHandle] && three == two + [DriverConnected];
    assert STALE == three + [CallHandle] + [CallHandle];
    RunNext(env, [], RequestConnect);
    RunNext(env, one, CallHandle);
    RunNext(env, two, DriverConnected);
    RunNext(env, three, CallHandle);
    RunNext(env, three + [CallHandle], CallHandle);
    RunIsGood(env, one);
    RunIsGood(env, three);
    RunIsGood(env, three + [CallHandle]);
    PostedIs([], EVENT_CONNECT);
    PostedIs([EVENT_CONNECT], EVENT_CONNECTED);
    assert Run(env, []).queue == [] && Run(env, []).vars == Vars(0, 0, []) && Run(env, []).current == START by {
      RunsNothing(env);
    }
    assert [] + [EVENT_CONNECT] == [EVENT_CONNECT];
    ReportStarts(env, Run(env, one));
    ReportWaits(env, Run(env, three));
    ReportTaken(env, Run(env, three + [CallHandle]));
  }

  lemma RunsNothing(env: nat -> Answer)
    ensures Run(env, []).queue == [] && Run(env, []).vars == Vars(0, 0, []) && Run(env, []).current == START
  {
  }

  lemma PostedIs(queue: seq<nat>, e: nat)
    ensures |queue| < QUEUE_SIZE ==> Posted(queue, e) == queue + [e]
  {
  }

  lemma ReportStarts(env: nat -> Answer, c: State)
    requires env == Willing() && Good(c) && c.queue == [EVENT_CONNECT] && c.current == START
    ensures var r := Processed(Wifi(), env, c).0;
            r == c.(vars := Ask(c.vars, Start(true)), current := r.current, log := r.log)
            && r.current == c.current[0 := STARTED][STARTED + 1 := DISCONNECTED]
  {
    hide Structured, Offer, Transitioned, Posted, Above, Watched, Starting, Disconnected, Connecting, ConnectingToAp, Acquiring,
         Connected, ClosingSocket, Disconnecting, Resetting, Stopping, Handler;
    var taken, top := c.(queue := []), Top(Wifi());
    assert RANK[0] < top && c.queue[1..] == [];
    Routes(c.vars, EVENT_CONNECT, env(|c.log|));
    Offer2(Wifi(), env, taken, STOPPED, EVENT_CONNECT, Post(EVENT_CONNECT), Go(STARTING), top);
    var told := Told(Wifi(), env, taken, STOPPED, EVENT_CONNECT);
    PostedIs([], EVENT_CONNECT);
    assert [] + [EVENT_CONNECT] == [EVENT_CONNECT];
    Acts(Wifi(), env, told, STOPPED, top);
    var b := told.(queue := [EVENT_CONNECT]);
    Acts(Wifi(), env, b, STOPPED, top);
    var ok := ToStarting(env, b, top);
    assert Dispatch(Wifi(), env, taken, STOPPED, EVENT_CONNECT, top) == Offer(Wifi(), env, taken, STOPPED, EVENT_CONNECT, top);
  }

  lemma ReportWaits(env: nat -> Answer, c: State)
    requires env == Willing() && Good(c) && c.queue == [EVENT_CONNECT, EVENT_CONNECTED]
    requires c.current[0] == STARTED && c.current[STARTED + 1] == DISCONNECTED
    ensures var r := Processed(Wifi(), env, c).0;
            r == Connects(c).(vars := Ask(Connects(c).vars, Connect), queue := [EVENT_CONNECTED, EVENT_CONNECTING], log := r.log)
  {
    hide Structured, Offer, Transitioned, Posted, Above, Watched, Starting, Disconnected, Connecting, ConnectingToAp, Acquiring,
         Connected, ClosingSocket, Disconnecting, Resetting, Stopping, Handler;
    var taken, top := c.(queue := [EVENT_CONNECTED]), Top(Wifi());
    assert RANK[0] < top && c.queue[1..] == [EVENT_CONNECTED];
    assert Disconnected(c.vars, EVENT_CONNECT, env(|c.log|)) == Reaction(c.vars, true, [Go(CONNECTING)]) by {
      DisconnectedConnects(c.vars, env(|c.log|));
    }
    Routes(c.vars, EVENT_CONNECT, env(|c.log|));
    Leaf(taken, DISCONNECTED);
    Offer1(Wifi(), env, taken, DISCONNECTED, EVENT_CONNECT, Go(CONNECTING), top);
    var told := Told(Wifi(), env, taken, DISCONNECTED, EVENT_CONNECT);
    Acts(Wifi(), env, told, DISCONNECTED, top);
    var ok := ToConnecting(env, told, top);
    PostedIs([EVENT_CONNECTED], EVENT_CONNECTING);
    var r := Offer(Wifi(), env, taken, DISCONNECTED, EVENT_CONNECT, top);
    assert Dispatch(Wifi(), env, taken, DISCONNECTED, EVENT_CONNECT, top) == r;
    assert Dispatch(Wifi(), env, taken, STARTED, EVENT_CONNECT, top) == r;
  }

  lemma DisconnectedConnects(v: Vars, a: Answer)
    ensures Disconnected(v, EVENT_CONNECT, a) == Reaction(v, true, [Go(CONNECTING)])
  {
  }

  lemma ReportTaken(env: nat -> Answer, c: State)
    requires Good(c) && c.queue == [EVENT_CONNECTED, EVENT_CONNECTING]
    requires c.current[0] == STARTED && c.current[STARTED + 1] == CONNECTING && c.current[CONNECTING + 1] == CONNECTING_TO_AP
    ensures var r := Processed(Wifi(), env, c).0;
            r.vars.calls == c.vars.calls + [Associated] && Active(Wifi(), r.current, ACQUIRING)
  {
    hide Structured, Offer, Transitioned, Posted, Above, Watched, Dispatch, Starting, Disconnected, Connecting, ConnectingToAp,
         Acquiring, Connected, ClosingSocket, Disconnecting, Resetting, Stopping, Handler;
    var taken, top := c.(queue := [EVENT_CONNECTING]), Top(Wifi());
    assert RANK[0] < top && c.queue[1..] == [EVENT_CONNECTING];
    assert ConnectingToAp(c.vars, EVENT_CONNECTED, env(|c.log|)) == Reaction(Ask(c.vars, Associated), true, [Go(ACQUIRING)]) by {
      ApConnected(c.vars, env(|c.log|));
    }
    Routes(c.vars, EVENT_CONNECTED, env(|c.log|));
    Leaf(taken, CONNECTING_TO_AP);
    Offer1(Wifi(), env, taken, CONNECTING_TO_AP, EVENT_CONNECTED, Go(ACQUIRING), top);
    var told := Told(Wifi(), env, taken, CONNECTING_TO_AP, EVENT_CONNECTED);
    Acts(Wifi(), env, told, CONNECTING_TO_AP, top);
    ToPosting(env, told, ACQUIRING, top);
    EnterAcquiring(told, Transitioned(Wifi(), env, told, ACQUIRING, top).log);
    var r := Offer(Wifi(), env, taken, CONNECTING_TO_AP, EVENT_CONNECTED, top);
    ConnectingConsumes(env, taken, CONNECTING_TO_AP, EVENT_CONNECTED, top);
    AcquiringIsActive(r.0);
  }

  lemma AcquiringIsActive(c: State)
    requires Structured(Wifi(), c.current) && |c.current| == 17 && c.current[0] == STARTED && c.current[STARTED + 1] == CONNECTING
    requires c.current[CONNECTING + 1] == ACQUIRING
    ensures Active(Wifi(), c.current, ACQUIRING)
  {
    hide Structured;
    assert Active(Wifi(), c.current, STARTED) && Active(Wifi(), c.current, CONNECTING);
  }

  lemma ApConnected(v: Vars, a: Answer)
    ensures ConnectingToAp(v, EVENT_CONNECTED, a) == Reaction(Ask(v, Associated), true, [Go(ACQUIRING)])
  {
  }

  // ---- the error byte ----

  datatype Failure = NoFailure | Failure(kind: Byte, state: nat)

  /** The first failure since the last request. */
  function FirstFailure(calls: seq<Call>): Failure {
    if calls == [] then NoFailure
    else
      var before, call := FirstFailure(calls[..|calls| - 1]), calls[|calls| - 1];
      if call.Request? then NoFailure
      else if call.Failed? && before.NoFailure? then Failure(call.kind, call.state)
      else before
  }

  lemma {:induction false} ErrorIsFirstFailure(calls: seq<Call>)
    requires Watched(calls).ok
    ensures var error := Watched(calls).error;
            match FirstFailure(calls)
            case NoFailure => error == 0
            case Failure(kind, state) => error == kind + state && Decodes(kind, state)
  {
    if calls != [] {
      ErrorIsFirstFailure(calls[..|calls| - 1]);
    }
  }

  /** In every run the error byte is 0 exactly when nothing failed since the last request, and otherwise its halves are the
      kind of the first failure and the state it happened in. */
  lemma {:induction false} FirstErrorWins(env: nat -> Answer, inputs: seq<Input>)
    ensures var v := Run(env, inputs).vars;
            match FirstFailure(v.calls)
            case NoFailure => v.error == 0
            case Failure(kind, state) => 0 < v.error < 0x100 && v.error / 0x10 * 0x10 == kind && v.error % 0x10 == state
  {
    hide Run, Watched, FirstFailure;
    RunIsGood(env, inputs);
    ErrorIsFirstFailure(Run(env, inputs).vars.calls);
  }

  /** In every run each transition had an active parent, no run rests in the starting or the stopping state, and the sequence
      timer runs only while the connecting or the disconnecting state is active. */
  lemma AlwaysOnePath(env: nat -> Answer, inputs: seq<Input>)
    ensures var c := Run(env, inputs);
            && !c.fault
            && (Active(Wifi(), c.current, STARTED) || Active(Wifi(), c.current, STOPPED))
            && (Active(Wifi(), c.current, STARTED) ==>
                  exists k :: k in {DISCONNECTED, CONNECTING, CONNECTED, DISCONNECTING, RESET} && Active(Wifi(), c.current, k))
            && (c.vars.timer > 0 ==> Active(Wifi(), c.current, CONNECTING) || Active(Wifi(), c.current, DISCONNECTING))
  {
    hide Run, Structured, Watched;
    RunIsGood(env, inputs);
    var c := Run(env, inputs);
    if c.current[0] == STARTED {
      var k := c.current[STARTED + 1];
      assert Active(Wifi(), c.current, STARTED);
      assert Active(Wifi(), c.current, k);
    }
  }

  /** The module itself: the engine with the requests and listeners that drive it. */
  method Step(engine: Engine<Vars, Answer>, input: Input)
    requires engine.Valid() && engine.machine == Wifi()
    modifies engine, engine.current, engine.events, engine.events.storage
    ensures engine.Valid() && engine.State() == Stepped(engine.answers, old(engine.State()), input)
  {
    hide Processed, Posted, Structured;
    if input == CallHandle {
      var _ := engine.Process();
    } else if input == Second {
      if engine.vars.timer > 0 {
        engine.vars := engine.vars.(timer := engine.vars.timer - 1);
        if engine.vars.timer == 0 {
          engine.Post(EVENT_SEQUENCE_TIMEOUT);
        }
      }
    } else {
      if IsRequest(input) {
        engine.vars := Requested(engine.vars);
      }
      engine.Post(EventOf(input));
    }
  }
}
