/** `tcp_communication_module.c`: the life cycle of a TCP socket, run by the state machine engine. */
module TcpModule {
  import opened Basics
  import opened StateMachine

  const OPEN_SOCKET_MAX_RETRIES := 3
  const RECEIVE_TIMEOUT := 3

  // ---- states and events ----

  const SOCKET_CLOSED := 0
  const OPENING_SOCKET := 1
  const SOCKET_OPENED := 2
  const SEND := 3
  const RECEIVE := 4
  const CLOSING_SOCKET := 5

  const EVENT_SEND := 0
  const EVENT_RECEIVE := 1
  const EVENT_OPEN_SOCKET := 2
  const EVENT_CLOSE_SOCKET := 3
  const EVENT_SOCKET_CLOSED := 4
  const EVENT_TIMEOUT := 5

  const TCP_OPERATION_FAILED := 0x10
  const TCP_SOCKET_CLOSED := 0x30
  const TCP_PARAMETERS_MISSING := 0x40

  /** What the machine asks of the socket driver; `Visit` marks the entry into the opening state. */
  datatype Call =
    | Visit
    | Open(id: int)
    | Send(id: int)
    | Receive(id: int)
    | Close(id: int, closed: bool)

  datatype Vars = Vars(openSocketId: int, retries: nat, timer: nat, error: nat, calls: seq<Call>)

  /** The environment of one handler call: whether the connection parameters are set, whether the driver's operation
      succeeded, and the number it returned. */
  datatype Answer = Answer(parametersSet: bool, success: bool, number: int)

  /** `set_tcp_communication_module_error`: the first error stays. */
  function Latched(error: nat, kind: nat, state: nat): nat {
    if error == 0 then kind + state else error
  }

  function Ask(v: Vars, call: Call): Vars {
    v.(calls := v.calls + [call])
  }

  // ---- handlers ----

  function Handler(v: Vars, state: int, event: nat, a: Answer): Reaction<Vars> {
    if state == SOCKET_CLOSED then SocketClosed(v, event, a)
    else if state == OPENING_SOCKET then OpeningSocket(v, event, a)
    else if state == SOCKET_OPENED then SocketOpened(v, event)
    else if state == SEND then Sending(v, event, a)
    else if state == RECEIVE then Receiving(v, event, a)
    else if state == CLOSING_SOCKET then ClosingSocket(v, event, a)
    else Reaction(v, event != LEAVING, [])
  }

  function SocketClosed(v: Vars, event: nat, a: Answer): Reaction<Vars> {
    if event == ENTERING then Reaction(v, true, [])
    else if event == EVENT_SEND || event == EVENT_RECEIVE then
      if a.parametersSet then Reaction(v, true, [Post(event), Go(OPENING_SOCKET)])
      else Reaction(v.(error := Latched(v.error, TCP_PARAMETERS_MISSING, SOCKET_CLOSED)), true, [])
    else if event == EVENT_CLOSE_SOCKET then Reaction(v, true, [])
    else Reaction(v, false, [])
  }

  function OpeningSocket(v: Vars, event: nat, a: Answer): Reaction<Vars> {
    if event == ENTERING then Reaction(Ask(v, Visit).(retries := 0), true, [Post(EVENT_OPEN_SOCKET)])
    else if event == EVENT_OPEN_SOCKET then
      var tried := Ask(v, Open(a.number)).(openSocketId := a.number);
      if a.number >= 0 then Reaction(tried, true, [Go(SOCKET_OPENED)])
      else if v.retries + 1 == OPEN_SOCKET_MAX_RETRIES then
        Reaction(tried.(retries := v.retries + 1, error := Latched(v.error, TCP_OPERATION_FAILED, OPENING_SOCKET)), true,
                 [ClearQueue, Go(SOCKET_CLOSED)])
      else Reaction(tried.(retries := v.retries + 1), true, [Post(EVENT_OPEN_SOCKET)])
    else if event == EVENT_SEND || event == EVENT_RECEIVE then Reaction(v, true, [Post(event)])
    else Reaction(v, false, [])
  }

  function SocketOpened(v: Vars, event: nat): Reaction<Vars> {
    if event == ENTERING then Reaction(v, true, [SetChild(NO_STATE)])
    else if event == EVENT_SEND then Reaction(v, true, [Go(SEND)])
    else if event == EVENT_RECEIVE then Reaction(v, true, [Go(RECEIVE)])
    else if event == EVENT_CLOSE_SOCKET then Reaction(v, true, [Go(CLOSING_SOCKET)])
    else if event == EVENT_SOCKET_CLOSED then
      Reaction(v.(error := Latched(v.error, TCP_SOCKET_CLOSED, SOCKET_OPENED)), true, [ClearQueue, Go(SOCKET_CLOSED)])
    else Reaction(v, event == LEAVING, [])
  }

  function Sending(v: Vars, event: nat, a: Answer): Reaction<Vars> {
    if event == ENTERING then
      var sent := Ask(v, Send(v.openSocketId));
      if a.success then Reaction(sent, true, [Go(SOCKET_OPENED)])
      else Reaction(sent.(error := Latched(v.error, TCP_OPERATION_FAILED, SEND)), true, [ClearQueue, Go(CLOSING_SOCKET)])
    else Reaction(v, false, [])
  }

  function Receiving(v: Vars, event: nat, a: Answer): Reaction<Vars> {
    if event == ENTERING then Reaction(v.(timer := RECEIVE_TIMEOUT), true, [Post(EVENT_RECEIVE)])
    else if event == EVENT_RECEIVE then
      var asked := Ask(v, Receive(v.openSocketId));
      if a.number > 0 then Reaction(asked, true, [Go(SOCKET_OPENED)])
      else if a.number == 0 then Reaction(asked, true, [Post(EVENT_RECEIVE)])
      else Reaction(asked.(error := Latched(v.error, TCP_OPERATION_FAILED, RECEIVE)), true, [ClearQueue, Go(SOCKET_CLOSED)])
    else if event == EVENT_SOCKET_CLOSED then
      Reaction(v.(error := Latched(v.error, TCP_SOCKET_CLOSED, RECEIVE)), true, [ClearQueue, Go(SOCKET_CLOSED)])
    else if event == EVENT_TIMEOUT then Reaction(v, true, [Go(SOCKET_OPENED), ClearQueue])
    else if event == LEAVING then Reaction(v.(timer := 0), false, [])
    else Reaction(v, false, [])
  }

  function ClosingSocket(v: Vars, event: nat, a: Answer): Reaction<Vars> {
    if event == ENTERING then
      var asked := Ask(v, Close(v.openSocketId, a.success));
      if a.success then Reaction(asked.(openSocketId := -1), true, [Go(SOCKET_CLOSED)])
      else Reaction(asked.(error := Latched(v.error, TCP_OPERATION_FAILED, CLOSING_SOCKET)), true, [ClearQueue, Go(SOCKET_CLOSED)])
    else Reaction(v, event != LEAVING, [])
  }

  // ---- machine and runs ----

  const PARENT: seq<int> := [ROOT, ROOT, ROOT, SOCKET_OPENED, SOCKET_OPENED, ROOT]
  const RANK: seq<nat> := [0, 0, 0, 2, 0, 1]

  function Tcp(): Machine<Vars, Answer> {
    Machine(PARENT, RANK, Handler)
  }

  type State = Config<Vars>

  /** The shape of the tree: only the root and the opened state have children. */
  lemma Shape(c: State)
    requires Structured(Tcp(), c.current)
    ensures |c.current| == 7
    ensures c.current[0] == NO_STATE || c.current[0] == SOCKET_CLOSED || c.current[0] == OPENING_SOCKET
            || c.current[0] == SOCKET_OPENED || c.current[0] == CLOSING_SOCKET
    ensures c.current[SOCKET_OPENED + 1] == NO_STATE || c.current[SOCKET_OPENED + 1] == SEND || c.current[SOCKET_OPENED + 1] == RECEIVE
    ensures c.current[SOCKET_CLOSED + 1] == NO_STATE && c.current[OPENING_SOCKET + 1] == NO_STATE
    ensures c.current[SEND + 1] == NO_STATE && c.current[RECEIVE + 1] == NO_STATE && c.current[CLOSING_SOCKET + 1] == NO_STATE
  {
    ChildOrNone(Tcp(), c.current, ROOT);
    ChildOrNone(Tcp(), c.current, SOCKET_CLOSED);
    ChildOrNone(Tcp(), c.current, OPENING_SOCKET);
    ChildOrNone(Tcp(), c.current, SOCKET_OPENED);
    ChildOrNone(Tcp(), c.current, SEND);
    ChildOrNone(Tcp(), c.current, RECEIVE);
    ChildOrNone(Tcp(), c.current, CLOSING_SOCKET);
  }

  predicate ReceiveActive(current: seq<int>)
    requires |current| == 7
  {
    current[0] == SOCKET_OPENED && current[SOCKET_OPENED + 1] == RECEIVE
  }

  /** The variables once the active states have heard that they are left. */
  function LeftVars(c: State): Vars
    requires |c.current| == 7
  {
    if ReceiveActive(c.current) then c.vars.(timer := 0) else c.vars
  }

  lemma LeavingRoot(env: nat -> Answer, c: State)
    requires Structured(Tcp(), c.current)
    ensures |c.current| == 7
    ensures var r := Left(Tcp(), env, c, ROOT); r == c.(vars := LeftVars(c), log := r.log)
  {
    hide Structured;
    Shape(c);
    if c.current[0] == SOCKET_OPENED {
      var k := c.current[SOCKET_OPENED + 1];
      if k != NO_STATE {
        var inner := Offer(Tcp(), env, c, k, LEAVING, 0);
        assert inner == (c.(vars := LeftVars(c), log := inner.0.log), false);
        assert Dispatch(Tcp(), env, c, SOCKET_OPENED, LEAVING, 0) == Offer(Tcp(), env, inner.0, SOCKET_OPENED, LEAVING, 0);
      }
    }
  }

  lemma LeavingOpened(env: nat -> Answer, c: State)
    requires Structured(Tcp(), c.current) && |c.current| == 7 && c.current[0] == SOCKET_OPENED
    ensures var r := Left(Tcp(), env, c, SOCKET_OPENED); r == c.(vars := LeftVars(c), log := r.log)
  {
    hide Structured;
    Shape(c);
  }

  lemma ToClosed(env: nat -> Answer, c: State, bound: nat)
    requires Structured(Tcp(), c.current) && |c.current| == 7 && bound > RANK[SOCKET_CLOSED]
    ensures var r := Transitioned(Tcp(), env, c, SOCKET_CLOSED, bound);
            r == c.(vars := LeftVars(c), current := c.current[0 := SOCKET_CLOSED], log := r.log)
  {
    hide Left, Offer;
    LeavingRoot(env, c);
    Shape(c);
    Offer0(Tcp(), env, Moved(Tcp(), Left(Tcp(), env, c, ROOT), SOCKET_CLOSED), SOCKET_CLOSED, ENTERING, 0);
  }

  lemma ToOpening(env: nat -> Answer, c: State, bound: nat)
    requires Structured(Tcp(), c.current) && |c.current| == 7 && bound > RANK[OPENING_SOCKET]
    ensures var r := Transitioned(Tcp(), env, c, OPENING_SOCKET, bound);
            r == c.(vars := Ask(LeftVars(c), Visit).(retries := 0), current := c.current[0 := OPENING_SOCKET],
                    queue := Posted(c.queue, EVENT_OPEN_SOCKET), log := r.log)
  {
    hide Left, Posted, Offer;
    LeavingRoot(env, c);
    Shape(c);
    Offer1(Tcp(), env, Moved(Tcp(), Left(Tcp(), env, c, ROOT), OPENING_SOCKET), OPENING_SOCKET, ENTERING, Post(EVENT_OPEN_SOCKET), 0);
  }

  lemma ToOpened(env: nat -> Answer, c: State, bound: nat)
    requires Structured(Tcp(), c.current) && |c.current| == 7 && bound > RANK[SOCKET_OPENED]
    ensures var r := Transitioned(Tcp(), env, c, SOCKET_OPENED, bound);
            r == c.(vars := LeftVars(c), current := c.current[0 := SOCKET_OPENED][SOCKET_OPENED + 1 := NO_STATE], log := r.log)
  {
    hide Left, Offer;
    LeavingRoot(env, c);
    Shape(c);
    Offer1(Tcp(), env, Moved(Tcp(), Left(Tcp(), env, c, ROOT), SOCKET_OPENED), SOCKET_OPENED, ENTERING, SetChild(NO_STATE), 0);
  }

  lemma ToReceive(env: nat -> Answer, c: State, bound: nat)
    requires Structured(Tcp(), c.current) && |c.current| == 7 && bound > RANK[RECEIVE] && c.current[0] == SOCKET_OPENED
    ensures var r := Transitioned(Tcp(), env, c, RECEIVE, bound);
            r == c.(vars := c.vars.(timer := RECEIVE_TIMEOUT), current := c.current[SOCKET_OPENED + 1 := RECEIVE],
                    queue := Posted(c.queue, EVENT_RECEIVE), log := r.log)
  {
    hide Left, Posted, Offer;
    LeavingOpened(env, c);
    Shape(c);
    Offer1(Tcp(), env, Moved(Tcp(), Left(Tcp(), env, c, SOCKET_OPENED), RECEIVE), RECEIVE, ENTERING, Post(EVENT_RECEIVE), 0);
  }

  /** The variables after the socket of the opened state was closed, or not. */
  function ClosedVars(v: Vars, closed: bool): Vars {
    var asked := Ask(v, Close(v.openSocketId, closed));
    if closed then asked.(openSocketId := -1) else asked.(error := Latched(v.error, TCP_OPERATION_FAILED, CLOSING_SOCKET))
  }

  /** Entering the closing state closes the socket and goes on to the closed state. */
  lemma ToClosing(env: nat -> Answer, c: State, bound: nat) returns (closed: bool)
    requires Structured(Tcp(), c.current) && |c.current| == 7 && bound > RANK[CLOSING_SOCKET]
    ensures var r := Transitioned(Tcp(), env, c, CLOSING_SOCKET, bound);
            r == c.(vars := ClosedVars(LeftVars(c), closed), current := c.current[0 := SOCKET_CLOSED],
                    queue := if closed then c.queue else [], log := r.log)
  {
    hide Left, Offer, LeftVars;
    LeavingRoot(env, c);
    Shape(c);
    var moved := Moved(Tcp(), Left(Tcp(), env, c, ROOT), CLOSING_SOCKET);
    var told := Told(Tcp(), env, moved, CLOSING_SOCKET, ENTERING);
    closed := env(|moved.log|).success;
    if closed {
      Offer1(Tcp(), env, moved, CLOSING_SOCKET, ENTERING, Go(SOCKET_CLOSED), 1);
      ToClosed(env, told, 1);
      LeftFromClosing(told);
    } else {
      Offer2(Tcp(), env, moved, CLOSING_SOCKET, ENTERING, ClearQueue, Go(SOCKET_CLOSED), 1);
      ToClosed(env, told.(queue := []), 1);
      LeftFromClosing(told.(queue := []));
    }
    Shape(Offer(Tcp(), env, moved, CLOSING_SOCKET, ENTERING, 1).0);
  }

  lemma LeftFromClosing(c: State)
    requires |c.current| == 7 && c.current[0] == CLOSING_SOCKET
    ensures LeftVars(c) == c.vars
  {
  }

  /** The configuration after a socket of the opened state was closed, or not. */
  function Closing(c: State, closed: bool, log: seq<Notice>): State
    requires |c.current| == 7
  {
    c.(vars := ClosedVars(c.vars, closed), current := c.current[0 := SOCKET_CLOSED],
       queue := if closed then c.queue else [], log := log)
  }

  function SentVars(v: Vars, sent: bool): Vars {
    var asked := Ask(v, Send(v.openSocketId));
    if sent then asked else asked.(error := Latched(v.error, TCP_OPERATION_FAILED, SEND))
  }

  /** Entering the send state sends and goes back to the opened state, or closes the socket. */
  lemma ToSend(env: nat -> Answer, c: State, bound: nat) returns (sent: bool, closed: bool)
    requires Structured(Tcp(), c.current) && |c.current| == 7 && bound > RANK[SEND] && c.current[0] == SOCKET_OPENED
    ensures var r, v := Transitioned(Tcp(), env, c, SEND, bound), SentVars(LeftVars(c), sent);
            r == if sent then c.(vars := v, current := c.current[SOCKET_OPENED + 1 := NO_STATE], log := r.log)
                 else Closing(c.(vars := v, current := c.current[SOCKET_OPENED + 1 := SEND], queue := []), closed, r.log)
  {
    hide Left, Offer, LeftVars;
    LeavingOpened(env, c);
    Shape(c);
    var moved := Moved(Tcp(), Left(Tcp(), env, c, SOCKET_OPENED), SEND);
    var told := Told(Tcp(), env, moved, SEND, ENTERING);
    sent, closed := env(|moved.log|).success, false;
    assert told == moved.(vars := SentVars(moved.vars, sent), log := told.log);
    NotReceiving(moved, sent);
    if sent {
      Offer1(Tcp(), env, moved, SEND, ENTERING, Go(SOCKET_OPENED), 2);
      ToOpened(env, told, 2);
    } else {
      Offer2(Tcp(), env, moved, SEND, ENTERING, ClearQueue, Go(CLOSING_SOCKET), 2);
      closed := ToClosing(env, told.(queue := []), 2);
    }
    Shape(Offer(Tcp(), env, moved, SEND, ENTERING, 2).0);
  }

  lemma NotReceiving(c: State, sent: bool)
    requires |c.current| == 7 && c.current[SOCKET_OPENED + 1] != RECEIVE
    ensures forall v, log, queue :: LeftVars(c.(vars := v, log := log, queue := queue)) == v
  {
  }

  // ---- the discipline of driver calls ----

  /** What a reader of the calls knows: whether every call was in order so far, the socket opened last and not yet
      closed, and the attempts since the opening state was entered. */
  datatype Watch = Watch(ok: bool, live: Option<int>, opens: nat)

  function Watched(calls: seq<Call>): Watch {
    if calls == [] then Watch(true, None, 0)
    else Next(Watched(calls[..|calls| - 1]), calls[|calls| - 1])
  }

  function Next(w: Watch, call: Call): Watch {
    match call
    case Visit => w.(opens := 0)
    case Open(id) => Watch(w.ok && w.opens < OPEN_SOCKET_MAX_RETRIES, if id >= 0 then Some(id) else w.live, w.opens + 1)
    case Send(id) => w.(ok := w.ok && w.live == Some(id))
    case Receive(id) => w.(ok := w.ok && w.live == Some(id))
    case Close(id, closed) => Watch(w.ok && w.live == Some(id), if closed then None else w.live, w.opens)
  }

  lemma WatchNext(calls: seq<Call>, call: Call)
    ensures Watched(calls + [call]) == Next(Watched(calls), call)
  {
    assert (calls + [call])[..|calls|] == calls;
  }

  /** A successful open at i is the last one before n and was not closed successfully before n. */
  ghost predicate OpenSince(calls: seq<Call>, i: nat, n: nat, id: int)
    requires n <= |calls|
  {
    && i < n && id >= 0 && calls[i] == Open(id)
    && forall j :: i < j < n ==> !(calls[j].Open? && calls[j].id >= 0) && calls[j] != Close(id, true)
  }

  /** Data is exchanged over, and a close requested for, only the socket opened last and not closed since. */
  ghost predicate OnlyOpenSockets(calls: seq<Call>) {
    forall n :: 0 <= n < |calls| && (calls[n].Send? || calls[n].Receive? || calls[n].Close?) ==>
                  exists i: nat :: OpenSince(calls, i, n, calls[n].id)
  }

  function CountOpens(calls: seq<Call>): nat {
    if calls == [] then 0
    else CountOpens(calls[..|calls| - 1]) + if calls[|calls| - 1].Open? then 1 else 0
  }

  /** Between two visits to the opening state there are at most three attempts. */
  ghost predicate AtMostThreeOpens(calls: seq<Call>) {
    forall i, j :: 0 <= i <= j <= |calls| && (forall k :: i <= k < j ==> !calls[k].Visit?) ==>
                     CountOpens(calls[i..j]) <= OPEN_SOCKET_MAX_RETRIES
  }

  lemma {:induction false} LiveIsOpenSince(calls: seq<Call>, n: nat)
    requires n <= |calls| && Watched(calls[..n]).ok && Watched(calls[..n]).live.Some?
    ensures exists i: nat :: OpenSince(calls, i, n, Watched(calls[..n]).live.value)
    decreases n
  {
    var w := Watched(calls[..n]);
    if n > 0 {
      var front, call := calls[..n - 1], calls[n - 1];
      assert calls[..n][..n - 1] == front && w == Next(Watched(front), call);
      if call.Open? && call.id >= 0 {
        assert OpenSince(calls, n - 1, n, w.live.value);
      } else {
        LiveIsOpenSince(calls, n - 1);
        var i: nat :| OpenSince(calls, i, n - 1, Watched(front).live.value);
        assert OpenSince(calls, i, n, w.live.value);
      }
    }
  }

  lemma {:induction false} OkBefore(calls: seq<Call>, n: nat)
    requires n <= |calls| && Watched(calls).ok
    ensures Watched(calls[..n]).ok
    decreases |calls|
  {
    if n < |calls| {
      OkBefore(calls[..|calls| - 1], n);
      assert calls[..|calls| - 1][..n] == calls[..n];
    } else {
      assert calls[..n] == calls;
    }
  }

  lemma {:induction false} OpensCounted(calls: seq<Call>, i: nat, j: nat)
    requires i <= j <= |calls| && forall k :: i <= k < j ==> !calls[k].Visit?
    ensures CountOpens(calls[i..j]) <= Watched(calls[..j]).opens
    decreases j
  {
    if i < j {
      OpensCounted(calls, i, j - 1);
      assert calls[..j][..j - 1] == calls[..j - 1] && calls[i..j][..j - i - 1] == calls[i..j - 1];
      assert calls[i..j][j - i - 1] == calls[j - 1];
    }
  }

  lemma {:induction false} OpensBounded(calls: seq<Call>)
    requires Watched(calls).ok
    ensures Watched(calls).opens <= OPEN_SOCKET_MAX_RETRIES
  {
    if calls != [] {
      OpensBounded(calls[..|calls| - 1]);
    }
  }

  lemma WatchMeans(calls: seq<Call>)
    requires Watched(calls).ok
    ensures OnlyOpenSockets(calls) && AtMostThreeOpens(calls)
  {
    forall n | 0 <= n < |calls| && (calls[n].Send? || calls[n].Receive? || calls[n].Close?)
      ensures exists i: nat :: OpenSince(calls, i, n, calls[n].id)
    {
      OkBefore(calls, n + 1);
      OkBefore(calls, n);
      assert calls[..n + 1] == calls[..n] + [calls[n]];
      WatchNext(calls[..n], calls[n]);
      LiveIsOpenSince(calls, n);
    }
    forall i, j | 0 <= i <= j <= |calls| && (forall k :: i <= k < j ==> !calls[k].Visit?)
      ensures CountOpens(calls[i..j]) <= OPEN_SOCKET_MAX_RETRIES
    {
      OkBefore(calls, j);
      OpensBounded(calls[..j]);
      OpensCounted(calls, i, j);
    }
  }

  // ---- what every step keeps ----

  ghost predicate VarsAgree(v: Vars, current: seq<int>)
    requires |current| == 7
  {
    var w := Watched(v.calls);
    && w.ok
    && (current[0] == SOCKET_OPENED ==> w.live == Some(v.openSocketId))
    && (current[0] == OPENING_SOCKET ==> w.opens == v.retries < OPEN_SOCKET_MAX_RETRIES)
    && (v.timer > 0 ==> ReceiveActive(current))
  }

  predicate OnlyEvents(queue: seq<nat>) {
    forall e :: e in queue ==> e <= EVENT_TIMEOUT
  }

  /** No transition went wrong; the closed, the opening or the opened state is active, the last alone or with the receive
      state; and the variables agree with that. */
  ghost predicate Good(c: State) {
    && Structured(Tcp(), c.current) && |c.current| == 7
    && !c.fault
    && (c.current[0] == SOCKET_CLOSED || c.current[0] == OPENING_SOCKET || c.current[0] == SOCKET_OPENED)
    && (c.current[0] == SOCKET_OPENED ==> c.current[SOCKET_OPENED + 1] != SEND)
    && VarsAgree(c.vars, c.current)
    && OnlyEvents(c.queue)
  }

  /** The relation of a step to what was before it. */
  ghost predicate Follows(c: State, r: State) {
    && Good(r)
    && (c.vars.error != 0 ==> r.vars.error == c.vars.error)
  }

  lemma PostedEvents(queue: seq<nat>, e: nat)
    requires OnlyEvents(queue) && e <= EVENT_TIMEOUT
    ensures OnlyEvents(Posted(queue, e))
  {
    PostedMembers(queue, e);
  }

  /** The event is consumed, the state t is entered with these variables, and these events are left queued. */
  predicate Ends(r: (State, bool), t: nat, v: Vars, queue: seq<nat>) {
    && r.1 && r.0.vars == v && r.0.queue == queue && |r.0.current| == 7
    && if t == RECEIVE then ReceiveActive(r.0.current)
       else r.0.current[0] == t && (t == SOCKET_OPENED ==> r.0.current[SOCKET_OPENED + 1] == NO_STATE)
  }

  /** Sending and receiving wait until the socket is open, if the parameters are set. */
  lemma ClosedOffer(env: nat -> Answer, c: State, event: nat, bound: nat)
    requires Good(c) && event <= EVENT_TIMEOUT && bound > 2 && c.current[0] == SOCKET_CLOSED
    ensures var r, v := Offer(Tcp(), env, c, SOCKET_CLOSED, event, bound), c.vars;
            && Follows(c, r.0) && (r.1 || r.0 == c.(log := r.0.log))
            && (event == EVENT_SEND || event == EVENT_RECEIVE ==>
                  if env(|c.log|).parametersSet then
                    Ends(r, OPENING_SOCKET, Ask(v, Visit).(retries := 0), Posted(Posted(c.queue, event), EVENT_OPEN_SOCKET))
                  else Ends(r, SOCKET_CLOSED, v.(error := Latched(v.error, TCP_PARAMETERS_MISSING, SOCKET_CLOSED)), c.queue))
  {
    hide Transitioned, Structured, Posted, Watched;
    var told := Told(Tcp(), env, c, SOCKET_CLOSED, event);
    if ActionsOf(Tcp(), env, c, SOCKET_CLOSED, event) == [] {
      Offer0(Tcp(), env, c, SOCKET_CLOSED, event, bound);
    } else {
      Offer2(Tcp(), env, c, SOCKET_CLOSED, event, Post(event), Go(OPENING_SOCKET), bound);
      PostedEvents(c.queue, event);
      var posted := told.(queue := Posted(told.queue, event));
      ToOpening(env, posted, bound);
      PostedEvents(posted.queue, EVENT_OPEN_SOCKET);
      WatchNext(c.vars.calls, Visit);
    }
  }

  /** The third failure gives up and forgets the queue; sending and receiving wait. */
  lemma OpeningOffer(env: nat -> Answer, c: State, event: nat, bound: nat)
    requires Good(c) && event <= EVENT_TIMEOUT && bound > 2 && c.current[0] == OPENING_SOCKET
    ensures var r, v, id := Offer(Tcp(), env, c, OPENING_SOCKET, event, bound), c.vars, env(|c.log|).number;
            && Follows(c, r.0) && (r.1 || r.0 == c.(log := r.0.log))
            && (event == EVENT_SEND || event == EVENT_RECEIVE ==> Ends(r, OPENING_SOCKET, v, Posted(c.queue, event)))
            && (event == EVENT_OPEN_SOCKET ==>
                  var tried := Ask(v, Open(id)).(openSocketId := id);
                  if id >= 0 then Ends(r, SOCKET_OPENED, tried, c.queue)
                  else if v.retries == OPEN_SOCKET_MAX_RETRIES - 1 then
                    Ends(r, SOCKET_CLOSED,
                         tried.(retries := v.retries + 1, error := Latched(v.error, TCP_OPERATION_FAILED, OPENING_SOCKET)), [])
                  else Ends(r, OPENING_SOCKET, tried.(retries := v.retries + 1), Posted(c.queue, EVENT_OPEN_SOCKET)))
  {
    hide Transitioned, Structured, Posted, Watched;
    var told := Told(Tcp(), env, c, OPENING_SOCKET, event);
    if event == EVENT_OPEN_SOCKET {
      var id := env(|c.log|).number;
      WatchNext(c.vars.calls, Open(id));
      if id >= 0 {
        Offer1(Tcp(), env, c, OPENING_SOCKET, event, Go(SOCKET_OPENED), bound);
        ToOpened(env, told, bound);
      } else if c.vars.retries + 1 == OPEN_SOCKET_MAX_RETRIES {
        Offer2(Tcp(), env, c, OPENING_SOCKET, event, ClearQueue, Go(SOCKET_CLOSED), bound);
        ToClosed(env, told.(queue := []), bound);
      } else {
        Offer1(Tcp(), env, c, OPENING_SOCKET, event, Post(EVENT_OPEN_SOCKET), bound);
        PostedEvents(c.queue, EVENT_OPEN_SOCKET);
      }
    } else if event == EVENT_SEND || event == EVENT_RECEIVE {
      Offer1(Tcp(), env, c, OPENING_SOCKET, event, Post(event), bound);
      PostedEvents(c.queue, event);
    } else {
      Offer0(Tcp(), env, c, OPENING_SOCKET, event, bound);
    }
  }

  /** Sending is over at once, closed if it failed; receiving begins; the socket is closed; or the peer closed it. */
  lemma OpenedOffer(env: nat -> Answer, c: State, event: nat, bound: nat)
    requires Good(c) && event <= EVENT_TIMEOUT && bound > 2 && c.current[0] == SOCKET_OPENED
    ensures var r, v := Offer(Tcp(), env, c, SOCKET_OPENED, event, bound), LeftVars(c);
            && Follows(c, r.0) && (r.1 || r.0 == c.(log := r.0.log))
            && (event == EVENT_SEND ==>
                  || Ends(r, SOCKET_OPENED, SentVars(v, true), c.queue)
                  || Ends(r, SOCKET_CLOSED, ClosedVars(SentVars(v, false), true), [])
                  || Ends(r, SOCKET_CLOSED, ClosedVars(SentVars(v, false), false), []))
            && (event == EVENT_RECEIVE ==> Ends(r, RECEIVE, v.(timer := RECEIVE_TIMEOUT), Posted(c.queue, EVENT_RECEIVE)))
            && (event == EVENT_CLOSE_SOCKET ==>
                  Ends(r, SOCKET_CLOSED, ClosedVars(v, true), c.queue) || Ends(r, SOCKET_CLOSED, ClosedVars(v, false), []))
            && (event == EVENT_SOCKET_CLOSED ==>
                  Ends(r, SOCKET_CLOSED, v.(error := Latched(v.error, TCP_SOCKET_CLOSED, SOCKET_OPENED)), []))
  {
    hide Transitioned, Structured, Posted, Watched;
    var told := Told(Tcp(), env, c, SOCKET_OPENED, event);
    if event == EVENT_SEND {
      Offer1(Tcp(), env, c, SOCKET_OPENED, event, Go(SEND), bound);
      WatchNext(c.vars.calls, Send(c.vars.openSocketId));
      var sent, closed := ToSend(env, told, bound);
      WatchNext(c.vars.calls + [Send(c.vars.openSocketId)], Close(c.vars.openSocketId, closed));
    } else if event == EVENT_RECEIVE {
      Offer1(Tcp(), env, c, SOCKET_OPENED, event, Go(RECEIVE), bound);
      ToReceive(env, told, bound);
      PostedEvents(c.queue, EVENT_RECEIVE);
    } else if event == EVENT_CLOSE_SOCKET {
      Offer1(Tcp(), env, c, SOCKET_OPENED, event, Go(CLOSING_SOCKET), bound);
      var closed := ToClosing(env, told, bound);
      WatchNext(c.vars.calls, Close(c.vars.openSocketId, closed));
    } else if event == EVENT_SOCKET_CLOSED {
      Offer2(Tcp(), env, c, SOCKET_OPENED, event, ClearQueue, Go(SOCKET_CLOSED), bound);
      ToClosed(env, told.(queue := []), bound);
    } else {
      Offer0(Tcp(), env, c, SOCKET_OPENED, event, bound);
    }
  }

  /** Data or the timeout end receiving, nothing yet goes on, a failure or the peer closing end in the closed state; the timer
      stops whenever receiving ends. */
  lemma ReceiveOffer(env: nat -> Answer, c: State, event: nat, bound: nat)
    requires Good(c) && event <= EVENT_TIMEOUT && bound > 2 && ReceiveActive(c.current)
    ensures var r, v, number := Offer(Tcp(), env, c, RECEIVE, event, bound), c.vars, env(|c.log|).number;
            && Follows(c, r.0) && (r.1 || r.0 == c.(log := r.0.log))
            && (event == EVENT_RECEIVE ==>
                  var asked := Ask(v, Receive(v.openSocketId));
                  if number > 0 then Ends(r, SOCKET_OPENED, asked.(timer := 0), c.queue)
                  else if number == 0 then Ends(r, RECEIVE, asked, Posted(c.queue, EVENT_RECEIVE))
                  else Ends(r, SOCKET_CLOSED, asked.(timer := 0, error := Latched(v.error, TCP_OPERATION_FAILED, RECEIVE)), []))
            && (event == EVENT_SOCKET_CLOSED ==>
                  Ends(r, SOCKET_CLOSED, v.(timer := 0, error := Latched(v.error, TCP_SOCKET_CLOSED, RECEIVE)), []))
            && (event == EVENT_TIMEOUT ==> Ends(r, SOCKET_OPENED, v.(timer := 0), []))
  {
    hide Transitioned, Structured, Posted, Watched;
    var told := Told(Tcp(), env, c, RECEIVE, event);
    if event == EVENT_RECEIVE {
      var number := env(|c.log|).number;
      WatchNext(c.vars.calls, Receive(c.vars.openSocketId));
      if number > 0 {
        Offer1(Tcp(), env, c, RECEIVE, event, Go(SOCKET_OPENED), bound);
        ToOpened(env, told, bound);
      } else if number == 0 {
        Offer1(Tcp(), env, c, RECEIVE, event, Post(EVENT_RECEIVE), bound);
        PostedEvents(c.queue, EVENT_RECEIVE);
      } else {
        Offer2(Tcp(), env, c, RECEIVE, event, ClearQueue, Go(SOCKET_CLOSED), bound);
        ToClosed(env, told.(queue := []), bound);
      }
    } else if event == EVENT_SOCKET_CLOSED {
      Offer2(Tcp(), env, c, RECEIVE, event, ClearQueue, Go(SOCKET_CLOSED), bound);
      ToClosed(env, told.(queue := []), bound);
    } else if event == EVENT_TIMEOUT {
      Offer2(Tcp(), env, c, RECEIVE, event, Go(SOCKET_OPENED), ClearQueue, bound);
      ToOpened(env, told, bound);
    } else {
      Offer0(Tcp(), env, c, RECEIVE, event, bound);
    }
  }

  lemma DispatchKeeps(env: nat -> Answer, c: State, event: nat)
    requires Good(c) && event <= EVENT_TIMEOUT
    ensures Follows(c, Dispatch(Tcp(), env, c, ROOT, event, 3).0)
  {
    hide Offer, Transitioned, Good, Structured;
    Structure(c);
    Shape(c);
    var s := c.current[0];
    var c' := c;
    if s == SOCKET_CLOSED {
      ClosedOffer(env, c, event, 3);
    } else if s == OPENING_SOCKET {
      OpeningOffer(env, c, event, 3);
    } else if c.current[SOCKET_OPENED + 1] == NO_STATE {
      OpenedOffer(env, c, event, 3);
    } else {
      ReceiveOffer(env, c, event, 3);
      c' := Offer(Tcp(), env, c, RECEIVE, event, 3).0;
      if !Offer(Tcp(), env, c, RECEIVE, event, 3).1 {
        Structure(c');
        OpenedOffer(env, c', event, 3);
      }
    }
    var inner := Dispatch(Tcp(), env, c, s, event, 3);
    if !inner.1 {
      Offer0(Tcp(), env, inner.0, ROOT, event, 3);
      OnlyTheLog(inner.0, Told(Tcp(), env, inner.0, ROOT, event));
    }
  }

  lemma Structure(c: State)
    requires Good(c)
    ensures Structured(Tcp(), c.current) && |c.current| == 7
    ensures c.current[0] == SOCKET_CLOSED || c.current[0] == OPENING_SOCKET || c.current[0] == SOCKET_OPENED
    ensures c.current[0] == SOCKET_OPENED ==> c.current[SOCKET_OPENED + 1] != SEND
  {
  }

  lemma OnlyTheLog(c: State, r: State)
    requires Good(c) && r == c.(log := r.log)
    ensures Good(r)
  {
  }

  // ---- runs ----

  /** What may happen to the module: a request, a second passing, the peer closing the socket, a call of the process
      handle. */
  datatype Input = RequestSend | RequestReceive | RequestClose | Second | PeerCloses | CallHandle

  function Requested(c: State, event: nat): State {
    c.(vars := c.vars.(error := 0), queue := Posted(c.queue, event))
  }

  function Stepped(env: nat -> Answer, c: State, input: Input): (r: State)
    requires Structured(Tcp(), c.current)
    ensures Structured(Tcp(), r.current)
  {
    match input
    case RequestSend => Requested(c, EVENT_SEND)
    case RequestReceive => Requested(c, EVENT_RECEIVE)
    case RequestClose => Requested(c, EVENT_CLOSE_SOCKET)
    case Second =>
      if c.vars.timer == 0 then c
      else
        var ticked := c.(vars := c.vars.(timer := c.vars.timer - 1));
        if c.vars.timer == 1 then ticked.(queue := Posted(c.queue, EVENT_TIMEOUT)) else ticked
    case PeerCloses => c.(queue := Posted(c.queue, EVENT_SOCKET_CLOSED))
    case CallHandle => Processed(Tcp(), env, c).0
  }

  const START: seq<int> := [SOCKET_CLOSED, NO_STATE, NO_STATE, NO_STATE, NO_STATE, NO_STATE, NO_STATE]
  const BLANK := Vars(-1, 0, 0, 0, [])

  /** `init_tcp_communication_module`. */
  function Initial(env: nat -> Answer): (r: State)
    ensures Structured(Tcp(), r.current)
  {
    Transitioned(Tcp(), env, Config(START, [], BLANK, [], false), SOCKET_CLOSED, Top(Tcp()))
  }

  function Run(env: nat -> Answer, inputs: seq<Input>): (r: State)
    ensures Structured(Tcp(), r.current)
  {
    if inputs == [] then Initial(env) else Stepped(env, Run(env, inputs[..|inputs| - 1]), inputs[|inputs| - 1])
  }

  lemma TopIsThree()
    ensures Top(Tcp()) == 3
  {
    assert Above([1]) == 2;
    assert RANK[5..] == [1] && Above(RANK[5..]) == 2;
    assert RANK[4..][1..] == RANK[5..] && RANK[3..][1..] == RANK[4..] && Above(RANK[3..]) == 3;
    assert RANK[2..][1..] == RANK[3..] && RANK[1..][1..] == RANK[2..] && RANK[0..] == RANK;
  }

  lemma StepFollows(env: nat -> Answer, c: State, input: Input)
    requires Good(c)
    ensures Good(Stepped(env, c, input))
    ensures input.Second? || input.PeerCloses? || input.CallHandle? ==> Follows(c, Stepped(env, c, input))
  {
    hide Dispatch, Posted, Watched, Structured;
    TopIsThree();
    PostedEvents(c.queue, EVENT_SEND);
    PostedEvents(c.queue, EVENT_RECEIVE);
    PostedEvents(c.queue, EVENT_CLOSE_SOCKET);
    PostedEvents(c.queue, EVENT_TIMEOUT);
    PostedEvents(c.queue, EVENT_SOCKET_CLOSED);
    if input == CallHandle && c.queue != [] {
      var taken := c.(queue := c.queue[1..]);
      assert c.queue[0] in c.queue && forall e :: e in taken.queue ==> e in c.queue;
      DispatchKeeps(env, taken, c.queue[0]);
    }
  }

  lemma {:induction false} RunIsGood(env: nat -> Answer, inputs: seq<Input>)
    ensures Good(Run(env, inputs))
  {
    hide Good;
    if inputs == [] {
      InitialIsGood(env);
    } else {
      RunIsGood(env, inputs[..|inputs| - 1]);
      StepFollows(env, Run(env, inputs[..|inputs| - 1]), inputs[|inputs| - 1]);
    }
  }

  lemma InitialIsGood(env: nat -> Answer)
    ensures Good(Initial(env))
  {
    TopIsThree();
    ToClosed(env, Config(START, [], BLANK, [], false), 3);
  }

  /** In every run data is exchanged over and a close requested for only the socket that was opened last and not closed
      since, and every visit to the opening state makes at most three attempts. */
  lemma {:induction false} CallsInOrder(env: nat -> Answer, inputs: seq<Input>)
    ensures OnlyOpenSockets(Run(env, inputs).vars.calls) && AtMostThreeOpens(Run(env, inputs).vars.calls)
  {
    RunIsGood(env, inputs);
    WatchMeans(Run(env, inputs).vars.calls);
  }

  /** In every run each transition had an active parent, the active states are one path from the root, at rest neither the
      send nor the closing state, and the receive timer runs only while the receive state is active. */
  lemma {:induction false} AlwaysOnePath(env: nat -> Answer, inputs: seq<Input>)
    ensures var c := Run(env, inputs);
            && !c.fault
            && Path(Tcp(), c.current, ROOT) in {[ROOT, SOCKET_CLOSED], [ROOT, OPENING_SOCKET], [ROOT, SOCKET_OPENED],
                                                [ROOT, SOCKET_OPENED, RECEIVE]}
            && (c.vars.timer > 0 ==> Path(Tcp(), c.current, ROOT) == [ROOT, SOCKET_OPENED, RECEIVE])
  {
    hide Run;
    RunIsGood(env, inputs);
    PathAtRest(Run(env, inputs));
  }

  lemma PathAtRest(c: State)
    requires Good(c)
    ensures Path(Tcp(), c.current, ROOT)
            == if c.current[0] != SOCKET_OPENED then [ROOT, c.current[0]]
               else if c.current[SOCKET_OPENED + 1] == NO_STATE then [ROOT, SOCKET_OPENED]
               else [ROOT, SOCKET_OPENED, RECEIVE]
  {
    hide VarsAgree, Structured, OnlyEvents;
    Structure(c);
    Shape(c);
    var inner := Path(Tcp(), c.current, c.current[0]);
    if c.current[0] == SOCKET_OPENED && c.current[SOCKET_OPENED + 1] != NO_STATE {
      assert Path(Tcp(), c.current, RECEIVE) == [RECEIVE];
    }
  }

  /** Until the next request the first error stays. */
  lemma {:induction false} FirstErrorStays(env: nat -> Answer, inputs: seq<Input>, more: seq<Input>)
    requires forall i :: 0 <= i < |more| ==> more[i].Second? || more[i].PeerCloses? || more[i].CallHandle?
    requires Run(env, inputs).vars.error != 0
    ensures Run(env, inputs + more).vars.error == Run(env, inputs).vars.error
    decreases |more|
  {
    hide Good, Stepped;
    if more == [] {
      assert inputs + more == inputs;
    } else {
      var front := more[..|more| - 1];
      FirstErrorStays(env, inputs, front);
      var all := inputs + more;
      assert all[..|all| - 1] == inputs + front;
      RunIsGood(env, inputs + front);
      StepFollows(env, Run(env, inputs + front), more[|more| - 1]);
    }
  }

  /** The module itself: the engine with the requests and listeners that drive it. */
  method Step(engine: Engine<Vars, Answer>, input: Input)
    requires engine.Valid() && engine.machine == Tcp()
    modifies engine, engine.current, engine.events, engine.events.storage
    ensures engine.Valid() && engine.State() == Stepped(engine.answers, old(engine.State()), input)
  {
    match input {
    case RequestSend => Request(engine, EVENT_SEND);
    case RequestReceive => Request(engine, EVENT_RECEIVE);
    case RequestClose => Request(engine, EVENT_CLOSE_SOCKET);
    case Second =>
      if engine.vars.timer > 0 {
        engine.vars := engine.vars.(timer := engine.vars.timer - 1);
        if engine.vars.timer == 0 {
          engine.Post(EVENT_TIMEOUT);
        }
      }
    case PeerCloses => engine.Post(EVENT_SOCKET_CLOSED);
    case CallHandle => var _ := engine.Process();
    }
  }

  method Request(engine: Engine<Vars, Answer>, event: nat)
    requires engine.Valid() && engine.machine == Tcp()
    modifies engine, engine.current, engine.events, engine.events.storage
    ensures engine.Valid() && engine.State() == Requested(old(engine.State()), event)
  {
    engine.vars := engine.vars.(error := 0);
    engine.Post(event);
  }
}
