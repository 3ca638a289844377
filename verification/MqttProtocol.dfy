/** `mqtt_communication_protocol.c`: a session with the broker, run by the state machine engine. Packets are built and parsed
    by the environment, which answers with their kinds and identifiers. */
module MqttProtocol {
  import opened StateMachine

  // ---- states and events ----

  const DISCONNECTED := 0
  const CONNECTING := 1
  const SEND_CONNECT := 2
  const RECEIVE_CONNACK := 3
  const SEND_SUBSCRIBE := 4
  const RECEIVE_SUBACK := 5
  const CONNECTED := 6
  const PUBLISH := 7
  const RECEIVE_PUBLISH := 8
  const RECEIVE_PUBACK := 9
  const RECEIVE_PUBREC := 10
  const SEND_PUBREL := 11
  const RECEIVE_PUBCOMP := 12
  const PING := 13
  const SEND_PINGREQ := 14
  const RECEIVE_PINGRESP := 15
  const DISCONNECTING := 16

  const EVENT_DISCONNECT := 0
  const EVENT_PUBLISH := 1
  const EVENT_RECEIVE_CONNACK := 2
  const EVENT_RECEIVE_SUBACK := 3
  const EVENT_RECEIVE_PUBLISH := 4
  const EVENT_RECEIVE_PUBACK := 5
  const EVENT_RECEIVE_PUBREC := 6
  const EVENT_RECEIVE_PUBCOMP := 7
  const EVENT_RECEIVE_PINGRESP := 8
  const EVENT_PROCESS := 9
  const EVENT_DONE := 10

  const ERROR_SENDING := 0x10
  const ERROR_RECEIVING := 0x20
  const ERROR_INCORRECT_MESSAGE := 0x30
  const ERROR_PARAMETERS_MISSING := 0x40

  datatype Kind = Connack | Suback | Published | Puback | Pubrec | Pubcomp | Pingresp | Other

  /** What is sent to the broker, what comes from it, and how a publication ended whose sender wants to know. */
  datatype Message =
    | Connect
    | Subscribe(id: nat)
    | Publish(readings: nat)
    | Pubrel
    | Pingreq
    | Disconnect
    | Got(kind: Kind, id: nat)
    | PublishEnded(ok: bool)

  /** A call of `set_mqtt_communication_protocol_error`. */
  datatype Failure = Failure(kind: nat, state: nat)

  /** `messageId`, `receivedId` and `stackId` are `message_id`, `mqtt_message.message_id` and `stack_message_id`; `reporting`
      tells whether `sensor_readings_sent` points anywhere, and `sent` is where it points. `messages` are all so far, `failures`
      those since the last request. */
  datatype Vars = Vars(messageId: nat, receivedId: nat, stackId: nat, serialized: nat, reporting: bool, sent: nat, error: nat,
                       messages: seq<Message>, failures: seq<Failure>)

  /** The environment of one handler call: whether the process handle wants to go on, whether the communication module
      succeeded, the packet received if it was complete, the identifier or the number of readings put into a packet,
      and whether the parameters are set. */
  datatype Answer = Answer(more: bool, ok: bool, complete: bool, kind: Kind, id: nat, readings: nat, parametersSet: bool)

  function Say(v: Vars, message: Message): Vars {
    v.(messages := v.messages + [message])
  }

  /** `set_mqtt_communication_protocol_error`: the last error stays. */
  function Erring(v: Vars, kind: nat, state: nat): Vars {
    v.(error := Code(kind, state), failures := v.failures + [Failure(kind, state)])
  }

  /** `kind | state`: the sum, except that the number of the disconnecting state, 16, may repeat a bit of the kind. */
  function Code(kind: nat, state: nat): nat {
    if state == DISCONNECTING && kind / 0x10 % 2 == 1 then kind else kind + state
  }

  /** `mqtt_parse_message` of a complete packet. */
  function Parsed(v: Vars, a: Answer): Vars {
    var id := match a.kind
              case Suback => a.id
              case Puback => v.stackId
              case Pubrec => v.stackId
              case Pubcomp => v.stackId
              case _ => v.receivedId;
    Say(v, Got(a.kind, id)).(receivedId := id)
  }

  // ---- handlers ----

  function Quiet(v: Vars, consumed: bool): Reaction<Vars> {
    Reaction(v, consumed, [])
  }

  function Does(v: Vars, action: Action): Reaction<Vars> {
    Reaction(v, true, [action])
  }

  /** The states whose entry posts an event and does nothing else besides preparing a packet. */
  const POSTING: set<nat> := {SEND_CONNECT, RECEIVE_CONNACK, SEND_SUBSCRIBE, RECEIVE_SUBACK, PUBLISH, RECEIVE_PUBLISH, RECEIVE_PUBACK,
                              RECEIVE_PUBREC, SEND_PUBREL, RECEIVE_PUBCOMP, SEND_PINGREQ, RECEIVE_PINGRESP, DISCONNECTING}

  /** The event a state of waiting for a packet posts and then handles itself. */
  function AwaitEvent(state: nat): nat {
    match state
    case 3 => EVENT_RECEIVE_CONNACK
    case 5 => EVENT_RECEIVE_SUBACK
    case 8 => EVENT_RECEIVE_PUBLISH
    case 9 => EVENT_RECEIVE_PUBACK
    case 10 => EVENT_RECEIVE_PUBREC
    case 12 => EVENT_RECEIVE_PUBCOMP
    case 15 => EVENT_RECEIVE_PINGRESP
    case _ => EVENT_PROCESS
  }

  function EntryVars(v: Vars, state: nat, a: Answer): Vars {
    match state
    case 2 => Say(v, Connect)
    case 4 => Say(v, Subscribe(a.id)).(messageId := a.id)
    case 7 => Say(v, Publish(a.readings)).(serialized := a.readings, stackId := v.receivedId, messageId := a.id)
    case 11 => Say(v, Pubrel)
    case 14 => Say(v, Pingreq)
    case 16 => Say(v, Disconnect)
    case _ => v
  }

  function Handler(v: Vars, state: int, event: nat, a: Answer): Reaction<Vars> {
    if state == DISCONNECTED then Disconnected(v, event, a)
    else if state == CONNECTING then Connecting(v, event)
    else if state == CONNECTED then Connected(v, event)
    else if state == PING then if event == ENTERING then Does(v, SetChild(SEND_PINGREQ)) else Quiet(v, false)
    else if state in POSTING then
      if event == ENTERING then Does(EntryVars(v, state, a), Post(AwaitEvent(state)))
      else if event == EVENT_DONE then Done(v, state, a)
      else if event == LEAVING && state == DISCONNECTING then Reaction(v, false, [ClearQueue])
      else if event == AwaitEvent(state) != EVENT_PROCESS then Does(v, Post(EVENT_PROCESS))
      else Quiet(v, false)
    else if event == EVENT_PROCESS then Does(v, Post(if a.more then EVENT_PROCESS else EVENT_DONE))
    else Quiet(v, event == ENTERING)
  }

  /** The requests that need a connection. */
  predicate NeedsConnection(event: nat) {
    event == EVENT_PUBLISH || (EVENT_RECEIVE_PUBLISH <= event <= EVENT_RECEIVE_PUBCOMP)
  }

  function Disconnected(v: Vars, event: nat, a: Answer): Reaction<Vars> {
    if event == ENTERING then Does(v, ClearQueue)
    else if NeedsConnection(event) then
      if a.parametersSet then Reaction(v, true, [Post(event), Go(CONNECTING)])
      else Quiet(Erring(v, ERROR_PARAMETERS_MISSING, DISCONNECTED), true)
    else Quiet(v, event == EVENT_DISCONNECT)
  }

  function Connecting(v: Vars, event: nat): Reaction<Vars> {
    if event == ENTERING then Does(v, SetChild(SEND_CONNECT))
    else if NeedsConnection(event) then Does(v, Post(event))
    else Quiet(v, event == EVENT_DISCONNECT)
  }

  function Connected(v: Vars, event: nat): Reaction<Vars> {
    match event
    case 0 => Does(v, Go(DISCONNECTING))
    case 1 => Does(v, Go(PUBLISH))
    case 4 => Does(v, Go(RECEIVE_PUBLISH))
    case 5 => Does(v, Go(RECEIVE_PUBACK))
    case 6 => Does(v, Go(RECEIVE_PUBREC))
    case 7 => Does(v, Go(RECEIVE_PUBCOMP))
    case _ => if event == ENTERING then Does(v, SetChild(NO_STATE)) else Quiet(v, false)
  }

  /** The end of a communication started in a state. */
  function Done(v: Vars, state: int, a: Answer): Reaction<Vars>
    requires state in POSTING
  {
    if AwaitEvent(state) == EVENT_PROCESS then Sent(v, state, a)
    else if !a.ok then Does(Erring(v, ERROR_RECEIVING, state), Go(DISCONNECTED))
    else if a.complete then Received(Parsed(v, a), state, a.kind)
    else Incomplete(v, state)
  }

  function Sent(v: Vars, state: nat, a: Answer): Reaction<Vars> {
    var ended := if state == PUBLISH then Ended(v, a.ok) else v;
    if !a.ok then Does(Erring(ended, ERROR_SENDING, state), Go(DISCONNECTED))
    else
      match state
      case 2 => Does(v, Go(RECEIVE_CONNACK))
      case 4 => Does(v, Go(RECEIVE_SUBACK))
      case 7 => Does(ended, Go(CONNECTED))
      case 11 => Does(v, Go(RECEIVE_PUBLISH))
      case 14 => Does(v, Go(RECEIVE_PINGRESP))
      case _ => Does(v, Go(DISCONNECTED))
  }

  /** The number of readings sent is reported, or 0. */
  function Ended(v: Vars, ok: bool): Vars {
    if v.reporting then Say(v, PublishEnded(ok)).(sent := if ok then v.serialized else 0) else v
  }

  function Incomplete(v: Vars, state: nat): Reaction<Vars> {
    if state == RECEIVE_PUBLISH then Does(v, Go(PING))
    else
      var erring := Erring(v, ERROR_RECEIVING, state);
      Does(erring, Go(if state == RECEIVE_CONNACK || state == RECEIVE_PINGRESP then DISCONNECTED else DISCONNECTING))
  }

  /** A packet in the state that waits for one. A wrong identifier queues the number of the disconnecting state. */
  function Received(v: Vars, state: nat, kind: Kind): Reaction<Vars> {
    var wrong := Does(Erring(v, ERROR_INCORRECT_MESSAGE, state), Post(DISCONNECTING));
    match state
    case 3 => if kind.Connack? then Does(v, Go(SEND_SUBSCRIBE)) else Does(v, Post(EVENT_RECEIVE_CONNACK))
    case 5 =>
      if !kind.Suback? then Does(v, Post(EVENT_RECEIVE_SUBACK))
      else if v.receivedId == v.messageId then Does(v, Go(CONNECTED)) else wrong
    case 8 =>
      if kind.Published? then Does(v, Go(CONNECTED))
      else if kind.Puback? || kind.Pubcomp? then Does(v, Go(RECEIVE_PUBLISH))
      else if kind.Pubrec? then Does(v, Go(SEND_PUBREL))
      else Does(v, Post(EVENT_RECEIVE_PUBLISH))
    case 9 =>
      if !kind.Puback? then Does(v, Post(EVENT_RECEIVE_PUBACK))
      else if v.receivedId == v.messageId then Does(v, Go(CONNECTED)) else wrong
    case 10 =>
      if !kind.Pubrec? then Does(v, Post(EVENT_RECEIVE_PUBACK))
      else if v.receivedId == v.messageId then Does(v, Go(SEND_PUBREL)) else wrong
    case 12 =>
      if !kind.Pubcomp? then Does(v, Post(EVENT_RECEIVE_PUBCOMP))
      else if v.receivedId == v.messageId then Does(v, Go(CONNECTED)) else wrong
    case _ =>
      if kind.Pingresp? then Does(v, Go(CONNECTED)) else Does(Erring(v, ERROR_RECEIVING, state), Go(DISCONNECTED))
  }

  // ---- machine ----

  const PARENT: seq<int> := [ROOT, ROOT, CONNECTING, CONNECTING, CONNECTING, CONNECTING, ROOT, CONNECTED, CONNECTED, CONNECTED, CONNECTED,
                             CONNECTED, CONNECTED, CONNECTED, PING, PING, ROOT]
  const RANK: seq<nat> := [0, 0, 0, 0, 0, 0, 0, 0, 0, 0, 0, 0, 0, 0, 0, 0, 0]

  function Mqtt(): Machine<Vars, Answer> {
    Machine(PARENT, RANK, Handler)
  }

  type State = Config<Vars>

  // ---- leaving and entering ----

  /** The states whose leaving clears the queue, s or below it. */
  predicate Clears(current: seq<int>, s: int)
    requires Structured(Mqtt(), current) && IsState(Mqtt(), s)
    decreases |PARENT| - s
  {
    s == DISCONNECTING || (current[s + 1] != NO_STATE && Clears(current, current[s + 1]))
  }

  lemma HandlerLeaves(v: Vars, s: nat, a: Answer)
    requires s < |PARENT|
    ensures Handler(v, s, LEAVING, a) == Reaction(v, false, if s == DISCONNECTING then [ClearQueue] else [])
  {
  }

  function Cleared(queue: seq<nat>, clears: bool): seq<nat> {
    if clears then [] else queue
  }

  lemma OfferLeaving(env: nat -> Answer, c: State, s: nat)
    requires Structured(Mqtt(), c.current) && s < |PARENT|
    ensures var r := Offer(Mqtt(), env, c, s, LEAVING, 0);
            r == (c.(queue := Cleared(c.queue, s == DISCONNECTING), log := r.0.log), false)
  {
    hide Structured, Handler, Offer;
    HandlerLeaves(c.vars, s, env(|c.log|));
    if s == DISCONNECTING {
      Offer1(Mqtt(), env, c, s, LEAVING, ClearQueue, 0);
    } else {
      Offer0(Mqtt(), env, c, s, LEAVING, 0);
    }
  }

  lemma {:induction false} LeavingTells(env: nat -> Answer, c: State, s: int)
    requires Structured(Mqtt(), c.current) && 0 <= s < |PARENT|
    ensures var r := Dispatch(Mqtt(), env, c, s, LEAVING, 0);
            r == (c.(queue := Cleared(c.queue, Clears(c.current, s)), log := r.0.log), false)
    decreases |PARENT| - s
  {
    hide Handler, Offer;
    var k := c.current[s + 1];
    if k == NO_STATE {
      OfferLeaving(env, c, s);
    } else {
      LeavingTells(env, c, k);
      OfferLeaving(env, Dispatch(Mqtt(), env, c, k, LEAVING, 0).0, s);
    }
  }

  /** The configuration in which t is entered. */
  function Entering(c: State, t: nat, log: seq<Notice>): State
    requires Structured(Mqtt(), c.current) && t < |PARENT|
  {
    var p := PARENT[t];
    var clears := c.current[p + 1] != NO_STATE && Clears(c.current, c.current[p + 1]);
    Config(c.current[p + 1 := t], Cleared(c.queue, clears), c.vars, log, c.fault || !Active(Mqtt(), c.current, p))
  }

  lemma LeavingIs(env: nat -> Answer, c: State, t: nat)
    requires Structured(Mqtt(), c.current) && t < |PARENT|
    ensures Structured(Mqtt(), Left(Mqtt(), env, c, PARENT[t]).current)
    ensures var left := Left(Mqtt(), env, c, PARENT[t]);
            Moved(Mqtt(), left, t) == Entering(c, t, left.log)
  {
    hide Dispatch, Active, Clears;
    var p := PARENT[t];
    ChildOrNone(Mqtt(), c.current, p);
    if c.current[p + 1] != NO_STATE {
      LeavingTells(env, c, c.current[p + 1]);
    }
  }

  lemma EnteringKeeps(c: State, t: nat, log: seq<Notice>)
    requires Structured(Mqtt(), c.current) && t < |PARENT|
    ensures var e := Entering(c, t, log); Structured(Mqtt(), e.current) && e.vars == c.vars && e.log == log
    ensures forall log' :: Entering(c, t, log').(log := log) == Entering(c, t, log)
  {
    hide Active, Clears;
  }

  /** One of the answers of the environment. */
  ghost predicate Given(env: nat -> Answer, x: Answer) {
    exists n :: x == env(n)
  }

  lemma Arrives(env: nat -> Answer, c: State, t: nat) returns (x: Answer)
    requires Structured(Mqtt(), c.current) && t < |PARENT|
    ensures var r, h := Arriving(Mqtt(), env, c, t), Handler(c.vars, t, ENTERING, x);
            && Structured(Mqtt(), r.current)
            && r == Entering(c, t, r.log).(vars := h.vars)
            && Entry(Mqtt(), env, c, t) == h.actions
    ensures Given(env, x)
  {
    hide Handler, Left, Entering, Structured;
    LeavingIs(env, c, t);
    var left := Left(Mqtt(), env, c, PARENT[t]);
    EnteringKeeps(c, t, left.log);
    EnteringKeeps(c, t, Arriving(Mqtt(), env, c, t).log);
    x := env(|Moved(Mqtt(), left, t).log|);
  }

  lemma Leaf(c: State, t: nat)
    requires Structured(Mqtt(), c.current) && t < |PARENT| && t != CONNECTING && t != CONNECTED && t != PING
    ensures c.current[t + 1] == NO_STATE
  {
    ChildOrNone(Mqtt(), c.current, t);
  }

  lemma PostingHandler(v: Vars, t: nat, a: Answer)
    requires t in POSTING
    ensures Handler(v, t, ENTERING, a) == Does(EntryVars(v, t, a), Post(AwaitEvent(t)))
  {
    hide EntryVars, AwaitEvent;
  }

  lemma ToPosting(env: nat -> Answer, c: State, t: nat, bound: nat) returns (x: Answer)
    requires Structured(Mqtt(), c.current) && t in POSTING && bound > 0
    ensures var r := Transitioned(Mqtt(), env, c, t, bound);
            var e := Entering(c, t, r.log);
            r == e.(vars := EntryVars(c.vars, t, x), queue := Posted(e.queue, AwaitEvent(t)))
    ensures Given(env, x)
  {
    hide Given, Handler, Transitioned, EnterChildren, Posted, Structured, Entering, Arriving, Entry, EntryVars, AwaitEvent;
    x := Arrives(env, c, t);
    var a := Arriving(Mqtt(), env, c, t);
    PostingHandler(c.vars, t, x);
    Enter1(Mqtt(), env, c, t, Post(AwaitEvent(t)), bound);
    Leaf(a, t);
    NoChildren(Mqtt(), env, a.(queue := Posted(a.queue, AwaitEvent(t))), t, 0);
    EnteringKeeps(c, t, a.log);
  }

  lemma ToDisconnected(env: nat -> Answer, c: State, bound: nat)
    requires Structured(Mqtt(), c.current) && bound > 0
    ensures var r := Transitioned(Mqtt(), env, c, DISCONNECTED, bound);
            r == Entering(c, DISCONNECTED, r.log).(queue := [])
  {
    hide Transitioned, EnterChildren, Structured, Entering, Arriving, Entry;
    var x := Arrives(env, c, DISCONNECTED);
    var a := Arriving(Mqtt(), env, c, DISCONNECTED);
    Enter1(Mqtt(), env, c, DISCONNECTED, ClearQueue, bound);
    Leaf(a, DISCONNECTED);
    NoChildren(Mqtt(), env, a.(queue := []), DISCONNECTED, 0);
    EnteringKeeps(c, DISCONNECTED, a.log);
  }

  lemma ToConnected(env: nat -> Answer, c: State, bound: nat)
    requires Structured(Mqtt(), c.current) && bound > 0
    ensures |c.current| == 18
    ensures var r := Transitioned(Mqtt(), env, c, CONNECTED, bound);
            var e := Entering(c, CONNECTED, r.log);
            r == e.(current := e.current[CONNECTED + 1 := NO_STATE])
  {
    hide Transitioned, Acted, EnterChildren, Entering, Arriving, Entry;
    var x := Arrives(env, c, CONNECTED);
    var a := Arriving(Mqtt(), env, c, CONNECTED);
    EnterAndChoose(Mqtt(), env, c, CONNECTED, NO_STATE, bound);
    NoChildren(Mqtt(), env, a.(current := a.current[CONNECTED + 1 := NO_STATE]), CONNECTED, 0);
    EnteringKeeps(c, CONNECTED, a.log);
  }

  /** The child that the connecting and the ping state enter. */
  function FirstChild(t: nat): nat {
    if t == CONNECTING then SEND_CONNECT else SEND_PINGREQ
  }

  lemma ToGroup(env: nat -> Answer, c: State, t: nat, bound: nat) returns (x: Answer)
    requires Structured(Mqtt(), c.current) && bound > 0 && (t == CONNECTING || t == PING)
    ensures |c.current| == 18
    ensures var r := Transitioned(Mqtt(), env, c, t, bound);
            var e, k := Entering(c, t, r.log), FirstChild(t);
            r == e.(vars := EntryVars(c.vars, k, x), current := e.current[t + 1 := k], queue := Posted(e.queue, EVENT_PROCESS))
  {
    hide Transitioned, Acted, EnterChildren, Entering, Arriving, Entry, EntryVars, Posted;
    var _ := Arrives(env, c, t);
    var a, k := Arriving(Mqtt(), env, c, t), FirstChild(t);
    EnterAndChoose(Mqtt(), env, c, t, k, bound);
    EnteringKeeps(c, t, a.log);
    x := EntersChild(env, a.(current := a.current[t + 1 := k]), t);
    EnteringKeeps(c, t, Transitioned(Mqtt(), env, c, t, bound).log);
  }

  lemma EntersChild(env: nat -> Answer, c: State, t: nat) returns (x: Answer)
    requires Structured(Mqtt(), c.current) && (t == CONNECTING || t == PING) && |c.current| == 18 && c.current[t + 1] == FirstChild(t)
    ensures var r, k := EnterChildren(Mqtt(), env, c, t, 0), FirstChild(t);
            r == c.(vars := EntryVars(c.vars, k, x), queue := Posted(c.queue, EVENT_PROCESS), log := r.log)
  {
    hide Handler, Offer, Posted, EntryVars;
    var k := FirstChild(t);
    x := env(|c.log|);
    PostingHandler(c.vars, k, x);
    Offer1(Mqtt(), env, c, k, ENTERING, Post(EVENT_PROCESS), 0);
    var r := Offer(Mqtt(), env, c, k, ENTERING, 0).0;
    Leaf(r, k);
    NoChildren(Mqtt(), env, r, k, 0);
  }

  // ---- the session as its messages tell it ----

  datatype Phase = Closed | Greeting | Accepted | Subscribing(id: nat) | Open

  /** What a reader of the messages knows: whether all were in order, the phase of the session, the readings of the last
      publication, and the number reported at the end of the last one. */
  datatype Watch = Watch(ok: bool, phase: Phase, published: nat, reported: nat)

  function Watched(messages: seq<Message>): Watch {
    if messages == [] then Watch(true, Closed, 0, 0)
    else Next(Watched(messages[..|messages| - 1]), messages[|messages| - 1])
  }

  function Next(w: Watch, message: Message): Watch {
    match message
    case Connect => w.(phase := Greeting)
    case Subscribe(id) => w.(ok := w.ok && w.phase == Accepted, phase := Subscribing(id))
    case Publish(readings) => w.(ok := w.ok && w.phase == Open, published := readings)
    case Pubrel => w.(ok := w.ok && w.phase == Open)
    case Pingreq => w.(ok := w.ok && w.phase == Open)
    case Disconnect => w.(phase := Closed)
    case Got(kind, id) =>
      if kind.Connack? && w.phase == Greeting then w.(phase := Accepted)
      else if kind.Suback? && w.phase == Subscribing(id) then w.(phase := Open)
      else w
    case PublishEnded(ok) => w.(reported := if ok then w.published else 0)
  }

  /** What the sender of readings reads as sent, and what anybody reads as the error, is what happened. */
  predicate Reports(v: Vars) {
    var w := Watched(v.messages);
    w.published == v.serialized && w.reported == v.sent && TellsLast(v.failures, v.error)
  }

  /** The failures that the states can have. */
  predicate Possible(f: Failure) {
    || (f.kind == ERROR_PARAMETERS_MISSING && f.state == DISCONNECTED)
    || (f.kind == ERROR_SENDING && f.state in {SEND_CONNECT, SEND_SUBSCRIBE, PUBLISH, SEND_PUBREL, SEND_PINGREQ, DISCONNECTING})
    || (f.kind == ERROR_RECEIVING
        && f.state in {RECEIVE_CONNACK, RECEIVE_SUBACK, RECEIVE_PUBLISH, RECEIVE_PUBACK, RECEIVE_PUBREC, RECEIVE_PUBCOMP, RECEIVE_PINGRESP})
    || (f.kind == ERROR_INCORRECT_MESSAGE && f.state in {RECEIVE_SUBACK, RECEIVE_PUBACK, RECEIVE_PUBREC, RECEIVE_PUBCOMP})
  }

  predicate TellsLast(failures: seq<Failure>, error: nat) {
    if failures == [] then error == 0
    else Possible(failures[|failures| - 1]) && error == Code(failures[|failures| - 1].kind, failures[|failures| - 1].state)
  }

  lemma WatchNext(v: Vars, message: Message)
    ensures Watched(Say(v, message).messages) == Next(Watched(v.messages), message)
  {
    assert (v.messages + [message])[..|v.messages|] == v.messages;
  }

  // ---- the queue ----

  predicate IsRequest(event: nat) {
    event == EVENT_DISCONNECT || NeedsConnection(event)
  }

  /** With `strict` one request may wait while a connection is set up or taken down; otherwise at most one event is queued. */
  predicate QueueAgrees(strict: bool, current: seq<int>, queue: seq<nat>)
    requires |current| == 18
  {
    && (forall e :: e in queue ==> e <= DISCONNECTING)
    && (strict ==> |queue| <= 2)
    && (strict && |queue| == 2 ==>
          current[0] in {CONNECTING, DISCONNECTING} && IsRequest(queue[0]) != IsRequest(queue[1]))
  }

  lemma PostedIs(queue: seq<nat>, e: nat)
    ensures |queue| < QUEUE_SIZE ==> Posted(queue, e) == queue + [e]
    ensures forall x :: x in Posted(queue, e) ==> x in queue || x == e
  {
    PostedMembers(queue, e);
  }

  // ---- what every step keeps ----

  predicate AtRest(current: seq<int>)
    requires |current| == 18
  {
    && current[0] in {DISCONNECTED, CONNECTING, CONNECTED, DISCONNECTING}
    && (current[0] == CONNECTING ==> current[CONNECTING + 1] in {SEND_CONNECT, RECEIVE_CONNACK, SEND_SUBSCRIBE, RECEIVE_SUBACK})
    && (current[0] == CONNECTED && current[CONNECTED + 1] == PING ==> current[PING + 1] in {SEND_PINGREQ, RECEIVE_PINGRESP})
  }

  /** The phase a state needs. */
  predicate PhaseAgrees(v: Vars, current: seq<int>)
    requires |current| == 18
  {
    var w, k := Watched(v.messages), current[CONNECTING + 1];
    && w.ok && Reports(v)
    && (current[0] == CONNECTING && k in {SEND_CONNECT, RECEIVE_CONNACK} ==> w.phase == Greeting)
    && (current[0] == CONNECTING && k in {SEND_SUBSCRIBE, RECEIVE_SUBACK} ==> w.phase == Subscribing(v.messageId))
    && (current[0] == CONNECTED ==> w.phase == Open)
  }

  ghost predicate Good(strict: bool, c: State) {
    && Structured(Mqtt(), c.current) && |c.current| == 18
    && !c.fault && AtRest(c.current) && PhaseAgrees(c.vars, c.current) && QueueAgrees(strict, c.current, c.queue)
  }

  /** c with the event, just taken off its queue, put back. */
  function With(c: State, event: nat): State {
    c.(queue := [event] + c.queue)
  }

  ghost predicate Keeps(strict: bool, c: State, r: (State, bool)) {
    Good(strict, r.0) && (r.1 || r.0 == c.(log := r.0.log))
  }

  /** What a transition to t or an event e comes to, from variables v: the connected state without a child, the disconnected state
      without a queue, the connecting and the ping state with their first packet, any other state with its packet prepared and
      its event queued. */
  ghost predicate Enters(c: State, r: (State, bool), v: Vars, t: nat)
    requires |c.current| == 18
  {
    r.1 &&
    match t
    case 0 => r.0 == c.(vars := v, current := c.current[0 := DISCONNECTED], queue := [], log := r.0.log)
    case 1 =>
      r.0 == c.(vars := Say(v, Connect), current := c.current[0 := CONNECTING][CONNECTING + 1 := SEND_CONNECT],
                queue := Posted(c.queue, EVENT_PROCESS), log := r.0.log)
    case 6 => r.0 == c.(vars := v, current := c.current[0 := CONNECTED][CONNECTED + 1 := NO_STATE], log := r.0.log)
    case 13 =>
      r.0 == c.(vars := Say(v, Pingreq), current := c.current[CONNECTED + 1 := PING][PING + 1 := SEND_PINGREQ],
                queue := Posted(c.queue, EVENT_PROCESS), log := r.0.log)
    case _ => t in POSTING && exists x :: IsEntered(c, r.0, v, t, x)
  }

  predicate IsEntered(c: State, r: State, v: Vars, t: nat, x: Answer)
    requires |c.current| == 18 && t in POSTING
  {
    r == c.(vars := EntryVars(v, t, x), current := c.current[PARENT[t] + 1 := t], queue := Posted(c.queue, AwaitEvent(t)), log := r.log)
  }

  ghost predicate Queues(c: State, r: (State, bool), v: Vars, e: nat) {
    r == (c.(vars := v, queue := Posted(c.queue, e), log := r.0.log), true)
  }

  /** A state under t's parent, or a child of the root, may be entered from c in phase p. */
  predicate MayEnter(current: seq<int>, v: Vars, t: nat)
    requires |current| == 18
  {
    var w := Watched(v.messages);
    && w.ok && Reports(v)
    && match t
       case 3 => current[0] == CONNECTING && w.phase == Greeting
       case 4 => current[0] == CONNECTING && w.phase == Accepted
       case 5 => current[0] == CONNECTING && w.phase == Subscribing(v.messageId)
       case 15 => current[0] == CONNECTED && current[CONNECTED + 1] == PING && w.phase == Open
       case 16 => current[0] in {CONNECTING, CONNECTED}
       case _ => PUBLISH <= t <= RECEIVE_PUBCOMP && current[0] == CONNECTED && w.phase == Open
  }

  /** Nothing but the disconnecting state clears the queue when it is left. */
  lemma NothingClears(current: seq<int>, s: nat)
    requires Structured(Mqtt(), current) && s < DISCONNECTING
    ensures !Clears(current, s)
    decreases |PARENT| - s
  {
    ChildOrNone(Mqtt(), current, s);
    var k := current[s + 1];
    if k != NO_STATE {
      assert k < DISCONNECTING;
      NothingClears(current, k);
    }
  }

  /** What entering t from a state at rest changes besides the variables. */
  lemma EnterFrom(c: State, t: nat, log: seq<Notice>)
    requires Structured(Mqtt(), c.current) && |c.current| == 18 && t < |PARENT|
    requires c.current[PARENT[t] + 1] != DISCONNECTING && Active(Mqtt(), c.current, PARENT[t])
    ensures Entering(c, t, log) == c.(current := c.current[PARENT[t] + 1 := t], log := log)
  {
    var p := PARENT[t];
    ChildOrNone(Mqtt(), c.current, p);
    if c.current[p + 1] != NO_STATE {
      NothingClears(c.current, c.current[p + 1]);
    }
  }

  lemma MayEnterMeans(current: seq<int>, v: Vars, t: nat)
    requires |current| == 18 && Structured(Mqtt(), current) && AtRest(current) && MayEnter(current, v, t)
    ensures t in POSTING && t < |PARENT| && current[PARENT[t] + 1] != DISCONNECTING && Active(Mqtt(), current, PARENT[t])
    ensures current[0] in {CONNECTING, CONNECTED} && (PARENT[t] == ROOT ==> t == DISCONNECTING)
    ensures current[0] == CONNECTING ==> t in {RECEIVE_CONNACK, SEND_SUBSCRIBE, RECEIVE_SUBACK, DISCONNECTING}
  {
    hide Structured, Watched;
    ChildOrNone(Mqtt(), current, CONNECTED);
    assert current[0] == CONNECTED ==> Active(Mqtt(), current, CONNECTED);
  }

  /** The variables after entering t agree with it. */
  lemma EntryAgrees(current: seq<int>, v: Vars, t: nat, x: Answer)
    requires |current| == 18 && AtRest(current) && MayEnter(current, v, t) && t < |PARENT|
    ensures var r := current[PARENT[t] + 1 := t]; AtRest(r) && PhaseAgrees(EntryVars(v, t, x), r)
  {
    hide Watched;
    WatchNext(v, Subscribe(x.id));
    WatchNext(v, Publish(x.readings));
    WatchNext(v, Pubrel);
    WatchNext(v, Pingreq);
    WatchNext(v, Disconnect);
  }

  lemma GoesTo(strict: bool, env: nat -> Answer, c: State, s: nat, event: nat, v: Vars, t: nat, bound: nat)
    requires Good(strict, With(c, event)) && s < |PARENT| && bound > 0
    requires Handler(c.vars, s, event, env(|c.log|)) == Does(v, Go(t))
    requires MayEnter(c.current, v, t) && (c.current[0] == CONNECTING ==> event == EVENT_DONE)
    ensures Keeps(strict, c, Offer(Mqtt(), env, c, s, event, bound))
    ensures Enters(c, Offer(Mqtt(), env, c, s, event, bound), v, t)
  {
    hide Handler, Offer, Transitioned, Structured, Posted, Watched, EntryVars, MayEnter, AtRest, QueueAgrees, PhaseAgrees, AwaitEvent;
    var told := Told(Mqtt(), env, c, s, event);
    Offer1(Mqtt(), env, c, s, event, Go(t), bound);
    MayEnterMeans(c.current, v, t);
    var x := EntersPosting(env, told, t, bound);
    EntryAgrees(c.current, v, t, x);
    EntryQueue(strict, c.current, c.queue, event, t);
    assert Enters(c, Offer(Mqtt(), env, c, s, event, bound), v, t) by {
      PostingEntered(c, Offer(Mqtt(), env, c, s, event, bound), v, t, x);
    }
  }

  lemma EntersPosting(env: nat -> Answer, c: State, t: nat, bound: nat) returns (x: Answer)
    requires Structured(Mqtt(), c.current) && |c.current| == 18 && t in POSTING && bound > 0
    requires c.current[PARENT[t] + 1] != DISCONNECTING && Active(Mqtt(), c.current, PARENT[t])
    ensures var r := Transitioned(Mqtt(), env, c, t, bound); IsEntered(c, r, c.vars, t, x) && Structured(Mqtt(), r.current)
  {
    hide Transitioned, Structured, Posted, EntryVars, AwaitEvent, Active;
    x := ToPosting(env, c, t, bound);
    EnterFrom(c, t, Transitioned(Mqtt(), env, c, t, bound).log);
  }

  lemma PostingEntered(c: State, r: (State, bool), v: Vars, t: nat, x: Answer)
    requires |c.current| == 18 && t in POSTING && r.1 && IsEntered(c, r.0, v, t, x)
    ensures Enters(c, r, v, t)
  {
    hide EntryVars, AwaitEvent, Posted;
  }

  lemma EntryQueue(strict: bool, current: seq<int>, queue: seq<nat>, event: nat, t: nat)
    requires |current| == 18 && QueueAgrees(strict, current, [event] + queue) && t in POSTING
    requires current[0] == CONNECTED || (current[0] == CONNECTING && event == EVENT_DONE)
    requires PARENT[t] == ROOT ==> t == DISCONNECTING
    requires current[0] == CONNECTING ==> t in {RECEIVE_CONNACK, SEND_SUBSCRIBE, RECEIVE_SUBACK, DISCONNECTING}
    ensures QueueAgrees(strict, current[PARENT[t] + 1 := t], Posted(queue, AwaitEvent(t)))
  {
    var before := [event] + queue;
    if |queue| == 1 {
      assert before[1] == queue[0];
    }
    assert forall e :: e in queue ==> e in before;
    PostedIs(queue, AwaitEvent(t));
  }

  lemma EventTaken(strict: bool, c: State, event: nat)
    requires Good(strict, With(c, event))
    ensures Good(strict, c) && (strict ==> |c.queue| <= 1)
    ensures strict && |c.queue| == 1 ==> c.current[0] in {CONNECTING, DISCONNECTING} && IsRequest(c.queue[0]) != IsRequest(event)
    ensures forall e :: e in c.queue ==> e <= DISCONNECTING
  {
    hide Watched, Structured;
    var before := With(c, event).queue;
    assert forall e :: e in c.queue ==> e in before;
    assert |c.queue| == 1 ==> before[1] == c.queue[0];
  }

  lemma GoesToConnected(strict: bool, env: nat -> Answer, c: State, s: nat, event: nat, v: Vars, bound: nat)
    requires Good(strict, With(c, event)) && s < |PARENT| && bound > 0 && c.current[0] in {CONNECTING, CONNECTED}
    requires Handler(c.vars, s, event, env(|c.log|)) == Does(v, Go(CONNECTED))
    requires Watched(v.messages).ok && Watched(v.messages).phase == Open && Reports(v)
    ensures Keeps(strict, c, Offer(Mqtt(), env, c, s, event, bound))
    ensures Enters(c, Offer(Mqtt(), env, c, s, event, bound), v, CONNECTED)
  {
    hide Handler, Offer, Transitioned, Watched, AtRest;
    EventTaken(strict, c, event);
    var told := Told(Mqtt(), env, c, s, event);
    Offer1(Mqtt(), env, c, s, event, Go(CONNECTED), bound);
    ToConnected(env, told, bound);
    EnterFrom(told, CONNECTED, Transitioned(Mqtt(), env, told, CONNECTED, bound).log);
    var r := Offer(Mqtt(), env, c, s, event, bound).0;
    assert AtRest(r.current) && QueueAgrees(strict, r.current, r.queue) by {
      ConnectedAgrees(strict, c.current, c.queue);
    }
  }

  lemma ConnectedAgrees(strict: bool, current: seq<int>, queue: seq<nat>)
    requires |current| == 18 && (strict ==> |queue| <= 1) && forall e :: e in queue ==> e <= DISCONNECTING
    ensures var r := current[0 := CONNECTED][CONNECTED + 1 := NO_STATE]; AtRest(r) && QueueAgrees(strict, r, queue)
  {
  }

  lemma GoesToDisconnected(strict: bool, env: nat -> Answer, c: State, s: nat, event: nat, v: Vars, bound: nat)
    requires Good(strict, With(c, event)) && s < |PARENT| && bound > 0
    requires Handler(c.vars, s, event, env(|c.log|)) == Does(v, Go(DISCONNECTED))
    requires Watched(v.messages).ok && Reports(v)
    ensures Keeps(strict, c, Offer(Mqtt(), env, c, s, event, bound))
    ensures Enters(c, Offer(Mqtt(), env, c, s, event, bound), v, DISCONNECTED)
  {
    hide Handler, Offer, Transitioned, Structured, Watched, Clears;
    var told := Told(Mqtt(), env, c, s, event);
    Offer1(Mqtt(), env, c, s, event, Go(DISCONNECTED), bound);
    ToDisconnected(env, told, bound);
  }

  lemma GoesToPing(strict: bool, env: nat -> Answer, c: State, s: nat, event: nat, v: Vars, bound: nat)
    requires Good(strict, With(c, event)) && s < |PARENT| && bound > 0
    requires c.current[0] == CONNECTED && c.current[CONNECTED + 1] == s
    requires Handler(c.vars, s, event, env(|c.log|)) == Does(v, Go(PING))
    requires Watched(v.messages).ok && Watched(v.messages).phase == Open && Reports(v)
    ensures Keeps(strict, c, Offer(Mqtt(), env, c, s, event, bound))
    ensures Enters(c, Offer(Mqtt(), env, c, s, event, bound), v, PING)
  {
    hide Handler, Offer, Transitioned, Structured, Posted, Watched, AtRest;
    EventTaken(strict, c, event);
    var told := Told(Mqtt(), env, c, s, event);
    Offer1(Mqtt(), env, c, s, event, Go(PING), bound);
    ChildOrNone(Mqtt(), c.current, CONNECTED);
    assert Active(Mqtt(), c.current, CONNECTED);
    var x := ToGroup(env, told, PING, bound);
    var r := Transitioned(Mqtt(), env, told, PING, bound);
    EnterFrom(told, PING, r.log);
    WatchNext(v, Pingreq);
    PostedIs(c.queue, EVENT_PROCESS);
    assert AtRest(r.current) by {
      PingAtRest(c.current);
    }
  }

  lemma PingAtRest(current: seq<int>)
    requires |current| == 18 && AtRest(current) && current[0] == CONNECTED
    ensures AtRest(current[CONNECTED + 1 := PING][PING + 1 := SEND_PINGREQ])
  {
  }

  lemma GoesToConnecting(strict: bool, env: nat -> Answer, c: State, event: nat, bound: nat)
    requires Good(strict, With(c, event)) && bound > 0 && c.current[0] == DISCONNECTED && NeedsConnection(event)
    requires Handler(c.vars, DISCONNECTED, event, env(|c.log|)) == Reaction(c.vars, true, [Post(event), Go(CONNECTING)])
    ensures Keeps(strict, c, Offer(Mqtt(), env, c, DISCONNECTED, event, bound))
    ensures Enters(c.(queue := Posted(c.queue, event)), Offer(Mqtt(), env, c, DISCONNECTED, event, bound), c.vars, CONNECTING)
  {
    hide Handler, Offer, Transitioned, Structured, Posted, Watched;
    EventTaken(strict, c, event);
    var told := Told(Mqtt(), env, c, DISCONNECTED, event);
    Offer2(Mqtt(), env, c, DISCONNECTED, event, Post(event), Go(CONNECTING), bound);
    PostedIs(c.queue, event);
    var posted := told.(queue := Posted(told.queue, event));
    var x := ToGroup(env, posted, CONNECTING, bound);
    EnterFrom(posted, CONNECTING, Transitioned(Mqtt(), env, posted, CONNECTING, bound).log);
    WatchNext(c.vars, Connect);
    PostedIs(posted.queue, EVENT_PROCESS);
  }

  lemma Posts(strict: bool, env: nat -> Answer, c: State, s: int, event: nat, v: Vars, e: nat, bound: nat)
    requires Good(strict, With(c, event)) && IsState(Mqtt(), s) && e <= DISCONNECTING
    requires Handler(c.vars, s, event, env(|c.log|)) == Does(v, Post(e))
    requires PhaseAgrees(v, c.current)
    requires c.current[0] in {CONNECTING, DISCONNECTING} ==> IsRequest(e) == IsRequest(event)
    ensures Keeps(strict, c, Offer(Mqtt(), env, c, s, event, bound))
    ensures Queues(c, Offer(Mqtt(), env, c, s, event, bound), v, e)
  {
    hide Handler, Offer, Structured, Posted, Watched;
    EventTaken(strict, c, event);
    Offer1(Mqtt(), env, c, s, event, Post(e), bound);
    PostedIs(c.queue, e);
  }

  lemma Passes(strict: bool, env: nat -> Answer, c: State, s: int, event: nat, bound: nat)
    requires Good(strict, With(c, event)) && IsState(Mqtt(), s)
    requires var r := Handler(c.vars, s, event, env(|c.log|));
             r.actions == [] && PhaseAgrees(r.vars, c.current) && (!r.consumed ==> r.vars == c.vars)
    ensures Keeps(strict, c, Offer(Mqtt(), env, c, s, event, bound))
    ensures var r, h := Offer(Mqtt(), env, c, s, event, bound), Handler(c.vars, s, event, env(|c.log|));
            r == (c.(vars := h.vars, log := r.0.log), h.consumed)
  {
    hide Handler, Offer, Structured, Watched;
    EventTaken(strict, c, event);
    Offer0(Mqtt(), env, c, s, event, bound);
  }

  // ---- the states at rest ----

  lemma DisconnectedOffer(strict: bool, env: nat -> Answer, c: State, event: nat, bound: nat)
    requires Good(strict, With(c, event)) && bound > 0 && event <= DISCONNECTING && c.current[0] == DISCONNECTED
    ensures Keeps(strict, c, Offer(Mqtt(), env, c, DISCONNECTED, event, bound))
    ensures var r, x := Offer(Mqtt(), env, c, DISCONNECTED, event, bound), env(|c.log|);
            NeedsConnection(event) ==>
              if x.parametersSet then Enters(c.(queue := Posted(c.queue, event)), r, c.vars, CONNECTING)
              else r == (c.(vars := Erring(c.vars, ERROR_PARAMETERS_MISSING, DISCONNECTED), log := r.0.log), true)
  {
    hide Offer, Structured, Watched, QueueAgrees, AtRest, Keeps;
    var x := env(|c.log|);
    assert Handler(c.vars, DISCONNECTED, event, x) == Disconnected(c.vars, event, x);
    if NeedsConnection(event) && x.parametersSet {
      GoesToConnecting(strict, env, c, event, bound);
    } else {
      Passes(strict, env, c, DISCONNECTED, event, bound);
    }
  }

  lemma ConnectingOffer(strict: bool, env: nat -> Answer, c: State, event: nat, bound: nat)
    requires Good(strict, With(c, event)) && bound > 0 && event <= DISCONNECTING && c.current[0] == CONNECTING
    ensures Keeps(strict, c, Offer(Mqtt(), env, c, CONNECTING, event, bound))
    ensures NeedsConnection(event) ==> Queues(c, Offer(Mqtt(), env, c, CONNECTING, event, bound), c.vars, event)
  {
    hide Offer, Structured, Watched, QueueAgrees, AtRest, Keeps;
    assert Handler(c.vars, CONNECTING, event, env(|c.log|)) == Connecting(c.vars, event);
    if NeedsConnection(event) {
      Posts(strict, env, c, CONNECTING, event, c.vars, event, bound);
    } else {
      Passes(strict, env, c, CONNECTING, event, bound);
    }
  }

  /** The state that serves a request once connected. */
  function ServedIn(event: nat): nat {
    match event
    case 0 => DISCONNECTING
    case 1 => PUBLISH
    case 4 => RECEIVE_PUBLISH
    case 5 => RECEIVE_PUBACK
    case 6 => RECEIVE_PUBREC
    case _ => RECEIVE_PUBCOMP
  }

  lemma ConnectedOffer(strict: bool, env: nat -> Answer, c: State, event: nat, bound: nat)
    requires Good(strict, With(c, event)) && bound > 0 && event <= DISCONNECTING && c.current[0] == CONNECTED
    ensures Keeps(strict, c, Offer(Mqtt(), env, c, CONNECTED, event, bound))
    ensures var r := Offer(Mqtt(), env, c, CONNECTED, event, bound);
            IsRequest(event) ==> Enters(c, r, c.vars, ServedIn(event))
  {
    hide Offer, Structured, Watched, QueueAgrees, AtRest, Keeps;
    var h := Handler(c.vars, CONNECTED, event, env(|c.log|));
    assert h == Connected(c.vars, event);
    if h.actions != [] {
      GoesTo(strict, env, c, CONNECTED, event, c.vars, h.actions[0].target, bound);
    } else {
      Passes(strict, env, c, CONNECTED, event, bound);
    }
  }

  /** Between the end of a communication and the reaction to it only the phase may have changed. */
  lemma ParsedWatch(v: Vars, a: Answer)
    ensures Watched(Parsed(v, a).messages) == Next(Watched(v.messages), Got(a.kind, Parsed(v, a).receivedId))
    ensures Parsed(v, a).messageId == v.messageId && (Reports(v) ==> Reports(Parsed(v, a)))
  {
    WatchNext(v, Got(a.kind, Parsed(v, a).receivedId));
  }

  predicate ActiveLeaf(current: seq<int>, s: nat)
    requires |current| == 18
  {
    match s
    case 16 => current[0] == DISCONNECTING
    case 14 => current[0] == CONNECTED && current[CONNECTED + 1] == PING && current[PING + 1] == s
    case 15 => current[0] == CONNECTED && current[CONNECTED + 1] == PING && current[PING + 1] == s
    case _ =>
      if s <= RECEIVE_SUBACK then current[0] == CONNECTING && current[CONNECTING + 1] == s
      else current[0] == CONNECTED && current[CONNECTED + 1] == s
  }

  /** The state after a packet was sent. */
  function AfterSending(s: nat): nat {
    match s
    case 2 => RECEIVE_CONNACK
    case 4 => RECEIVE_SUBACK
    case 7 => CONNECTED
    case 11 => RECEIVE_PUBLISH
    case 14 => RECEIVE_PINGRESP
    case _ => DISCONNECTED
  }

  lemma SentOffer(strict: bool, env: nat -> Answer, c: State, s: nat, bound: nat)
    requires Good(strict, With(c, EVENT_DONE)) && bound > 0 && s in POSTING && AwaitEvent(s) == EVENT_PROCESS && ActiveLeaf(c.current, s)
    ensures Keeps(strict, c, Offer(Mqtt(), env, c, s, EVENT_DONE, bound))
    ensures var r, a := Offer(Mqtt(), env, c, s, EVENT_DONE, bound), env(|c.log|);
            var v := if s == PUBLISH then Ended(c.vars, a.ok) else c.vars;
            if a.ok then Enters(c, r, v, AfterSending(s)) else Enters(c, r, Erring(v, ERROR_SENDING, s), DISCONNECTED)
  {
    hide Offer, Structured, Watched, QueueAgrees, AtRest, Keeps, Handler;
    var a := env(|c.log|);
    PostingRoute(c.vars, s, EVENT_DONE, a);
    WatchNext(c.vars, PublishEnded(a.ok));
    var h := Sent(c.vars, s, a);
    var t := h.actions[0].target;
    if t == DISCONNECTED {
      GoesToDisconnected(strict, env, c, s, EVENT_DONE, h.vars, bound);
    } else if t == CONNECTED {
      GoesToConnected(strict, env, c, s, EVENT_DONE, h.vars, bound);
    } else {
      GoesTo(strict, env, c, s, EVENT_DONE, h.vars, t, bound);
    }
  }

  lemma PostingRoute(v: Vars, s: nat, event: nat, a: Answer)
    requires s in POSTING && event <= DISCONNECTING
    ensures event == EVENT_DONE ==>
              Handler(v, s, event, a)
              == if AwaitEvent(s) == EVENT_PROCESS then Sent(v, s, a)
                 else if !a.ok then Does(Erring(v, ERROR_RECEIVING, s), Go(DISCONNECTED))
                 else if a.complete then Received(Parsed(v, a), s, a.kind)
                 else Incomplete(v, s)
    ensures event != EVENT_DONE ==>
              Handler(v, s, event, a)
              == if event == AwaitEvent(s) != EVENT_PROCESS then Does(v, Post(EVENT_PROCESS)) else Quiet(v, false)
  {
    hide Sent, Erring, Received, Parsed, Incomplete, AwaitEvent;
  }

  /** No packet came: a publication waited for leads to a ping, an acknowledgement that begins or probes the session to its loss,
      and any other acknowledgement to its end. */
  ghost predicate AfterNothing(c: State, r: (State, bool), s: nat)
    requires |c.current| == 18
  {
    if s == RECEIVE_PUBLISH then Enters(c, r, c.vars, PING)
    else Enters(c, r, Erring(c.vars, ERROR_RECEIVING, s),
                if s == RECEIVE_CONNACK || s == RECEIVE_PINGRESP then DISCONNECTED else DISCONNECTING)
  }

  /** The kind of packet waited for in a state. */
  predicate Awaited(s: nat, kind: Kind) {
    match s
    case 3 => kind.Connack?
    case 5 => kind.Suback?
    case 8 => kind.Published? || kind.Puback? || kind.Pubcomp? || kind.Pubrec?
    case 9 => kind.Puback?
    case 10 => kind.Pubrec?
    case 12 => kind.Pubcomp?
    case _ => kind.Pingresp?
  }

  /** A packet came: one not waited for is waited past, but ends the session when it comes instead of a ping response; the right
      one goes on; and the acknowledgement of something else queues the number of the disconnecting state. */
  ghost predicate AfterPacket(c: State, r: (State, bool), v: Vars, s: nat, kind: Kind)
    requires |c.current| == 18
  {
    if !Awaited(s, kind) then
      if s == RECEIVE_PINGRESP then Enters(c, r, Erring(v, ERROR_RECEIVING, s), DISCONNECTED)
      else Queues(c, r, v, if s == RECEIVE_PUBREC then EVENT_RECEIVE_PUBACK else AwaitEvent(s))
    else if Identified(s) && v.receivedId != v.messageId then Queues(c, r, Erring(v, ERROR_INCORRECT_MESSAGE, s), DISCONNECTING)
    else Enters(c, r, v, AfterAwaited(s, kind))
  }

  /** The states that compare identifiers. */
  predicate Identified(s: nat) {
    s in {RECEIVE_SUBACK, RECEIVE_PUBACK, RECEIVE_PUBREC, RECEIVE_PUBCOMP}
  }

  /** The state after the right packet. */
  function AfterAwaited(s: nat, kind: Kind): nat {
    if s == RECEIVE_CONNACK then SEND_SUBSCRIBE
    else if s == RECEIVE_PUBREC || kind.Pubrec? then SEND_PUBREL
    else if s == RECEIVE_PUBLISH && !kind.Published? then RECEIVE_PUBLISH
    else CONNECTED
  }

  lemma ReceivedOffer(strict: bool, env: nat -> Answer, c: State, s: nat, bound: nat)
    requires Good(strict, With(c, EVENT_DONE)) && bound > 0 && s in POSTING && AwaitEvent(s) != EVENT_PROCESS && ActiveLeaf(c.current, s)
    ensures Keeps(strict, c, Offer(Mqtt(), env, c, s, EVENT_DONE, bound))
    ensures var r, a := Offer(Mqtt(), env, c, s, EVENT_DONE, bound), env(|c.log|);
            && (!a.ok ==> Enters(c, r, Erring(c.vars, ERROR_RECEIVING, s), DISCONNECTED))
            && (a.ok && !a.complete ==> AfterNothing(c, r, s))
            && (a.ok && a.complete ==> AfterPacket(c, r, Parsed(c.vars, a), s, a.kind))
  {
    hide Offer, Structured, Watched, QueueAgrees, AtRest, Keeps, Handler, Received, Parsed, Incomplete;
    var a := env(|c.log|);
    PostingRoute(c.vars, s, EVENT_DONE, a);
    if !a.ok {
      GoesToDisconnected(strict, env, c, s, EVENT_DONE, Erring(c.vars, ERROR_RECEIVING, s), bound);
    } else if a.complete {
      ParsedWatch(c.vars, a);
      CompleteOffer(strict, env, c, s, Parsed(c.vars, a), a.kind, bound);
    } else {
      IncompleteOffer(strict, env, c, s, bound);
    }
  }

  lemma IncompleteOffer(strict: bool, env: nat -> Answer, c: State, s: nat, bound: nat)
    requires Good(strict, With(c, EVENT_DONE)) && bound > 0 && s in POSTING && AwaitEvent(s) != EVENT_PROCESS && ActiveLeaf(c.current, s)
    requires Handler(c.vars, s, EVENT_DONE, env(|c.log|)) == Incomplete(c.vars, s)
    ensures Keeps(strict, c, Offer(Mqtt(), env, c, s, EVENT_DONE, bound))
    ensures AfterNothing(c, Offer(Mqtt(), env, c, s, EVENT_DONE, bound), s)
  {
    hide Offer, Structured, Watched, QueueAgrees, AtRest, Keeps, Handler;
    var h := Incomplete(c.vars, s);
    var t := h.actions[0].target;
    if t == DISCONNECTED {
      GoesToDisconnected(strict, env, c, s, EVENT_DONE, h.vars, bound);
    } else if t == PING {
      GoesToPing(strict, env, c, s, EVENT_DONE, h.vars, bound);
    } else {
      GoesTo(strict, env, c, s, EVENT_DONE, h.vars, t, bound);
    }
  }

  lemma CompleteOffer(strict: bool, env: nat -> Answer, c: State, s: nat, v: Vars, kind: Kind, bound: nat)
    requires Good(strict, With(c, EVENT_DONE)) && bound > 0 && s in POSTING && AwaitEvent(s) != EVENT_PROCESS && ActiveLeaf(c.current, s)
    requires Handler(c.vars, s, EVENT_DONE, env(|c.log|)) == Received(v, s, kind)
    requires v.messageId == c.vars.messageId && Reports(v) && Watched(v.messages) == Next(Watched(c.vars.messages), Got(kind, v.receivedId))
    ensures Keeps(strict, c, Offer(Mqtt(), env, c, s, EVENT_DONE, bound))
    ensures AfterPacket(c, Offer(Mqtt(), env, c, s, EVENT_DONE, bound), v, s, kind)
  {
    hide Offer, Structured, Watched, QueueAgrees, AtRest, Keeps, Handler, MayEnter, PhaseAgrees, Reports, Received;
    var h := Received(v, s, kind);
    ReceivedAgrees(c, v, s, kind);
    ReceivedMeans(v, s, kind);
    if h.actions[0].Post? {
      Posts(strict, env, c, s, EVENT_DONE, h.vars, h.actions[0].event, bound);
    } else {
      var t := h.actions[0].target;
      if t == DISCONNECTED {
        GoesToDisconnected(strict, env, c, s, EVENT_DONE, h.vars, bound);
      } else if t == CONNECTED {
        GoesToConnected(strict, env, c, s, EVENT_DONE, h.vars, bound);
      } else {
        GoesTo(strict, env, c, s, EVENT_DONE, h.vars, t, bound);
      }
    }
  }

  lemma ReceivedMeans(v: Vars, s: nat, kind: Kind)
    requires s in POSTING && AwaitEvent(s) != EVENT_PROCESS
    ensures Received(v, s, kind)
            == if !Awaited(s, kind) then
                 if s == RECEIVE_PINGRESP then Does(Erring(v, ERROR_RECEIVING, s), Go(DISCONNECTED))
                 else Does(v, Post(if s == RECEIVE_PUBREC then EVENT_RECEIVE_PUBACK else AwaitEvent(s)))
               else if Identified(s) && v.receivedId != v.messageId then Does(Erring(v, ERROR_INCORRECT_MESSAGE, s), Post(DISCONNECTING))
               else Does(v, Go(AfterAwaited(s, kind)))
  {
  }

  /** What a packet leads to agrees with the phase. */
  lemma ReceivedAgrees(c: State, v: Vars, s: nat, kind: Kind)
    requires |c.current| == 18 && AtRest(c.current) && PhaseAgrees(c.vars, c.current)
    requires s in POSTING && AwaitEvent(s) != EVENT_PROCESS && ActiveLeaf(c.current, s)
    requires v.messageId == c.vars.messageId && Reports(v) && Watched(v.messages) == Next(Watched(c.vars.messages), Got(kind, v.receivedId))
    ensures var h := Received(v, s, kind);
            && h == Does(h.vars, h.actions[0])
            && Watched(h.vars.messages).ok && Reports(h.vars)
            && match h.actions[0] {
                 case Post(e) => e <= DISCONNECTING && PhaseAgrees(h.vars, c.current) && (IsRequest(e) ==> c.current[0] == CONNECTED)
                 case Go(t) =>
                   if t == DISCONNECTED then true
                   else if t == CONNECTED then Watched(h.vars.messages).phase == Open && c.current[0] in {CONNECTING, CONNECTED}
                   else MayEnter(c.current, h.vars, t)
                 case _ => false
               }
  {
    hide Watched;
  }

  lemma LeafOffer(strict: bool, env: nat -> Answer, c: State, s: nat, event: nat, bound: nat)
    requires Good(strict, With(c, event)) && bound > 0 && event <= DISCONNECTING && s in POSTING && ActiveLeaf(c.current, s)
    ensures Keeps(strict, c, Offer(Mqtt(), env, c, s, event, bound))
  {
    hide Offer, Structured, Watched, QueueAgrees, AtRest, Keeps, Handler;
    if event == EVENT_DONE {
      if AwaitEvent(s) == EVENT_PROCESS {
        SentOffer(strict, env, c, s, bound);
      } else {
        ReceivedOffer(strict, env, c, s, bound);
      }
    } else {
      PostingRoute(c.vars, s, event, env(|c.log|));
      if event == AwaitEvent(s) != EVENT_PROCESS {
        Posts(strict, env, c, s, event, c.vars, EVENT_PROCESS, bound);
      } else {
        Passes(strict, env, c, s, event, bound);
      }
    }
  }

  lemma RootOffer(strict: bool, env: nat -> Answer, c: State, event: nat, bound: nat)
    requires Good(strict, With(c, event)) && event <= DISCONNECTING
    ensures Keeps(strict, c, Offer(Mqtt(), env, c, ROOT, event, bound))
  {
    hide Offer, Structured, Watched, QueueAgrees, Keeps, AtRest;
    if event == EVENT_PROCESS {
      Posts(strict, env, c, ROOT, event, c.vars, if env(|c.log|).more then EVENT_PROCESS else EVENT_DONE, bound);
    } else {
      Passes(strict, env, c, ROOT, event, bound);
    }
  }

  lemma PingOffer(strict: bool, env: nat -> Answer, c: State, event: nat, bound: nat)
    requires Good(strict, With(c, event)) && event <= DISCONNECTING
    ensures Keeps(strict, c, Offer(Mqtt(), env, c, PING, event, bound))
  {
    hide Offer, Structured, Watched, QueueAgrees, Keeps, AtRest, PhaseAgrees;
    Passes(strict, env, c, PING, event, bound);
  }

  lemma ActiveMeans(strict: bool, c: State, s: int)
    requires Good(strict, c) && IsState(Mqtt(), s) && Active(Mqtt(), c.current, s)
    ensures s in {DISCONNECTED, CONNECTING, CONNECTED} ==> c.current[0] == s
    ensures s in POSTING ==> ActiveLeaf(c.current, s)
  {
    hide Structured, QueueAgrees, PhaseAgrees, AtRest;
    if s != ROOT {
      var p := PARENT[s];
      assert c.current[p + 1] == s && Active(Mqtt(), c.current, p);
      if p == PING {
        assert c.current[CONNECTED + 1] == PING && c.current[0] == CONNECTED;
      }
    }
  }

  lemma OfferKeeps(strict: bool, env: nat -> Answer, c: State, s: int, event: nat, bound: nat)
    requires Good(strict, With(c, event)) && bound > 0 && event <= DISCONNECTING && IsState(Mqtt(), s) && Active(Mqtt(), c.current, s)
    ensures Keeps(strict, c, Offer(Mqtt(), env, c, s, event, bound))
  {
    hide Offer, Structured, QueueAgrees, Keeps, PhaseAgrees, AtRest, Handler, Active, ActiveLeaf;
    ActiveMeans(strict, With(c, event), s);
    if s == ROOT { RootOffer(strict, env, c, event, bound); }
    else if s == DISCONNECTED { DisconnectedOffer(strict, env, c, event, bound); }
    else if s == CONNECTING { ConnectingOffer(strict, env, c, event, bound); }
    else if s == CONNECTED { ConnectedOffer(strict, env, c, event, bound); }
    else if s == PING { PingOffer(strict, env, c, event, bound); }
    else { LeafOffer(strict, env, c, s, event, bound); }
  }

  lemma {:induction false} DispatchKeeps(strict: bool, env: nat -> Answer, c: State, s: int, event: nat, bound: nat)
    requires Good(strict, With(c, event)) && bound > 0 && event <= DISCONNECTING && IsState(Mqtt(), s) && Active(Mqtt(), c.current, s)
    ensures Keeps(strict, c, Dispatch(Mqtt(), env, c, s, event, bound))
    decreases |PARENT| - s
  {
    hide Offer, AtRest, PhaseAgrees, QueueAgrees;
    var k := c.current[s + 1];
    if k == NO_STATE {
      OfferKeeps(strict, env, c, s, event, bound);
    } else {
      DispatchKeeps(strict, env, c, k, event, bound);
      var inner := Dispatch(Mqtt(), env, c, k, event, bound);
      if !inner.1 {
        assert With(inner.0, event) == With(c, event).(log := inner.0.log);
        OfferKeeps(strict, env, inner.0, s, event, bound);
      }
    }
  }

  // ---- runs ----

  /** What may happen to the protocol: a request, or a call of the process handle. */
  datatype Input = RequestReadings | RequestActuator | RequestReceive | RequestDisconnect | CallHandle

  function EventOf(input: Input): (event: nat)
    ensures event <= DISCONNECTING && (!input.CallHandle? ==> IsRequest(event))
  {
    match input
    case RequestReceive => EVENT_RECEIVE_PUBLISH
    case RequestDisconnect => EVENT_DISCONNECT
    case _ => EVENT_PUBLISH
  }

  /** The variables after a request. */
  function Requested(v: Vars, input: Input): Vars {
    match input
    case RequestReadings => v.(error := 0, failures := [], reporting := true)
    case RequestActuator => v.(error := 0, failures := [], reporting := false)
    case _ => v.(error := 0, failures := [])
  }

  function Stepped(env: nat -> Answer, c: State, input: Input): (r: State)
    requires Structured(Mqtt(), c.current)
    ensures Structured(Mqtt(), r.current)
  {
    if input == CallHandle then Processed(Mqtt(), env, c).0
    else c.(vars := Requested(c.vars, input), queue := Posted(c.queue, EventOf(input)))
  }

  const START: seq<int> := [DISCONNECTED, NO_STATE, SEND_CONNECT, NO_STATE, NO_STATE, NO_STATE, NO_STATE, NO_STATE, NO_STATE, NO_STATE,
                            NO_STATE, NO_STATE, NO_STATE, NO_STATE, NO_STATE, NO_STATE, NO_STATE, NO_STATE]

  /** `mqtt_protocol_init` sets the states and makes no transition. */
  function Initial(): (r: State)
    ensures Structured(Mqtt(), r.current)
  {
    Config(START, [], Vars(0, 0, 0, 0, false, 0, 0, [], []), [], false)
  }

  function Run(env: nat -> Answer, inputs: seq<Input>): (r: State)
    ensures Structured(Mqtt(), r.current)
  {
    if inputs == [] then Initial() else Stepped(env, Run(env, inputs[..|inputs| - 1]), inputs[|inputs| - 1])
  }

  /** Nothing was asked yet, or the last thing that happened is that the process handle returned false. */
  predicate Idle(env: nat -> Answer, inputs: seq<Input>) {
    inputs == [] || (var front := Run(env, inputs[..|inputs| - 1]);
                     inputs[|inputs| - 1] == CallHandle && !Processed(Mqtt(), env, front).1)
  }

  /** Every request comes while the protocol is idle. */
  ghost predicate Patient(env: nat -> Answer, inputs: seq<Input>) {
    forall n :: 0 <= n < |inputs| && !inputs[n].CallHandle? ==> Idle(env, inputs[..n])
  }

  lemma ProcessKeeps(strict: bool, env: nat -> Answer, c: State)
    requires Good(strict, c)
    ensures Good(strict, Processed(Mqtt(), env, c).0)
  {
    hide Dispatch, Watched, Above, AtRest, PhaseAgrees;
    if c.queue != [] {
      var taken := c.(queue := c.queue[1..]);
      assert With(taken, c.queue[0]) == c;
      assert c.queue[0] in c.queue;
      assert RANK[0] < Top(Mqtt());
      DispatchKeeps(strict, env, taken, ROOT, c.queue[0], Top(Mqtt()));
    }
  }

  lemma RequestKeeps(strict: bool, env: nat -> Answer, c: State, input: Input)
    requires Good(strict, c) && !input.CallHandle? && (strict ==> c.queue == [])
    ensures Good(strict, Stepped(env, c, input))
  {
    hide Structured, Watched, AtRest, Posted, EventOf;
    PostedIs(c.queue, EventOf(input));
  }

  lemma {:induction false} RunIsGood(strict: bool, env: nat -> Answer, inputs: seq<Input>)
    requires strict ==> Patient(env, inputs)
    ensures Good(strict, Run(env, inputs))
  {
    if inputs != [] {
      hide Good, Processed, Stepped;
      var front := inputs[..|inputs| - 1];
      FrontIsPatient(env, inputs);
      RunIsGood(strict, env, front);
      if inputs[|inputs| - 1].CallHandle? {
        ProcessKeeps(strict, env, Run(env, front));
        HandleStep(env, Run(env, front));
      } else {
        IdleIsEmpty(env, front);
        RequestKeeps(strict, env, Run(env, front), inputs[|inputs| - 1]);
      }
    }
  }

  lemma HandleStep(env: nat -> Answer, c: State)
    requires Structured(Mqtt(), c.current)
    ensures Stepped(env, c, CallHandle) == Processed(Mqtt(), env, c).0
  {
  }

  lemma FrontIsPatient(env: nat -> Answer, inputs: seq<Input>)
    requires inputs != []
    ensures Patient(env, inputs) ==> Patient(env, inputs[..|inputs| - 1])
    ensures Patient(env, inputs) && !inputs[|inputs| - 1].CallHandle? ==> Idle(env, inputs[..|inputs| - 1])
  {
    hide Idle;
    var front := inputs[..|inputs| - 1];
    if Patient(env, inputs) {
      forall n | 0 <= n < |front| && !front[n].CallHandle?
        ensures Idle(env, front[..n])
      {
        assert front[..n] == inputs[..n] && front[n] == inputs[n];
      }
    }
  }

  lemma IdleIsEmpty(env: nat -> Answer, inputs: seq<Input>)
    ensures Idle(env, inputs) ==> Run(env, inputs).queue == []
  {
  }

  // ---- what holds of every run ----

  /** The n-th message comes after a connection packet, its acknowledgement, a subscription and the acknowledgement of that
      very subscription, all since the last connection or disconnection. */
  ghost predicate OpenedAt(messages: seq<Message>, a: nat, b: nat, c: nat, d: nat, n: nat)
    requires n <= |messages|
  {
    && a < b < c < d < n
    && messages[a].Connect? && messages[b].Got? && messages[b].kind.Connack?
    && messages[c].Subscribe? && messages[d] == Got(Suback, messages[c].id)
    && forall i :: a < i < n ==> !messages[i].Connect? && !messages[i].Disconnect?
  }

  ghost predicate Opened(messages: seq<Message>, n: nat)
    requires n <= |messages|
  {
    exists a, b, c, d :: OpenedAt(messages, a, b, c, d, n)
  }

  /** How far the session has come before the n-th message. */
  ghost predicate Reached(messages: seq<Message>, n: nat)
    requires n <= |messages|
  {
    var phase := Watched(messages[..n]).phase;
    match phase
    case Closed => true
    case Greeting => exists a: nat :: GreetedSince(messages, a, n)
    case Accepted => exists a: nat, b: nat :: AcceptedSince(messages, a, b, n)
    case Subscribing(id) => exists a: nat, b: nat, c: nat :: SubscribedSince(messages, a, b, c, id, n)
    case Open => Opened(messages, n)
  }

  ghost predicate GreetedSince(messages: seq<Message>, a: nat, n: nat)
    requires n <= |messages|
  {
    && a < n && messages[a].Connect?
    && forall i :: a < i < n ==> !messages[i].Connect? && !messages[i].Disconnect?
  }

  ghost predicate AcceptedSince(messages: seq<Message>, a: nat, b: nat, n: nat)
    requires n <= |messages|
  {
    GreetedSince(messages, a, n) && a < b < n && messages[b].Got? && messages[b].kind.Connack?
  }

  ghost predicate SubscribedSince(messages: seq<Message>, a: nat, b: nat, c: nat, id: nat, n: nat)
    requires n <= |messages|
  {
    AcceptedSince(messages, a, b, n) && b < c < n && messages[c] == Subscribe(id)
  }

  lemma {:induction false} PhaseReached(messages: seq<Message>, n: nat)
    requires n <= |messages| && Watched(messages[..n]).ok
    ensures Reached(messages, n)
    decreases n
  {
    if n > 0 {
      var front, m := messages[..n - 1], messages[n - 1];
      assert messages[..n][..n - 1] == front;
      var w := Watched(front);
      assert Watched(messages[..n]) == Next(w, m);
      PhaseReached(messages, n - 1);
      if m.Connect? {
        assert GreetedSince(messages, n - 1, n);
      } else if !m.Disconnect? {
        ReachedNext(messages, n, w, m);
      }
    }
  }

  lemma ReachedNext(messages: seq<Message>, n: nat, w: Watch, m: Message)
    requires 0 < n <= |messages| && m == messages[n - 1] && !m.Connect? && !m.Disconnect?
    requires w == Watched(messages[..n - 1]) && w.ok && Watched(messages[..n]) == Next(w, m) && Next(w, m).ok
    requires Reached(messages, n - 1)
    ensures Reached(messages, n)
  {
    hide Watched;
    match w.phase
    case Closed =>
    case Greeting =>
      var a: nat :| GreetedSince(messages, a, n - 1);
      assert GreetedSince(messages, a, n);
      if m.Got? && m.kind.Connack? {
        assert AcceptedSince(messages, a, n - 1, n);
      }
    case Accepted =>
      var a: nat, b: nat :| AcceptedSince(messages, a, b, n - 1);
      assert AcceptedSince(messages, a, b, n);
      if m.Subscribe? {
        assert SubscribedSince(messages, a, b, n - 1, m.id, n);
      }
    case Subscribing(id) =>
      var a: nat, b: nat, c: nat :| SubscribedSince(messages, a, b, c, id, n - 1);
      assert SubscribedSince(messages, a, b, c, id, n);
      if m == Got(Suback, id) {
        assert OpenedAt(messages, a, b, c, n - 1, n);
      }
    case Open =>
      var a, b, c, d :| OpenedAt(messages, a, b, c, d, n - 1);
      assert OpenedAt(messages, a, b, c, d, n);
  }

  lemma {:induction false} OkBefore(messages: seq<Message>, n: nat)
    requires n <= |messages| && Watched(messages).ok
    ensures Watched(messages[..n]).ok
    decreases |messages|
  {
    if n < |messages| {
      OkBefore(messages[..|messages| - 1], n);
      assert messages[..|messages| - 1][..n] == messages[..n];
    } else {
      assert messages[..n] == messages;
    }
  }

  /** In every run, however requests come, a publication, a release or a ping is sent only in a session that the broker
      accepted and whose subscription it acknowledged with the right identifier, and so is every state under the connected
      one active only then. */
  lemma {:induction false} OnlyInOpenSessions(env: nat -> Answer, inputs: seq<Input>)
    ensures var c := Run(env, inputs);
            var messages := c.vars.messages;
            && (forall n :: 0 <= n < |messages| && (messages[n].Publish? || messages[n].Pubrel? || messages[n].Pingreq?) ==>
                              Opened(messages, n))
            && (Active(Mqtt(), c.current, CONNECTED) ==> Opened(messages, |messages|))
  {
    hide Run, Structured, Watched, QueueAgrees, Opened;
    RunIsGood(false, env, inputs);
    var c := Run(env, inputs);
    var messages := c.vars.messages;
    forall n | 0 <= n < |messages| && (messages[n].Publish? || messages[n].Pubrel? || messages[n].Pingreq?)
      ensures Opened(messages, n)
    {
      OkBefore(messages, n);
      OkBefore(messages, n + 1);
      assert messages[..n + 1] == messages[..n] + [messages[n]];
      WatchNext(c.vars.(messages := messages[..n]), messages[n]);
      PhaseReached(messages, n);
    }
    assert messages[..|messages|] == messages;
    PhaseReached(messages, |messages|);
  }

  /** If requests come only while the protocol is idle, at most two events are queued, at most one of them to carry on with
      a communication, and posting one more would not drop any. */
  lemma QueueStaysShort(env: nat -> Answer, inputs: seq<Input>)
    requires Patient(env, inputs)
    ensures var queue := Run(env, inputs).queue;
            && |queue| <= 2
            && (forall i, j :: 0 <= i < j < |queue| ==> IsRequest(queue[i]) != IsRequest(queue[j]))
            && forall e :: Posted(queue, e) == queue + [e]
  {
    hide Run, Structured, Watched;
    RunIsGood(true, env, inputs);
  }

  /** In every run each transition had an active parent, and one of the four outer states is active, the connecting and the
      ping state only with a child. */
  lemma {:induction false} AlwaysOnePath(env: nat -> Answer, inputs: seq<Input>)
    ensures var c := Run(env, inputs);
            && !c.fault
            && (exists s :: s in {DISCONNECTED, CONNECTING, CONNECTED, DISCONNECTING} && Active(Mqtt(), c.current, s))
            && (Active(Mqtt(), c.current, CONNECTING) ==> exists k :: SEND_CONNECT <= k <= RECEIVE_SUBACK && Active(Mqtt(), c.current, k))
            && (Active(Mqtt(), c.current, PING) ==>
                  Active(Mqtt(), c.current, SEND_PINGREQ) || Active(Mqtt(), c.current, RECEIVE_PINGRESP))
  {
    hide Run, Structured, Watched, QueueAgrees;
    RunIsGood(false, env, inputs);
    var c := Run(env, inputs);
    assert Active(Mqtt(), c.current, c.current[0]);
    if c.current[0] == CONNECTING {
      assert Active(Mqtt(), c.current, c.current[CONNECTING + 1]);
    }
  }

  /** The number reported to the sender: that of the last publication if it ended well, 0 if not. */
  function Reported(messages: seq<Message>): nat {
    if messages == [] then 0
    else
      match messages[|messages| - 1]
      case PublishEnded(ok) => if ok then LastPublished(messages) else 0
      case _ => Reported(messages[..|messages| - 1])
  }

  function LastPublished(messages: seq<Message>): nat {
    if messages == [] then 0
    else
      match messages[|messages| - 1]
      case Publish(readings) => readings
      case _ => LastPublished(messages[..|messages| - 1])
  }

  lemma {:induction false} WatchReports(messages: seq<Message>)
    ensures Watched(messages).published == LastPublished(messages) && Watched(messages).reported == Reported(messages)
  {
    if messages != [] {
      WatchReports(messages[..|messages| - 1]);
    }
  }

  /** In every run what the sender reads as sent is the readings of the last reported publication, or 0 if it failed. */
  lemma {:induction false} SentIsReported(env: nat -> Answer, inputs: seq<Input>)
    ensures var v := Run(env, inputs).vars; v.sent == Reported(v.messages)
  {
    hide Run, Watched, Structured, QueueAgrees;
    RunIsGood(false, env, inputs);
    WatchReports(Run(env, inputs).vars.messages);
  }

  // ---- the error byte ----

  /** Among the failures the states can have the byte belongs to one only; its halves are the kind and the state except in
      the disconnecting state. */
  lemma CodeDecodes(f: Failure)
    requires Possible(f)
    ensures Code(f.kind, f.state) != 0
    ensures forall g {:trigger Possible(g)} :: Possible(g) && Code(g.kind, g.state) == Code(f.kind, f.state) ==> g == f
    ensures var code := Code(f.kind, f.state);
            (code / 0x10 * 0x10 == f.kind && code % 0x10 == f.state) <==> f.state != DISCONNECTING
  {
  }

  /** It is the bitwise or of the source. */
  lemma CodeIsOr(f: Failure)
    requires Possible(f)
    ensures Code(f.kind, f.state) == Or(f.kind, f.state)
  {
    hide Or, Code;
    if f.kind == ERROR_SENDING {
      OrSending(f.state);
    } else if f.kind == ERROR_RECEIVING {
      OrReceiving(f.state);
    } else {
      OrOthers(f.state);
    }
  }

  function Or(kind: nat, state: nat): nat
    requires kind < 0x100 && state < 0x100
  {
    (kind as bv8 | state as bv8) as nat
  }

  lemma OrSending(state: nat)
    requires Possible(Failure(ERROR_SENDING, state))
    ensures Code(ERROR_SENDING, state) == Or(ERROR_SENDING, state)
  {
  }

  lemma OrReceiving(state: nat)
    requires Possible(Failure(ERROR_RECEIVING, state))
    ensures Code(ERROR_RECEIVING, state) == Or(ERROR_RECEIVING, state)
  {
  }

  lemma OrOthers(state: nat)
    ensures Possible(Failure(ERROR_INCORRECT_MESSAGE, state)) ==> Code(ERROR_INCORRECT_MESSAGE, state) == Or(ERROR_INCORRECT_MESSAGE, state)
    ensures Possible(Failure(ERROR_PARAMETERS_MISSING, state)) ==>
              Code(ERROR_PARAMETERS_MISSING, state) == Or(ERROR_PARAMETERS_MISSING, state)
  {
  }

  /** In every run the byte is 0 exactly if nothing failed since the last request, and otherwise it tells which failure was
      the last, as the only one that the states can have with this byte. Reading its halves as kind and state is right
      exactly if the last failure is not that of sending the disconnection. */
  lemma {:induction false} ErrorTellsLast(env: nat -> Answer, inputs: seq<Input>)
    ensures var v := Run(env, inputs).vars;
            && (v.error == 0 <==> v.failures == [])
            && (v.failures != [] ==>
                  var last := v.failures[|v.failures| - 1];
                  && (forall f :: Possible(f) && Code(f.kind, f.state) == v.error <==> f == last)
                  && ((v.error / 0x10 * 0x10 == last.kind && v.error % 0x10 == last.state) <==> last.state != DISCONNECTING)
                  && (last.state == DISCONNECTING <==> v.error == 0x10))
  {
    hide Run, Watched, Structured, QueueAgrees, Code, Possible, AtRest;
    RunIsGood(false, env, inputs);
    var v := Run(env, inputs).vars;
    if v.failures != [] {
      CodeDecodes(v.failures[|v.failures| - 1]);
      CodeOfDisconnecting(v.failures[|v.failures| - 1]);
    }
  }

  lemma CodeOfDisconnecting(f: Failure)
    requires Possible(f)
    ensures f.state == DISCONNECTING <==> Code(f.kind, f.state) == 0x10
  {
  }

  // ---- a subscription acknowledged with the wrong identifier ----

  /** The acknowledgement of the subscription is waited for, but nothing is queued that could lead to receiving it: only the
      retained request, and maybe the number of the disconnecting state. */
  ghost predicate Stuck(c: State) {
    && Good(true, c)
    && c.current[0] == CONNECTING && c.current[CONNECTING + 1] == RECEIVE_SUBACK
    && (exists e :: e in c.queue && NeedsConnection(e))
    && forall e :: e in c.queue ==> NeedsConnection(e) || e == DISCONNECTING
  }

  function Handled(env: nat -> Answer, c: State, n: nat): (r: State)
    requires Structured(Mqtt(), c.current)
    ensures Structured(Mqtt(), r.current)
  {
    if n == 0 then c else Processed(Mqtt(), env, Handled(env, c, n - 1)).0
  }

  lemma IgnoredAt(env: nat -> Answer, c: State, s: int, event: nat, bound: nat)
    requires Structured(Mqtt(), c.current) && s in {ROOT, CONNECTING, RECEIVE_SUBACK}
    requires event == DISCONNECTING || (s == RECEIVE_SUBACK && NeedsConnection(event))
    ensures var r := Offer(Mqtt(), env, c, s, event, bound); r == (c.(log := r.0.log), false)
  {
    hide Structured, Offer;
    Offer0(Mqtt(), env, c, s, event, bound);
  }

  /** c after its queue has become queue. */
  ghost predicate OnlyMoved(c: State, r: State, queue: seq<nat>) {
    r == c.(queue := queue, log := r.log)
  }

  lemma StuckDispatch(env: nat -> Answer, c: State, event: nat, bound: nat)
    requires Structured(Mqtt(), c.current) && |c.current| == 18
    requires c.current[0] == CONNECTING && c.current[CONNECTING + 1] == RECEIVE_SUBACK
    requires event == DISCONNECTING || NeedsConnection(event)
    ensures OnlyMoved(c, Dispatch(Mqtt(), env, c, ROOT, event, bound).0,
                      if event == DISCONNECTING then c.queue else Posted(c.queue, event))
  {
    hide Structured, Offer, Posted, Handler;
    ChildOrNone(Mqtt(), c.current, RECEIVE_SUBACK);
    IgnoredAt(env, c, RECEIVE_SUBACK, event, bound);
    var leaf := Offer(Mqtt(), env, c, RECEIVE_SUBACK, event, bound);
    assert Dispatch(Mqtt(), env, c, RECEIVE_SUBACK, event, bound) == leaf;
    var mid := Offer(Mqtt(), env, leaf.0, CONNECTING, event, bound);
    assert Dispatch(Mqtt(), env, c, CONNECTING, event, bound) == mid;
    if event == DISCONNECTING {
      IgnoredAt(env, leaf.0, CONNECTING, event, bound);
      IgnoredAt(env, mid.0, ROOT, event, bound);
    } else {
      assert Handler(c.vars, CONNECTING, event, env(|leaf.0.log|)) == Connecting(c.vars, event) by {
        ConnectingRoute(c.vars, event, env(|leaf.0.log|));
      }
      Offer1(Mqtt(), env, leaf.0, CONNECTING, event, Post(event), bound);
    }
  }

  lemma ConnectingRoute(v: Vars, event: nat, a: Answer)
    ensures Handler(v, CONNECTING, event, a) == Connecting(v, event)
  {
  }

  lemma StuckStep(env: nat -> Answer, c: State)
    requires Stuck(c)
    ensures var r := Processed(Mqtt(), env, c); r.1 && Stuck(r.0) && OnlyMoved(c, r.0, r.0.queue)
  {
    hide Structured, PhaseAgrees, Dispatch, Posted, Above;
    var event, rest := c.queue[0], c.queue[1..];
    assert c.queue == [event] + rest && event in c.queue;
    assert forall e :: e in rest ==> e in c.queue;
    ProcessKeeps(true, env, c);
    StuckDispatch(env, c.(queue := rest), event, Top(Mqtt()));
    PostedIs(rest, event);
    var r := Processed(Mqtt(), env, c).0;
    assert NeedsConnection(event) ==> event in r.queue by {
      assert NeedsConnection(event) ==> r.queue == rest + [event];
    }
  }

  /** Once stuck, the process handle never says that it is done: whatever the environment answers, it returns true forever
      and only moves the queued request around. */
  lemma {:induction false} MismatchNeverEnds(env: nat -> Answer, c: State, n: nat)
    requires Stuck(c)
    ensures var r := Handled(env, c, n); Stuck(r) && OnlyMoved(c, r, r.queue) && Processed(Mqtt(), env, r).1
  {
    hide Processed, PhaseAgrees, QueueAgrees, AtRest;
    if n > 0 {
      MismatchNeverEnds(env, c, n - 1);
      StuckStep(env, Handled(env, c, n - 1));
    }
    StuckStep(env, Handled(env, c, n));
  }

  /** The end of waiting for the acknowledgement of the subscription, while a request waits. */
  ghost predicate Acknowledging(c: State) {
    && Good(true, c) && c.current[0] == CONNECTING && c.current[CONNECTING + 1] == RECEIVE_SUBACK
    && |c.queue| == 2 && c.queue[0] == EVENT_DONE && c.queue[1] != EVENT_DISCONNECT
  }

  predicate Mismatch(v: Vars, a: Answer) {
    a.ok && a.complete && a.kind == Suback && a.id != v.messageId
  }

  /** The end of waiting for the acknowledgement makes the protocol stuck if and only if an acknowledgement of a subscription
      came, with another identifier than that of the subscription. */
  lemma {:induction false} StuckExactly(env: nat -> Answer, c: State)
    requires Acknowledging(c)
    ensures Stuck(Processed(Mqtt(), env, c).0) <==> Mismatch(c.vars, env(|c.log|))
  {
    hide Structured, PhaseAgrees, Dispatch, Posted, Offer, Above;
    var rest, a, top := c.queue[1..], env(|c.log|), Top(Mqtt());
    ProcessKeeps(true, env, c);
    assert RANK[0] < top;
    AcknowledgedDispatch(env, c.(queue := rest), top);
    PostedIs(rest, DISCONNECTING);
    PostedIs(rest, EVENT_RECEIVE_SUBACK);
    var r := Processed(Mqtt(), env, c).0;
    if Mismatch(c.vars, a) {
      assert r.queue == [c.queue[1], DISCONNECTING] && c.queue[1] in r.queue;
    } else if r.current[0] == CONNECTING {
      assert r.queue[1] == EVENT_RECEIVE_SUBACK && EVENT_RECEIVE_SUBACK in r.queue;
    }
  }

  lemma AcknowledgedDispatch(env: nat -> Answer, c: State, bound: nat)
    requires Structured(Mqtt(), c.current) && |c.current| == 18 && bound > 0
    requires c.current[0] == CONNECTING && c.current[CONNECTING + 1] == RECEIVE_SUBACK
    ensures var r, a := Dispatch(Mqtt(), env, c, ROOT, EVENT_DONE, bound).0, env(|c.log|);
            && (r.current[0] == CONNECTING ==>
                  r.current == c.current
                  && r.queue == Posted(c.queue, if Mismatch(c.vars, a) then DISCONNECTING else EVENT_RECEIVE_SUBACK))
            && (Mismatch(c.vars, a) ==> r.current[0] == CONNECTING)
  {
    hide Structured, Posted, Offer, Handler, Transitioned;
    var a := env(|c.log|);
    ChildOrNone(Mqtt(), c.current, RECEIVE_SUBACK);
    PostingRoute(c.vars, RECEIVE_SUBACK, EVENT_DONE, a);
    var h := Handler(c.vars, RECEIVE_SUBACK, EVENT_DONE, a);
    assert h.consumed && |h.actions| == 1;
    assert h.actions == [h.actions[0]];
    var told := Told(Mqtt(), env, c, RECEIVE_SUBACK, EVENT_DONE);
    Offer1(Mqtt(), env, c, RECEIVE_SUBACK, EVENT_DONE, h.actions[0], bound);
    LeafConsumes(env, c, EVENT_DONE, bound);
    if h.actions[0].Go? {
      Acts(Mqtt(), env, told, RECEIVE_SUBACK, bound);
      LeavesConnecting(env, told, h.actions[0].target, bound);
    }
  }

  /** What the active child of the connecting state consumes goes no further. */
  lemma LeafConsumes(env: nat -> Answer, c: State, event: nat, bound: nat)
    requires Structured(Mqtt(), c.current) && |c.current| == 18 && c.current[0] == CONNECTING
    requires SEND_CONNECT <= c.current[CONNECTING + 1] <= RECEIVE_SUBACK
    requires Offer(Mqtt(), env, c, c.current[CONNECTING + 1], event, bound).1
    ensures Dispatch(Mqtt(), env, c, ROOT, event, bound) == Offer(Mqtt(), env, c, c.current[CONNECTING + 1], event, bound)
  {
    hide Structured, Offer;
    var k := c.current[CONNECTING + 1];
    Leaf(c, k);
    assert Dispatch(Mqtt(), env, c, k, event, bound) == Offer(Mqtt(), env, c, k, event, bound);
    assert Dispatch(Mqtt(), env, c, CONNECTING, event, bound) == Offer(Mqtt(), env, c, k, event, bound);
  }

  lemma LeavesConnecting(env: nat -> Answer, c: State, t: nat, bound: nat)
    requires Structured(Mqtt(), c.current) && |c.current| == 18 && bound > 0 && t in {DISCONNECTED, CONNECTED, DISCONNECTING}
    ensures Transitioned(Mqtt(), env, c, t, bound).current[0] == t
  {
    hide Structured, Transitioned;
    if t == DISCONNECTED {
      ToDisconnected(env, c, bound);
    } else if t == CONNECTED {
      ToConnected(env, c, bound);
    } else {
      var _ := ToPosting(env, c, t, bound);
    }
  }

  // ---- a run that gets stuck ----

  /** The process handle called n times after a request to send readings. */
  function Calls(n: nat): (inputs: seq<Input>)
    ensures |inputs| == n + 1
  {
    if n == 0 then [RequestReadings] else Calls(n - 1) + [CallHandle]
  }

  /** A broker that accepts the session and takes one call for every communication. */
  function Accepting(): nat -> Answer {
    (n: nat) => Answer(false, true, true, Connack, 1, 0, true)
  }

  /** From then on the packet that comes acknowledges subscription 2. */
  function Confused(): nat -> Answer {
    (n: nat) => Answer(false, true, true, Suback, 2, 0, true)
  }

  lemma {:induction false} CallsArePatient(env: nat -> Answer, n: nat)
    ensures Patient(env, Calls(n))
  {
    if n > 0 {
      CallsArePatient(env, n - 1);
      var front := Calls(n - 1);
      forall i | 0 <= i < |Calls(n)| && !Calls(n)[i].CallHandle?
        ensures Idle(env, Calls(n)[..i])
      {
        assert i < |front| && front[i] == Calls(n)[i] && front[..i] == Calls(n)[..i];
      }
    } else {
      assert [RequestReadings][..0] == [];
    }
  }

  lemma OneMore(env: nat -> Answer, n: nat)
    ensures Run(env, Calls(n + 1)) == Processed(Mqtt(), env, Run(env, Calls(n))).0
  {
    assert Calls(n + 1)[..|Calls(n + 1)| - 1] == Calls(n);
  }

  /** While connecting in the child k, with these events queued. */
  ghost predicate At(c: State, k: int, queue: seq<nat>) {
    && Structured(Mqtt(), c.current) && |c.current| == 18
    && c.current[0] == CONNECTING && c.current[CONNECTING + 1] == k && SEND_CONNECT <= k <= RECEIVE_SUBACK && c.queue == queue
  }

  /** The request waits while something else is next. */
  lemma Rotates(env: nat -> Answer, c: State, k: nat, e: nat)
    requires At(c, k, [EVENT_PUBLISH, e])
    ensures var r := Processed(Mqtt(), env, c).0; At(r, k, [e, EVENT_PUBLISH]) && r.vars == c.vars
  {
    hide Structured, Offer, Handler, Above;
    var rest, top := c.(queue := c.queue[1..]), Top(Mqtt());
    Leaf(rest, k);
    PostingRoute(c.vars, k, EVENT_PUBLISH, env(|c.log|));
    Offer0(Mqtt(), env, rest, k, EVENT_PUBLISH, top);
    var leaf := Offer(Mqtt(), env, rest, k, EVENT_PUBLISH, top).0;
    assert Dispatch(Mqtt(), env, rest, k, EVENT_PUBLISH, top) == (leaf, false);
    ConnectingRoute(leaf.vars, EVENT_PUBLISH, env(|leaf.log|));
    Offer1(Mqtt(), env, leaf, CONNECTING, EVENT_PUBLISH, Post(EVENT_PUBLISH), top);
    assert Dispatch(Mqtt(), env, rest, CONNECTING, EVENT_PUBLISH, top) == Offer(Mqtt(), env, leaf, CONNECTING, EVENT_PUBLISH, top);
  }

  lemma Communicates(env: nat -> Answer, c: State, k: nat)
    requires At(c, k, [EVENT_PROCESS, EVENT_PUBLISH]) && forall n :: !env(n).more
    ensures var r := Processed(Mqtt(), env, c).0; At(r, k, [EVENT_PUBLISH, EVENT_DONE]) && r.vars == c.vars
  {
    hide Structured, Offer, Above;
    var rest, top := c.(queue := c.queue[1..]), Top(Mqtt());
    Leaf(rest, k);
    Offer0(Mqtt(), env, rest, k, EVENT_PROCESS, top);
    var leaf := Offer(Mqtt(), env, rest, k, EVENT_PROCESS, top).0;
    assert Dispatch(Mqtt(), env, rest, k, EVENT_PROCESS, top) == (leaf, false);
    Offer0(Mqtt(), env, leaf, CONNECTING, EVENT_PROCESS, top);
    var mid := Offer(Mqtt(), env, leaf, CONNECTING, EVENT_PROCESS, top).0;
    assert Dispatch(Mqtt(), env, rest, CONNECTING, EVENT_PROCESS, top) == (mid, false);
    Offer1(Mqtt(), env, mid, ROOT, EVENT_PROCESS, Post(EVENT_DONE), top);
  }

  lemma StartsReceiving(env: nat -> Answer, c: State, k: nat)
    requires k in {RECEIVE_CONNACK, RECEIVE_SUBACK} && At(c, k, [AwaitEvent(k), EVENT_PUBLISH])
    ensures var r := Processed(Mqtt(), env, c).0; At(r, k, [EVENT_PUBLISH, EVENT_PROCESS]) && r.vars == c.vars
  {
    hide Structured, Offer, Handler, Above;
    var rest, top, e := c.(queue := c.queue[1..]), Top(Mqtt()), AwaitEvent(k);
    PostingRoute(c.vars, k, e, env(|c.log|));
    Offer1(Mqtt(), env, rest, k, e, Post(EVENT_PROCESS), top);
    LeafConsumes(env, rest, e, top);
  }

  /** The end of a communication leads to the next child. */
  lemma Advances(env: nat -> Answer, c: State, k: nat)
    requires env == Accepting() && k in {SEND_CONNECT, RECEIVE_CONNACK, SEND_SUBSCRIBE} && At(c, k, [EVENT_DONE, EVENT_PUBLISH])
    ensures var r := Processed(Mqtt(), env, c).0;
            At(r, k + 1, [EVENT_PUBLISH, AwaitEvent(k + 1)]) && (r.vars.messageId == if k == RECEIVE_CONNACK then 1 else c.vars.messageId)
  {
    hide Structured, Offer, Handler, Transitioned, Above, Posted, EntryVars, AwaitEvent;
    var rest, top := c.(queue := c.queue[1..]), Top(Mqtt());
    assert RANK[0] < top;
    AdvanceHandler(c.vars, k, env(|c.log|));
    Offer1(Mqtt(), env, rest, k, EVENT_DONE, Go(k + 1), top);
    var told := Told(Mqtt(), env, rest, k, EVENT_DONE);
    Acts(Mqtt(), env, told, k, top);
    EntersNext(env, told, k, top);
    LeafConsumes(env, rest, EVENT_DONE, top);
  }

  lemma EntersNext(env: nat -> Answer, c: State, k: nat, bound: nat)
    requires env == Accepting() && k in {SEND_CONNECT, RECEIVE_CONNACK, SEND_SUBSCRIBE} && At(c, k, [EVENT_PUBLISH]) && bound > 0
    ensures var r := Transitioned(Mqtt(), env, c, k + 1, bound);
            At(r, k + 1, [EVENT_PUBLISH, AwaitEvent(k + 1)]) && (r.vars.messageId == if k == RECEIVE_CONNACK then 1 else c.vars.messageId)
  {
    hide Structured, Transitioned, Posted, EntryVars, AwaitEvent;
    var x := ToPosting(env, c, k + 1, bound);
    EnterFrom(c, k + 1, Transitioned(Mqtt(), env, c, k + 1, bound).log);
    PostedIs(c.queue, AwaitEvent(k + 1));
    AdvanceVars(c.vars, k, x);
  }

  lemma AdvanceVars(v: Vars, k: nat, x: Answer)
    requires k in {SEND_CONNECT, RECEIVE_CONNACK, SEND_SUBSCRIBE} && Given(Accepting(), x)
    ensures EntryVars(v, k + 1, x).messageId == if k == RECEIVE_CONNACK then 1 else v.messageId
  {
  }

  lemma AdvanceHandler(v: Vars, k: nat, a: Answer)
    requires k in {SEND_CONNECT, RECEIVE_CONNACK, SEND_SUBSCRIBE} && a.ok && a.complete && a.kind == Connack
    ensures var h := Handler(v, k, EVENT_DONE, a); h.actions == [Go(k + 1)] && h.consumed && h.vars.messageId == v.messageId
  {
  }

  /** From one child waiting to be served to the next, in four calls and, to receive, in five. */
  lemma Lap(env: nat -> Answer, n: nat, k: nat) returns (m: nat)
    requires env == Accepting() && k in {SEND_CONNECT, RECEIVE_CONNACK, SEND_SUBSCRIBE}
    requires At(Run(env, Calls(n)), k, [EVENT_PUBLISH, AwaitEvent(k)])
    ensures m == (if k == RECEIVE_CONNACK then n + 6 else n + 4)
    ensures var c, r := Run(env, Calls(n)), Run(env, Calls(m));
            At(r, k + 1, [EVENT_PUBLISH, AwaitEvent(k + 1)]) && (r.vars.messageId == if k == RECEIVE_CONNACK then 1 else c.vars.messageId)
  {
    hide Run, Processed, At;
    m := Served(env, n, k);
    OneMore(env, m);
    Advances(env, Run(env, Calls(m)), k);
    m := m + 1;
  }

  /** The communication of a child is over. */
  lemma Served(env: nat -> Answer, n: nat, k: nat) returns (m: nat)
    requires k in {SEND_CONNECT, RECEIVE_CONNACK, SEND_SUBSCRIBE, RECEIVE_SUBACK} && forall i :: !env(i).more
    requires At(Run(env, Calls(n)), k, [EVENT_PUBLISH, AwaitEvent(k)])
    ensures m == if AwaitEvent(k) == EVENT_PROCESS then n + 3 else n + 5
    ensures At(Run(env, Calls(m)), k, [EVENT_DONE, EVENT_PUBLISH]) && Run(env, Calls(m)).vars == Run(env, Calls(n)).vars
  {
    hide Run, Processed, At;
    m := n;
    if AwaitEvent(k) != EVENT_PROCESS {
      OneMore(env, m);
      Rotates(env, Run(env, Calls(m)), k, AwaitEvent(k));
      OneMore(env, m + 1);
      StartsReceiving(env, Run(env, Calls(m + 1)), k);
      m := m + 2;
    }
    OneMore(env, m);
    Rotates(env, Run(env, Calls(m)), k, EVENT_PROCESS);
    OneMore(env, m + 1);
    Communicates(env, Run(env, Calls(m + 1)), k);
    OneMore(env, m + 2);
    Rotates(env, Run(env, Calls(m + 2)), k, EVENT_DONE);
    m := m + 3;
  }

  lemma Requests(env: nat -> Answer)
    ensures var c := Run(env, Calls(0));
            c == Initial().(vars := Requested(Initial().vars, RequestReadings), queue := [EVENT_PUBLISH])
  {
    hide Structured, Initial, Requested;
    PostedIs([], EVENT_PUBLISH);
    assert [RequestReadings][..0] == [] && Run(env, []) == Initial();
    assert Initial().queue == [] by { InitialQueue(); }
  }

  lemma InitialQueue()
    ensures Initial().queue == []
  {
  }

  lemma Begins(env: nat -> Answer)
    requires env == Accepting()
    ensures At(Run(env, Calls(1)), SEND_CONNECT, [EVENT_PUBLISH, EVENT_PROCESS])
  {
    hide Structured, Dispatch, Above, Run, Requested;
    Requests(env);
    OneMore(env, 0);
    var c := Run(env, Calls(0));
    var rest, top := c.(queue := c.queue[1..]), Top(Mqtt());
    assert RANK[0] < top && rest.queue == [];
    StartsConnecting(env, rest, top);
  }

  lemma StartsConnecting(env: nat -> Answer, c: State, bound: nat)
    requires c.current == START && c.queue == [] && env == Accepting() && bound > 0 && Structured(Mqtt(), c.current)
    ensures At(Dispatch(Mqtt(), env, c, ROOT, EVENT_PUBLISH, bound).0, SEND_CONNECT, [EVENT_PUBLISH, EVENT_PROCESS])
  {
    hide Structured, Offer, Transitioned, Posted, Above, Handler, At;
    DisconnectedRoute(c.vars, EVENT_PUBLISH, env(|c.log|));
    PostedIs([], EVENT_PUBLISH);
    Offer2(Mqtt(), env, c, DISCONNECTED, EVENT_PUBLISH, Post(EVENT_PUBLISH), Go(CONNECTING), bound);
    var told := Told(Mqtt(), env, c, DISCONNECTED, EVENT_PUBLISH);
    Acts(Mqtt(), env, told, DISCONNECTED, bound);
    var posted := told.(queue := Posted(told.queue, EVENT_PUBLISH));
    assert posted.queue == [EVENT_PUBLISH];
    EntersConnecting(env, posted, bound);
    var r := Offer(Mqtt(), env, c, DISCONNECTED, EVENT_PUBLISH, bound);
    assert Dispatch(Mqtt(), env, c, DISCONNECTED, EVENT_PUBLISH, bound) == r;
  }

  lemma EntersConnecting(env: nat -> Answer, c: State, bound: nat)
    requires c.current == START && c.queue == [EVENT_PUBLISH] && bound > 0 && Structured(Mqtt(), c.current)
    ensures At(Transitioned(Mqtt(), env, c, CONNECTING, bound), SEND_CONNECT, [EVENT_PUBLISH, EVENT_PROCESS])
  {
    hide Structured, Transitioned, Posted;
    var x := ToGroup(env, c, CONNECTING, bound);
    EnterFrom(c, CONNECTING, Transitioned(Mqtt(), env, c, CONNECTING, bound).log);
    PostedIs(c.queue, EVENT_PROCESS);
  }

  lemma DisconnectedRoute(v: Vars, event: nat, a: Answer)
    ensures Handler(v, DISCONNECTED, event, a) == Disconnected(v, event, a)
  {
  }

  /** A run depends only on the answers that were given. */
  lemma {:induction false} SameRun(e: nat -> Answer, f: nat -> Answer, inputs: seq<Input>)
    requires Agree(e, f, 0, |Run(e, inputs).log|)
    ensures Run(e, inputs) == Run(f, inputs)
  {
    hide Structured, Processed;
    if inputs != [] {
      var front := inputs[..|inputs| - 1];
      var c := Run(e, front);
      assert c.log <= Run(e, inputs).log;
      SameRun(e, f, front);
      if inputs[|inputs| - 1].CallHandle? {
        SameProcessed(Mqtt(), e, f, c);
      }
    }
  }

  lemma AcknowledgingAt(c: State)
    requires Good(true, c) && At(c, RECEIVE_SUBACK, [EVENT_DONE, EVENT_PUBLISH])
    ensures Acknowledging(c)
  {
  }

  lemma {:induction false} LaterCalls(env: nat -> Answer, n: nat, m: nat)
    requires n <= m
    ensures Run(env, Calls(m)) == Handled(env, Run(env, Calls(n)), m - n)
    ensures Run(env, Calls(n)).log <= Run(env, Calls(m)).log
  {
    hide Processed, Run;
    if n < m {
      LaterCalls(env, n, m - 1);
      OneMore(env, m - 1);
    }
  }

  /** The session is accepted by the first answers; from the entry of the waiting state on the other ones come. */
  lemma Subscribed(n: nat) returns (env: nat -> Answer)
    requires At(Run(Accepting(), Calls(n)), RECEIVE_SUBACK, [EVENT_PUBLISH, EVENT_RECEIVE_SUBACK])
    ensures env == Spliced(Accepting(), |Run(env, Calls(n)).log|, Confused())
    ensures Run(env, Calls(n)) == Run(Accepting(), Calls(n))
  {
    hide Run, At;
    env := Spliced(Accepting(), |Run(Accepting(), Calls(n)).log|, Confused());
    SameRun(Accepting(), env, Calls(n));
  }

  /** A run with patient requests that gets stuck: the broker accepts the session, and acknowledges subscription 2 instead of
      1. The process handle then returns true on every call, for ever. */
  lemma MismatchHappens() returns (env: nat -> Answer)
    ensures Patient(env, Calls(21)) && Stuck(Run(env, Calls(21)))
    ensures exists n: nat :: env == Spliced(Accepting(), n, Confused())
    ensures forall n :: n >= 21 ==> Processed(Mqtt(), env, Run(env, Calls(n))).1
  {
    hide Run, Processed, At, Good, Stuck, Patient, Handled, Idle;
    Begins(Accepting());
    var n := Lap(Accepting(), 1, SEND_CONNECT);
    n := Lap(Accepting(), n, RECEIVE_CONNACK);
    n := Lap(Accepting(), n, SEND_SUBSCRIBE);
    env := Subscribed(n);
    n := Served(env, n, RECEIVE_SUBACK);
    CallsArePatient(env, n);
    CallsArePatient(env, n + 1);
    RunIsGood(true, env, Calls(n));
    AcknowledgingAt(Run(env, Calls(n)));
    LaterCalls(env, n - 5, n);
    StuckExactly(env, Run(env, Calls(n)));
    OneMore(env, n);
    forall m | m >= 21
      ensures Processed(Mqtt(), env, Run(env, Calls(m))).1
    {
      LaterCalls(env, 21, m);
      MismatchNeverEnds(env, Run(env, Calls(21)), m - 21);
    }
  }

  // ---- the module itself ----

  /** The engine with the requests that drive it; `processed` is what the process handle returns. */
  method Step(engine: Engine<Vars, Answer>, input: Input) returns (processed: bool)
    requires engine.Valid() && engine.machine == Mqtt()
    modifies engine, engine.current, engine.events, engine.events.storage
    ensures engine.Valid() && engine.State() == Stepped(engine.answers, old(engine.State()), input)
    ensures input == CallHandle ==> processed == (old(engine.State()).queue != [])
  {
    hide Dispatch, Posted, Structured;
    if input == CallHandle {
      processed := engine.Process();
    } else {
      engine.vars := Requested(engine.vars, input);
      engine.Post(EventOf(input));
      processed := true;
    }
  }
}
