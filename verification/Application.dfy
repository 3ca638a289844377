/** The application machine of `wolksensor.c`: acquisition, data exchange, delivery of readings and the brownout latch. The
    heartbeats it keeps are in module `Backoff`; here the events they raise come at any time. */
module Application {
  import opened CircularBuffer
  import opened StateMachine

  const READINGS_SIZE := 150
  const COMMANDS_SIZE := 10
  const MINIMUM_VOLTAGE := 280

  // ---- states and events ----

  const IDLE := 0
  const BROWNOUT := 1
  const NORMAL := 2
  const ACQUISITION := 3
  const DATA_EXCHANGE := 4
  const SEND := 5
  const RECEIVE := 6
  const DISCONNECT := 7
  const STOP_MODULE := 8

  const EVENT_HEARTBEAT := 1
  const EVENT_ACQUIRE := 2
  const EVENT_COMMAND_RECEIVED := 3
  const EVENT_USB_CONNECTED := 4
  const EVENT_ALARM := 6
  const EVENT_PROCESS := 7
  const EVENT_DONE := 8
  const EVENT_RESET := 9

  /** A stored reading; only its identity matters here. */
  type Reading = int

  datatype CommandKind = Reload | Now | Acquisition | Readings(clear: bool) | Others
  datatype Command = Command(kind: CommandKind, hasArgument: bool)

  /** What an observer of the application sees, in order. `Arrived` are commands added by the protocol while it receives,
      `Received` is the end of receiving with the number of commands then waiting, and `Typed` are commands of the local user. */
  datatype Fact =
    | Stored(reading: Reading)
    | SendStarted
    | Published(count: nat)
    | ReceiveStarted
    | Arrived(count: nat)
    | Received(ok: bool, commands: nat)
    | Removed(count: nat)
    | ReadingsCleared
    | Typed(count: nat)
    | Executed(command: Command, allowWrite: bool)
    | AnsweredBusy(command: Command)
    | MonitorEnabled
    | MonitorDisabled(failed: bool, voltage: nat)
    | UsbConnected

  /** Which operation of the protocol the process handle stands for. */
  datatype Operation = Sending | Receiving | Ending

  datatype Vars = Vars(readings: seq<Reading>, commands: seq<Command>, sent: nat, operation: Operation, failed: bool, brownout: bool,
                       voltage: nat, facts: seq<Fact>)

  /** The environment of one handler call: commands extracted from the text received locally, whether sensors may be read,
      whether the process handle wants to go on, whether the operation failed, the readings the protocol reports as
      published if it does so now, and the commands it receives. */
  datatype Answer = Answer(typed: seq<Command>, sensorsOn: bool, more: bool, failed: bool, reports: bool, published: nat,
                           received: seq<Command>)

  function Note(v: Vars, fact: Fact): Vars {
    v.(facts := v.facts + [fact])
  }

  // ---- commands ----

  predicate Writes(command: Command) {
    command.hasArgument || command.kind.Reload?
  }

  /** The event a command posts. */
  function Raised(command: Command): seq<nat> {
    match command.kind
    case Reload => [EVENT_RESET]
    case Now => [EVENT_HEARTBEAT]
    case Acquisition => [EVENT_ACQUIRE]
    case _ => []
  }

  predicate ClearsReadings(command: Command) {
    command.kind.Readings? && command.hasArgument && command.kind.clear
  }

  /** One round of `execute_commands`. */
  function ExecutedOne(v: Vars, command: Command, allowWrite: bool): Vars {
    if !allowWrite && Writes(command) then Note(v, AnsweredBusy(command))
    else
      var done := Note(v, Executed(command, allowWrite));
      if ClearsReadings(command) then Note(done, ReadingsCleared).(readings := []) else done
  }

  function RaisedOne(command: Command, allowWrite: bool): seq<nat> {
    if !allowWrite && Writes(command) then [] else Raised(command)
  }

  /** `execute_commands`: the buffer is emptied, oldest command first. */
  function ExecutedAll(v: Vars, allowWrite: bool): (r: Vars)
    ensures r.commands == []
    decreases |v.commands|
  {
    if v.commands == [] then v
    else ExecutedAll(ExecutedOne(v, v.commands[0], allowWrite).(commands := v.commands[1..]), allowWrite)
  }

  function RaisedAll(commands: seq<Command>, allowWrite: bool): seq<nat> {
    if commands == [] then [] else RaisedOne(commands[0], allowWrite) + RaisedAll(commands[1..], allowWrite)
  }

  // ---- handlers ----

  function Quiet(v: Vars, consumed: bool): Reaction<Vars> {
    Reaction(v, consumed, [])
  }

  function Does(v: Vars, action: Action): Reaction<Vars> {
    Reaction(v, true, [action])
  }

  function Handler(v: Vars, state: int, event: nat, a: Answer): Reaction<Vars> {
    match state
    case 0 => Idle(v, event, a)
    case 1 => Brownout(v, event)
    case 2 => Normal(v, event)
    case 3 => if event == ENTERING then Does(v, Go(IDLE)) else Quiet(v, false)
    case 4 => DataExchange(v, event, a)
    case 5 => Send(v, event, a)
    case 6 => Receive(v, event, a)
    case 7 => Disconnect(v, event, a)
    case 8 => StopModule(v, event, a)
    case _ => Root(v, event)
  }

  function Root(v: Vars, event: nat): Reaction<Vars> {
    if event == EVENT_USB_CONNECTED then Quiet(Note(v, UsbConnected), true)
    else if event == EVENT_ACQUIRE || event == EVENT_HEARTBEAT then Does(v, Post(event))
    else Quiet(v, event != LEAVING)
  }

  /** Commands of the local user join those that wait. */
  function Filled(v: Vars, typed: seq<Command>): Vars {
    Note(v, Typed(|typed|)).(commands := Last(v.commands + typed, COMMANDS_SIZE))
  }

  function Commanded(v: Vars, typed: seq<Command>, allowWrite: bool): Reaction<Vars> {
    var filled := Filled(v, typed);
    Reaction(ExecutedAll(filled, allowWrite), true, Posts(RaisedAll(filled.commands, allowWrite)))
  }

  function Idle(v: Vars, event: nat, a: Answer): Reaction<Vars> {
    if event == ENTERING then Does(v, SetChild(if v.brownout then BROWNOUT else NORMAL))
    else if event == EVENT_ACQUIRE then
      if a.sensorsOn && |v.readings| < READINGS_SIZE then Does(v, Go(ACQUISITION)) else Quiet(v, true)
    else if event == EVENT_COMMAND_RECEIVED then Commanded(v, a.typed, true)
    else Quiet(v, event == EVENT_RESET)
  }

  function Brownout(v: Vars, event: nat): Reaction<Vars> {
    if event == ENTERING then Quiet(v.(brownout := true), true)
    else if event == EVENT_USB_CONNECTED then Reaction(Note(v, UsbConnected), false, [Go(NORMAL)])
    else Quiet(v, event == EVENT_ALARM || event == EVENT_HEARTBEAT)
  }

  function Normal(v: Vars, event: nat): Reaction<Vars> {
    if event == ENTERING then Quiet(v.(brownout := false), true)
    else if event == EVENT_ALARM || event == EVENT_HEARTBEAT then Does(v, Go(DATA_EXCHANGE))
    else Quiet(v, false)
  }

  function DataExchange(v: Vars, event: nat, a: Answer): Reaction<Vars> {
    if event == ENTERING then Does(Note(v, MonitorEnabled).(failed := false), SetChild(SEND))
    else if event == EVENT_COMMAND_RECEIVED then Commanded(v, a.typed, false)
    else if event == EVENT_PROCESS then
      Does(Processing(v, a), Post(if a.more then EVENT_PROCESS else EVENT_DONE))
    else if event == LEAVING then Quiet(Disabled(v), false)
    else Quiet(v, false)
  }

  /** The end of an exchange: brownout is latched if it failed and the voltage was too low. */
  function Disabled(v: Vars): Vars {
    Note(v, MonitorDisabled(v.failed, v.voltage)).(brownout := v.brownout || (v.failed && v.voltage < MINIMUM_VOLTAGE), voltage := 0)
  }

  /** What one call of the protocol's process handle changes here: it may report how many of the oldest readings it has
      published, or add received commands. */
  function Processing(v: Vars, a: Answer): Vars {
    if v.operation.Sending? && a.reports then
      var count := if a.published <= |v.readings| then a.published else |v.readings|;
      Note(v, Published(count)).(sent := count)
    else if v.operation.Receiving? then Note(v, Arrived(|a.received|)).(commands := Last(v.commands + a.received, COMMANDS_SIZE))
    else v
  }

  function Failing(v: Vars, failed: bool): Vars {
    v.(failed := v.failed || failed)
  }

  function Send(v: Vars, event: nat, a: Answer): Reaction<Vars> {
    if event == ENTERING then Does(Note(v, SendStarted).(sent := 0, operation := Sending), Post(EVENT_PROCESS))
    else if event == EVENT_DONE then Does(Failing(v, a.failed), Go(if a.failed then STOP_MODULE else RECEIVE))
    else Quiet(v, false)
  }

  function Receive(v: Vars, event: nat, a: Answer): Reaction<Vars> {
    if event == ENTERING then Does(Note(v, ReceiveStarted).(operation := Receiving), Post(EVENT_PROCESS))
    else if event == EVENT_DONE then Acknowledged(v, a.failed)
    else Quiet(v, false)
  }

  /** The end of receiving: only if it succeeded and commands wait are the readings sent removed. */
  function Acknowledged(v: Vars, failed: bool): Reaction<Vars> {
    var received := Note(Failing(v, failed), Received(!failed, |v.commands|));
    if failed then Does(received, Go(STOP_MODULE))
    else if v.commands == [] then Does(received, Go(DISCONNECT))
    else
      var removed := Note(received, Removed(v.sent)).(readings := Rest(v.readings, v.sent));
      var executed := ExecutedAll(removed, true);
      Reaction(executed, true,
               Posts(RaisedAll(v.commands, true)) + [Go(if |executed.readings| > 0 then SEND else DISCONNECT)])
  }

  function Disconnect(v: Vars, event: nat, a: Answer): Reaction<Vars> {
    if event == ENTERING then Does(v.(operation := Ending), Post(EVENT_PROCESS))
    else if event == EVENT_DONE then Does(Failing(v, a.failed), Go(STOP_MODULE))
    else Quiet(v, false)
  }

  function StopModule(v: Vars, event: nat, a: Answer): Reaction<Vars> {
    if event == ENTERING then Does(v, Post(EVENT_PROCESS))
    else if event == EVENT_PROCESS then Does(v, Post(if a.more then EVENT_PROCESS else EVENT_DONE))
    else if event == EVENT_DONE then Does(Failing(v, a.failed), Go(IDLE))
    else Quiet(v, false)
  }

  // ---- machine ----

  const PARENT: seq<int> := [ROOT, IDLE, IDLE, ROOT, ROOT, DATA_EXCHANGE, DATA_EXCHANGE, DATA_EXCHANGE, DATA_EXCHANGE]
  const RANK: seq<nat> := [0, 0, 0, 1, 0, 0, 0, 0, 0]

  function App(): Machine<Vars, Answer> {
    Machine(PARENT, RANK, Handler)
  }

  type State = Config<Vars>

  // ---- the ledger of readings and commands ----

  /** What has to come next: anything, the removal of readings, the next waiting command, or the clearing that the last command
      asked for; `acked` if the commands follow a removal. */
  datatype Doing = Nothing | Acknowledging | Executing(acked: bool) | Clearing(acked: bool)

  /** What the facts say: whether all were in order, every reading ever stored, how many of them are gone, how many of the
      oldest remaining ones the send in progress published, how many commands wait, whether the application is receiving, what
      it is doing, whether an exchange failed for want of power since the last USB connection, and whether the battery monitor
      is on. */
  datatype Ledger = Ledger(ok: bool, stored: seq<Reading>, gone: nat, published: nat, waiting: nat, receiving: bool, doing: Doing,
                           low: bool, monitored: bool)

  function Read(facts: seq<Fact>): Ledger {
    if facts == [] then Ledger(true, [], 0, 0, 0, false, Nothing, false, false)
    else Next(Read(facts[..|facts| - 1]), facts[|facts| - 1])
  }

  function Capped(commands: nat): nat {
    if commands <= COMMANDS_SIZE then commands else COMMANDS_SIZE
  }

  /** All waiting commands are executed once the first one is. */
  function Remaining(waiting: nat, acked: bool): Doing {
    if waiting > 0 then Executing(acked) else Nothing
  }

  function Taken(waiting: nat): nat {
    if waiting > 0 then waiting - 1 else 0
  }

  function Next(l: Ledger, fact: Fact): Ledger {
    match fact
    case Stored(reading) => l.(ok := l.ok && l.doing.Nothing?, stored := l.stored + [reading])
    case SendStarted => l.(ok := l.ok && l.doing.Nothing?, published := 0)
    case Published(count) => l.(ok := l.ok && l.doing.Nothing? && l.gone + count <= |l.stored|, published := count)
    case ReceiveStarted => l.(ok := l.ok && l.doing.Nothing? && !l.receiving, receiving := true)
    case Arrived(count) => l.(ok := l.ok && l.doing.Nothing? && l.receiving, waiting := Capped(l.waiting + count))
    case Received(ok, commands) =>
      l.(ok := l.ok && l.doing.Nothing? && l.receiving && commands == l.waiting, receiving := false,
         doing := if ok && commands > 0 then Acknowledging else Nothing)
    case Removed(count) =>
      l.(ok := l.ok && l.doing.Acknowledging? && count == l.published, gone := l.gone + count, published := 0,
         doing := Remaining(l.waiting, true))
    case ReadingsCleared =>
      l.(ok := l.ok && l.doing.Clearing?, gone := |l.stored|, published := 0,
         doing := Remaining(l.waiting, l.doing.Clearing? && l.doing.acked))
    case Typed(count) =>
      l.(ok := l.ok && l.doing.Nothing?, waiting := Capped(l.waiting + count), doing := Remaining(Capped(l.waiting + count), false))
    case Executed(command, allowWrite) =>
      var acked := l.doing.Executing? && l.doing.acked;
      l.(ok := l.ok && l.doing.Executing? && (allowWrite <==> acked || !l.monitored) && (Writes(command) ==> allowWrite),
         waiting := Taken(l.waiting),
         doing := if ClearsReadings(command) then Clearing(acked) else Remaining(Taken(l.waiting), acked))
    case AnsweredBusy(command) =>
      l.(ok := l.ok && l.doing == Executing(false) && l.monitored && Writes(command), waiting := Taken(l.waiting),
         doing := Remaining(Taken(l.waiting), false))
    case MonitorEnabled => l.(ok := l.ok && l.doing.Nothing? && !l.low && !l.monitored, monitored := true)
    case MonitorDisabled(failed, voltage) =>
      l.(ok := l.ok && l.doing.Nothing? && l.monitored, monitored := false, low := l.low || (failed && voltage < MINIMUM_VOLTAGE))
    case UsbConnected => l.(ok := l.ok && l.doing.Nothing?, low := false)
  }

  lemma ReadNext(v: Vars, fact: Fact)
    ensures Read(Note(v, fact).facts) == Next(Read(v.facts), fact)
  {
    assert (v.facts + [fact])[..|v.facts|] == v.facts;
  }

  /** The readings still in the buffer are those stored and not gone, in order, and the commands in the buffer are counted. */
  ghost predicate Balanced(v: Vars) {
    var l := Read(v.facts);
    l.ok && l.gone <= |l.stored| && v.readings == l.stored[l.gone..] && l.waiting == |v.commands| <= COMMANDS_SIZE
  }

  /** What executing commands leaves as it is. */
  predicate SameStanding(l: Ledger, k: Ledger) {
    k.low == l.low && k.monitored == l.monitored && k.receiving == l.receiving
  }

  /** One round of `execute_commands` on the oldest waiting command. */
  function Round(v: Vars, allowWrite: bool): Vars
    requires v.commands != []
  {
    ExecutedOne(v, v.commands[0], allowWrite).(commands := v.commands[1..])
  }

  lemma {:induction false} RoundKeeps(v: Vars, allowWrite: bool, acked: bool)
    requires Balanced(v) && v.commands != [] && Read(v.facts).doing == Executing(acked)
    requires allowWrite <==> acked || !Read(v.facts).monitored
    ensures var r, l := Round(v, allowWrite), Read(v.facts);
            var k := Read(r.facts);
            && Balanced(r) && SameStanding(l, k) && k.doing == Remaining(|r.commands|, acked)
            && r == v.(readings := r.readings, facts := r.facts, commands := v.commands[1..])
            && (!allowWrite ==> r.readings == v.readings && k.published == l.published)
  {
    hide Read;
    var command := v.commands[0];
    ReadNext(v, AnsweredBusy(command));
    var done := Note(v, Executed(command, allowWrite));
    ReadNext(v, Executed(command, allowWrite));
    ReadNext(done, ReadingsCleared);
  }

  lemma {:induction false} ExecutedKeeps(v: Vars, allowWrite: bool, acked: bool)
    requires Balanced(v) && Read(v.facts).doing == Remaining(|v.commands|, acked)
    requires allowWrite <==> acked || !Read(v.facts).monitored
    ensures var r, l := ExecutedAll(v, allowWrite), Read(v.facts);
            var k := Read(r.facts);
            && Balanced(r) && SameStanding(l, k) && k.doing == Nothing
            && r == v.(readings := r.readings, facts := r.facts, commands := [])
            && (!allowWrite ==> r.readings == v.readings && k.published == l.published)
    decreases |v.commands|
  {
    hide Read, ExecutedOne;
    if v.commands != [] {
      RoundKeeps(v, allowWrite, acked);
      ExecutedKeeps(Round(v, allowWrite), allowWrite, acked);
    }
  }

  /** Commands that join those waiting are counted up to the size of the buffer. */
  lemma JoinCounts(commands: seq<Command>, more: seq<Command>)
    ensures |Last(commands + more, COMMANDS_SIZE)| == Capped(|commands| + |more|)
  {
  }

  // ---- leaving and entering ----

  lemma HandlerLeaves(v: Vars, s: nat, a: Answer)
    requires s < |PARENT|
    ensures Handler(v, s, LEAVING, a) == Quiet(if s == DATA_EXCHANGE then Disabled(v) else v, false)
  {
  }

  lemma {:induction false} LeavingTells(env: nat -> Answer, c: State, s: int)
    requires Structured(App(), c.current) && 0 <= s < |PARENT|
    ensures var r := Dispatch(App(), env, c, s, LEAVING, 0);
            r == (c.(vars := if s == DATA_EXCHANGE then Disabled(c.vars) else c.vars, log := r.0.log), false)
    decreases |PARENT| - s
  {
    hide Handler, Offer, Disabled;
    var k := c.current[s + 1];
    ChildOrNone(App(), c.current, s);
    if k == NO_STATE {
      HandlerLeaves(c.vars, s, env(|c.log|));
      Offer0(App(), env, c, s, LEAVING, 0);
    } else {
      LeavingTells(env, c, k);
      var inner := Dispatch(App(), env, c, k, LEAVING, 0).0;
      HandlerLeaves(inner.vars, s, env(|inner.log|));
      Offer0(App(), env, inner, s, LEAVING, 0);
    }
  }

  /** The configuration in which t is entered. */
  function Entering(c: State, t: nat, log: seq<Notice>): State
    requires Structured(App(), c.current) && t < |PARENT|
  {
    var p := PARENT[t];
    Config(c.current[p + 1 := t], c.queue, if c.current[p + 1] == DATA_EXCHANGE then Disabled(c.vars) else c.vars, log,
           c.fault || !Active(App(), c.current, p))
  }

  lemma EnteringKeeps(c: State, t: nat, log: seq<Notice>)
    requires Structured(App(), c.current) && t < |PARENT|
    ensures var e := Entering(c, t, log); Structured(App(), e.current) && e.queue == c.queue && e.log == log
    ensures forall log' :: Entering(c, t, log').(log := log) == Entering(c, t, log)
  {
    hide Active, Disabled;
  }

  lemma LeavingIs(env: nat -> Answer, c: State, t: nat)
    requires Structured(App(), c.current) && t < |PARENT|
    ensures Structured(App(), Left(App(), env, c, PARENT[t]).current)
    ensures var left := Left(App(), env, c, PARENT[t]);
            Moved(App(), left, t) == Entering(c, t, left.log)
  {
    hide Dispatch, Active, Disabled;
    var p := PARENT[t];
    ChildOrNone(App(), c.current, p);
    if c.current[p + 1] != NO_STATE {
      LeavingTells(env, c, c.current[p + 1]);
    }
  }

  lemma Arrives(env: nat -> Answer, c: State, t: nat) returns (x: Answer)
    requires Structured(App(), c.current) && t < |PARENT|
    ensures var r, e := Arriving(App(), env, c, t), Entering(c, t, Arriving(App(), env, c, t).log);
            && Structured(App(), r.current) && r.queue == c.queue
            && r == e.(vars := Handler(e.vars, t, ENTERING, x).vars)
            && Entry(App(), env, c, t) == Handler(e.vars, t, ENTERING, x).actions
  {
    hide Handler, Left, Entering, Structured;
    LeavingIs(env, c, t);
    var left := Left(App(), env, c, PARENT[t]);
    EnteringKeeps(c, t, left.log);
    EnteringKeeps(c, t, Arriving(App(), env, c, t).log);
    x := env(|Moved(App(), left, t).log|);
  }

  lemma Leaf(c: State, t: nat)
    requires Structured(App(), c.current) && t < |PARENT| && t != IDLE && t != DATA_EXCHANGE
    ensures c.current[t + 1] == NO_STATE
  {
    ChildOrNone(App(), c.current, t);
  }

  /** The variables after the entry of a state of an exchange. */
  function Begun(v: Vars, t: nat): Vars {
    match t
    case 5 => Note(v, SendStarted).(sent := 0, operation := Sending)
    case 6 => Note(v, ReceiveStarted).(operation := Receiving)
    case 7 => v.(operation := Ending)
    case _ => v
  }

  lemma ToStep(env: nat -> Answer, c: State, t: nat, bound: nat)
    requires Structured(App(), c.current) && SEND <= t <= STOP_MODULE && bound > 0
    ensures var r := Transitioned(App(), env, c, t, bound);
            var e := Entering(c, t, r.log);
            r == e.(vars := Begun(e.vars, t), queue := Posted(c.queue, EVENT_PROCESS))
  {
    hide Transitioned, EnterChildren, Posted, Structured, Entering, Arriving, Entry;
    var x := Arrives(env, c, t);
    var a := Arriving(App(), env, c, t);
    Enter1(App(), env, c, t, Post(EVENT_PROCESS), bound);
    Leaf(a, t);
    NoChildren(App(), env, a.(queue := Posted(a.queue, EVENT_PROCESS)), t, 0);
    EnteringKeeps(c, t, a.log);
  }

  lemma ToNormal(env: nat -> Answer, c: State, bound: nat)
    requires Structured(App(), c.current) && bound > 0
    ensures var r := Transitioned(App(), env, c, NORMAL, bound);
            var e := Entering(c, NORMAL, r.log);
            r == e.(vars := e.vars.(brownout := false))
  {
    hide Transitioned, EnterChildren, Structured, Entering, Arriving, Entry;
    var x := Arrives(env, c, NORMAL);
    var a := Arriving(App(), env, c, NORMAL);
    Enter0(App(), env, c, NORMAL, bound);
    Leaf(a, NORMAL);
    NoChildren(App(), env, a, NORMAL, 0);
  }

  /** A new exchange begins with sending. */
  lemma ToDataExchange(env: nat -> Answer, c: State, bound: nat)
    requires Structured(App(), c.current) && bound > 0
    ensures |c.current| == 10
    ensures var r := Transitioned(App(), env, c, DATA_EXCHANGE, bound);
            var e := Entering(c, DATA_EXCHANGE, r.log);
            r == e.(vars := Begun(Note(e.vars, MonitorEnabled).(failed := false), SEND),
                    current := e.current[DATA_EXCHANGE + 1 := SEND], queue := Posted(c.queue, EVENT_PROCESS))
  {
    hide Transitioned, Acted, EnterChildren, Entering, Arriving, Entry, Posted;
    var x := Arrives(env, c, DATA_EXCHANGE);
    var a := Arriving(App(), env, c, DATA_EXCHANGE);
    EnterAndChoose(App(), env, c, DATA_EXCHANGE, SEND, bound);
    EntersSend(env, a.(current := a.current[DATA_EXCHANGE + 1 := SEND]));
    EnteringKeeps(c, DATA_EXCHANGE, a.log);
    EnteringKeeps(c, DATA_EXCHANGE, Transitioned(App(), env, c, DATA_EXCHANGE, bound).log);
  }

  lemma {:induction false} EntersSend(env: nat -> Answer, c: State)
    requires Structured(App(), c.current) && |c.current| == 10 && c.current[DATA_EXCHANGE + 1] == SEND
    ensures var r := EnterChildren(App(), env, c, DATA_EXCHANGE, 0);
            r == c.(vars := Begun(c.vars, SEND), queue := Posted(c.queue, EVENT_PROCESS), log := r.log)
  {
    hide Offer, Posted, Handler, Begun;
    SendEntry(c.vars, env(|c.log|));
    Offer1(App(), env, c, SEND, ENTERING, Post(EVENT_PROCESS), 0);
    var r := Offer(App(), env, c, SEND, ENTERING, 0).0;
    Leaf(r, SEND);
    NoChildren(App(), env, r, SEND, 0);
  }

  lemma SendEntry(v: Vars, a: Answer)
    ensures Handler(v, SEND, ENTERING, a) == Does(Begun(v, SEND), Post(EVENT_PROCESS))
  {
  }

  /** The child of the idle state. */
  function Resting(v: Vars): nat {
    if v.brownout then BROWNOUT else NORMAL
  }

  lemma {:induction false} ToIdle(env: nat -> Answer, c: State, bound: nat)
    requires Structured(App(), c.current) && bound > 0
    ensures |c.current| == 10
    ensures var r := Transitioned(App(), env, c, IDLE, bound);
            var e := Entering(c, IDLE, r.log);
            r == e.(current := e.current[IDLE + 1 := Resting(e.vars)])
  {
    hide Transitioned, Acted, EnterChildren, Entering, Arriving, Entry;
    var x := Arrives(env, c, IDLE);
    var a := Arriving(App(), env, c, IDLE);
    EnterAndChoose(App(), env, c, IDLE, Resting(a.vars), bound);
    EntersResting(env, a.(current := a.current[IDLE + 1 := Resting(a.vars)]));
    EnteringKeeps(c, IDLE, a.log);
    EnteringKeeps(c, IDLE, Transitioned(App(), env, c, IDLE, bound).log);
  }

  lemma {:induction false} EntersResting(env: nat -> Answer, c: State)
    requires Structured(App(), c.current) && |c.current| == 10 && c.current[IDLE + 1] == Resting(c.vars)
    ensures var r := EnterChildren(App(), env, c, IDLE, 0); r == c.(log := r.log)
  {
    hide Offer;
    var k := Resting(c.vars);
    Offer0(App(), env, c, k, ENTERING, 0);
    var r := Offer(App(), env, c, k, ENTERING, 0).0;
    Leaf(r, k);
    NoChildren(App(), env, r, k, 0);
  }

  /** Acquisition asks the sensors and goes back to the idle state. */
  lemma {:induction false} ToAcquisition(env: nat -> Answer, c: State, bound: nat)
    requires Structured(App(), c.current) && |c.current| == 10 && bound > 1 && c.current[0] == IDLE
    ensures var r := Transitioned(App(), env, c, ACQUISITION, bound);
            r == c.(current := c.current[0 := IDLE][IDLE + 1 := Resting(c.vars)], log := r.log)
  {
    hide Transitioned, EnterChildren, Structured, Arriving, Entry;
    var x := Arrives(env, c, ACQUISITION);
    var a := Arriving(App(), env, c, ACQUISITION);
    ToIdle(env, a, 1);
    var r := Transitioned(App(), env, a, IDLE, 1);
    Leaf(r, ACQUISITION);
    EnterAndGo(App(), env, c, ACQUISITION, IDLE, bound);
  }

  // ---- what every step keeps ----

  predicate AtRest(current: seq<int>)
    requires |current| == 10
  {
    || (current[0] == IDLE && current[IDLE + 1] in {BROWNOUT, NORMAL})
    || (current[0] == DATA_EXCHANGE && SEND <= current[DATA_EXCHANGE + 1] <= STOP_MODULE)
  }

  predicate Exchanging(current: seq<int>, s: nat)
    requires |current| == 10
  {
    current[0] == DATA_EXCHANGE && current[DATA_EXCHANGE + 1] == s
  }

  /** The ledger balances and nothing is half done; the monitor is on exactly during an exchange; lack of power keeps the
      brownout state active; and while sending or receiving, what is counted as sent is what was published. */
  ghost predicate VarsAgree(v: Vars, current: seq<int>)
    requires |current| == 10
  {
    var l := Read(v.facts);
    && Balanced(v) && l.doing.Nothing?
    && (l.monitored <==> current[0] == DATA_EXCHANGE)
    && (l.receiving <==> Exchanging(current, RECEIVE))
    && (l.low ==> v.brownout)
    && (v.brownout <==> current[0] == IDLE && current[IDLE + 1] == BROWNOUT)
    && (Exchanging(current, SEND) || Exchanging(current, RECEIVE) ==> v.sent == l.published <= |v.readings|)
    && Operating(v.operation, current)
  }

  /** The process handle is that of the state. */
  predicate Operating(operation: Operation, current: seq<int>)
    requires |current| == 10
  {
    && (Exchanging(current, SEND) ==> operation == Sending)
    && (Exchanging(current, RECEIVE) ==> operation == Receiving)
    && (Exchanging(current, DISCONNECT) ==> operation == Ending)
  }

  predicate OnlyEvents(queue: seq<nat>) {
    forall e :: e in queue ==> e <= EVENT_RESET
  }

  ghost predicate Good(c: State) {
    && Structured(App(), c.current) && |c.current| == 10
    && !c.fault && AtRest(c.current) && VarsAgree(c.vars, c.current) && OnlyEvents(c.queue)
  }

  ghost predicate Keeps(c: State, r: (State, bool)) {
    Good(r.0) && (r.1 || r.0 == c.(log := r.0.log))
  }

  lemma {:induction false} PostedEvents(queue: seq<nat>, e: nat)
    requires OnlyEvents(queue) && e <= EVENT_RESET
    ensures OnlyEvents(Posted(queue, e))
  {
    PostedMembers(queue, e);
  }

  lemma {:induction false} PostedAllEvents(queue: seq<nat>, events: seq<nat>)
    requires OnlyEvents(queue) && forall e :: e in events ==> e <= EVENT_RESET
    ensures OnlyEvents(PostedAll(queue, events))
    decreases |events|
  {
    if events != [] {
      assert events[0] in events && forall e :: e in events[1..] ==> e in events;
      PostedEvents(queue, events[0]);
      PostedAllEvents(Posted(queue, events[0]), events[1..]);
    }
  }

  lemma {:induction false} RaisedEvents(commands: seq<Command>, allowWrite: bool)
    ensures forall e :: e in RaisedAll(commands, allowWrite) ==> e <= EVENT_RESET
  {
    if commands != [] {
      RaisedEvents(commands[1..], allowWrite);
    }
  }

  lemma Passes(env: nat -> Answer, c: State, s: int, event: nat, bound: nat)
    requires Good(c) && IsState(App(), s)
    requires var r := Handler(c.vars, s, event, env(|c.log|)); r.vars == c.vars && r.actions == []
    ensures var r := Offer(App(), env, c, s, event, bound);
            Keeps(c, r) && r == (c.(log := r.0.log), Handler(c.vars, s, event, env(|c.log|)).consumed)
  {
    hide Handler, Offer, Structured, Read;
    Offer0(App(), env, c, s, event, bound);
  }

  lemma {:induction false} Reposts(env: nat -> Answer, c: State, s: int, event: nat, v: Vars, e: nat, bound: nat)
    requires Good(c) && IsState(App(), s) && e <= EVENT_RESET
    requires Handler(c.vars, s, event, env(|c.log|)) == Does(v, Post(e)) && VarsAgree(v, c.current)
    ensures var r := Offer(App(), env, c, s, event, bound);
            Keeps(c, r) && r == (c.(vars := v, queue := Posted(c.queue, e), log := r.0.log), true)
  {
    hide Handler, Offer, Structured, Posted, Read;
    Offer1(App(), env, c, s, event, Post(e), bound);
    PostedEvents(c.queue, e);
  }

  lemma FilledKeeps(v: Vars, typed: seq<Command>)
    requires Balanced(v) && Read(v.facts).doing.Nothing?
    ensures var r, l := Filled(v, typed), Read(v.facts);
            && Balanced(r) && SameStanding(l, Read(r.facts)) && r == v.(commands := r.commands, facts := r.facts)
            && Read(r.facts).doing == Remaining(|r.commands|, false) && Read(r.facts).published == l.published
  {
    hide Read, Last;
    ReadNext(v, Typed(|typed|));
    JoinCounts(v.commands, typed);
  }

  /** Commands executed while idle or during an exchange. */
  lemma CommandedKeeps(env: nat -> Answer, c: State, s: nat, allowWrite: bool, bound: nat)
    requires Good(c) && s < |PARENT| && (allowWrite <==> c.current[0] == IDLE)
    requires var a := env(|c.log|); Handler(c.vars, s, EVENT_COMMAND_RECEIVED, a) == Commanded(c.vars, a.typed, allowWrite)
    ensures var r, filled := Offer(App(), env, c, s, EVENT_COMMAND_RECEIVED, bound), Filled(c.vars, env(|c.log|).typed);
            && Keeps(c, r) && r.1
            && r.0 == c.(vars := ExecutedAll(filled, allowWrite), queue := PostedAll(c.queue, RaisedAll(filled.commands, allowWrite)),
                         log := r.0.log)
  {
    hide Handler, Structured, Posted, Read, ExecutedAll, RaisedAll, Last, Performed, Filled;
    var a := env(|c.log|);
    var filled := Filled(c.vars, a.typed);
    FilledKeeps(c.vars, a.typed);
    ExecutedKeeps(filled, allowWrite, false);
    var raised := RaisedAll(filled.commands, allowWrite);
    RaisedEvents(filled.commands, allowWrite);
    PostedAllEvents(c.queue, raised);
    var told := Told(App(), env, c, s, EVENT_COMMAND_RECEIVED);
    PerformedPosts(App(), env, told, s, raised, [], bound);
    assert Posts(raised) + [] == Posts(raised);
    NothingPerformed(env, told.(queue := PostedAll(told.queue, raised)), s, bound);
  }

  lemma NothingPerformed(env: nat -> Answer, c: State, s: nat, bound: nat)
    requires Structured(App(), c.current) && s < |PARENT|
    ensures Performed(App(), env, c, s, [], bound) == c
  {
  }

  /** A heartbeat or an alarm starts an exchange with sending. */
  lemma NormalOffer(env: nat -> Answer, c: State, event: nat, bound: nat)
    requires Good(c) && event <= EVENT_RESET && bound > 1 && c.current[0] == IDLE && c.current[IDLE + 1] == NORMAL
    ensures var r := Offer(App(), env, c, NORMAL, event, bound);
            && Keeps(c, r) && (r.1 <==> event == EVENT_ALARM || event == EVENT_HEARTBEAT)
            && (r.1 ==> r.0 == Underway(c.(current := c.current[0 := DATA_EXCHANGE]),
                                        Begun(Note(c.vars, MonitorEnabled).(failed := false), SEND), SEND, r.0.log))
  {
    hide Offer, Transitioned, Structured, Posted, Read;
    if event == EVENT_ALARM || event == EVENT_HEARTBEAT {
      var told := Told(App(), env, c, NORMAL, event);
      Offer1(App(), env, c, NORMAL, event, Go(DATA_EXCHANGE), bound);
      ToDataExchange(env, told, bound);
      ReadNext(c.vars, MonitorEnabled);
      ReadNext(Note(c.vars, MonitorEnabled), SendStarted);
      PostedEvents(c.queue, EVENT_PROCESS);
    } else {
      Passes(env, c, NORMAL, event, bound);
    }
  }

  /** Only a USB connection ends a brownout; it is not consumed, so that the outer states hear of it too. Heartbeats and alarms
      are consumed without effect. */
  lemma BrownoutOffer(env: nat -> Answer, c: State, event: nat, bound: nat)
    requires Good(c) && event <= EVENT_RESET && bound > 1 && c.current[0] == IDLE && c.current[IDLE + 1] == BROWNOUT
    ensures var r := Offer(App(), env, c, BROWNOUT, event, bound);
            && Good(r.0) && (r.1 <==> event == EVENT_ALARM || event == EVENT_HEARTBEAT)
            && r.0 == if event == EVENT_USB_CONNECTED
                      then c.(vars := Note(c.vars, UsbConnected).(brownout := false), current := c.current[IDLE + 1 := NORMAL], log := r.0.log)
                      else c.(log := r.0.log)
  {
    hide Offer, Transitioned, Structured, Read;
    if event == EVENT_USB_CONNECTED {
      var told := Told(App(), env, c, BROWNOUT, event);
      Offer1(App(), env, c, BROWNOUT, event, Go(NORMAL), bound);
      ToNormal(env, told, bound);
      ReadNext(c.vars, UsbConnected);
    } else {
      Passes(env, c, BROWNOUT, event, bound);
    }
  }

  /** Commands may write; acquisition needs sensors and room, and is over at once, with the child chosen anew. */
  lemma IdleOffer(env: nat -> Answer, c: State, event: nat, bound: nat)
    requires Good(c) && event <= EVENT_RESET && bound > 1 && c.current[0] == IDLE
    ensures var r, a := Offer(App(), env, c, IDLE, event, bound), env(|c.log|);
            && Keeps(c, r) && (r.1 <==> event in {EVENT_ACQUIRE, EVENT_COMMAND_RECEIVED, EVENT_RESET})
            && if event == EVENT_COMMAND_RECEIVED then
                 r.0.vars == ExecutedAll(Filled(c.vars, a.typed), true) && r.0.current == c.current
               else
                 r.0 == c.(log := r.0.log)
  {
    hide Offer, Transitioned, Structured, Read, Commanded, ExecutedAll, Filled;
    var x := env(|c.log|);
    if event == EVENT_COMMAND_RECEIVED {
      CommandedKeeps(env, c, IDLE, true, bound);
    } else if event == EVENT_ACQUIRE && x.sensorsOn && |c.vars.readings| < READINGS_SIZE {
      Offer1(App(), env, c, IDLE, event, Go(ACQUISITION), bound);
      ToAcquisition(env, Told(App(), env, c, IDLE, event), bound);
    } else {
      Passes(env, c, IDLE, event, bound);
    }
  }

  /** Commands may not write; the process handle is called until it is done. */
  lemma DataExchangeOffer(env: nat -> Answer, c: State, event: nat, bound: nat)
    requires Good(c) && event <= EVENT_RESET && bound > 1 && c.current[0] == DATA_EXCHANGE
    requires event == EVENT_PROCESS ==> c.current[DATA_EXCHANGE + 1] != STOP_MODULE
    ensures var r, a := Offer(App(), env, c, DATA_EXCHANGE, event, bound), env(|c.log|);
            && Keeps(c, r) && r.0.current == c.current && (r.1 <==> event == EVENT_COMMAND_RECEIVED || event == EVENT_PROCESS)
            && (event == EVENT_COMMAND_RECEIVED ==> r.0.vars == ExecutedAll(Filled(c.vars, a.typed), false))
            && (event == EVENT_PROCESS ==>
                  r.0 == c.(vars := Processing(c.vars, a), queue := Posted(c.queue, if a.more then EVENT_PROCESS else EVENT_DONE),
                            log := r.0.log))
  {
    hide Offer, Structured, Read, Commanded, ExecutedAll, Filled, Processing, Posted;
    var x := env(|c.log|);
    if event == EVENT_COMMAND_RECEIVED {
      CommandedKeeps(env, c, DATA_EXCHANGE, false, bound);
    } else if event == EVENT_PROCESS {
      ProcessingKeeps(c.vars, x, c.current);
      Reposts(env, c, DATA_EXCHANGE, event, Processing(c.vars, x), if x.more then EVENT_PROCESS else EVENT_DONE, bound);
    } else {
      Passes(env, c, DATA_EXCHANGE, event, bound);
    }
  }

  lemma ProcessingKeeps(v: Vars, x: Answer, current: seq<int>)
    requires |current| == 10 && AtRest(current) && VarsAgree(v, current)
    requires current[0] == DATA_EXCHANGE && current[DATA_EXCHANGE + 1] != STOP_MODULE
    ensures VarsAgree(Processing(v, x), current)
  {
    hide Read, Last;
    var count := if x.published <= |v.readings| then x.published else |v.readings|;
    ReadNext(v, Published(count));
    ReadNext(v, Arrived(|x.received|));
    JoinCounts(v.commands, x.received);
  }

  /** c in the state k of an exchange, with the variables v and more to process. */
  function Underway(c: State, v: Vars, k: nat, log: seq<Notice>): State
    requires |c.current| == 10
  {
    c.(vars := v, current := c.current[DATA_EXCHANGE + 1 := k], queue := Posted(c.queue, EVENT_PROCESS), log := log)
  }

  /** From one state of an exchange to another one. */
  lemma NextStep(env: nat -> Answer, c: State, t: nat, bound: nat)
    requires Structured(App(), c.current) && |c.current| == 10 && bound > 0 && SEND <= t <= STOP_MODULE
    requires !c.fault && c.current[0] == DATA_EXCHANGE && SEND <= c.current[DATA_EXCHANGE + 1] <= STOP_MODULE
    requires Balanced(c.vars) && !c.vars.brownout && OnlyEvents(c.queue)
    requires var l := Read(c.vars.facts); l.monitored && !l.low && !l.receiving && l.doing.Nothing?
    requires t == RECEIVE ==> c.vars.sent == Read(c.vars.facts).published <= |c.vars.readings|
    ensures var r := Transitioned(App(), env, c, t, bound); Good(r) && r == Underway(c, Begun(c.vars, t), t, r.log)
  {
    hide Transitioned, Structured, Posted, Read;
    ToStep(env, c, t, bound);
    ReadNext(c.vars, SendStarted);
    ReadNext(c.vars, ReceiveStarted);
    PostedEvents(c.queue, EVENT_PROCESS);
    assert Active(App(), c.current, DATA_EXCHANGE);
  }

  /** The reaction to the end of an operation that leads to the state k, with the variables v before it is entered. */
  ghost predicate EndsIn(c: State, r: (State, bool), v: Vars, k: nat)
    requires |c.current| == 10
  {
    r.1 && r.0 == Underway(c, Begun(v, k), k, r.0.log)
  }

  lemma SendOffer(env: nat -> Answer, c: State, event: nat, bound: nat)
    requires Good(c) && event <= EVENT_RESET && bound > 1 && Exchanging(c.current, SEND)
    ensures var r, failed := Offer(App(), env, c, SEND, event, bound), env(|c.log|).failed;
            && Keeps(c, r) && (r.1 <==> event == EVENT_DONE)
            && (r.1 ==> EndsIn(c, r, Failing(c.vars, failed), if failed then STOP_MODULE else RECEIVE))
  {
    hide Offer, Transitioned, Structured, Read, Posted;
    if event == EVENT_DONE {
      var t := if env(|c.log|).failed then STOP_MODULE else RECEIVE;
      Offer1(App(), env, c, SEND, event, Go(t), bound);
      NextStep(env, Told(App(), env, c, SEND, event), t, bound);
    } else {
      Passes(env, c, SEND, event, bound);
    }
  }

  lemma DisconnectOffer(env: nat -> Answer, c: State, event: nat, bound: nat)
    requires Good(c) && event <= EVENT_RESET && bound > 1 && Exchanging(c.current, DISCONNECT)
    ensures var r := Offer(App(), env, c, DISCONNECT, event, bound);
            && Keeps(c, r) && (r.1 <==> event == EVENT_DONE)
            && (r.1 ==> EndsIn(c, r, Failing(c.vars, env(|c.log|).failed), STOP_MODULE))
  {
    hide Offer, Transitioned, Structured, Read, Posted;
    if event == EVENT_DONE {
      Offer1(App(), env, c, DISCONNECT, event, Go(STOP_MODULE), bound);
      NextStep(env, Told(App(), env, c, DISCONNECT, event), STOP_MODULE, bound);
    } else {
      Passes(env, c, DISCONNECT, event, bound);
    }
  }

  /** The exchange is over when the module has stopped: the outcome is settled, and the idle state chooses its child. */
  lemma StopModuleOffer(env: nat -> Answer, c: State, event: nat, bound: nat)
    requires Good(c) && event <= EVENT_RESET && bound > 1 && Exchanging(c.current, STOP_MODULE)
    ensures var r, a := Offer(App(), env, c, STOP_MODULE, event, bound), env(|c.log|);
            && Keeps(c, r) && (r.1 <==> event == EVENT_PROCESS || event == EVENT_DONE)
            && (event == EVENT_PROCESS ==>
                  r.0 == c.(queue := Posted(c.queue, if a.more then EVENT_PROCESS else EVENT_DONE), log := r.0.log))
            && (event == EVENT_DONE ==>
                  var v := Disabled(Failing(c.vars, a.failed));
                  r.0 == c.(vars := v, current := c.current[0 := IDLE][IDLE + 1 := Resting(v)], log := r.0.log))
  {
    hide Offer, Transitioned, Structured, Read, Posted;
    var x := env(|c.log|);
    if event == EVENT_PROCESS {
      Reposts(env, c, STOP_MODULE, event, c.vars, if x.more then EVENT_PROCESS else EVENT_DONE, bound);
    } else if event == EVENT_DONE {
      var told := Told(App(), env, c, STOP_MODULE, event);
      Offer1(App(), env, c, STOP_MODULE, event, Go(IDLE), bound);
      ToIdle(env, told, bound);
      var v := Failing(c.vars, x.failed);
      ReadNext(v, MonitorDisabled(v.failed, v.voltage));
    } else {
      Passes(env, c, STOP_MODULE, event, bound);
    }
  }

  /** The variables when readings have been removed and the waiting commands executed. */
  function Acked(v: Vars): Vars {
    ExecutedAll(Note(Note(v, Received(true, |v.commands|)), Removed(v.sent)).(readings := Rest(v.readings, v.sent)), true)
  }

  /** Readings are removed, and the waiting commands executed with leave to write, exactly at the end of a receive that
      succeeded with commands waiting; then sending goes on if readings are left. */
  lemma ReceiveOffer(env: nat -> Answer, c: State, event: nat, bound: nat)
    requires Good(c) && event <= EVENT_RESET && bound > 1 && Exchanging(c.current, RECEIVE)
    ensures var r, v, failed := Offer(App(), env, c, RECEIVE, event, bound), c.vars, env(|c.log|).failed;
            && Keeps(c, r) && (r.1 <==> event == EVENT_DONE)
            && (r.1 && (failed || v.commands == []) ==>
                  EndsIn(c, r, Note(Failing(v, failed), Received(!failed, |v.commands|)), if failed then STOP_MODULE else DISCONNECT))
            && (r.1 && !failed && v.commands != [] ==>
                  EndsIn(c.(queue := PostedAll(c.queue, RaisedAll(v.commands, true))), r, Acked(v),
                         if |Acked(v).readings| > 0 then SEND else DISCONNECT))
  {
    hide Offer, Transitioned, Structured, Read, Acknowledged, EndsIn, Acked;
    if event != EVENT_DONE {
      Passes(env, c, RECEIVE, event, bound);
    } else {
      AcknowledgedKeeps(env, c, bound);
    }
  }

  lemma AcknowledgedKeeps(env: nat -> Answer, c: State, bound: nat)
    requires Good(c) && bound > 1 && Exchanging(c.current, RECEIVE)
    requires Handler(c.vars, RECEIVE, EVENT_DONE, env(|c.log|)) == Acknowledged(c.vars, env(|c.log|).failed)
    ensures var r, v, failed := Offer(App(), env, c, RECEIVE, EVENT_DONE, bound), c.vars, env(|c.log|).failed;
            && Keeps(c, r) && r.1
            && (failed || v.commands == [] ==>
                  EndsIn(c, r, Note(Failing(v, failed), Received(!failed, |v.commands|)), if failed then STOP_MODULE else DISCONNECT))
            && (!failed && v.commands != [] ==>
                  EndsIn(c.(queue := PostedAll(c.queue, RaisedAll(v.commands, true))), r, Acked(v),
                         if |Acked(v).readings| > 0 then SEND else DISCONNECT))
  {
    hide Offer, Transitioned, Structured, Read, ExecutedAll, RaisedAll, Handler, Rest, Posted;
    var failed := env(|c.log|).failed;
    var told := Told(App(), env, c, RECEIVE, EVENT_DONE);
    if failed || c.vars.commands == [] {
      ReadNext(Failing(c.vars, failed), Received(!failed, |c.vars.commands|));
      var t := if failed then STOP_MODULE else DISCONNECT;
      Offer1(App(), env, c, RECEIVE, EVENT_DONE, Go(t), bound);
      NextStep(env, told, t, bound);
    } else {
      AckedKeeps(c.vars);
      assert Failing(c.vars, false) == c.vars;
      RemovesAndGoes(env, c, Acked(c.vars), bound);
    }
  }

  lemma AckedKeeps(v: Vars)
    requires Balanced(v) && v.commands != [] && v.sent == Read(v.facts).published <= |v.readings|
    requires Read(v.facts).doing.Nothing? && Read(v.facts).receiving
    ensures var r, l := Acked(v), Read(v.facts);
            && Balanced(r) && Read(r.facts).doing.Nothing? && !Read(r.facts).receiving
            && Read(r.facts).low == l.low && Read(r.facts).monitored == l.monitored && r.brownout == v.brownout
  {
    hide Read, ExecutedAll, Rest;
    var received := Note(v, Received(true, |v.commands|));
    ReadNext(v, Received(true, |v.commands|));
    RemovedKeeps(v, received);
    ExecutedKeeps(Note(received, Removed(v.sent)).(readings := Rest(v.readings, v.sent)), true, true);
  }

  lemma RemovedKeeps(v: Vars, received: Vars)
    requires Balanced(v) && v.commands != [] && v.sent == Read(v.facts).published <= |v.readings|
    requires received == v.(facts := received.facts)
    requires Read(received.facts) == Read(v.facts).(receiving := false, doing := Acknowledging)
    ensures var removed := Note(received, Removed(v.sent)).(readings := Rest(v.readings, v.sent));
            && Balanced(removed) && SameStanding(Read(received.facts), Read(removed.facts))
            && Read(removed.facts).doing == Executing(true)
  {
    hide Read;
    ReadNext(received, Removed(v.sent));
  }

  lemma RemovesAndGoes(env: nat -> Answer, c: State, v: Vars, bound: nat)
    requires Good(c) && bound > 1 && Exchanging(c.current, RECEIVE)
    requires Balanced(v) && !v.brownout
    requires var l := Read(v.facts); l.monitored && !l.low && !l.receiving && l.doing.Nothing?
    requires Handler(c.vars, RECEIVE, EVENT_DONE, env(|c.log|))
             == Reaction(v, true, Posts(RaisedAll(c.vars.commands, true)) + [Go(if |v.readings| > 0 then SEND else DISCONNECT)])
    ensures var r := Offer(App(), env, c, RECEIVE, EVENT_DONE, bound);
            && Keeps(c, r)
            && EndsIn(c.(queue := PostedAll(c.queue, RaisedAll(c.vars.commands, true))), r, v, if |v.readings| > 0 then SEND else DISCONNECT)
  {
    hide Transitioned, Structured, Read, Handler, RaisedAll, Performed, Posted;
    var t := if |v.readings| > 0 then SEND else DISCONNECT;
    var raised := RaisedAll(c.vars.commands, true);
    RaisedEvents(c.vars.commands, true);
    PostedAllEvents(c.queue, raised);
    var told := Told(App(), env, c, RECEIVE, EVENT_DONE);
    PerformedPosts(App(), env, told, RECEIVE, raised, [Go(t)], bound);
    var posted := told.(queue := PostedAll(told.queue, raised));
    OneGo(env, posted, RECEIVE, t, bound);
    NextStep(env, posted, t, bound);
  }

  lemma OneGo(env: nat -> Answer, c: State, s: nat, t: nat, bound: nat)
    requires Structured(App(), c.current) && s < |PARENT|
    ensures Performed(App(), env, c, s, [Go(t)], bound) == Transitioned(App(), env, c, t, bound)
  {
    hide Transitioned, Structured;
    assert [Go(t)][1..] == [];
  }

  lemma RootOffer(env: nat -> Answer, c: State, event: nat, bound: nat)
    requires Good(c) && event <= EVENT_RESET
    ensures Good(Offer(App(), env, c, ROOT, event, bound).0)
  {
    hide Offer, Structured, Read;
    if event == EVENT_USB_CONNECTED {
      Offer0(App(), env, c, ROOT, event, bound);
      ReadNext(c.vars, UsbConnected);
    } else if event == EVENT_ACQUIRE || event == EVENT_HEARTBEAT {
      Reposts(env, c, ROOT, event, c.vars, event, bound);
    } else {
      Passes(env, c, ROOT, event, bound);
    }
  }

  lemma LeafOffer(env: nat -> Answer, c: State, event: nat, bound: nat)
    requires Good(c) && event <= EVENT_RESET && bound > 1 && c.current[0] == DATA_EXCHANGE
    ensures var k := c.current[DATA_EXCHANGE + 1];
            var r := Offer(App(), env, c, k, event, bound);
            Keeps(c, r) && (event == EVENT_PROCESS && k == STOP_MODULE ==> r.1)
  {
    hide Offer, Structured, Read, VarsAgree, Underway, EndsIn, Acked, Failing, Disabled;
    match c.current[DATA_EXCHANGE + 1]
    case 5 => SendOffer(env, c, event, bound);
    case 6 => ReceiveOffer(env, c, event, bound);
    case 7 => DisconnectOffer(env, c, event, bound);
    case _ => StopModuleOffer(env, c, event, bound);
  }

  lemma ExchangeDispatch(env: nat -> Answer, c: State, event: nat, bound: nat)
    requires Good(c) && event <= EVENT_RESET && bound > 1 && c.current[0] == DATA_EXCHANGE
    ensures Keeps(c, Dispatch(App(), env, c, DATA_EXCHANGE, event, bound))
  {
    hide Offer, Read, VarsAgree;
    var k := c.current[DATA_EXCHANGE + 1];
    Leaf(c, k);
    LeafOffer(env, c, event, bound);
    var inner := Offer(App(), env, c, k, event, bound);
    assert Dispatch(App(), env, c, k, event, bound) == inner;
    if !inner.1 {
      DataExchangeOffer(env, inner.0, event, bound);
    }
  }

  lemma IdleDispatch(env: nat -> Answer, c: State, event: nat, bound: nat)
    requires Good(c) && event <= EVENT_RESET && bound > 1 && c.current[0] == IDLE
    ensures Good(Dispatch(App(), env, c, IDLE, event, bound).0)
  {
    hide Offer, Read, VarsAgree;
    var k := c.current[IDLE + 1];
    Leaf(c, k);
    if k == NORMAL {
      NormalOffer(env, c, event, bound);
    } else {
      BrownoutOffer(env, c, event, bound);
    }
    var inner := Offer(App(), env, c, k, event, bound);
    assert Dispatch(App(), env, c, k, event, bound) == inner;
    if !inner.1 {
      IdleOffer(env, inner.0, event, bound);
    }
  }

  lemma DispatchKeeps(env: nat -> Answer, c: State, event: nat, bound: nat)
    requires Good(c) && event <= EVENT_RESET && bound > 1
    ensures Good(Dispatch(App(), env, c, ROOT, event, bound).0)
  {
    hide Offer, Read, VarsAgree;
    if c.current[0] == IDLE {
      IdleDispatch(env, c, event, bound);
    } else {
      ExchangeDispatch(env, c, event, bound);
    }
    var inner := Dispatch(App(), env, c, c.current[0], event, bound);
    if !inner.1 {
      RootOffer(env, inner.0, event, bound);
    }
  }

  // ---- runs ----

  /** What may happen to the application: an event raised by a listener, readings of the sensors, a battery voltage, a
      call of the process handle. */
  datatype Input =
    | Raise(event: nat)
    | Sense(reading: Reading)
    | Measure(voltage: nat)
    | CallHandle

  /** `store_sensor_readings`: refused by a full buffer. */
  function Sensed(v: Vars, reading: Reading): Vars {
    if |v.readings| < READINGS_SIZE then Note(v, Stored(reading)).(readings := v.readings + [reading]) else v
  }

  /** `battery_voltage_listener`: the least voltage of the exchange. */
  function Measured(v: Vars, voltage: nat): Vars {
    if v.voltage == 0 || voltage < v.voltage then v.(voltage := voltage) else v
  }

  function Stepped(env: nat -> Answer, c: State, input: Input): (r: State)
    requires Structured(App(), c.current)
    ensures Structured(App(), r.current)
  {
    match input
    case Raise(event) => if event <= EVENT_ALARM then c.(queue := Posted(c.queue, event)) else c
    case Sense(reading) => c.(vars := Sensed(c.vars, reading))
    case Measure(voltage) => c.(vars := Measured(c.vars, voltage))
    case CallHandle => Processed(App(), env, c).0
  }

  datatype StartType = PowerOn | BrownoutReset | WatchdogReset

  /** The states as `init_wolksensor` sets them; `states[IDLE]` depends on the kind of start. */
  function Start(start: StartType): (current: seq<int>)
    ensures Structured(App(), current)
  {
    [IDLE, if start == BrownoutReset then BROWNOUT else NORMAL, NO_STATE, NO_STATE, NO_STATE, SEND, NO_STATE, NO_STATE, NO_STATE, NO_STATE]
  }

  /** The static variables; the readings kept over a reset count as stored. */
  function Blank(kept: seq<Reading>): Vars {
    Vars(kept, [], 0, Ending, false, false, 0, seq(|kept|, i requires 0 <= i < |kept| => Stored(kept[i])))
  }

  /** `init_wolksensor` of an application that keeps some readings over the reset. */
  function Initial(env: nat -> Answer, start: StartType, kept: seq<Reading>): (r: State)
    ensures Structured(App(), r.current)
  {
    var c := Transitioned(App(), env, Config(Start(start), [], Blank(kept), [], false), IDLE, Top(App()));
    c.(queue := Posted(c.queue, EVENT_ACQUIRE))
  }

  function Run(env: nat -> Answer, start: StartType, kept: seq<Reading>, inputs: seq<Input>): (r: State)
    ensures Structured(App(), r.current)
  {
    if inputs == [] then Initial(env, start, kept)
    else Stepped(env, Run(env, start, kept, inputs[..|inputs| - 1]), inputs[|inputs| - 1])
  }

  lemma {:induction false} KeptBalance(kept: seq<Reading>)
    ensures Read(Blank(kept).facts) == Ledger(true, kept, 0, 0, 0, false, Nothing, false, false)
  {
    if kept != [] {
      var front := kept[..|kept| - 1];
      KeptBalance(front);
      assert Blank(kept).facts == Note(Blank(front), Stored(kept[|kept| - 1])).facts;
      ReadNext(Blank(front), Stored(kept[|kept| - 1]));
      assert front + [kept[|kept| - 1]] == kept;
    }
  }

  /** However it was started, even after a brownout reset, the application begins in the normal state. */
  lemma StartsNormal(env: nat -> Answer, start: StartType, kept: seq<Reading>)
    ensures var c := Initial(env, start, kept);
            Good(c) && Active(App(), c.current, NORMAL) && !c.vars.brownout
  {
    hide Transitioned, Read, Blank, Above;
    var c := Config(Start(start), [], Blank(kept), [], false);
    assert RANK[0] < Top(App());
    assert !c.vars.brownout && c.vars.readings == kept && c.vars.commands == [] by {
      BlankIs(kept);
    }
    ToIdle(env, c, Top(App()));
    KeptBalance(kept);
    PostedEvents([], EVENT_ACQUIRE);
  }

  lemma BlankIs(kept: seq<Reading>)
    ensures !Blank(kept).brownout && Blank(kept).readings == kept && Blank(kept).commands == []
  {
  }

  lemma ProcessKeeps(env: nat -> Answer, c: State)
    requires Good(c)
    ensures Good(Processed(App(), env, c).0)
  {
    hide Dispatch, Read, Structured, Above;
    if c.queue != [] {
      var taken := c.(queue := c.queue[1..]);
      assert c.queue[0] in c.queue && forall e :: e in taken.queue ==> e in c.queue;
      assert RANK[3] == 1;
      DispatchKeeps(env, taken, c.queue[0], Top(App()));
    }
  }

  lemma SenseKeeps(v: Vars, reading: Reading, current: seq<int>)
    requires |current| == 10 && VarsAgree(v, current)
    ensures VarsAgree(Sensed(v, reading), current)
  {
    hide Read;
    ReadNext(v, Stored(reading));
  }

  lemma StepKeeps(env: nat -> Answer, c: State, input: Input)
    requires Good(c)
    ensures Good(Stepped(env, c, input))
  {
    hide Processed, Posted, Read, Structured, Sensed;
    match input
    case Raise(event) => if event <= EVENT_ALARM { PostedEvents(c.queue, event); }
    case Sense(reading) => SenseKeeps(c.vars, reading, c.current);
    case Measure(_) =>
    case CallHandle => ProcessKeeps(env, c);
  }

  lemma {:induction false} RunIsGood(env: nat -> Answer, start: StartType, kept: seq<Reading>, inputs: seq<Input>)
    ensures Good(Run(env, start, kept, inputs))
  {
    hide Good, Initial, Stepped;
    if inputs == [] {
      StartsNormal(env, start, kept);
    } else {
      RunIsGood(env, start, kept, inputs[..|inputs| - 1]);
      StepKeeps(env, Run(env, start, kept, inputs[..|inputs| - 1]), inputs[|inputs| - 1]);
    }
  }

  // ---- what holds of every run ----

  /** At the n-th fact `reading k` is still counted, after it no more. */
  predicate Leaves(facts: seq<Fact>, n: nat, k: nat)
    requires n < |facts|
  {
    Read(facts[..n]).gone <= k < Read(facts[..n + 1]).gone
  }

  /** The publication at i is the last one before n, of an exchange not restarted since, with nothing removed since. */
  ghost predicate PublishedAt(facts: seq<Fact>, i: nat, n: nat, count: nat)
    requires n <= |facts|
  {
    && i < n && facts[i] == Published(count)
    && forall j :: i < j < n ==> !facts[j].Published? && !facts[j].SendStarted? && !facts[j].Removed? && !facts[j].ReadingsCleared?
  }

  /** The command that arrived at j still waits at n: nothing was typed or executed since. */
  ghost predicate Waits(facts: seq<Fact>, j: nat, n: nat)
    requires n <= |facts|
  {
    && j < n && facts[j].Arrived? && facts[j].count > 0
    && forall i :: j < i < n ==> !facts[i].Typed? && !facts[i].Executed? && !facts[i].AnsweredBusy?
  }

  ghost predicate SomeWaits(facts: seq<Fact>, n: nat)
    requires n <= |facts|
  {
    exists j: nat :: Waits(facts, j, n)
  }

  /** A command that arrived in the receive that is in progress at n still waits. */
  ghost predicate Own(facts: seq<Fact>, n: nat)
    requires n <= |facts|
  {
    exists j: nat :: Waits(facts, j, n) && forall i :: j < i < n ==> !facts[i].ReceiveStarted?
  }

  /** A command that arrived in an earlier receive, which failed, still waits at n. */
  ghost predicate Leftover(facts: seq<Fact>, n: nat)
    requires n <= |facts|
  {
    exists j: nat, f: nat :: Waits(facts, j, n) && LeftAt(facts, j, f, n)
  }

  ghost predicate LeftAt(facts: seq<Fact>, j: nat, f: nat, n: nat)
    requires n <= |facts|
  {
    && j < f < n && facts[f].Received? && !facts[f].ok && facts[f].commands > 0
    && exists r :: f < r < n && facts[r].ReceiveStarted?
  }

  /** Removing at n takes exactly the oldest readings that the last publication counted, all of them stored when it was made,
      and comes right after a receive that succeeded while a command waited, that arrived in it or was left by one that failed. */
  ghost predicate Delivered(facts: seq<Fact>, n: nat, k: nat)
    requires n < |facts|
  {
    && facts[n].Removed?
    && n > 0 && facts[n - 1].Received? && facts[n - 1].ok && (Own(facts, n - 1) || Leftover(facts, n - 1))
    && Read(facts[..n + 1]).gone == Read(facts[..n]).gone + facts[n].count
    && exists i: nat :: PublishedAt(facts, i, n, facts[n].count)
                        && Read(facts[..i]).gone == Read(facts[..n]).gone
                        && k < |Read(facts[..i]).stored| && Read(facts[..i]).gone + facts[n].count <= |Read(facts[..i]).stored|
  }

  lemma {:induction false} OkBefore(facts: seq<Fact>, n: nat)
    requires n <= |facts| && Read(facts).ok
    ensures Read(facts[..n]).ok
    decreases |facts|
  {
    if n < |facts| {
      OkBefore(facts[..|facts| - 1], n);
      assert facts[..|facts| - 1][..n] == facts[..n];
    } else {
      assert facts[..n] == facts;
    }
  }

  lemma Unroll(facts: seq<Fact>, n: nat)
    requires n < |facts|
    ensures Read(facts[..n + 1]) == Next(Read(facts[..n]), facts[n])
  {
    assert facts[..n + 1][..n] == facts[..n];
  }

  lemma {:induction false} LastPublication(facts: seq<Fact>, n: nat) returns (i: nat)
    requires n <= |facts| && Read(facts[..n]).ok && Read(facts[..n]).published > 0
    ensures PublishedAt(facts, i, n, Read(facts[..n]).published)
    ensures Read(facts[..i]).gone == Read(facts[..n]).gone
    ensures Read(facts[..i]).gone + Read(facts[..n]).published <= |Read(facts[..i]).stored|
    decreases n
  {
    hide Read;
    NothingYet(facts);
    Unroll(facts, n - 1);
    if facts[n - 1].Published? {
      i := n - 1;
    } else {
      i := LastPublication(facts, n - 1);
    }
  }

  lemma NothingYet(facts: seq<Fact>)
    ensures Read(facts[..0]) == Ledger(true, [], 0, 0, 0, false, Nothing, false, false)
  {
  }

  /** What the facts in progress come right after. */
  predicate ComesAfter(l: Ledger, last: Fact) {
    && (l.doing.Acknowledging? ==> last.Received? && last.ok && l.waiting == last.commands > 0)
    && (l.doing.Executing? ==> l.waiting > 0)
    && (l.doing.Clearing? ==> last.Executed? && ClearsReadings(last.command))
  }

  lemma DoingMeans(facts: seq<Fact>, n: nat)
    requires n <= |facts| && Read(facts[..n]).ok && !Read(facts[..n]).doing.Nothing?
    ensures n > 0 && ComesAfter(Read(facts[..n]), facts[n - 1])
  {
    hide Read, Next, ComesAfter;
    NothingYet(facts);
    if n > 0 {
      Unroll(facts, n - 1);
      NextComes(Read(facts[..n - 1]), facts[n - 1]);
    }
  }

  lemma NextComes(l: Ledger, fact: Fact)
    requires Next(l, fact).ok
    ensures ComesAfter(Next(l, fact), fact)
  {
    hide ClearsReadings, Writes;
  }

  lemma OkFront(facts: seq<Fact>, n: nat)
    requires 0 < n <= |facts| && Read(facts[..n]).ok
    ensures Read(facts[..n - 1]).ok
  {
    hide Read;
    Unroll(facts, n - 1);
  }

  /** No commands are being executed. */
  predicate AtEase(doing: Doing) {
    doing.Nothing? || doing.Acknowledging?
  }

  /** Unless they are being executed, commands wait if and only if one arrived and nothing was typed or executed since. */
  lemma {:induction false} WaitingMeans(facts: seq<Fact>, n: nat)
    requires n <= |facts| && Read(facts[..n]).ok && AtEase(Read(facts[..n]).doing)
    ensures Read(facts[..n]).waiting > 0 <==> SomeWaits(facts, n)
    decreases n
  {
    hide Read, Next, SomeWaits;
    NothingYet(facts);
    if n == 0 {
      NoneWaits(facts);
    } else {
      var fact := facts[n - 1];
      Unroll(facts, n - 1);
      OkFront(facts, n);
      NextWaiting(Read(facts[..n - 1]), fact);
      if fact.Typed? || fact.Executed? || fact.AnsweredBusy? {
        StopsWaiting(facts, n, n - 1);
      } else if fact.ReadingsCleared? {
        DoingMeans(facts, n - 1);
        StopsWaiting(facts, n, n - 2);
      } else {
        WaitingMeans(facts, n - 1);
        WaitsOn(facts, n);
      }
    }
  }

  lemma NextWaiting(l: Ledger, fact: Fact)
    requires Next(l, fact).ok && AtEase(Next(l, fact).doing)
    ensures l.ok
    ensures fact.ReadingsCleared? ==> l.doing.Clearing?
    ensures if fact.Typed? || fact.Executed? || fact.AnsweredBusy? || fact.ReadingsCleared? then Next(l, fact).waiting == 0
            else AtEase(l.doing) && (Next(l, fact).waiting > 0 <==> (fact.Arrived? && fact.count > 0) || l.waiting > 0)
  {
    hide Writes, ClearsReadings;
  }

  lemma NoneWaits(facts: seq<Fact>)
    ensures !SomeWaits(facts, 0)
  {
  }

  lemma StopsWaiting(facts: seq<Fact>, n: nat, i: nat)
    requires i < n <= |facts| && (facts[i].Typed? || facts[i].Executed? || facts[i].AnsweredBusy?)
    requires i == n - 1 || (i == n - 2 && !facts[n - 1].Arrived?)
    ensures !SomeWaits(facts, n)
  {
    forall j: nat
      ensures !Waits(facts, j, n)
    {
      assert j < i || j == i || j == n - 1 || j >= n;
    }
  }

  lemma WaitsOn(facts: seq<Fact>, n: nat)
    requires 0 < n <= |facts| && !facts[n - 1].Typed? && !facts[n - 1].Executed? && !facts[n - 1].AnsweredBusy?
    ensures SomeWaits(facts, n) <==> (facts[n - 1].Arrived? && facts[n - 1].count > 0) || SomeWaits(facts, n - 1)
  {
    hide Waits;
    if j: nat :| Waits(facts, j, n) {
      WaitsOneMore(facts, j, n);
    }
    var before := n - 1;
    if j: nat :| Waits(facts, j, before) {
      WaitsOneMore(facts, j, n);
    }
    WaitsOneMore(facts, n - 1, n);
  }

  lemma WaitsOneMore(facts: seq<Fact>, j: nat, n: nat)
    requires 0 < n <= |facts| && !facts[n - 1].Typed? && !facts[n - 1].Executed? && !facts[n - 1].AnsweredBusy?
    ensures Waits(facts, j, n) <==> (j == n - 1 && facts[n - 1].Arrived? && facts[n - 1].count > 0) || Waits(facts, j, n - 1)
  {
  }

  /** As long as a command waits that arrived in it, a receive goes on or succeeded just now. */
  lemma {:induction false} StillReceiving(facts: seq<Fact>, j: nat, n: nat)
    requires n <= |facts| && Read(facts[..n]).ok && Waits(facts, j, n)
    requires forall i :: j < i < n && facts[i].Received? ==> facts[i].ok
    ensures var l := Read(facts[..n]);
            l.waiting > 0 && ((l.doing.Nothing? && l.receiving) || l.doing.Acknowledging? || l.doing == Executing(true))
    decreases n
  {
    hide Read;
    Unroll(facts, n - 1);
    OkFront(facts, n);
    if j < n - 1 {
      StillReceiving(facts, j, n - 1);
    }
  }

  /** A command that waits at the end of a receive arrived in it, or was left by one that failed. */
  lemma OwnOrLeft(facts: seq<Fact>, j: nat, n: nat)
    requires n < |facts| && Read(facts).ok && Waits(facts, j, n)
    ensures Own(facts, n) || Leftover(facts, n)
  {
    hide Read;
    if r :| j < r < n && facts[r].ReceiveStarted? {
      OkBefore(facts, r + 1);
      OkBefore(facts, r);
      Unroll(facts, r);
      if forall i :: j < i < r && facts[i].Received? ==> facts[i].ok {
        StillReceiving(facts, j, r);
      } else {
        var f :| j < f < r && facts[f].Received? && !facts[f].ok;
        OkBefore(facts, f + 1);
        OkBefore(facts, f);
        Unroll(facts, f);
        WaitingMeans(facts, f);
        assert Waits(facts, j, f);
        assert LeftAt(facts, j, f, n);
      }
    }
  }

  lemma RemovesAfter(facts: seq<Fact>, n: nat)
    requires Read(facts).ok && n < |facts| && facts[n].Removed?
    ensures n > 0 && facts[n - 1].Received? && facts[n - 1].ok && (Own(facts, n - 1) || Leftover(facts, n - 1))
  {
    hide Read, Own, Leftover;
    OkBefore(facts, n + 1);
    OkBefore(facts, n);
    Unroll(facts, n);
    DoingMeans(facts, n);
    OkBefore(facts, n - 1);
    Unroll(facts, n - 1);
    WaitingMeans(facts, n - 1);
    var j: nat :| Waits(facts, j, n - 1);
    OwnOrLeft(facts, j, n - 1);
  }

  /** No receive failed while commands waited. */
  ghost predicate NothingLeft(facts: seq<Fact>) {
    forall f :: 0 <= f < |facts| && facts[f].Received? && !facts[f].ok ==> facts[f].commands == 0
  }

  /** In every run a receive that succeeds is followed by a removal exactly if a command waits that arrived in it, or that an
      earlier receive left when it failed; so exactly if it brought a command itself, unless some receive failed with commands
      waiting. */
  lemma {:induction false} RemovesExactly(env: nat -> Answer, start: StartType, kept: seq<Reading>, inputs: seq<Input>, n: nat)
    requires var facts := Run(env, start, kept, inputs).vars.facts; n < |facts| && facts[n].Received? && facts[n].ok
    ensures var facts := Run(env, start, kept, inputs).vars.facts;
            var removes := n + 1 < |facts| && facts[n + 1].Removed?;
            && (removes <==> Own(facts, n) || Leftover(facts, n))
            && (NothingLeft(facts) ==> (removes <==> Own(facts, n)))
  {
    hide Run, Read, Structured, Own, Waits, LeftAt;
    RunIsGood(env, start, kept, inputs);
    var facts := Run(env, start, kept, inputs).vars.facts;
    OkBefore(facts, n + 1);
    OkBefore(facts, n);
    Unroll(facts, n);
    WaitingMeans(facts, n);
    assert facts[..|facts|] == facts;
    assert n + 1 < |facts| ==> Read(facts[..n + 2]).ok && Read(facts[..n + 2]) == Next(Read(facts[..n + 1]), facts[n + 1]) by {
      if n + 1 < |facts| {
        OkBefore(facts, n + 2);
        Unroll(facts, n + 1);
      }
    }
    if facts[n].commands > 0 {
      var j: nat :| Waits(facts, j, n);
      OwnOrLeft(facts, j, n);
    }
    assert Own(facts, n) || Leftover(facts, n) ==> SomeWaits(facts, n) by { OwnWaits(facts, n); }
    assert NothingLeft(facts) ==> !Leftover(facts, n) by { LeftNothing(facts, n); }
  }

  lemma OwnWaits(facts: seq<Fact>, n: nat)
    requires n < |facts|
    ensures Own(facts, n) || Leftover(facts, n) ==> SomeWaits(facts, n)
  {
    hide Waits, LeftAt;
  }

  lemma LeftNothing(facts: seq<Fact>, n: nat)
    requires n < |facts|
    ensures NothingLeft(facts) ==> !Leftover(facts, n)
  {
    hide Waits;
  }

  /** A stored reading leaves only when the readings are cleared, or by a removal of readings that were delivered. */
  lemma {:induction false} LeavesOnlyDelivered(facts: seq<Fact>, k: nat) returns (n: nat)
    requires Read(facts).ok && k < Read(facts).gone
    ensures n < |facts| && Leaves(facts, n, k) && (facts[n].ReadingsCleared? || Delivered(facts, n, k))
    decreases |facts|
  {
    hide Read;
    NothingYet(facts);
    assert facts[..|facts|] == facts;
    if |facts| > 0 {
      var front := facts[..|facts| - 1];
      n := |facts| - 1;
      Unroll(facts, n);
      OkBefore(facts, n);
      if k < Read(front).gone {
        n := LeavesOnlyDelivered(front, k);
        SameBefore(facts, n, k);
      } else if facts[n].Removed? {
        RemovesAfter(facts, n);
        var i := LastPublication(facts, n);
      }
    }
  }

  /** What holds at the n-th fact does not depend on the facts after it. */
  lemma SameBefore(facts: seq<Fact>, n: nat, k: nat)
    requires |facts| > 0 && n < |facts| - 1 && Leaves(facts[..|facts| - 1], n, k)
    ensures Leaves(facts, n, k)
    ensures Delivered(facts[..|facts| - 1], n, k) ==> Delivered(facts, n, k)
  {
    hide Read;
    var front := facts[..|facts| - 1];
    assert forall m :: 0 <= m <= |front| ==> front[..m] == facts[..m];
    if Delivered(front, n, k) {
      var i: nat :| PublishedAt(front, i, n, front[n].count)
                    && Read(front[..i]).gone == Read(front[..n]).gone
                    && k < |Read(front[..i]).stored| && Read(front[..i]).gone + front[n].count <= |Read(front[..i]).stored|;
      assert PublishedAt(facts, i, n, facts[n].count);
      SameWaiting(facts, n - 1);
    }
  }

  lemma SameWaiting(facts: seq<Fact>, n: nat)
    requires |facts| > 0 && n < |facts| - 1
    ensures Own(facts[..|facts| - 1], n) ==> Own(facts, n)
    ensures Leftover(facts[..|facts| - 1], n) ==> Leftover(facts, n)
  {
    hide LeftAt;
    var front := facts[..|facts| - 1];
    if Own(front, n) {
      var j: nat :| Waits(front, j, n) && forall i :: j < i < n ==> !front[i].ReceiveStarted?;
      assert Waits(facts, j, n);
    }
    if Leftover(front, n) {
      var j: nat, f: nat :| Waits(front, j, n) && LeftAt(front, j, f, n);
      assert Waits(facts, j, n);
      assert LeftAt(facts, j, f, n) by { SameLeftAt(facts, j, f, n); }
    }
  }

  lemma SameLeftAt(facts: seq<Fact>, j: nat, f: nat, n: nat)
    requires |facts| > 0 && n < |facts| - 1 && LeftAt(facts[..|facts| - 1], j, f, n)
    ensures LeftAt(facts, j, f, n)
  {
    var r :| f < r < n && facts[..|facts| - 1][r].ReceiveStarted?;
    assert facts[r].ReceiveStarted?;
  }

  /** Reading k left by being cleared or delivered. */
  ghost predicate Accounted(facts: seq<Fact>, k: nat) {
    exists n: nat :: n < |facts| && Leaves(facts, n, k) && (facts[n].ReadingsCleared? || Delivered(facts, n, k))
  }

  /** Delivery is at least once. In every run the readings in the buffer are, in order, those stored and not yet gone, and each
      one that is gone left when the readings were cleared, or after it was published and then a receive succeeded with a command
      waiting, that arrived in it or in an earlier one that failed. */
  lemma AtLeastOnce(env: nat -> Answer, start: StartType, kept: seq<Reading>, inputs: seq<Input>)
    ensures var v := Run(env, start, kept, inputs).vars;
            var l := Read(v.facts);
            && l.gone <= |l.stored| && v.readings == l.stored[l.gone..]
            && forall k: nat :: k < l.gone ==> Accounted(v.facts, k)
  {
    hide Run, Read, Structured;
    RunIsGood(env, start, kept, inputs);
    var v := Run(env, start, kept, inputs).vars;
    forall k: nat | k < Read(v.facts).gone
      ensures Accounted(v.facts, k)
    {
      var n := LeavesOnlyDelivered(v.facts, k);
    }
  }

  predicate LowAt(fact: Fact) {
    fact.MonitorDisabled? && fact.failed && fact.voltage < MINIMUM_VOLTAGE
  }

  lemma {:induction false} LowStays(facts: seq<Fact>, i: nat, n: nat)
    requires i < n <= |facts| && LowAt(facts[i]) && forall j :: i < j < n ==> !facts[j].UsbConnected?
    ensures Read(facts[..n]).low
    decreases n
  {
    hide Read;
    Unroll(facts, n - 1);
    if i < n - 1 {
      LowStays(facts, i, n - 1);
    }
  }

  /** In every run, once an exchange failed with the voltage below the minimum, no exchange starts before a USB connection is
      processed, whatever events, commands and readings come. */
  lemma NoExchangeWhileLow(env: nat -> Answer, start: StartType, kept: seq<Reading>, inputs: seq<Input>, i: nat, n: nat)
    requires var facts := Run(env, start, kept, inputs).vars.facts;
             i < n < |facts| && LowAt(facts[i]) && facts[n].MonitorEnabled?
    ensures exists j :: i < j < n && Run(env, start, kept, inputs).vars.facts[j].UsbConnected?
  {
    hide Run, Read, Structured, LowAt;
    RunIsGood(env, start, kept, inputs);
    var facts := Run(env, start, kept, inputs).vars.facts;
    if forall j :: i < j < n ==> !facts[j].UsbConnected? {
      LowStays(facts, i, n);
      OkBefore(facts, n + 1);
      Unroll(facts, n);
    }
  }

  /** In every run each transition had an active parent, the application rests idle or in an exchange, and the battery monitor
      was last enabled, not disabled, exactly when it is in an exchange; it is in brownout after a failure for want of power
      that no USB connection followed. */
  lemma AlwaysOnePath(env: nat -> Answer, start: StartType, kept: seq<Reading>, inputs: seq<Input>)
    ensures var c := Run(env, start, kept, inputs);
            var l := Read(c.vars.facts);
            && !c.fault
            && (Active(App(), c.current, IDLE) || Active(App(), c.current, DATA_EXCHANGE))
            && (l.monitored <==> Active(App(), c.current, DATA_EXCHANGE))
            && (l.low ==> Active(App(), c.current, BROWNOUT))
            && (c.vars.brownout <==> Active(App(), c.current, BROWNOUT))
  {
    hide Run, Read, Structured;
    RunIsGood(env, start, kept, inputs);
    var c := Run(env, start, kept, inputs);
    assert Active(App(), c.current, BROWNOUT) <==> c.current[0] == IDLE && c.current[IDLE + 1] == BROWNOUT;
  }

  /** The battery monitor was last enabled, not disabled, before the n-th fact: an exchange is active. */
  ghost predicate InExchange(facts: seq<Fact>, n: nat)
    requires n <= |facts|
  {
    exists i: nat :: i < n && facts[i].MonitorEnabled? && forall k :: i < k < n ==> !facts[k].MonitorDisabled?
  }

  /** The n-th fact belongs to executing the commands that wait when readings have been removed. */
  ghost predicate AfterRemoval(facts: seq<Fact>, n: nat)
    requires n <= |facts|
  {
    exists i: nat :: i < n && facts[i].Removed? && forall k :: i < k < n ==> facts[k].Executed? || facts[k].ReadingsCleared?
  }

  lemma {:induction false} MonitoredMeans(facts: seq<Fact>, n: nat)
    requires n <= |facts|
    ensures Read(facts[..n]).monitored <==> InExchange(facts, n)
    decreases n
  {
    hide Read;
    if n == 0 {
      NothingYet(facts);
    } else {
      Unroll(facts, n - 1);
      MonitoredMeans(facts, n - 1);
      if facts[n - 1].MonitorEnabled? {
        assert InExchange(facts, n);
      } else if InExchange(facts, n) {
        var i: nat :| i < n && facts[i].MonitorEnabled? && forall k :: i < k < n ==> !facts[k].MonitorDisabled?;
        assert i < n - 1 && InExchange(facts, n - 1);
      }
    }
  }

  predicate AckedDoing(doing: Doing) {
    (doing.Executing? || doing.Clearing?) && doing.acked
  }

  lemma {:induction false} AckedMeans(facts: seq<Fact>, n: nat)
    requires n <= |facts| && Read(facts[..n]).ok && !AtEase(Read(facts[..n]).doing)
    ensures AckedDoing(Read(facts[..n]).doing) <==> AfterRemoval(facts, n)
    decreases n
  {
    hide Read, Next, AfterRemoval;
    NothingYet(facts);
    if n > 0 {
      Unroll(facts, n - 1);
      OkFront(facts, n);
      AckedNext(Read(facts[..n - 1]), facts[n - 1]);
      AfterRemovalNext(facts, n);
      if !AtEase(Read(facts[..n - 1]).doing) {
        AckedMeans(facts, n - 1);
      }
    }
  }

  lemma AckedNext(l: Ledger, fact: Fact)
    requires Next(l, fact).ok && !AtEase(Next(l, fact).doing)
    ensures fact.Removed? || fact.Typed? || ((fact.Executed? || fact.AnsweredBusy? || fact.ReadingsCleared?) && !AtEase(l.doing))
    ensures fact.AnsweredBusy? ==> !AckedDoing(l.doing)
    ensures AckedDoing(Next(l, fact).doing) <==> fact.Removed? || (!fact.Typed? && AckedDoing(l.doing))
  {
  }

  lemma AfterRemovalNext(facts: seq<Fact>, n: nat)
    requires 0 < n <= |facts|
    ensures AfterRemoval(facts, n) <==>
              facts[n - 1].Removed? || ((facts[n - 1].Executed? || facts[n - 1].ReadingsCleared?) && AfterRemoval(facts, n - 1))
  {
    if AfterRemoval(facts, n - 1) && (facts[n - 1].Executed? || facts[n - 1].ReadingsCleared?) {
      var i: nat :| i < n - 1 && facts[i].Removed? && forall k :: i < k < n - 1 ==> facts[k].Executed? || facts[k].ReadingsCleared?;
      assert i < n && facts[i].Removed?;
    }
    if AfterRemoval(facts, n) && !facts[n - 1].Removed? {
      var i: nat :| i < n && facts[i].Removed? && forall k :: i < k < n ==> facts[k].Executed? || facts[k].ReadingsCleared?;
      assert i < n - 1 && facts[i].Removed?;
    }
  }

  /** In every run a command is executed with leave to write exactly outside exchanges and right after a removal, and without
      it only if it does not write; exactly the writing ones are answered busy, in exchanges only; and the readings are
      cleared only by a command just executed with leave, so in an exchange only right after a removal. */
  lemma {:induction false} BusyWhileExchanging(env: nat -> Answer, start: StartType, kept: seq<Reading>, inputs: seq<Input>, n: nat)
    requires n < |Run(env, start, kept, inputs).vars.facts|
    ensures var facts := Run(env, start, kept, inputs).vars.facts;
            && (facts[n].Executed? ==>
                  && (facts[n].allowWrite <==> !InExchange(facts, n) || AfterRemoval(facts, n))
                  && (facts[n].allowWrite || !Writes(facts[n].command)))
            && (facts[n].AnsweredBusy? ==> Writes(facts[n].command) && InExchange(facts, n) && !AfterRemoval(facts, n))
            && (facts[n].ReadingsCleared? ==>
                  && n > 0 && facts[n - 1].Executed? && ClearsReadings(facts[n - 1].command)
                  && (InExchange(facts, n) ==> AfterRemoval(facts, n)))
  {
    hide Run, Read, Structured, InExchange, AfterRemoval;
    RunIsGood(env, start, kept, inputs);
    var facts := Run(env, start, kept, inputs).vars.facts;
    OkBefore(facts, n + 1);
    OkBefore(facts, n);
    Unroll(facts, n);
    MonitoredMeans(facts, n);
    if facts[n].Executed? || facts[n].AnsweredBusy? {
      AckedMeans(facts, n);
    } else if facts[n].ReadingsCleared? {
      DoingMeans(facts, n);
      AckedMeans(facts, n);
      OkBefore(facts, n - 1);
      Unroll(facts, n - 1);
      AckedMeans(facts, n - 1);
      MonitoredMeans(facts, n - 1);
    }
  }

  // ---- a run that removes readings for a command left over ----

  /** A run depends only on the answers that were given. */
  lemma {:induction false} SameRun(e: nat -> Answer, f: nat -> Answer, start: StartType, kept: seq<Reading>, inputs: seq<Input>)
    requires Agree(e, f, 0, |Run(e, start, kept, inputs).log|)
    ensures Run(e, start, kept, inputs) == Run(f, start, kept, inputs)
  {
    hide Structured, Processed, Transitioned, Above, Blank;
    if inputs == [] {
      SameTransitioned(App(), e, f, Config(Start(start), [], Blank(kept), [], false), IDLE, Top(App()));
    } else {
      var front := inputs[..|inputs| - 1];
      var c := Run(e, start, kept, front);
      assert c.log <= Run(e, start, kept, inputs).log;
      SameRun(e, f, start, kept, front);
      if inputs[|inputs| - 1].CallHandle? {
        SameProcessed(App(), e, f, c);
      }
    }
  }

  const READING: Reading := 7
  const COMMAND := Command(Others, false)

  function Always(a: Answer): nat -> Answer {
    (n: nat) => a
  }

  /** Some environment and these inputs lead an application that kept one reading there. */
  ghost predicate Reaches(inputs: seq<Input>, c: State) {
    exists env: nat -> Answer :: Run(env, PowerOn, [READING], inputs) == c
  }

  /** From wherever it is, the next answers may be any. */
  lemma ReachesNext(inputs: seq<Input>, c: State, input: Input, a: Answer)
    requires Reaches(inputs, c)
    ensures Good(c) && Reaches(inputs + [input], Stepped(Always(a), c, input))
  {
    hide Structured, Good, Run, Processed;
    var env: nat -> Answer :| Run(env, PowerOn, [READING], inputs) == c;
    RunIsGood(env, PowerOn, [READING], inputs);
    var spliced := Spliced(env, |c.log|, Always(a));
    SameRun(env, spliced, PowerOn, [READING], inputs);
    assert (inputs + [input])[..|inputs|] == inputs;
    if input.CallHandle? {
      SameProcessed(App(), Always(a), spliced, c);
    }
    assert Run(spliced, PowerOn, [READING], inputs + [input]) == Stepped(Always(a), c, input) by {
      RunNext(spliced, PowerOn, [READING], inputs, input);
    }
  }

  lemma RunNext(env: nat -> Answer, start: StartType, kept: seq<Reading>, inputs: seq<Input>, input: Input)
    ensures Run(env, start, kept, inputs + [input]) == Stepped(env, Run(env, start, kept, inputs), input)
  {
    assert (inputs + [input])[..|inputs|] == inputs;
  }

  /** In the state k of an exchange, or idle and normal. */
  ghost predicate At(c: State, k: nat, queue: seq<nat>, v: Vars) {
    && Good(c) && c.queue == queue && c.vars == v
    && if k == NORMAL then c.current[0] == IDLE && c.current[IDLE + 1] == NORMAL else Exchanging(c.current, k)
  }

  /** One answer for one handler call: whether the operation failed and what it receives; one reading is published. */
  function Says(failed: bool, received: seq<Command>): Answer {
    Answer([], false, false, failed, true, 1, received)
  }

  /** The event is consumed by the active state of an exchange. */
  lemma LeafTakes(env: nat -> Answer, c: State, k: nat, event: nat)
    requires Good(c) && c.queue == [event] && Exchanging(c.current, k) && SEND <= k <= STOP_MODULE
    requires Offer(App(), env, c.(queue := []), k, event, Top(App())).1
    ensures Processed(App(), env, c).0 == Offer(App(), env, c.(queue := []), k, event, Top(App())).0
  {
    hide Offer, Structured, Above, Read, VarsAgree;
    var taken, top := c.(queue := []), Top(App());
    assert c.queue[1..] == [];
    Leaf(taken, k);
    assert Dispatch(App(), env, taken, k, event, top) == Offer(App(), env, taken, k, event, top);
    assert Dispatch(App(), env, taken, DATA_EXCHANGE, event, top) == Offer(App(), env, taken, k, event, top);
  }

  lemma Enough()
    ensures Top(App()) > 1
  {
    assert RANK[3] == 1;
  }

  lemma Begins(env: nat -> Answer, c: State, v: Vars)
    requires At(c, NORMAL, [EVENT_HEARTBEAT], v)
    ensures At(Processed(App(), env, c).0, SEND, [EVENT_PROCESS], Begun(Note(v, MonitorEnabled).(failed := false), SEND))
  {
    hide Offer, Structured, Above, Read, VarsAgree;
    Enough();
    var taken, top := c.(queue := []), Top(App());
    assert c.queue[1..] == [];
    Leaf(taken, NORMAL);
    NormalOffer(env, taken, EVENT_HEARTBEAT, top);
    var r := Offer(App(), env, taken, NORMAL, EVENT_HEARTBEAT, top);
    assert Dispatch(App(), env, taken, NORMAL, EVENT_HEARTBEAT, top) == r;
    assert Dispatch(App(), env, taken, IDLE, EVENT_HEARTBEAT, top) == r;
  }

  lemma Communicates(c: State, k: nat, v: Vars, a: Answer)
    requires (k == SEND || k == RECEIVE) && At(c, k, [EVENT_PROCESS], v) && !a.more
    ensures At(Processed(App(), Always(a), c).0, k, [EVENT_DONE], Processing(v, a))
  {
    hide Offer, Structured, Above, Read, VarsAgree, Processing, EndsIn;
    Enough();
    var env, taken, top := Always(a), c.(queue := []), Top(App());
    assert c.queue[1..] == [];
    Leaf(taken, k);
    if k == SEND {
      SendOffer(env, taken, EVENT_PROCESS, top);
    } else {
      ReceiveOffer(env, taken, EVENT_PROCESS, top);
    }
    var leaf := Offer(App(), env, taken, k, EVENT_PROCESS, top).0;
    assert Dispatch(App(), env, taken, k, EVENT_PROCESS, top) == (leaf, false);
    DataExchangeOffer(env, leaf, EVENT_PROCESS, top);
    assert Dispatch(App(), env, taken, DATA_EXCHANGE, EVENT_PROCESS, top) == Offer(App(), env, leaf, DATA_EXCHANGE, EVENT_PROCESS, top);
  }

  lemma Sends(c: State, v: Vars, a: Answer)
    requires At(c, SEND, [EVENT_DONE], v) && !a.failed
    ensures At(Processed(App(), Always(a), c).0, RECEIVE, [EVENT_PROCESS], Begun(Failing(v, false), RECEIVE))
  {
    hide Offer, Structured, Above, Read, VarsAgree, Processed, Begun;
    Enough();
    SendOffer(Always(a), c.(queue := []), EVENT_DONE, Top(App()));
    LeafTakes(Always(a), c, SEND, EVENT_DONE);
  }

  lemma Fails(c: State, v: Vars, a: Answer)
    requires At(c, RECEIVE, [EVENT_DONE], v) && a.failed
    ensures At(Processed(App(), Always(a), c).0, STOP_MODULE, [EVENT_PROCESS], Note(Failing(v, true), Received(false, |v.commands|)))
  {
    hide Offer, Structured, Above, Read, VarsAgree, Processed, Acked;
    Enough();
    ReceiveOffer(Always(a), c.(queue := []), EVENT_DONE, Top(App()));
    LeafTakes(Always(a), c, RECEIVE, EVENT_DONE);
  }

  lemma Stops(c: State, v: Vars, a: Answer)
    requires At(c, STOP_MODULE, [EVENT_PROCESS], v) && !a.more
    ensures At(Processed(App(), Always(a), c).0, STOP_MODULE, [EVENT_DONE], v)
  {
    hide Offer, Structured, Above, Read, VarsAgree, Processed, Disabled;
    Enough();
    StopModuleOffer(Always(a), c.(queue := []), EVENT_PROCESS, Top(App()));
    LeafTakes(Always(a), c, STOP_MODULE, EVENT_PROCESS);
  }

  lemma Ends(c: State, v: Vars, a: Answer)
    requires At(c, STOP_MODULE, [EVENT_DONE], v) && v.voltage >= MINIMUM_VOLTAGE && !v.brownout
    ensures At(Processed(App(), Always(a), c).0, NORMAL, [], Disabled(Failing(v, a.failed)))
  {
    hide Offer, Structured, Above, Read, VarsAgree, Processed;
    Enough();
    StopModuleOffer(Always(a), c.(queue := []), EVENT_DONE, Top(App()));
    LeafTakes(Always(a), c, STOP_MODULE, EVENT_DONE);
  }

  lemma Acks(c: State, v: Vars, a: Answer)
    requires At(c, RECEIVE, [EVENT_DONE], v) && !a.failed && v.commands != []
    ensures Processed(App(), Always(a), c).0.vars == Begun(Acked(v), if |Acked(v).readings| > 0 then SEND else DISCONNECT)
  {
    hide Offer, Structured, Above, Read, VarsAgree, Processed, Acked, Begun;
    Enough();
    ReceiveOffer(Always(a), c.(queue := []), EVENT_DONE, Top(App()));
    LeafTakes(Always(a), c, RECEIVE, EVENT_DONE);
  }

  /** The acquisition asked for at the start does nothing without sensors. */
  lemma StartsUp(a: Answer) returns (inputs: seq<Input>, c: State)
    requires !a.sensorsOn
    ensures Reaches(inputs, c) && At(c, NORMAL, [], Blank([READING]))
  {
    hide Offer, Structured, Above, Read, VarsAgree, Transitioned, Blank;
    Enough();
    var env := Always(a);
    var start := Initial(env, PowerOn, [READING]);
    assert Run(env, PowerOn, [READING], []) == start;
    StartsNormal(env, PowerOn, [READING]);
    StartVars(env);
    inputs := [] + [CallHandle];
    ReachesNext([], start, CallHandle, a);
    c := Stepped(env, start, CallHandle);
    var taken, top := start.(queue := []), Top(App());
    assert start.queue[1..] == [];
    Leaf(taken, NORMAL);
    NormalOffer(env, taken, EVENT_ACQUIRE, top);
    var leaf := Offer(App(), env, taken, NORMAL, EVENT_ACQUIRE, top).0;
    assert Dispatch(App(), env, taken, NORMAL, EVENT_ACQUIRE, top) == (leaf, false);
    IdleOffer(env, leaf, EVENT_ACQUIRE, top);
    assert Dispatch(App(), env, taken, IDLE, EVENT_ACQUIRE, top) == Offer(App(), env, leaf, IDLE, EVENT_ACQUIRE, top);
  }

  lemma StartVars(env: nat -> Answer)
    ensures var c := Initial(env, PowerOn, [READING]);
            c.vars == Blank([READING]) && c.queue == [EVENT_ACQUIRE] && c.current[0] == IDLE && c.current[IDLE + 1] == NORMAL
  {
    hide Transitioned, Read, Blank, Above;
    var c := Config(Start(PowerOn), [], Blank([READING]), [], false);
    assert RANK[0] < Top(App());
    BlankIs([READING]);
    ToIdle(env, c, Top(App()));
  }

  /** The variables when an exchange has received these commands. */
  function Exchanged(v: Vars, received: seq<Command>): Vars {
    var sending := Begun(Note(v, MonitorEnabled).(failed := false), SEND);
    var receiving := Begun(Failing(Processing(sending, Says(false, received)), false), RECEIVE);
    Processing(receiving, Says(false, received))
  }

  /** A heartbeat and four calls of the process handle: an exchange up to the end of receiving. */
  lemma Exchange(inputs: seq<Input>, c: State, v: Vars, received: seq<Command>) returns (more: seq<Input>, d: State)
    requires Reaches(inputs, c) && At(c, NORMAL, [], v)
    ensures Reaches(more, d) && At(d, RECEIVE, [EVENT_DONE], Exchanged(v, received))
  {
    hide Reaches, At, Processed, Structured, Processing, Begun;
    var a := Says(false, received);
    ReachesNext(inputs, c, Raise(EVENT_HEARTBEAT), a);
    more, d := inputs + [Raise(EVENT_HEARTBEAT)], Stepped(Always(a), c, Raise(EVENT_HEARTBEAT));
    assert At(d, NORMAL, [EVENT_HEARTBEAT], v) by { HeartbeatQueued(c, v, a); }
    ReachesNext(more, d, CallHandle, a);
    Begins(Always(a), d, v);
    more, d := more + [CallHandle], Processed(App(), Always(a), d).0;
    var w := Begun(Note(v, MonitorEnabled).(failed := false), SEND);
    ReachesNext(more, d, CallHandle, a);
    Communicates(d, SEND, w, a);
    more, d := more + [CallHandle], Processed(App(), Always(a), d).0;
    ReachesNext(more, d, CallHandle, a);
    Sends(d, Processing(w, a), a);
    more, d := more + [CallHandle], Processed(App(), Always(a), d).0;
    w := Begun(Failing(Processing(w, a), false), RECEIVE);
    ReachesNext(more, d, CallHandle, a);
    Communicates(d, RECEIVE, w, a);
    more, d := more + [CallHandle], Processed(App(), Always(a), d).0;
  }

  lemma HeartbeatQueued(c: State, v: Vars, a: Answer)
    requires At(c, NORMAL, [], v)
    ensures At(Stepped(Always(a), c, Raise(EVENT_HEARTBEAT)), NORMAL, [EVENT_HEARTBEAT], v)
  {
    hide Structured, Read, VarsAgree;
    StepKeeps(Always(a), c, Raise(EVENT_HEARTBEAT));
  }

  /** The variables when such an exchange failed, the voltage being enough. */
  function Failed(v: Vars): Vars {
    Disabled(Failing(Note(Failing(Measured(v, MINIMUM_VOLTAGE), true), Received(false, |v.commands|)), true))
  }

  lemma Failure(inputs: seq<Input>, c: State, v: Vars) returns (more: seq<Input>, d: State)
    requires Reaches(inputs, c) && At(c, RECEIVE, [EVENT_DONE], v) && v.voltage == 0 && !v.brownout
    ensures Reaches(more, d) && At(d, NORMAL, [], Failed(v))
  {
    hide Reaches, At, Processed, Structured, Disabled;
    var a := Says(true, []);
    ReachesNext(inputs, c, Measure(MINIMUM_VOLTAGE), a);
    more, d := inputs + [Measure(MINIMUM_VOLTAGE)], Stepped(Always(a), c, Measure(MINIMUM_VOLTAGE));
    assert At(d, RECEIVE, [EVENT_DONE], Measured(v, MINIMUM_VOLTAGE)) by { VoltageMeasured(c, v, a); }
    ReachesNext(more, d, CallHandle, a);
    Fails(d, Measured(v, MINIMUM_VOLTAGE), a);
    more, d := more + [CallHandle], Processed(App(), Always(a), d).0;
    var w := Note(Failing(Measured(v, MINIMUM_VOLTAGE), true), Received(false, |v.commands|));
    ReachesNext(more, d, CallHandle, a);
    Stops(d, w, a);
    more, d := more + [CallHandle], Processed(App(), Always(a), d).0;
    ReachesNext(more, d, CallHandle, a);
    Ends(d, w, a);
    more, d := more + [CallHandle], Processed(App(), Always(a), d).0;
  }

  lemma VoltageMeasured(c: State, v: Vars, a: Answer)
    requires At(c, RECEIVE, [EVENT_DONE], v)
    ensures At(Stepped(Always(a), c, Measure(MINIMUM_VOLTAGE)), RECEIVE, [EVENT_DONE], Measured(v, MINIMUM_VOLTAGE))
  {
    hide Structured, Read, VarsAgree;
    StepKeeps(Always(a), c, Measure(MINIMUM_VOLTAGE));
  }

  /** The facts of the first exchange, which fails after a command arrived. */
  const FIRST: seq<Fact> := [Stored(READING), MonitorEnabled, SendStarted, Published(1), ReceiveStarted, Arrived(1),
                             Received(false, 1), MonitorDisabled(true, MINIMUM_VOLTAGE)]

  /** And those of the second, in which none arrives. */
  const SECOND: seq<Fact> := [MonitorEnabled, SendStarted, Published(1), ReceiveStarted, Arrived(0), Received(true, 1), Removed(1),
                              Executed(COMMAND, true)]

  lemma FirstFacts()
    ensures Failed(Exchanged(Blank([READING]), [COMMAND]))
            == Vars([READING], [COMMAND], 1, Receiving, true, false, 0, FIRST)
    ensures var v := Exchanged(Blank([READING]), [COMMAND]); v.voltage == 0 && !v.brownout
  {
  }

  lemma SecondFacts(v: Vars)
    requires v == Vars([READING], [COMMAND], 1, Receiving, true, false, 0, FIRST)
    ensures var w := Exchanged(v, []); w.commands == [COMMAND] && Acked(w).facts == FIRST + SECOND && Acked(w).readings == []
  {
    var w := Exchanged(v, []);
    assert w == v.(failed := false, facts := FIRST + SECOND[..5]);
    var removed := Note(Note(w, Received(true, 1)), Removed(1)).(readings := Rest(w.readings, 1));
    assert removed == w.(readings := [], facts := FIRST + SECOND[..7]);
    assert ExecutedAll(removed, true) == Round(removed, true);
  }

  /** A reading that is removed although no command arrived in the receive that succeeded: the one that waited was left by the
      receive that failed before. */
  lemma LeftoverRemoves() returns (env: nat -> Answer, inputs: seq<Input>)
    ensures var v := Run(env, PowerOn, [READING], inputs).vars;
            && v.facts == FIRST + SECOND && v.readings == []
            && v.facts[13] == Received(true, 1) && v.facts[14] == Removed(1)
            && !Own(v.facts, 13) && Leftover(v.facts, 13)
  {
    hide At, Exchanged, Failed, Acked, Structured, Good, Run, Own, Leftover, Blank, Processed;
    var first, c := StartsUp(Says(false, []));
    var v := Blank([READING]);
    FirstFacts();
    first, c := Exchange(first, c, v, [COMMAND]);
    first, c := Failure(first, c, Exchanged(v, [COMMAND]));
    v := Failed(Exchanged(v, [COMMAND]));
    SecondFacts(v);
    first, c := Exchange(first, c, v, []);
    var a := Says(false, []);
    ReachesNext(first, c, CallHandle, a);
    Acks(c, Exchanged(v, []), a);
    inputs := first + [CallHandle];
    env :| Run(env, PowerOn, [READING], inputs) == Stepped(Always(a), c, CallHandle);
    RemovesExactly(env, PowerOn, [READING], inputs, 13);
    NoneOwn();
  }

  lemma NoneOwn()
    ensures !Own(FIRST + SECOND, 13)
  {
    var facts := FIRST + SECOND;
    assert facts[11] == ReceiveStarted && facts[12] == Arrived(0);
    forall j: nat
      ensures !(Waits(facts, j, 13) && forall i :: j < i < 13 ==> !facts[i].ReceiveStarted?)
    {
      assert j < 11 || j == 11 || j == 12 || j >= 13;
    }
  }

  // ---- the application itself ----

  /** `execute_commands` on the command buffer; the commands of v are those in the buffer. */
  method ExecuteCommands(buffer: Ring<Command>, v: Vars, allowWrite: bool) returns (r: Vars, raised: seq<nat>)
    requires buffer.Valid() && v.commands == buffer.Contents()
    modifies buffer
    ensures buffer.Valid() && buffer.Contents() == []
    ensures r == ExecutedAll(v, allowWrite) && raised == RaisedAll(v.commands, allowWrite)
  {
    hide Elements, Consistent, ExecutedOne, RaisedOne;
    r, raised := v, [];
    assert [] + RaisedAll(v.commands, allowWrite) == RaisedAll(v.commands, allowWrite);
    var popped := true;
    while popped
      invariant buffer.Valid() && r.commands == buffer.Contents() && (!popped ==> buffer.Contents() == [])
      invariant ExecutedAll(r, allowWrite) == ExecutedAll(v, allowWrite)
      invariant raised + RaisedAll(r.commands, allowWrite) == RaisedAll(v.commands, allowWrite)
      decreases |buffer.Contents()|, popped
    {
      var command;
      ghost var before := r.commands;
      popped, command := buffer.Pop();
      if popped {
        assert before[0] == command && before[1..] == buffer.Contents();
        assert raised + (RaisedOne(command, allowWrite) + RaisedAll(before[1..], allowWrite))
               == raised + RaisedOne(command, allowWrite) + RaisedAll(before[1..], allowWrite);
        r := ExecutedOne(r, command, allowWrite).(commands := r.commands[1..]);
        raised := raised + RaisedOne(command, allowWrite);
      }
    }
  }

  method Step(engine: Engine<Vars, Answer>, input: Input)
    requires engine.Valid() && engine.machine == App()
    modifies engine, engine.current, engine.events, engine.events.storage
    ensures engine.Valid() && engine.State() == Stepped(engine.answers, old(engine.State()), input)
  {
    hide Processed, Posted, Structured;
    match input {
    case Raise(event) =>
      if event <= EVENT_ALARM {
        engine.Post(event);
      }
    case Sense(reading) => engine.vars := Sensed(engine.vars, reading);
    case Measure(voltage) => engine.vars := Measured(engine.vars, voltage);
    case CallHandle => var _ := engine.Process();
    }
  }
}
