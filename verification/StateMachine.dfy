/** The hierarchical state machine engine of `state_machine.c` with the event queues of `event_buffer.c`. The handlers,
    C function pointers in the source, are a function from the machine's variables, the state asked, the event and the
    answer of the environment to a reaction. */
module StateMachine {
  import opened CircularBuffer

  const ROOT := -1
  const NO_STATE := -1
  const ENTERING := 254
  const LEAVING := 255

  /** Every event buffer of the firmware holds ten events and wraps. */
  const QUEUE_SIZE := 10

  /** What a handler does besides changing variables, in order. `Discard` is the WiFi module's
      `remove_send_and_receive_events`, `SetChild` an assignment to the handler's own `current_state`. */
  datatype Action =
    | Post(event: nat)
    | ClearQueue
    | Discard(events: set<nat>)
    | SetChild(child: int)
    | Go(target: nat)

  datatype Reaction<V> = Reaction(vars: V, consumed: bool, actions: seq<Action>)

  /** State i has parent `parent[i]`, declared before it. A transition to t out of an entry handler is expected only
      while a state of higher rank is being entered. */
  datatype Machine<!V, !A> = Machine(parent: seq<int>, rank: seq<nat>, handler: (V, int, nat, A) -> Reaction<V>)

  /** A call of a handler. */
  datatype Notice = Notice(state: int, event: nat)

  /** `current[s + 1]` is `current_state` of state s, the root being state -1. `fault` records that some transition had a
      target whose parent was not active, that re-entrant transitions left the rank order, or that a handler chose a
      child that is not its own; it changes nothing else. */
  datatype Config<V> = Config(current: seq<int>, queue: seq<nat>, vars: V, log: seq<Notice>, fault: bool)

  // ---- structure ----

  ghost predicate WellFormed<V, A>(m: Machine<V, A>) {
    && |m.rank| == |m.parent|
    && forall s {:trigger m.parent[s]} :: 0 <= s < |m.parent| ==> -1 <= m.parent[s] < s
  }

  predicate IsState<V, A>(m: Machine<V, A>, s: int) {
    -1 <= s < |m.parent|
  }

  predicate IsChild<V, A>(m: Machine<V, A>, s: int, k: int) {
    0 <= k < |m.parent| && m.parent[k] == s
  }

  /** Every current state is none or a child of its holder. */
  ghost predicate Structured<V, A>(m: Machine<V, A>, current: seq<int>) {
    && WellFormed(m)
    && |current| == |m.parent| + 1
    && forall s {:trigger current[s + 1]} :: IsState(m, s) ==> current[s + 1] == NO_STATE || IsChild(m, s, current[s + 1])
  }

  lemma ChildOrNone<V, A>(m: Machine<V, A>, current: seq<int>, s: int)
    requires Structured(m, current) && IsState(m, s)
    ensures |current| == |m.parent| + 1 && (current[s + 1] == NO_STATE || IsChild(m, s, current[s + 1]))
  {
  }

  predicate Active<V, A>(m: Machine<V, A>, current: seq<int>, s: int)
    requires Structured(m, current) && IsState(m, s)
    decreases s + 1
  {
    s == ROOT || (current[m.parent[s] + 1] == s && Active(m, current, m.parent[s]))
  }

  /** The active states from s down. */
  function Path<V, A>(m: Machine<V, A>, current: seq<int>, s: int): (path: seq<int>)
    requires Structured(m, current) && IsState(m, s)
    ensures |path| > 0 && path[0] == s && forall k :: 0 <= k < |path| ==> IsState(m, path[k])
    decreases |m.parent| - s
  {
    var k := current[s + 1];
    if k == NO_STATE then [s] else [s] + Path(m, current, k)
  }

  // ---- the engine as functions ----

  /** `add_event_type` into a wrapping queue. */
  function Posted(queue: seq<nat>, event: nat): seq<nat> {
    Last(queue + [event], QUEUE_SIZE)
  }

  lemma PostedMembers(queue: seq<nat>, event: nat)
    ensures forall e :: e in Posted(queue, event) ==> e in queue || e == event
  {
    var all := queue + [event];
    forall e | e in Posted(queue, event)
      ensures e in queue || e == event
    {
      assert e in all;
    }
  }

  function Without(queue: seq<nat>, events: set<nat>): seq<nat> {
    if queue == [] then []
    else if queue[0] in events then Without(queue[1..], events)
    else [queue[0]] + Without(queue[1..], events)
  }

  lemma {:induction false} WithoutMembers(queue: seq<nat>, events: set<nat>)
    ensures forall e :: e in Without(queue, events) <==> e in queue && e !in events
    ensures |Without(queue, events)| <= |queue|
  {
    if queue != [] {
      WithoutMembers(queue[1..], events);
    }
  }

  /** One call of the handler of s. */
  function Offer<V, A>(m: Machine<V, A>, env: nat -> A, c: Config<V>, s: int, event: nat, bound: nat): (r: (Config<V>, bool))
    requires Structured(m, c.current) && IsState(m, s)
    ensures Structured(m, r.0.current)
    ensures c.log <= r.0.log
    decreases bound, 2
  {
    var reaction := m.handler(c.vars, s, event, env(|c.log|));
    (Performed(m, env, c.(vars := reaction.vars, log := c.log + [Notice(s, event)]), s, reaction.actions, bound),
     reaction.consumed)
  }

  function Performed<V, A>(m: Machine<V, A>, env: nat -> A, c: Config<V>, s: int, actions: seq<Action>, bound: nat): (r: Config<V>)
    requires Structured(m, c.current) && IsState(m, s)
    ensures Structured(m, r.current)
    ensures c.log <= r.log
    decreases bound, 1, |actions|
  {
    if actions == [] then c
    else Performed(m, env, Acted(m, env, c, s, actions[0], bound), s, actions[1..], bound)
  }

  function Acted<V, A>(m: Machine<V, A>, env: nat -> A, c: Config<V>, s: int, action: Action, bound: nat): (r: Config<V>)
    requires Structured(m, c.current) && IsState(m, s)
    ensures Structured(m, r.current)
    ensures c.log <= r.log
    decreases bound, 1, 0
  {
    match action
    case Post(e) => c.(queue := Posted(c.queue, e))
    case ClearQueue => c.(queue := [])
    case Discard(es) => c.(queue := Without(c.queue, es))
    case SetChild(k) =>
      if k == NO_STATE || IsChild(m, s, k) then c.(current := c.current[s + 1 := k]) else c.(fault := true)
    case Go(t) => Transitioned(m, env, c, t, bound)
  }

  /** `state_machine_process_event`: the active child first, then the state itself. */
  function Dispatch<V, A>(m: Machine<V, A>, env: nat -> A, c: Config<V>, s: int, event: nat, bound: nat): (r: (Config<V>, bool))
    requires Structured(m, c.current) && IsState(m, s)
    ensures Structured(m, r.0.current)
    ensures c.log <= r.0.log
    decreases bound, 3, |m.parent| - s
  {
    var k := c.current[s + 1];
    if k == NO_STATE then Offer(m, env, c, s, event, bound)
    else
      var (c', consumed) := Dispatch(m, env, c, k, event, bound);
      if consumed then (c', true) else Offer(m, env, c', s, event, bound)
  }

  /** `state_machine_transition`: the old subtree hears that it is left, then the new state and its current descendants
      that they are entered. */
  function Transitioned<V, A>(m: Machine<V, A>, env: nat -> A, c: Config<V>, t: nat, bound: nat): (r: Config<V>)
    requires Structured(m, c.current)
    ensures Structured(m, r.current)
    ensures c.log <= r.log
    decreases bound, 0
  {
    if t >= |m.parent| || m.rank[t] >= bound then c.(fault := true)
    else
      var moved := Moved(m, Left(m, env, c, m.parent[t]), t);
      EnterChildren(m, env, Offer(m, env, moved, t, ENTERING, m.rank[t]).0, t, m.rank[t])
  }

  /** The current subtree of p hears `EVENT_LEAVING_STATE`. */
  function Left<V, A>(m: Machine<V, A>, env: nat -> A, c: Config<V>, p: int): (r: Config<V>)
    requires Structured(m, c.current) && IsState(m, p)
    ensures Structured(m, r.current)
    ensures c.log <= r.log
    decreases 0, 4
  {
    if c.current[p + 1] == NO_STATE then c else Dispatch(m, env, c, c.current[p + 1], LEAVING, 0).0
  }

  function Moved<V, A>(m: Machine<V, A>, c: Config<V>, t: nat): (r: Config<V>)
    requires Structured(m, c.current) && t < |m.parent|
    ensures Structured(m, r.current)
    ensures c.log <= r.log
  {
    c.(current := c.current[m.parent[t] + 1 := t], fault := c.fault || !Active(m, c.current, m.parent[t]))
  }

  /** The loop at the end of `state_machine_transition`. */
  function EnterChildren<V, A>(m: Machine<V, A>, env: nat -> A, c: Config<V>, s: int, bound: nat): (r: Config<V>)
    requires Structured(m, c.current) && IsState(m, s)
    ensures Structured(m, r.current)
    ensures c.log <= r.log
    decreases bound, 3, |m.parent| - s
  {
    var k := c.current[s + 1];
    if k == NO_STATE then c
    else EnterChildren(m, env, Offer(m, env, c, k, ENTERING, bound).0, k, bound)
  }

  /** A bound above every rank: the one for events, which may start any transition. */
  function Top<V, A>(m: Machine<V, A>): (top: nat)
    ensures forall t :: 0 <= t < |m.rank| ==> m.rank[t] < top
  {
    Above(m.rank)
  }

  function Above(ranks: seq<nat>): (top: nat)
    ensures forall t :: 0 <= t < |ranks| ==> ranks[t] < top
  {
    if ranks == [] then 1
    else
      var top := Above(ranks[1..]);
      assert forall t :: 1 <= t < |ranks| ==> ranks[t] == ranks[1..][t - 1];
      if ranks[0] < top then top else ranks[0] + 1
  }

  /** A process handle: takes one event off the queue and dispatches it; false when there is none. */
  function Processed<V, A>(m: Machine<V, A>, env: nat -> A, c: Config<V>): (r: (Config<V>, bool))
    requires Structured(m, c.current)
    ensures Structured(m, r.0.current)
    ensures c.log <= r.0.log
  {
    if c.queue == [] then (c, false)
    else (Dispatch(m, env, c.(queue := c.queue[1..]), ROOT, c.queue[0], Top(m)).0, true)
  }

  // ---- unfolding one handler call ----

  /** The configuration in which the actions of a handler start. */
  function Told<V, A>(m: Machine<V, A>, env: nat -> A, c: Config<V>, s: int, event: nat): Config<V> {
    c.(vars := m.handler(c.vars, s, event, env(|c.log|)).vars, log := c.log + [Notice(s, event)])
  }

  function ActionsOf<V, A>(m: Machine<V, A>, env: nat -> A, c: Config<V>, s: int, event: nat): seq<Action> {
    m.handler(c.vars, s, event, env(|c.log|)).actions
  }

  function Consumes<V, A>(m: Machine<V, A>, env: nat -> A, c: Config<V>, s: int, event: nat): bool {
    m.handler(c.vars, s, event, env(|c.log|)).consumed
  }

  lemma Offer0<V, A>(m: Machine<V, A>, env: nat -> A, c: Config<V>, s: int, event: nat, bound: nat)
    requires Structured(m, c.current) && IsState(m, s)
    requires ActionsOf(m, env, c, s, event) == []
    ensures Offer(m, env, c, s, event, bound) == (Told(m, env, c, s, event), Consumes(m, env, c, s, event))
  {
  }

  lemma Offer1<V, A>(m: Machine<V, A>, env: nat -> A, c: Config<V>, s: int, event: nat, x: Action, bound: nat)
    requires Structured(m, c.current) && IsState(m, s)
    requires ActionsOf(m, env, c, s, event) == [x]
    ensures Offer(m, env, c, s, event, bound)
            == (Acted(m, env, Told(m, env, c, s, event), s, x, bound), Consumes(m, env, c, s, event))
  {
    hide Acted, Structured;
    assert [x][1..] == [];
    assert Performed(m, env, Told(m, env, c, s, event), s, [x], bound) == Acted(m, env, Told(m, env, c, s, event), s, x, bound);
  }

  lemma Offer2<V, A>(m: Machine<V, A>, env: nat -> A, c: Config<V>, s: int, event: nat, x: Action, y: Action, bound: nat)
    requires Structured(m, c.current) && IsState(m, s)
    requires ActionsOf(m, env, c, s, event) == [x, y]
    ensures Offer(m, env, c, s, event, bound)
            == (Acted(m, env, Acted(m, env, Told(m, env, c, s, event), s, x, bound), s, y, bound), Consumes(m, env, c, s, event))
  {
    hide Acted, Structured;
    var told := Told(m, env, c, s, event);
    var first := Acted(m, env, told, s, x, bound);
    assert [x, y][1..] == [y] && [y][1..] == [];
    assert Performed(m, env, first, s, [y], bound) == Acted(m, env, first, s, y, bound);
    assert Performed(m, env, told, s, [x, y], bound) == Acted(m, env, first, s, y, bound);
  }

  /** The configuration in which the actions of the entry of t start. */
  function Arriving<V, A>(m: Machine<V, A>, env: nat -> A, c: Config<V>, t: nat): Config<V>
    requires Structured(m, c.current) && t < |m.parent|
  {
    Told(m, env, Moved(m, Left(m, env, c, m.parent[t]), t), t, ENTERING)
  }

  /** What the entry of t does. */
  function Entry<V, A>(m: Machine<V, A>, env: nat -> A, c: Config<V>, t: nat): seq<Action>
    requires Structured(m, c.current) && t < |m.parent|
  {
    ActionsOf(m, env, Moved(m, Left(m, env, c, m.parent[t]), t), t, ENTERING)
  }

  lemma NoChildren<V, A>(m: Machine<V, A>, env: nat -> A, c: Config<V>, s: nat, bound: nat)
    requires Structured(m, c.current) && s < |m.parent| && c.current[s + 1] == NO_STATE
    ensures EnterChildren(m, env, c, s, bound) == c
  {
  }

  lemma Enter0<V, A>(m: Machine<V, A>, env: nat -> A, c: Config<V>, t: nat, bound: nat)
    requires Structured(m, c.current) && t < |m.parent| && m.rank[t] < bound && Entry(m, env, c, t) == []
    ensures Transitioned(m, env, c, t, bound) == EnterChildren(m, env, Arriving(m, env, c, t), t, m.rank[t])
  {
    hide Left, Offer, EnterChildren;
    Offer0(m, env, Moved(m, Left(m, env, c, m.parent[t]), t), t, ENTERING, m.rank[t]);
  }

  lemma Enter1<V, A>(m: Machine<V, A>, env: nat -> A, c: Config<V>, t: nat, x: Action, bound: nat)
    requires Structured(m, c.current) && t < |m.parent| && m.rank[t] < bound && Entry(m, env, c, t) == [x]
    ensures Transitioned(m, env, c, t, bound)
            == EnterChildren(m, env, Acted(m, env, Arriving(m, env, c, t), t, x, m.rank[t]), t, m.rank[t])
  {
    hide Left, Offer, EnterChildren, Acted;
    Offer1(m, env, Moved(m, Left(m, env, c, m.parent[t]), t), t, ENTERING, x, m.rank[t]);
  }

  lemma Enter2<V, A>(m: Machine<V, A>, env: nat -> A, c: Config<V>, t: nat, x: Action, y: Action, bound: nat)
    requires Structured(m, c.current) && t < |m.parent| && m.rank[t] < bound && Entry(m, env, c, t) == [x, y]
    ensures Transitioned(m, env, c, t, bound)
            == EnterChildren(m, env, Acted(m, env, Acted(m, env, Arriving(m, env, c, t), t, x, m.rank[t]), t, y, m.rank[t]), t, m.rank[t])
  {
    hide Left, Offer, EnterChildren, Acted;
    Offer2(m, env, Moved(m, Left(m, env, c, m.parent[t]), t), t, ENTERING, x, y, m.rank[t]);
  }

  lemma Acts<V, A>(m: Machine<V, A>, env: nat -> A, c: Config<V>, s: int, bound: nat)
    requires Structured(m, c.current) && IsState(m, s)
    ensures Acted(m, env, c, s, ClearQueue, bound) == c.(queue := [])
    ensures forall t :: Acted(m, env, c, s, Go(t), bound) == Transitioned(m, env, c, t, bound)
    ensures forall es :: Acted(m, env, c, s, Discard(es), bound) == c.(queue := Without(c.queue, es))
    ensures forall e :: Acted(m, env, c, s, Post(e), bound) == c.(queue := Posted(c.queue, e))
  {
    hide Transitioned, Without, Posted;
  }

  /** Entering t may choose its child. */
  lemma EnterAndChoose<V, A>(m: Machine<V, A>, env: nat -> A, c: Config<V>, t: nat, k: int, bound: nat)
    requires Structured(m, c.current) && t < |m.parent| && m.rank[t] < bound && Entry(m, env, c, t) == [SetChild(k)]
    requires k == NO_STATE || IsChild(m, t, k)
    ensures var b := Arriving(m, env, c, t).(current := Arriving(m, env, c, t).current[t + 1 := k]);
            Structured(m, b.current) && Transitioned(m, env, c, t, bound) == EnterChildren(m, env, b, t, m.rank[t])
  {
    hide Transitioned, EnterChildren, Arriving, Entry;
    Enter1(m, env, c, t, SetChild(k), bound);
  }

  /** Entering t may only be passing through, on to u. */
  lemma EnterAndGo<V, A>(m: Machine<V, A>, env: nat -> A, c: Config<V>, t: nat, u: nat, bound: nat)
    requires Structured(m, c.current) && t < |m.parent| && m.rank[t] < bound && Entry(m, env, c, t) == [Go(u)]
    requires Transitioned(m, env, Arriving(m, env, c, t), u, m.rank[t]).current[t + 1] == NO_STATE
    ensures Transitioned(m, env, c, t, bound) == Transitioned(m, env, Arriving(m, env, c, t), u, m.rank[t])
  {
    hide Transitioned, EnterChildren, Acted;
    var a := Arriving(m, env, c, t);
    Enter1(m, env, c, t, Go(u), bound);
    Acts(m, env, a, t, m.rank[t]);
    NoChildren(m, env, Transitioned(m, env, a, u, m.rank[t]), t, m.rank[t]);
  }

  lemma EnterClearAndGo<V, A>(m: Machine<V, A>, env: nat -> A, c: Config<V>, t: nat, u: nat, bound: nat)
    requires Structured(m, c.current) && t < |m.parent| && m.rank[t] < bound && Entry(m, env, c, t) == [ClearQueue, Go(u)]
    requires Transitioned(m, env, Arriving(m, env, c, t).(queue := []), u, m.rank[t]).current[t + 1] == NO_STATE
    ensures Transitioned(m, env, c, t, bound) == Transitioned(m, env, Arriving(m, env, c, t).(queue := []), u, m.rank[t])
  {
    hide Transitioned, EnterChildren, Acted;
    var a := Arriving(m, env, c, t);
    Enter2(m, env, c, t, ClearQueue, Go(u), bound);
    Acts(m, env, a, t, m.rank[t]);
    Acts(m, env, a.(queue := []), t, m.rank[t]);
    NoChildren(m, env, Transitioned(m, env, a.(queue := []), u, m.rank[t]), t, m.rank[t]);
  }

  lemma EnterDiscardAndGo<V, A>(m: Machine<V, A>, env: nat -> A, c: Config<V>, t: nat, es: set<nat>, u: nat, bound: nat)
    requires Structured(m, c.current) && t < |m.parent| && m.rank[t] < bound && Entry(m, env, c, t) == [Discard(es), Go(u)]
    requires var a := Arriving(m, env, c, t);
             Transitioned(m, env, a.(queue := Without(a.queue, es)), u, m.rank[t]).current[t + 1] == NO_STATE
    ensures var a := Arriving(m, env, c, t);
            Transitioned(m, env, c, t, bound) == Transitioned(m, env, a.(queue := Without(a.queue, es)), u, m.rank[t])
  {
    hide Transitioned, EnterChildren, Acted, Without;
    var a := Arriving(m, env, c, t);
    Enter2(m, env, c, t, Discard(es), Go(u), bound);
    Acts(m, env, a, t, m.rank[t]);
    var b := a.(queue := Without(a.queue, es));
    Acts(m, env, b, t, m.rank[t]);
    NoChildren(m, env, Transitioned(m, env, b, u, m.rank[t]), t, m.rank[t]);
  }

  /** Events posted one after the other. */
  function Posts(events: seq<nat>): seq<Action> {
    if events == [] then [] else [Post(events[0])] + Posts(events[1..])
  }

  function PostedAll(queue: seq<nat>, events: seq<nat>): seq<nat>
    decreases |events|
  {
    if events == [] then queue else PostedAll(Posted(queue, events[0]), events[1..])
  }

  lemma {:induction false} PerformedPosts<V, A>(m: Machine<V, A>, env: nat -> A, c: Config<V>, s: int, events: seq<nat>,
                                               rest: seq<Action>, bound: nat)
    requires Structured(m, c.current) && IsState(m, s)
    ensures Performed(m, env, c, s, Posts(events) + rest, bound)
            == Performed(m, env, c.(queue := PostedAll(c.queue, events)), s, rest, bound)
    decreases |events|
  {
    hide Posted, Structured;
    if events == [] {
      assert [] + rest == rest;
    } else {
      var all := Posts(events) + rest;
      assert all[0] == Post(events[0]) && all[1..] == Posts(events[1..]) + rest;
      PerformedPosts(m, env, c.(queue := Posted(c.queue, events[0])), s, events[1..], rest, bound);
    }
  }

  // ---- order of notification ----

  function Reverse(s: seq<int>): (r: seq<int>)
    ensures |r| == |s| && forall x :: x in r <==> x in s
  {
    if s == [] then [] else Reverse(s[1..]) + [s[0]]
  }

  /** Offers the event to the states in turn until one consumes it. */
  function Bubble<V, A>(m: Machine<V, A>, env: nat -> A, c: Config<V>, states: seq<int>, event: nat, bound: nat): (r: (Config<V>, bool))
    requires Structured(m, c.current) && forall s :: s in states ==> IsState(m, s)
    ensures Structured(m, r.0.current)
    decreases |states|
  {
    if states == [] then (c, false)
    else
      var (c', consumed) := Offer(m, env, c, states[0], event, bound);
      if consumed then (c', true) else Bubble(m, env, c', states[1..], event, bound)
  }

  lemma {:induction false} BubbleSplits<V, A>(m: Machine<V, A>, env: nat -> A, c: Config<V>, states: seq<int>, s: int, event: nat, bound: nat)
    requires Structured(m, c.current) && IsState(m, s) && forall x :: x in states ==> IsState(m, x)
    ensures forall x :: x in states + [s] ==> IsState(m, x)
    ensures var (c', consumed) := Bubble(m, env, c, states, event, bound);
            Bubble(m, env, c, states + [s], event, bound)
            == if consumed then (c', true) else Offer(m, env, c', s, event, bound)
    decreases |states|
  {
    hide Offer, Structured;
    var all := states + [s];
    if states == [] {
      assert all[1..] == [];
    } else {
      assert all[1..] == states[1..] + [s];
      var (c', consumed) := Offer(m, env, c, states[0], event, bound);
      if !consumed {
        BubbleSplits(m, env, c', states[1..], s, event, bound);
      }
    }
  }

  /** An event is offered from the innermost active state outward, along the active path as it was when the event was
      dispatched, and not beyond the first state that consumes it. */
  lemma {:induction false} DispatchBubbles<V, A>(m: Machine<V, A>, env: nat -> A, c: Config<V>, s: int, event: nat, bound: nat)
    requires Structured(m, c.current) && IsState(m, s)
    ensures Dispatch(m, env, c, s, event, bound) == Bubble(m, env, c, Reverse(Path(m, c.current, s)), event, bound)
    decreases |m.parent| - s
  {
    hide Offer;
    var k := c.current[s + 1];
    if k == NO_STATE {
      BubbleSplits(m, env, c, [], s, event, bound);
      assert [] + [s] == [s] == Reverse([s]);
    } else {
      DispatchBubbles(m, env, c, k, event, bound);
      var path := Path(m, c.current, s);
      assert path[1..] == Path(m, c.current, k);
      BubbleSplits(m, env, c, Reverse(Path(m, c.current, k)), s, event, bound);
    }
  }

  function Notices(states: seq<int>, event: nat): seq<Notice> {
    seq(|states|, i requires 0 <= i < |states| => Notice(states[i], event))
  }

  /** With the bound 0 of leaving nothing but the handlers asked enters the log. */
  lemma {:induction false} PerformQuietly<V, A>(m: Machine<V, A>, env: nat -> A, c: Config<V>, s: int, actions: seq<Action>)
    requires Structured(m, c.current) && IsState(m, s)
    ensures Performed(m, env, c, s, actions, 0).log == c.log
    decreases |actions|
  {
    if actions != [] {
      PerformQuietly(m, env, Acted(m, env, c, s, actions[0], 0), s, actions[1..]);
    }
  }

  lemma {:induction false} BubbleQuietly<V, A>(m: Machine<V, A>, env: nat -> A, c: Config<V>, states: seq<int>, event: nat)
      returns (n: nat)
    requires Structured(m, c.current) && states != [] && forall s :: s in states ==> IsState(m, s)
    ensures 0 < n <= |states|
    ensures Bubble(m, env, c, states, event, 0).0.log == c.log + Notices(states[..n], event)
    ensures Bubble(m, env, c, states, event, 0).1 || n == |states|
    decreases |states|
  {
    var reaction := m.handler(c.vars, states[0], event, env(|c.log|));
    var asked := c.(vars := reaction.vars, log := c.log + [Notice(states[0], event)]);
    PerformQuietly(m, env, asked, states[0], reaction.actions);
    var (c', consumed) := Offer(m, env, c, states[0], event, 0);
    assert c'.log == c.log + [Notice(states[0], event)];
    if consumed || |states| == 1 {
      n := 1;
      assert Notices(states[..1], event) == [Notice(states[0], event)];
    } else {
      var rest := BubbleQuietly(m, env, c', states[1..], event);
      n := rest + 1;
      assert Notices(states[..n], event) == [Notice(states[0], event)] + Notices(states[1..][..rest], event);
    }
  }

  /** No entry of a state starts a transition. */
  ghost predicate Settles<V(!new), A(!new)>(m: Machine<V, A>, s: nat) {
    forall v, a :: NoTransition(m.handler(v, s, ENTERING, a).actions)
  }

  predicate NoTransition(actions: seq<Action>) {
    forall i :: 0 <= i < |actions| ==> !actions[i].Go?
  }

  /** Without a transition a handler tells nobody and changes no child but its own. */
  lemma {:induction false} PerformSettles<V, A>(m: Machine<V, A>, env: nat -> A, c: Config<V>, s: int, actions: seq<Action>, bound: nat)
    requires Structured(m, c.current) && IsState(m, s) && NoTransition(actions)
    ensures var r := Performed(m, env, c, s, actions, bound);
            r.log == c.log && |r.current| == |c.current| && forall i :: 0 <= i < |c.current| && i != s + 1 ==> r.current[i] == c.current[i]
    decreases |actions|
  {
    hide Structured, Acted;
    if actions != [] {
      var acted := Acted(m, env, c, s, actions[0], bound);
      ActSettles(m, env, c, s, actions[0], bound);
      assert forall i :: 0 <= i < |actions[1..]| ==> actions[1..][i] == actions[i + 1];
      PerformSettles(m, env, acted, s, actions[1..], bound);
    }
  }

  lemma ActSettles<V, A>(m: Machine<V, A>, env: nat -> A, c: Config<V>, s: int, action: Action, bound: nat)
    requires Structured(m, c.current) && IsState(m, s) && !action.Go?
    ensures var r := Acted(m, env, c, s, action, bound);
            r.log == c.log && |r.current| == |c.current| && forall i :: 0 <= i < |c.current| && i != s + 1 ==> r.current[i] == c.current[i]
  {
    hide Posted, Without, Transitioned;
  }

  lemma OfferSettles<V(!new), A(!new)>(m: Machine<V, A>, env: nat -> A, c: Config<V>, s: nat, bound: nat)
    requires Structured(m, c.current) && IsState(m, s) && Settles(m, s)
    ensures var r := Offer(m, env, c, s, ENTERING, bound).0;
            && r.log == c.log + [Notice(s, ENTERING)] && |r.current| == |c.current|
            && forall i :: 0 <= i < |c.current| && i != s + 1 ==> r.current[i] == c.current[i]
  {
    hide Performed, Structured;
    var actions := m.handler(c.vars, s, ENTERING, env(|c.log|)).actions;
    PerformSettles(m, env, Told(m, env, c, s, ENTERING), s, actions, bound);
  }

  lemma ChildIsLater<V, A>(m: Machine<V, A>, current: seq<int>, s: int)
    requires Structured(m, current) && IsState(m, s) && current[s + 1] != NO_STATE
    ensures s < current[s + 1] < |m.parent|
  {
    ChildOrNone(m, current, s);
  }

  lemma NothingBelow<V, A>(m: Machine<V, A>, current: seq<int>, s: int)
    requires Structured(m, current) && IsState(m, s) && current[s + 1] == NO_STATE
    ensures Notices(Path(m, current, s)[1..], ENTERING) == []
  {
  }

  lemma ChildBelow<V, A>(m: Machine<V, A>, current: seq<int>, s: int, k: nat)
    requires Structured(m, current) && IsState(m, s) && current[s + 1] == k && IsState(m, k)
    ensures Notices(Path(m, current, s)[1..], ENTERING) == [Notice(k, ENTERING)] + Notices(Path(m, current, k)[1..], ENTERING)
  {
    var below := Path(m, current, k);
    assert Path(m, current, s)[1..] == below;
    assert Notices(below, ENTERING) == [Notice(k, ENTERING)] + Notices(below[1..], ENTERING);
  }

  /** If their entries start no transition, the descendants of a state are entered from the top down, each once, along the path
      that is active in the end. */
  lemma {:induction false} DescendantsInOrder<V(!new), A(!new)>(m: Machine<V, A>, env: nat -> A, c: Config<V>, s: nat, bound: nat)
    requires Structured(m, c.current) && IsState(m, s) && forall k: nat :: s < k < |m.parent| ==> Settles(m, k)
    ensures var r := EnterChildren(m, env, c, s, bound);
            && (forall i :: 0 <= i <= s + 1 ==> r.current[i] == c.current[i])
            && r.log == c.log + Notices(Path(m, r.current, s)[1..], ENTERING)
    decreases |m.parent| - s
  {
    hide Offer, Settles, Structured, Path, Notices;
    ChildOrNone(m, c.current, s);
    var k := c.current[s + 1];
    if k == NO_STATE {
      NothingBelow(m, c.current, s);
    } else {
      assert k > s by { ChildIsLater(m, c.current, s); }
      var entered := Offer(m, env, c, k, ENTERING, bound).0;
      OfferSettles(m, env, c, k, bound);
      DescendantsInOrder(m, env, entered, k, bound);
      ChildBelow(m, EnterChildren(m, env, entered, k, bound).current, s, k);
    }
  }

  /** A transition that is carried out first tells the states of the old subtree, from the innermost one outward, that
      they are left, then the target that it is entered, and only then anybody else. All of the old subtree is told
      unless one of its states consumes the notice. If no entry from the target down starts another transition, then after
      those that are left exactly the target and its descendants are told, from the top down. */
  lemma TransitionOrder<V(!new), A(!new)>(m: Machine<V, A>, env: nat -> A, c: Config<V>, t: nat, bound: nat) returns (n: nat)
    requires Structured(m, c.current) && t < |m.parent| && m.rank[t] < bound
    ensures var p := m.parent[t];
            var leaving := if c.current[p + 1] == NO_STATE then [] else Reverse(Path(m, c.current, c.current[p + 1]));
            && n <= |leaving|
            && (leaving != [] ==> n > 0)
            && Left(m, env, c, p).log == c.log + Notices(leaving[..n], LEAVING)
            && c.log + Notices(leaving[..n], LEAVING) + [Notice(t, ENTERING)] <= Transitioned(m, env, c, t, bound).log
            && ((forall k: nat :: t <= k < |m.parent| ==> Settles(m, k)) ==>
                  var r := Transitioned(m, env, c, t, bound);
                  r.log == c.log + Notices(leaving[..n], LEAVING) + Notices(Path(m, r.current, t), ENTERING))
  {
    hide Settles, Offer, Dispatch;
    var p := m.parent[t];
    var k := c.current[p + 1];
    if k == NO_STATE {
      n := 0;
      assert Notices([], LEAVING) == [];
    } else {
      var leaving := Reverse(Path(m, c.current, k));
      DispatchBubbles(m, env, c, k, LEAVING, 0);
      n := BubbleQuietly(m, env, c, leaving, LEAVING);
    }
    var moved := Moved(m, Left(m, env, c, p), t);
    var entered := Offer(m, env, moved, t, ENTERING, m.rank[t]).0;
    OfferLogs(m, env, moved, t, ENTERING, m.rank[t]);
    assert moved.log + [Notice(t, ENTERING)] <= entered.log;
    assert entered.log <= EnterChildren(m, env, entered, t, m.rank[t]).log;
    if forall k: nat :: t <= k < |m.parent| ==> Settles(m, k) {
      EntryInOrder(m, env, moved, t, m.rank[t]);
    }
  }

  lemma EntryInOrder<V(!new), A(!new)>(m: Machine<V, A>, env: nat -> A, c: Config<V>, t: nat, bound: nat)
    requires Structured(m, c.current) && IsState(m, t) && forall k: nat :: t <= k < |m.parent| ==> Settles(m, k)
    ensures var r := EnterChildren(m, env, Offer(m, env, c, t, ENTERING, bound).0, t, bound);
            r.log == c.log + Notices(Path(m, r.current, t), ENTERING)
  {
    hide Settles, Offer, EnterChildren;
    var entered := Offer(m, env, c, t, ENTERING, bound).0;
    OfferSettles(m, env, c, t, bound);
    DescendantsInOrder(m, env, entered, t, bound);
    var path := Path(m, EnterChildren(m, env, entered, t, bound).current, t);
    assert Notices(path, ENTERING) == [Notice(t, ENTERING)] + Notices(path[1..], ENTERING);
  }

  lemma OfferLogs<V, A>(m: Machine<V, A>, env: nat -> A, c: Config<V>, s: int, event: nat, bound: nat)
    requires Structured(m, c.current) && IsState(m, s)
    ensures c.log + [Notice(s, event)] <= Offer(m, env, c, s, event, bound).0.log
  {
  }

  // ---- only the answers given matter ----

  /** Two environments that give the same answers from the low-th handler call on, before the high-th. */
  ghost predicate Agree<A>(e: nat -> A, f: nat -> A, low: nat, high: nat) {
    forall n :: low <= n < high ==> e(n) == f(n)
  }

  lemma {:induction false} SameOffer<V, A>(m: Machine<V, A>, e: nat -> A, f: nat -> A, c: Config<V>, s: int, event: nat, bound: nat)
    requires Structured(m, c.current) && IsState(m, s) && Agree(e, f, |c.log|, |Offer(m, e, c, s, event, bound).0.log|)
    ensures Offer(m, e, c, s, event, bound) == Offer(m, f, c, s, event, bound)
    decreases bound, 2
  {
    hide Structured, Performed;
    OfferLogs(m, e, c, s, event, bound);
    assert e(|c.log|) == f(|c.log|);
    SamePerformed(m, e, f, Told(m, e, c, s, event), s, ActionsOf(m, e, c, s, event), bound);
  }

  lemma {:induction false} SamePerformed<V, A>(m: Machine<V, A>, e: nat -> A, f: nat -> A, c: Config<V>, s: int, actions: seq<Action>,
                                               bound: nat)
    requires Structured(m, c.current) && IsState(m, s) && Agree(e, f, |c.log|, |Performed(m, e, c, s, actions, bound).log|)
    ensures Performed(m, e, c, s, actions, bound) == Performed(m, f, c, s, actions, bound)
    decreases bound, 1, |actions|
  {
    hide Structured, Acted;
    if actions != [] {
      var acted := Acted(m, e, c, s, actions[0], bound);
      assert acted.log <= Performed(m, e, acted, s, actions[1..], bound).log;
      if actions[0].Go? {
        Acts(m, e, c, s, bound);
        Acts(m, f, c, s, bound);
        SameTransitioned(m, e, f, c, actions[0].target, bound);
      } else {
        SameActed(m, e, f, c, s, actions[0], bound);
      }
      SamePerformed(m, e, f, acted, s, actions[1..], bound);
    }
  }

  lemma SameActed<V, A>(m: Machine<V, A>, e: nat -> A, f: nat -> A, c: Config<V>, s: int, action: Action, bound: nat)
    requires Structured(m, c.current) && IsState(m, s) && !action.Go?
    ensures Acted(m, e, c, s, action, bound) == Acted(m, f, c, s, action, bound)
  {
    hide Posted, Without;
  }

  lemma {:induction false} SameTransitioned<V, A>(m: Machine<V, A>, e: nat -> A, f: nat -> A, c: Config<V>, t: nat, bound: nat)
    requires Structured(m, c.current) && Agree(e, f, |c.log|, |Transitioned(m, e, c, t, bound).log|)
    ensures Transitioned(m, e, c, t, bound) == Transitioned(m, f, c, t, bound)
    decreases bound, 0
  {
    hide Offer, Left, EnterChildren;
    if t < |m.parent| && m.rank[t] < bound {
      var left := Left(m, e, c, m.parent[t]);
      var moved := Moved(m, left, t);
      var entered := Offer(m, e, moved, t, ENTERING, m.rank[t]).0;
      assert left.log <= entered.log && entered.log <= EnterChildren(m, e, entered, t, m.rank[t]).log;
      SameLeft(m, e, f, c, m.parent[t]);
      SameOffer(m, e, f, moved, t, ENTERING, m.rank[t]);
      SameEnterChildren(m, e, f, entered, t, m.rank[t]);
    }
  }

  lemma {:induction false} SameLeft<V, A>(m: Machine<V, A>, e: nat -> A, f: nat -> A, c: Config<V>, p: int)
    requires Structured(m, c.current) && IsState(m, p) && Agree(e, f, |c.log|, |Left(m, e, c, p).log|)
    ensures Left(m, e, c, p) == Left(m, f, c, p)
    decreases 0, 4
  {
    hide Dispatch;
    if c.current[p + 1] != NO_STATE {
      SameDispatch(m, e, f, c, c.current[p + 1], LEAVING, 0);
    }
  }

  lemma {:induction false} SameEnterChildren<V, A>(m: Machine<V, A>, e: nat -> A, f: nat -> A, c: Config<V>, s: int, bound: nat)
    requires Structured(m, c.current) && IsState(m, s) && Agree(e, f, |c.log|, |EnterChildren(m, e, c, s, bound).log|)
    ensures EnterChildren(m, e, c, s, bound) == EnterChildren(m, f, c, s, bound)
    decreases bound, 3, |m.parent| - s
  {
    hide Offer;
    var k := c.current[s + 1];
    if k != NO_STATE {
      var entered := Offer(m, e, c, k, ENTERING, bound).0;
      assert entered.log <= EnterChildren(m, e, entered, k, bound).log;
      SameOffer(m, e, f, c, k, ENTERING, bound);
      SameEnterChildren(m, e, f, entered, k, bound);
    }
  }

  lemma {:induction false} SameDispatch<V, A>(m: Machine<V, A>, e: nat -> A, f: nat -> A, c: Config<V>, s: int, event: nat, bound: nat)
    requires Structured(m, c.current) && IsState(m, s) && Agree(e, f, |c.log|, |Dispatch(m, e, c, s, event, bound).0.log|)
    ensures Dispatch(m, e, c, s, event, bound) == Dispatch(m, f, c, s, event, bound)
    decreases bound, 3, |m.parent| - s
  {
    hide Offer;
    var k := c.current[s + 1];
    if k == NO_STATE {
      SameOffer(m, e, f, c, s, event, bound);
    } else {
      var inner := Dispatch(m, e, c, k, event, bound);
      if inner.1 {
        SameDispatch(m, e, f, c, k, event, bound);
      } else {
        assert inner.0.log <= Offer(m, e, inner.0, s, event, bound).0.log;
        SameDispatch(m, e, f, c, k, event, bound);
        SameOffer(m, e, f, inner.0, s, event, bound);
      }
    }
  }

  lemma SameProcessed<V, A>(m: Machine<V, A>, e: nat -> A, f: nat -> A, c: Config<V>)
    requires Structured(m, c.current) && Agree(e, f, |c.log|, |Processed(m, e, c).0.log|)
    ensures Processed(m, e, c) == Processed(m, f, c)
  {
    hide Dispatch;
    if c.queue != [] {
      SameDispatch(m, e, f, c.(queue := c.queue[1..]), ROOT, c.queue[0], Top(m));
    }
  }

  /** The answers of e to the first n handler calls, and those of f from then on. */
  function Spliced<A>(e: nat -> A, n: nat, f: nat -> A): nat -> A {
    (k: nat) => if k < n then e(k) else f(k)
  }

  // ---- events that only come from outside ----

  /** Only handling e can post e, or change what f measures. */
  ghost predicate Untouched<V(!new), A(!new)>(m: Machine<V, A>, e: nat, f: V -> int) {
    && e != ENTERING && e != LEAVING
    && forall v, s, event, a :: event != e ==>
         Post(e) !in m.handler(v, s, event, a).actions && f(m.handler(v, s, event, a).vars) == f(v)
  }

  /** e is still not queued, and what f measures is the same. */
  ghost predicate Silent<V>(c: Config<V>, r: Config<V>, e: nat, f: V -> int) {
    e !in r.queue && f(r.vars) == f(c.vars)
  }

  lemma {:induction false} SilentOffer<V(!new), A(!new)>(m: Machine<V, A>, env: nat -> A, c: Config<V>, s: int, event: nat, bound: nat,
                                                         e: nat, f: V -> int)
    requires Structured(m, c.current) && IsState(m, s) && Untouched(m, e, f) && event != e && e !in c.queue
    ensures Silent(c, Offer(m, env, c, s, event, bound).0, e, f)
    decreases bound, 2
  {
    hide Structured, Performed;
    SilentPerformed(m, env, Told(m, env, c, s, event), s, ActionsOf(m, env, c, s, event), bound, e, f);
  }

  lemma {:induction false} SilentPerformed<V(!new), A(!new)>(m: Machine<V, A>, env: nat -> A, c: Config<V>, s: int, actions: seq<Action>,
                                                             bound: nat, e: nat, f: V -> int)
    requires Structured(m, c.current) && IsState(m, s) && Untouched(m, e, f) && e !in c.queue && Post(e) !in actions
    ensures Silent(c, Performed(m, env, c, s, actions, bound), e, f)
    decreases bound, 1, |actions|
  {
    hide Structured, Acted, Untouched;
    if actions != [] {
      assert actions[0] in actions && forall x :: x in actions[1..] ==> x in actions;
      if actions[0].Go? {
        Acts(m, env, c, s, bound);
        SilentTransitioned(m, env, c, actions[0].target, bound, e, f);
      } else {
        SilentActed(m, env, c, s, actions[0], bound, e, f);
      }
      SilentPerformed(m, env, Acted(m, env, c, s, actions[0], bound), s, actions[1..], bound, e, f);
    }
  }

  lemma SilentActed<V, A>(m: Machine<V, A>, env: nat -> A, c: Config<V>, s: int, action: Action, bound: nat, e: nat, f: V -> int)
    requires Structured(m, c.current) && IsState(m, s) && !action.Go? && e !in c.queue && action != Post(e)
    ensures Silent(c, Acted(m, env, c, s, action, bound), e, f)
  {
    hide Posted, Without, Structured;
    match action
    case Post(x) => PostedMembers(c.queue, x);
    case Discard(xs) => WithoutMembers(c.queue, xs);
    case _ =>
  }

  lemma {:induction false} SilentTransitioned<V(!new), A(!new)>(m: Machine<V, A>, env: nat -> A, c: Config<V>, t: nat, bound: nat,
                                                                e: nat, f: V -> int)
    requires Structured(m, c.current) && Untouched(m, e, f) && e !in c.queue
    ensures Silent(c, Transitioned(m, env, c, t, bound), e, f)
    decreases bound, 0
  {
    hide Offer, Dispatch, EnterChildren, Untouched;
    NotNoticed(m, e, f);
    if t < |m.parent| && m.rank[t] < bound {
      var p := m.parent[t];
      if c.current[p + 1] != NO_STATE {
        SilentDispatch(m, env, c, c.current[p + 1], LEAVING, 0, e, f);
      }
      var moved := Moved(m, Left(m, env, c, p), t);
      SilentOffer(m, env, moved, t, ENTERING, m.rank[t], e, f);
      SilentEnter(m, env, Offer(m, env, moved, t, ENTERING, m.rank[t]).0, t, m.rank[t], e, f);
    }
  }

  lemma NotNoticed<V(!new), A(!new)>(m: Machine<V, A>, e: nat, f: V -> int)
    requires Untouched(m, e, f)
    ensures e != ENTERING && e != LEAVING
  {
  }

  lemma {:induction false} SilentEnter<V(!new), A(!new)>(m: Machine<V, A>, env: nat -> A, c: Config<V>, s: int, bound: nat,
                                                         e: nat, f: V -> int)
    requires Structured(m, c.current) && IsState(m, s) && Untouched(m, e, f) && e !in c.queue
    ensures Silent(c, EnterChildren(m, env, c, s, bound), e, f)
    decreases bound, 3, |m.parent| - s
  {
    hide Offer, Untouched;
    var k := c.current[s + 1];
    if k != NO_STATE {
      NotNoticed(m, e, f);
      SilentOffer(m, env, c, k, ENTERING, bound, e, f);
      SilentEnter(m, env, Offer(m, env, c, k, ENTERING, bound).0, k, bound, e, f);
    }
  }

  lemma {:induction false} SilentDispatch<V(!new), A(!new)>(m: Machine<V, A>, env: nat -> A, c: Config<V>, s: int, event: nat, bound: nat,
                                                            e: nat, f: V -> int)
    requires Structured(m, c.current) && IsState(m, s) && Untouched(m, e, f) && event != e && e !in c.queue
    ensures Silent(c, Dispatch(m, env, c, s, event, bound).0, e, f)
    decreases bound, 3, |m.parent| - s
  {
    hide Offer, Untouched;
    var k := c.current[s + 1];
    if k == NO_STATE {
      SilentOffer(m, env, c, s, event, bound, e, f);
    } else {
      SilentDispatch(m, env, c, k, event, bound, e, f);
      var inner := Dispatch(m, env, c, k, event, bound);
      if !inner.1 {
        SilentOffer(m, env, inner.0, s, event, bound, e, f);
      }
    }
  }

  /** As long as an event that only comes from outside is not queued, processing does not change what only it changes. */
  lemma SilentProcessed<V(!new), A(!new)>(m: Machine<V, A>, env: nat -> A, c: Config<V>, e: nat, f: V -> int)
    requires Structured(m, c.current) && Untouched(m, e, f) && e !in c.queue
    ensures Silent(c, Processed(m, env, c).0, e, f)
  {
    hide Dispatch, Untouched, Above;
    if c.queue != [] {
      assert c.queue[0] in c.queue && forall x :: x in c.queue[1..] ==> x in c.queue;
      SilentDispatch(m, env, c.(queue := c.queue[1..]), ROOT, c.queue[0], Top(m), e, f);
    }
  }

  // ---- the engine ----

  /** A queue i of whose events have been taken off, and put back behind the others unless discarded. */
  function Turned(queue: seq<nat>, i: nat, discarded: set<nat>): seq<nat>
    requires i <= |queue|
  {
    queue[i..] + Without(queue[..i], discarded)
  }

  lemma TurnedEnds(queue: seq<nat>, discarded: set<nat>)
    ensures Turned(queue, 0, discarded) == queue && Turned(queue, |queue|, discarded) == Without(queue, discarded)
  {
    assert queue[..|queue|] == queue;
  }

  lemma TurnedNext(queue: seq<nat>, i: nat, discarded: set<nat>)
    requires i < |queue|
    ensures var turned := Turned(queue, i, discarded);
            && turned != [] && turned[0] == queue[i]
            && Turned(queue, i + 1, discarded) == turned[1..] + if queue[i] in discarded then [] else [queue[i]]
  {
    hide Without;
    WithoutLast(queue, i, discarded);
    assert Turned(queue, i, discarded)[1..] == queue[i + 1..] + Without(queue[..i], discarded);
  }

  /** The engine of the source: `current_state` fields, an event queue and the variables behind the handlers, all changed
      in place. `answers` is the environment: the n-th handler call is told answers(n). */
  class Engine<V, A> {
    const machine: Machine<V, A>
    const answers: nat -> A
    const current: array<int>
    const events: Ring<nat>
    var vars: V
    var log: seq<Notice>
    var fault: bool

    ghost predicate Valid()
      reads this, current, events
    {
      && events.Valid() && events.Capacity() == QUEUE_SIZE && events.wrap
      && current.Length == |machine.parent| + 1
      && Structured(machine, current[..])
    }

    function State(): Config<V>
      requires events.Valid()
      reads this, current, events, events.storage
    {
      Config(current[..], events.Contents(), vars, log, fault)
    }

    constructor (machine: Machine<V, A>, answers: nat -> A, start: seq<int>, vars: V)
      requires Structured(machine, start)
      ensures Valid() && State() == Config(start, [], vars, [], false)
      ensures this.machine == machine && this.answers == answers
      ensures fresh(current) && fresh(events) && fresh(events.storage)
    {
      this.machine := machine;
      this.answers := answers;
      this.current := new int[|start|](i requires 0 <= i < |start| => start[i]);
      this.events := new Ring(QUEUE_SIZE, true, 0);
      this.vars := vars;
      this.log := [];
      this.fault := false;
      new;
      assert current[..] == start;
    }

    /** `add_event_type`. */
    method Post(event: nat)
      requires Valid()
      modifies events, events.storage
      ensures Valid() && State() == old(State()).(queue := Posted(old(State().queue), event))
    {
      var _ := events.Add(event);
    }

    method ClearQueue()
      requires Valid()
      modifies events, events.storage
      ensures Valid() && State() == old(State()).(queue := [])
    {
      events.Clear(0);
    }

    /** `remove_send_and_receive_events`: every queued event is taken off, and put back unless it is to go. */
    method Discard(discarded: set<nat>)
      requires Valid()
      modifies events, events.storage
      ensures Valid() && State() == old(State()).(queue := Without(old(State().queue), discarded))
    {
      hide Without, Structured, Turned;
      ghost var queue := events.Contents();
      var numberOfEvents := events.Size();
      TurnedEnds(queue, discarded);
      for i := 0 to numberOfEvents
        invariant Valid() && current[..] == old(current[..])
        invariant events.Contents() == Turned(queue, i, discarded)
      {
        TurnedNext(queue, i, discarded);
        Recirculate(discarded);
      }
    }

    /** One round of that loop. */
    method Recirculate(discarded: set<nat>)
      requires Valid() && |events.Contents()| > 0
      modifies events, events.storage
      ensures Valid()
      ensures var queue := old(events.Contents());
              events.Contents() == queue[1..] + if queue[0] in discarded then [] else [queue[0]]
    {
      hide Last;
      ghost var queue := events.Contents();
      var popped, event := events.Pop();
      assert events.Contents() == queue[1..];
      if event !in discarded {
        LastWithRoom(queue[1..], event, QUEUE_SIZE);
        var _ := events.Add(event);
      }
    }

    /** A process handle. */
    method Process() returns (processed: bool)
      requires Valid()
      modifies this, current, events, events.storage
      ensures Valid() && (State(), processed) == Processed(machine, answers, old(State()))
    {
      var popped, event := events.Pop();
      if popped {
        var _ := ProcessEvent(ROOT, event, Top(machine));
        return true;
      }
      return false;
    }

    /** `state_machine_process_event`. */
    method ProcessEvent(state: int, event: nat, bound: nat) returns (processed: bool)
      requires Valid() && IsState(machine, state)
      modifies this, current, events, events.storage
      ensures Valid() && (State(), processed) == Dispatch(machine, answers, old(State()), state, event, bound)
      decreases bound, 3, |machine.parent| - state
    {
      processed := false;
      if current[state + 1] != NO_STATE {
        processed := ProcessEvent(current[state + 1], event, bound);
      }
      if !processed {
        processed := Handle(state, event, bound);
      }
    }

    /** A handler call. */
    method Handle(state: int, event: nat, bound: nat) returns (processed: bool)
      requires Valid() && IsState(machine, state)
      modifies this, current, events, events.storage
      ensures Valid() && (State(), processed) == Offer(machine, answers, old(State()), state, event, bound)
      decreases bound, 2
    {
      var reaction := machine.handler(vars, state, event, answers(|log|));
      vars := reaction.vars;
      log := log + [Notice(state, event)];
      React(state, reaction.actions, bound);
      return reaction.consumed;
    }

    method React(state: int, actions: seq<Action>, bound: nat)
      requires Valid() && IsState(machine, state)
      modifies this, current, events, events.storage
      ensures Valid() && State() == Performed(machine, answers, old(State()), state, actions, bound)
      decreases bound, 1, |actions|
    {
      if actions != [] {
        ghost var before := State();
        match actions[0] {
        case Post(e) => Post(e);
        case ClearQueue => ClearQueue();
        case Discard(es) => Discard(es);
        case SetChild(k) => SetChild(state, k, bound);
        case Go(t) => Transition(t, bound);
        }
        assert State() == Acted(machine, answers, before, state, actions[0], bound);
        React(state, actions[1..], bound);
      }
    }

    method SetChild(state: int, child: int, ghost bound: nat)
      requires Valid() && IsState(machine, state)
      modifies this, current
      ensures Valid() && State() == Acted(machine, answers, old(State()), state, Action.SetChild(child), bound)
    {
      if child == NO_STATE || IsChild(machine, state, child) {
        ghost var before := current[..];
        current[state + 1] := child;
        assert current[..] == before[state + 1 := child];
      } else {
        fault := true;
      }
    }

    /** `state_machine_transition`. */
    method Transition(newState: nat, bound: nat)
      requires Valid()
      modifies this, current, events, events.storage
      ensures Valid() && State() == Transitioned(machine, answers, old(State()), newState, bound)
      decreases bound, 0
    {
      if newState >= |machine.parent| || machine.rank[newState] >= bound {
        fault := true;
        return;
      }
      hide Dispatch, Offer, EnterChildren, Moved, Left;
      Leave(machine.parent[newState]);
      Move(newState);
      var _ := Handle(newState, ENTERING, machine.rank[newState]);
      EnterDescendants(newState, machine.rank[newState]);
    }

    method Leave(parent: int)
      requires Valid() && IsState(machine, parent)
      modifies this, current, events, events.storage
      ensures Valid() && State() == Left(machine, answers, old(State()), parent)
      decreases 0, 4
    {
      if current[parent + 1] != NO_STATE {
        var _ := ProcessEvent(current[parent + 1], LEAVING, 0);
      }
    }

    method Move(newState: nat)
      requires Valid() && newState < |machine.parent|
      modifies this, current
      ensures Valid() && State() == Moved(machine, old(State()), newState)
    {
      var parent := machine.parent[newState];
      fault := fault || !IsActive(parent);
      ghost var before := current[..];
      current[parent + 1] := newState;
      assert current[..] == before[parent + 1 := newState];
    }

    function IsActive(state: int): bool
      requires Valid() && IsState(machine, state)
      reads this, current, events
    {
      Active(machine, current[..], state)
    }

    /** The loop at the end of `state_machine_transition`. */
    method EnterDescendants(newState: int, bound: nat)
      requires Valid() && IsState(machine, newState)
      modifies this, current, events, events.storage
      ensures Valid() && State() == EnterChildren(machine, answers, old(State()), newState, bound)
      decreases bound, 3, |machine.parent| - newState
    {
      var state := newState;
      while current[state + 1] != NO_STATE
        invariant Valid() && IsState(machine, state) && state >= newState
        invariant EnterChildren(machine, answers, State(), state, bound)
                  == EnterChildren(machine, answers, old(State()), newState, bound)
        decreases |machine.parent| - state
      {
        state := current[state + 1];
        var _ := Handle(state, ENTERING, bound);
      }
    }
  }

  lemma {:induction false} WithoutLast(queue: seq<nat>, i: nat, discarded: set<nat>)
    requires i < |queue|
    ensures Without(queue[..i + 1], discarded)
            == Without(queue[..i], discarded) + (if queue[i] in discarded then [] else [queue[i]])
    ensures |Without(queue[..i], discarded)| <= i
  {
    if i > 0 {
      WithoutLast(queue[1..], i - 1, discarded);
      assert queue[..i + 1][1..] == queue[1..][..i] && queue[..i][1..] == queue[1..][..i - 1];
    }
  }
}
