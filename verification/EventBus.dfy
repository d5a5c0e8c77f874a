/** The daemon's event bus: listeners subscribe to a session and get every event published to it. */
module EventBus {
  /** Listeners are told apart by identity. */
  type Listener = nat

  datatype Event = Event(id: string, sessionId: string, sequence: nat)

  /**
   * The sets of listeners that were ever made, each known by its place in the list, and which set is
   * current for a session. An unsubscribe handle holds on to the set it was made with.
   */
  datatype Bus = Bus(sets: seq<seq<Listener>>, current: map<string, nat>)

  datatype Handle = Handle(sessionId: string, set_: nat, listener: Listener)

  // ---------- the operations ----------

  function Without(ls: seq<Listener>, l: Listener): seq<Listener> {
    if ls == [] then [] else (if ls[0] == l then [] else [ls[0]]) + Without(ls[1..], l)
  }

  function With(ls: seq<Listener>, l: Listener): seq<Listener> {
    if l in ls then ls else ls + [l]
  }

  function ListenersOf(b: Bus, sessionId: string): seq<Listener> {
    if sessionId in b.current && b.current[sessionId] < |b.sets| then b.sets[b.current[sessionId]] else []
  }

  function Subscribed(b: Bus, sessionId: string, l: Listener): (Bus, Handle) {
    if sessionId in b.current && b.current[sessionId] < |b.sets| then
      var k := b.current[sessionId];
      (Bus(b.sets[k := With(b.sets[k], l)], b.current[sessionId := k]), Handle(sessionId, k, l))
    else
      (Bus(b.sets + [[l]], b.current[sessionId := |b.sets|]), Handle(sessionId, |b.sets|, l))
  }

  function Unsubscribed(b: Bus, h: Handle): Bus
    requires h.set_ < |b.sets|
  {
    var left := Without(b.sets[h.set_], h.listener);
    Bus(b.sets[h.set_ := left], if left == [] then b.current - {h.sessionId} else b.current)
  }

  /** What each listener has received. */
  type Inboxes = map<Listener, seq<Event>>

  function InboxOf(inboxes: Inboxes, l: Listener): seq<Event> {
    if l in inboxes then inboxes[l] else []
  }

  function Delivered(inboxes: Inboxes, ls: seq<Listener>, e: Event): Inboxes
    decreases |ls|
  {
    if ls == [] then inboxes else Delivered(inboxes[ls[0] := InboxOf(inboxes, ls[0]) + [e]], ls[1..], e)
  }

  class DaemonEventBus {
    var sets: seq<seq<Listener>>
    var current: map<string, nat>
    var inboxes: Inboxes

    ghost function View(): Bus
      reads this
    {
      Bus(sets, current)
    }

    constructor ()
      ensures View() == Bus([], map[]) && inboxes == map[]
    {
      sets, current, inboxes := [], map[], map[];
    }

    method Subscribe(sessionId: string, l: Listener) returns (h: Handle)
      modifies this`sets, this`current
      ensures (View(), h) == Subscribed(old(View()), sessionId, l)
    {
      var k := |sets|;
      if sessionId in current && current[sessionId] < |sets| {
        k := current[sessionId];
      } else {
        sets := sets + [[]];
        assert [] + [l] == [l];
        assert sets[k := [l]] == old(sets) + [[l]];
      }
      if l !in sets[k] {
        sets := sets[k := sets[k] + [l]];
      }
      assert k < |old(sets)| ==> sets == old(sets)[k := With(old(sets)[k], l)];
      current := current[sessionId := k];
      h := Handle(sessionId, k, l);
    }

    method Unsubscribe(h: Handle)
      requires h.set_ < |sets|
      modifies this`sets, this`current
      ensures View() == Unsubscribed(old(View()), h)
    {
      sets := sets[h.set_ := Without(sets[h.set_], h.listener)];
      if |sets[h.set_]| == 0 {
        current := current - {h.sessionId};
      }
    }

    method Publish(e: Event)
      modifies this`inboxes
      ensures inboxes == Delivered(old(inboxes), ListenersOf(View(), e.sessionId), e)
    {
      if e.sessionId !in current || current[e.sessionId] >= |sets| {
        return;
      }
      var listeners := sets[current[e.sessionId]];
      var i := 0;
      while i < |listeners|
        invariant 0 <= i <= |listeners|
        invariant Delivered(old(inboxes), listeners, e) == Delivered(inboxes, listeners[i..], e)
      {
        assert listeners[i..][1..] == listeners[i + 1..];
        inboxes := inboxes[listeners[i] := InboxOf(inboxes, listeners[i]) + [e]];
        i := i + 1;
      }
    }

    method ListenerCount(sessionId: string) returns (n: nat)
      ensures n == |ListenersOf(View(), sessionId)|
    {
      n := if sessionId in current && current[sessionId] < |sets| then |sets[current[sessionId]]| else 0;
    }
  }

  // ---------- delivery ----------

  predicate NoDuplicates(ls: seq<Listener>) {
    forall i, j :: 0 <= i < j < |ls| ==> ls[i] != ls[j]
  }

  /** Every listener of the session gets the event exactly once, and nobody else gets it. */
  lemma {:induction false} DeliveredOnce(inboxes: Inboxes, ls: seq<Listener>, e: Event, l: Listener)
    requires NoDuplicates(ls)
    ensures InboxOf(Delivered(inboxes, ls, e), l) == InboxOf(inboxes, l) + (if l in ls then [e] else [])
    decreases |ls|
  {
    if ls != [] {
      DeliveredOnce(inboxes[ls[0] := InboxOf(inboxes, ls[0]) + [e]], ls[1..], e, l);
    }
  }

  lemma {:induction false} WithoutIs(ls: seq<Listener>, l: Listener)
    requires NoDuplicates(ls)
    ensures NoDuplicates(Without(ls, l)) && forall m :: m in Without(ls, l) <==> m in ls && m != l
    decreases |ls|
  {
    if ls != [] {
      WithoutIs(ls[1..], l);
      var rest := Without(ls[1..], l);
      assert ls == [ls[0]] + ls[1..];
      assert forall j :: 1 <= j < |ls| ==> ls[1..][j - 1] == ls[j];
      if ls[0] != l {
        assert Without(ls, l) == [ls[0]] + rest;
        assert ls[0] !in rest;
      } else {
        assert Without(ls, l) == rest;
      }
    }
  }

  // ---------- runs ----------

  /** Handles are numbered in the order of the subscriptions that made them. */
  datatype BusOp = Sub(sessionId: string, listener: Listener) | Call(handle: nat)

  /** The bus, the handles given out, and those that were called. */
  datatype BusState = BusState(bus: Bus, handles: seq<Handle>, called: set<nat>)

  const START := BusState(Bus([], map[]), [], {})

  function BusStep(w: BusState, op: BusOp): BusState {
    match op
    case Sub(sid, l) =>
      var (bus, h) := Subscribed(w.bus, sid, l);
      BusState(bus, w.handles + [h], w.called)
    case Call(k) =>
      if k < |w.handles| && w.handles[k].set_ < |w.bus.sets| then
        BusState(Unsubscribed(w.bus, w.handles[k]), w.handles, w.called + {k})
      else w
  }

  function BusRun(w: BusState, ops: seq<BusOp>): BusState
    decreases |ops|
  {
    if ops == [] then w else BusRun(BusStep(w, ops[0]), ops[1..])
  }

  /** A handle is called at most once, and no listener subscribes to a session it is still subscribed to. */
  predicate Proper(w: BusState, op: BusOp) {
    match op
    case Sub(sid, l) =>
      forall k :: 0 <= k < |w.handles| && k !in w.called ==> w.handles[k].sessionId != sid || w.handles[k].listener != l
    case Call(k) => k < |w.handles| && k !in w.called
  }

  predicate ProperRun(w: BusState, ops: seq<BusOp>)
    decreases |ops|
  {
    ops == [] || (Proper(w, ops[0]) && ProperRun(BusStep(w, ops[0]), ops[1..]))
  }

  /** The plain meaning of the subscriptions: a list of listeners for each session, each of them once. */
  type Plain = map<string, seq<Listener>>

  function PlainOf(p: Plain, sid: string): seq<Listener> {
    if sid in p then p[sid] else []
  }

  datatype PlainState = PlainState(lists: Plain, handles: seq<(string, Listener)>)

  function PlainStep(p: PlainState, op: BusOp): PlainState {
    match op
    case Sub(sid, l) => PlainState(p.lists[sid := With(PlainOf(p.lists, sid), l)], p.handles + [(sid, l)])
    case Call(k) =>
      if k < |p.handles| then
        var (sid, l) := p.handles[k];
        p.(lists := p.lists[sid := Without(PlainOf(p.lists, sid), l)])
      else p
  }

  function PlainRun(p: PlainState, ops: seq<BusOp>): PlainState
    decreases |ops|
  {
    if ops == [] then p else PlainRun(PlainStep(p, ops[0]), ops[1..])
  }

  /** A handle that was not called belongs to its session's current set, and its listener is in it. */
  predicate HandleOk(b: Bus, h: Handle) {
    h.sessionId in b.current && b.current[h.sessionId] == h.set_ && h.set_ < |b.sets| && h.listener in b.sets[h.set_]
  }

  predicate BusOk(b: Bus) {
    && (forall sid :: sid in b.current ==> b.current[sid] < |b.sets|)
    && (forall s, t :: s in b.current && t in b.current && s != t ==> b.current[s] != b.current[t])
    && (forall i :: 0 <= i < |b.sets| ==> NoDuplicates(b.sets[i]))
  }

  predicate HandleFor(h: Handle, sid: string, l: Listener) {
    h.sessionId == sid && h.listener == l
  }

  ghost predicate StateOk(w: BusState) {
    && BusOk(w.bus)
    && (forall k :: k in w.called ==> k < |w.handles|)
    && (forall k :: 0 <= k < |w.handles| ==> w.handles[k].set_ < |w.bus.sets|)
    && (forall k :: 0 <= k < |w.handles| && k !in w.called ==> HandleOk(w.bus, w.handles[k]))
    && (forall j, k :: 0 <= j < k < |w.handles| && j !in w.called && k !in w.called ==>
          w.handles[j].sessionId != w.handles[k].sessionId || w.handles[j].listener != w.handles[k].listener)
    && (forall sid, l :: l in ListenersOf(w.bus, sid) ==>
          exists k :: 0 <= k < |w.handles| && k !in w.called && HandleFor(w.handles[k], sid, l))
  }

  ghost predicate Refines(w: BusState, p: PlainState) {
    && |p.handles| == |w.handles|
    && (forall k :: 0 <= k < |w.handles| ==> p.handles[k] == (w.handles[k].sessionId, w.handles[k].listener))
    && (forall sid :: ListenersOf(w.bus, sid) == PlainOf(p.lists, sid))
  }

  lemma SubKeepsBus(b: Bus, sid: string, l: Listener)
    requires BusOk(b) && l !in ListenersOf(b, sid)
    ensures var next := Subscribed(b, sid, l).0;
      BusOk(next) && HandleOk(next, Subscribed(b, sid, l).1) && |b.sets| <= |next.sets|
  {
    hide NoDuplicates;
    SubKeepsOnce(b, sid, l);
  }

  lemma SubListens(b: Bus, sid: string, l: Listener, s: string)
    requires BusOk(b) && l !in ListenersOf(b, sid)
    ensures ListenersOf(Subscribed(b, sid, l).0, s)
         == if s == sid then ListenersOf(b, sid) + [l] else ListenersOf(b, s)
  {
    hide NoDuplicates;
  }

  lemma SubKeepsHandle(b: Bus, sid: string, l: Listener, h: Handle)
    requires BusOk(b) && HandleOk(b, h)
    ensures HandleOk(Subscribed(b, sid, l).0, h)
  {
  }

  lemma SubKeeps(w: BusState, sid: string, l: Listener)
    requires StateOk(w) && Proper(w, Sub(sid, l))
    ensures StateOk(BusStep(w, Sub(sid, l))) && l !in ListenersOf(w.bus, sid)
    ensures forall s :: ListenersOf(BusStep(w, Sub(sid, l)).bus, s) ==
                        if s == sid then ListenersOf(w.bus, sid) + [l] else ListenersOf(w.bus, s)
  {
    hide BusOk, HandleOk, ListenersOf, Subscribed;
    var next := BusStep(w, Sub(sid, l));
    var n := |w.handles|;
    SubKeepsBus(w.bus, sid, l);
    forall s: string
      ensures ListenersOf(next.bus, s) == if s == sid then ListenersOf(w.bus, sid) + [l] else ListenersOf(w.bus, s)
    {
      SubListens(w.bus, sid, l, s);
    }
    HandleIs(w.bus, sid, l);
    forall k | 0 <= k < n && k !in w.called
      ensures HandleOk(next.bus, next.handles[k])
    {
      SubKeepsHandle(w.bus, sid, l, w.handles[k]);
    }
    assert forall k :: 0 <= k < n ==> next.handles[k] == w.handles[k];
    forall s, m | m in ListenersOf(next.bus, s)
      ensures exists k :: 0 <= k < |next.handles| && k !in next.called && HandleFor(next.handles[k], s, m)
    {
      if m in ListenersOf(w.bus, s) {
        var k :| 0 <= k < |w.handles| && k !in w.called && HandleFor(w.handles[k], s, m);
        assert HandleFor(next.handles[k], s, m);
      } else {
        assert HandleFor(next.handles[n], s, m);
      }
    }
  }

  lemma HandleIs(b: Bus, sid: string, l: Listener)
    ensures var (next, h) := Subscribed(b, sid, l);
      h.sessionId == sid && h.listener == l && h.set_ < |next.sets|
  {
  }

  /** Calling the handle of a current set takes that listener out of that session, and nothing else. */
  lemma CallOnCurrent(b: Bus, h: Handle)
    requires BusOk(b) && HandleOk(b, h)
    ensures var next := Unsubscribed(b, h);
      && BusOk(next) && |next.sets| == |b.sets|
      && (forall s :: ListenersOf(next, s) == if s == h.sessionId then Without(ListenersOf(b, s), h.listener)
          else ListenersOf(b, s))
  {
    WithoutIs(b.sets[h.set_], h.listener);
  }

  lemma CallKeepsHandle(b: Bus, h: Handle, other: Handle)
    requires BusOk(b) && HandleOk(b, h) && HandleOk(b, other)
    requires other.sessionId != h.sessionId || other.listener != h.listener
    ensures HandleOk(Unsubscribed(b, h), other)
  {
    WithoutIs(b.sets[h.set_], h.listener);
  }

  /** What a call leaves of a session's list. */
  function AfterCall(h: Handle, sid: string, ls: seq<Listener>): seq<Listener> {
    if sid == h.sessionId then Without(ls, h.listener) else ls
  }

  lemma CallKeeps(w: BusState, k: nat)
    requires StateOk(w) && Proper(w, Call(k))
    ensures StateOk(BusStep(w, Call(k)))
    ensures forall s :: ListenersOf(BusStep(w, Call(k)).bus, s) == AfterCall(w.handles[k], s, ListenersOf(w.bus, s))
  {
    hide BusOk, HandleOk, ListenersOf, Unsubscribed, NoDuplicates;
    var next := BusStep(w, Call(k));
    var h := w.handles[k];
    CallOnCurrent(w.bus, h);
    forall j | 0 <= j < |w.handles| && j !in next.called
      ensures HandleOk(next.bus, next.handles[j])
    {
      assert j != k && (j < k || k < j);
      CallKeepsHandle(w.bus, h, w.handles[j]);
    }
    forall s, m | m in ListenersOf(next.bus, s)
      ensures exists j :: 0 <= j < |next.handles| && j !in next.called && HandleFor(next.handles[j], s, m)
    {
      ListenersAreOnce(w.bus, s);
      WithoutIs(ListenersOf(w.bus, s), h.listener);
      var j :| 0 <= j < |w.handles| && j !in w.called && HandleFor(w.handles[j], s, m);
      assert j != k;
      assert HandleFor(next.handles[j], s, m);
    }
  }

  lemma ListenersAreOnce(b: Bus, sid: string)
    requires BusOk(b)
    ensures NoDuplicates(ListenersOf(b, sid))
  {
  }

  lemma StepRefines(w: BusState, p: PlainState, op: BusOp)
    requires StateOk(w) && Refines(w, p) && Proper(w, op)
    ensures StateOk(BusStep(w, op)) && Refines(BusStep(w, op), PlainStep(p, op))
  {
    hide StateOk, ListenersOf, Subscribed, Unsubscribed;
    match op {
      case Sub(sid, l) =>
        SubKeeps(w, sid, l);
        HandleIs(w.bus, sid, l);
      case Call(k) =>
        CallKeeps(w, k);
        HandleInRange(w, k);
    }
  }

  /**
   * With handles called at most once, the bus is a plain list of listeners for each session: a call
   * takes out its own listener and never drops another one.
   */
  lemma {:induction false} BusRefinesPlainLists(w: BusState, p: PlainState, ops: seq<BusOp>)
    requires StateOk(w) && Refines(w, p) && ProperRun(w, ops)
    ensures StateOk(BusRun(w, ops)) && Refines(BusRun(w, ops), PlainRun(p, ops))
    decreases |ops|
  {
    hide StateOk, Refines, BusStep, PlainStep, Proper;
    if ops != [] {
      StepRefines(w, p, ops[0]);
      BusRefinesPlainLists(BusStep(w, ops[0]), PlainStep(p, ops[0]), ops[1..]);
    }
  }

  lemma HandleInRange(w: BusState, k: nat)
    requires StateOk(w) && k < |w.handles|
    ensures w.handles[k].set_ < |w.bus.sets|
  {
  }

  lemma StartIsPlain()
    ensures StateOk(START) && Refines(START, PlainState(map[], []))
  {
  }

  // ---------- where the bus differs from plain lists ----------

  /**
   * A handle whose set is not its session's any more. Its call takes the session's new set away from somebody
   * else when the old set is empty then, and otherwise leaves its listener in the new set, where it should go.
   */
  predicate Displaces(b: Bus, h: Handle)
    requires h.set_ < |b.sets|
  {
    && h.sessionId in b.current
    && b.current[h.sessionId] != h.set_
    && (if Without(b.sets[h.set_], h.listener) == [] then
          exists l :: l in ListenersOf(b, h.sessionId) && l != h.listener
        else h.listener in ListenersOf(b, h.sessionId))
  }

  /** One call of a handle does to its session what it does to a plain list, exactly when it displaces nobody. */
  lemma {:induction false} CallIsPlainIff(b: Bus, h: Handle)
    requires BusOk(b) && h.set_ < |b.sets|
    ensures ListenersOf(Unsubscribed(b, h), h.sessionId) == Without(ListenersOf(b, h.sessionId), h.listener) <==>
            !Displaces(b, h)
  {
    var now := ListenersOf(b, h.sessionId);
    assert NoDuplicates(now);
    WithoutIs(now, h.listener);
    WithoutIs(b.sets[h.set_], h.listener);
    WithoutKeeps(now, h.listener);
  }

  /** What holds in every state: a set never serves two sessions, now or through a handle. */
  ghost predicate Sound(w: BusState) {
    && BusOk(w.bus)
    && (forall k :: 0 <= k < |w.handles| ==> w.handles[k].set_ < |w.bus.sets|)
    && (forall k, s :: 0 <= k < |w.handles| && s in w.bus.current && w.bus.current[s] == w.handles[k].set_ ==>
          s == w.handles[k].sessionId)
  }

  lemma WithIsOnce(ls: seq<Listener>, l: Listener)
    requires NoDuplicates(ls)
    ensures NoDuplicates(With(ls, l)) && NoDuplicates([l])
  {
  }

  lemma SubKeepsOnce(b: Bus, sid: string, l: Listener)
    requires BusOk(b)
    ensures BusOk(Subscribed(b, sid, l).0)
  {
    hide NoDuplicates, With;
    WithIsOnce([], l);
    if sid in b.current {
      WithIsOnce(b.sets[b.current[sid]], l);
    }
  }

  lemma SubIsPlain(b: Bus, sid: string, l: Listener, s: string)
    requires BusOk(b)
    ensures ListenersOf(Subscribed(b, sid, l).0, s)
         == if s == sid then With(ListenersOf(b, sid), l) else ListenersOf(b, s)
  {
    hide NoDuplicates;
  }

  lemma CallKeepsOnce(b: Bus, h: Handle)
    requires BusOk(b) && h.set_ < |b.sets|
    ensures BusOk(Unsubscribed(b, h))
  {
    WithoutIs(b.sets[h.set_], h.listener);
  }

  /** Any subscription and any call keep this, also calls that displace somebody. */
  lemma {:induction false} StepIsSound(w: BusState, op: BusOp)
    requires Sound(w)
    ensures Sound(BusStep(w, op))
  {
    hide NoDuplicates;
    match op {
      case Sub(sid, l) =>
        SubKeepsOnce(w.bus, sid, l);
      case Call(k) =>
        if k < |w.handles| {
          CallKeepsOnce(w.bus, w.handles[k]);
        }
    }
  }

  /** A call leaves every other session alone. */
  lemma CallLeavesOthers(w: BusState, k: nat, s: string)
    requires Sound(w) && k < |w.handles| && s != w.handles[k].sessionId
    ensures ListenersOf(Unsubscribed(w.bus, w.handles[k]), s) == ListenersOf(w.bus, s)
  {
    hide NoDuplicates, Without;
  }

  predicate StepDisplaces(w: BusState, op: BusOp) {
    op.Call? && op.handle < |w.handles| && w.handles[op.handle].set_ < |w.bus.sets|
    && Displaces(w.bus, w.handles[op.handle])
  }

  /** Any step at all is the plain one, for all sessions, exactly when it displaces nobody. */
  lemma {:induction false} StepIsPlainIff(w: BusState, p: PlainState, op: BusOp)
    requires Sound(w) && Refines(w, p)
    ensures Refines(BusStep(w, op), PlainStep(p, op)) <==> !StepDisplaces(w, op)
  {
    hide BusOk, ListenersOf, Subscribed, Unsubscribed, Displaces;
    var next, plain := BusStep(w, op), PlainStep(p, op);
    match op {
      case Sub(sid, l) =>
        HandleIs(w.bus, sid, l);
        forall s: string
          ensures ListenersOf(next.bus, s) == PlainOf(plain.lists, s)
        {
          SubIsPlain(w.bus, sid, l, s);
        }
      case Call(k) =>
        if k < |w.handles| {
          var h := w.handles[k];
          CallIsPlainIff(w.bus, h);
          forall s: string | s != h.sessionId
            ensures ListenersOf(next.bus, s) == PlainOf(plain.lists, s)
          {
            CallLeavesOthers(w, k, s);
          }
          assert PlainOf(plain.lists, h.sessionId) == Without(ListenersOf(w.bus, h.sessionId), h.listener);
        }
    }
  }

  ghost predicate AlwaysPlain(w: BusState, p: PlainState, ops: seq<BusOp>)
    decreases |ops|
  {
    Refines(w, p) && (ops != [] ==> AlwaysPlain(BusStep(w, ops[0]), PlainStep(p, ops[0]), ops[1..]))
  }

  predicate NeverDisplaces(w: BusState, ops: seq<BusOp>)
    decreases |ops|
  {
    ops != [] ==> !StepDisplaces(w, ops[0]) && NeverDisplaces(BusStep(w, ops[0]), ops[1..])
  }

  lemma {:induction false} RunIsPlainIff(w: BusState, p: PlainState, ops: seq<BusOp>)
    requires Sound(w) && Refines(w, p)
    ensures AlwaysPlain(w, p, ops) <==> NeverDisplaces(w, ops)
    decreases |ops|
  {
    hide Sound, Refines, BusStep, PlainStep, StepDisplaces;
    if ops != [] {
      StepIsPlainIff(w, p, ops[0]);
      if !StepDisplaces(w, ops[0]) {
        StepIsSound(w, ops[0]);
        RunIsPlainIff(BusStep(w, ops[0]), PlainStep(p, ops[0]), ops[1..]);
      } else {
        assert !Refines(BusStep(w, ops[0]), PlainStep(p, ops[0]));
      }
    }
  }

  /**
   * From an empty bus, over any run of subscriptions and calls, proper or not: at every point every session has the
   * listeners of the plain lists exactly when no call of the run displaces another subscription.
   */
  lemma {:induction false} BusIsPlainIff(ops: seq<BusOp>)
    ensures AlwaysPlain(START, PlainState(map[], []), ops) <==> NeverDisplaces(START, ops)
  {
    hide AlwaysPlain, NeverDisplaces;
    StartIsPlain();
    RunIsPlainIff(START, PlainState(map[], []), ops);
  }

  lemma {:induction false} WithoutKeeps(ls: seq<Listener>, l: Listener)
    requires NoDuplicates(ls)
    ensures Without(ls, l) == ls <==> l !in ls
    ensures Without(ls, l) == [] <==> forall m :: m in ls ==> m == l
  {
    WithoutIs(ls, l);
    if l !in ls {
      WithoutNothing(ls, l);
    }
    if Without(ls, l) != [] {
      assert Without(ls, l)[0] in ls;
    } else {
      forall m | m in ls
        ensures m == l
      {
        assert m != l ==> m in Without(ls, l);
      }
    }
  }

  lemma {:induction false} WithoutNothing(ls: seq<Listener>, l: Listener)
    requires l !in ls
    ensures Without(ls, l) == ls
    decreases |ls|
  {
    if ls != [] {
      WithoutNothing(ls[1..], l);
      assert ls == [ls[0]] + ls[1..];
    }
  }

  /** The last listener of the first set goes, and the session has no set any more. */
  lemma LastOneLeaves(w: BusState, sid: string, a: Listener, k: nat)
    requires w.bus == Bus([[a]], map[sid := 0]) && k < |w.handles| && w.handles[k] == Handle(sid, 0, a)
    ensures BusStep(w, Call(k)) == BusState(Bus([[]], map[]), w.handles, w.called + {k})
  {
    assert [a][1..] == [];
    var none: seq<Listener> := [];
    assert Without([a], a) == none;
    assert [[a]][0 := none] == [none];
    assert w.bus.current - {sid} == map[];
  }

  /** The next subscription makes a second set. */
  lemma NextOneComes(w: BusState, sid: string, b: Listener)
    requires w.bus == Bus([[]], map[])
    ensures BusStep(w, Sub(sid, b)) == BusState(Bus([[], [b]], map[sid := 1]), w.handles + [Handle(sid, 1, b)],
        w.called)
  {
    assert [[]] + [[b]] == [[], [b]];
  }

  /** A handle of the first set takes the session's entry away, although its set is the second one. */
  lemma AnotherIsDropped(w: BusState, sid: string, a: Listener, b: Listener, k: nat)
    requires w.bus == Bus([[], [b]], map[sid := 1]) && k < |w.handles| && w.handles[k] == Handle(sid, 0, a)
    ensures ListenersOf(BusStep(w, Call(k)).bus, sid) == []
  {
  }

  lemma FirstOneComes(sid: string, a: Listener)
    ensures BusStep(START, Sub(sid, a)) == BusState(Bus([[a]], map[sid := 0]), [Handle(sid, 0, a)], {})
  {
    assert [] + [[a]] == [[a]];
    assert [] + [Handle(sid, 0, a)] == [Handle(sid, 0, a)];
  }

  /** A second call of a handle drops a listener that subscribed after the first. */
  lemma {:induction false} SecondCallDropsAnother(sid: string, a: Listener, b: Listener)
    requires a != b
    ensures var ops := [Sub(sid, a), Call(0), Sub(sid, b), Call(0)];
      && ListenersOf(BusRun(START, ops).bus, sid) == []
      && PlainOf(PlainRun(PlainState(map[], []), ops).lists, sid) == [b]
  {
    hide BusRun, PlainRun, BusStep, ListenersOf;
    RunIsSteps(START, Sub(sid, a), Call(0), Sub(sid, b), Call(0));
    FirstOneComes(sid, a);
    var w1 := BusStep(START, Sub(sid, a));
    LastOneLeaves(w1, sid, a, 0);
    var w2 := BusStep(w1, Call(0));
    NextOneComes(w2, sid, b);
    AnotherIsDropped(BusStep(w2, Sub(sid, b)), sid, a, b, 0);
    PlainRunIsSteps(PlainState(map[], []), Sub(sid, a), Call(0), Sub(sid, b), Call(0));
    PlainSteps(sid, a, b);
  }

  lemma PlainSteps(sid: string, a: Listener, b: Listener)
    requires a != b
    ensures var p := PlainStep(PlainStep(PlainState(map[], []), Sub(sid, a)), Call(0));
      PlainOf(PlainStep(PlainStep(p, Sub(sid, b)), Call(0)).lists, sid) == [b]
  {
    assert [a][1..] == [] && [b][1..] == [] && [] + [b] == [b] && [] + [a] == [a];
    assert Without([a], a) == [] && Without([b], a) == [b];
  }

  lemma RunIsSteps(w: BusState, o0: BusOp, o1: BusOp, o2: BusOp, o3: BusOp)
    ensures BusRun(w, [o0, o1, o2, o3]) == BusStep(BusStep(BusStep(BusStep(w, o0), o1), o2), o3)
  {
    hide BusStep;
    var w1 := BusStep(w, o0);
    var w2 := BusStep(w1, o1);
    var w3 := BusStep(w2, o2);
    assert [o0, o1, o2, o3][1..] == [o1, o2, o3] && [o1, o2, o3][1..] == [o2, o3] && [o2, o3][1..] == [o3] &&
        [o3][1..] == [];
    assert BusRun(w3, [o3]) == BusRun(BusStep(w3, o3), []);
    assert BusRun(w2, [o2, o3]) == BusRun(w3, [o3]);
    assert BusRun(w1, [o1, o2, o3]) == BusRun(w2, [o2, o3]);
  }

  lemma PlainRunIsSteps(p: PlainState, o0: BusOp, o1: BusOp, o2: BusOp, o3: BusOp)
    ensures PlainRun(p, [o0, o1, o2, o3]) == PlainStep(PlainStep(PlainStep(PlainStep(p, o0), o1), o2), o3)
  {
    hide PlainStep;
    var p1 := PlainStep(p, o0);
    var p2 := PlainStep(p1, o1);
    var p3 := PlainStep(p2, o2);
    assert [o0, o1, o2, o3][1..] == [o1, o2, o3] && [o1, o2, o3][1..] == [o2, o3] && [o2, o3][1..] == [o3] &&
        [o3][1..] == [];
    assert PlainRun(p3, [o3]) == PlainRun(PlainStep(p3, o3), []);
    assert PlainRun(p2, [o2, o3]) == PlainRun(p3, [o3]);
    assert PlainRun(p1, [o1, o2, o3]) == PlainRun(p2, [o2, o3]);
  }

  /** So does the first call of a second handle, when one listener subscribed twice. */
  lemma {:induction false} DoubleSubscriptionDropsAnother(sid: string, a: Listener, b: Listener)
    requires a != b
    ensures var w := BusStep(BusRun(START, [Sub(sid, a), Sub(sid, a), Call(0), Sub(sid, b)]), Call(1));
      ListenersOf(w.bus, sid) == []
  {
    hide BusRun, BusStep, ListenersOf;
    RunIsSteps(START, Sub(sid, a), Sub(sid, a), Call(0), Sub(sid, b));
    FirstOneComes(sid, a);
    var w1 := BusStep(START, Sub(sid, a));
    SameOneAgain(w1, sid, a);
    var w2 := BusStep(w1, Sub(sid, a));
    LastOneLeaves(w2, sid, a, 0);
    var w3 := BusStep(w2, Call(0));
    NextOneComes(w3, sid, b);
    AnotherIsDropped(BusStep(w3, Sub(sid, b)), sid, a, b, 1);
  }

  /** A listener that is there already makes one more handle, and nothing else. */
  lemma SameOneAgain(w: BusState, sid: string, a: Listener)
    requires w.bus == Bus([[a]], map[sid := 0])
    ensures BusStep(w, Sub(sid, a)) == w.(handles := w.handles + [Handle(sid, 0, a)])
  {
    assert [[a]][0 := [a]] == [[a]];
  }

  /** From an empty bus, over every proper run: each session's listeners are those of the plain list. */
  lemma {:induction false} BusIsPlain(ops: seq<BusOp>, sid: string)
    requires ProperRun(START, ops)
    ensures ListenersOf(BusRun(START, ops).bus, sid) == PlainOf(PlainRun(PlainState(map[], []), ops).lists, sid)
    ensures NoDuplicates(ListenersOf(BusRun(START, ops).bus, sid))
  {
    StartIsPlain();
    BusRefinesPlainLists(START, PlainState(map[], []), ops);
    ListenersAreOnce(BusRun(START, ops).bus, sid);
  }
}
