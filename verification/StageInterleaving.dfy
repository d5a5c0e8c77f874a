/** Stage executions that overlap: any number of them begin, events are appended, and they end, in any order. */
module StageInterleaving {
  import opened EventBus
  import opened RunPublishing

  /** A stage execution has a number of its own and belongs to a session. */
  datatype Act = Begin(stage: nat, sessionId: string) | Append(event: Event) | End(stage: nat)

  /** What one open execution remembers: its session and the ids that were there when it began. */
  datatype Open = Open(sessionId: string, before: set<string>)

  datatype World = World(log: EventLog, open: map<nat, Open>, published: EventLog)

  function Published(w: World, stage: nat): EventLog {
    if stage in w.open then NewEvents(w.log, w.open[stage].sessionId, w.open[stage].before) else []
  }

  function Next(w: World, act: Act): World {
    match act
    case Begin(k, sid) => w.(open := w.open[k := Open(sid, IdsOf(ListEvents(w.log, sid)))])
    case Append(e) => w.(log := w.log + [e])
    case End(k) => w.(published := w.published + Published(w, k), open := w.open - {k})
  }

  function At(acts: seq<Act>, i: nat): World
    requires i <= |acts|
  {
    if i == 0 then World([], map[], []) else Next(At(acts, i - 1), acts[i - 1])
  }

  /** The events appended from one point of the run up to another. */
  function Between(acts: seq<Act>, first: nat, end: nat): EventLog
    requires first <= end <= |acts|
    decreases end
  {
    if first == end then []
    else Between(acts, first, end - 1) + (if acts[end - 1].Append? then [acts[end - 1].event] else [])
  }

  predicate ActsOk(acts: seq<Act>) {
    LogOk(Between(acts, 0, |acts|))
  }

  /** Stage k begins at b and neither begins again nor ends before e. */
  predicate OpenFrom(acts: seq<Act>, b: nat, e: nat)
    requires e <= |acts|
  {
    && b < e && acts[b].Begin?
    && forall i :: b < i < e ==> acts[i] != End(acts[b].stage) && !(acts[i].Begin? && acts[i].stage == acts[b].stage)
  }

  lemma {:induction false} BetweenConcat(acts: seq<Act>, a: nat, b: nat, c: nat)
    requires a <= b <= c <= |acts|
    ensures Between(acts, a, c) == Between(acts, a, b) + Between(acts, b, c)
    decreases c
  {
    if b < c {
      BetweenConcat(acts, a, b, c - 1);
    } else {
      assert Between(acts, a, b) + [] == Between(acts, a, b);
    }
  }

  lemma {:induction false} LogIsAppended(acts: seq<Act>, i: nat)
    requires i <= |acts|
    ensures At(acts, i).log == Between(acts, 0, i)
    decreases i
  {
    hide NewEvents, ListEvents;
    if i > 0 {
      LogIsAppended(acts, i - 1);
      assert Between(acts, 0, i - 1) + [] == Between(acts, 0, i - 1);
    }
  }

  /** An open execution still remembers what was there when it began. */
  lemma {:induction false} OpenRemembers(acts: seq<Act>, b: nat, e: nat)
    requires b < e <= |acts| && OpenFrom(acts, b, e)
    ensures acts[b].stage in At(acts, e).open
    ensures At(acts, e).open[acts[b].stage] == Open(acts[b].sessionId,
        IdsOf(ListEvents(At(acts, b).log, acts[b].sessionId)))
    decreases e
  {
    hide NewEvents, ListEvents;
    if e > b + 1 {
      OpenRemembers(acts, b, e - 1);
    }
  }

  lemma {:induction false} PartIsOk(acts: seq<Act>, b: nat, e: nat)
    requires ActsOk(acts) && b <= e <= |acts|
    ensures At(acts, e).log == At(acts, b).log + Between(acts, b, e)
    ensures LogOk(At(acts, b).log + Between(acts, b, e)) && LogOk(Between(acts, b, e))
  {
    hide LogOk, Between, At;
    LogIsAppended(acts, b);
    LogIsAppended(acts, e);
    BetweenConcat(acts, 0, b, e);
    BetweenConcat(acts, 0, e, |acts|);
    LogParts(Between(acts, 0, e), Between(acts, e, |acts|));
    LogParts(Between(acts, 0, b), Between(acts, b, e));
  }

  /**
   * However executions overlap, one that ends publishes exactly the events of its session that were
   * appended since it began, in order, whoever appended them.
   */
  lemma {:induction false} EndPublishesSinceBegin(acts: seq<Act>, b: nat, e: nat)
    requires ActsOk(acts) && b < e < |acts| && OpenFrom(acts, b, e) && acts[e] == End(acts[b].stage)
    ensures Published(At(acts, e), acts[b].stage) == ListEvents(Between(acts, b, e), acts[b].sessionId)
  {
    hide LogOk, Between, At, NewEvents, ListEvents;
    OpenRemembers(acts, b, e);
    PartIsOk(acts, b, e);
    NewIsAppended(At(acts, b).log, Between(acts, b, e), acts[b].sessionId);
  }

  /** Nothing published is ever taken back. */
  lemma {:induction false} PublishedStays(acts: seq<Act>, i: nat, j: nat)
    requires i <= j <= |acts|
    ensures At(acts, i).published <= At(acts, j).published
    decreases j
  {
    hide NewEvents, ListEvents;
    if i < j {
      PublishedStays(acts, i, j - 1);
    }
  }

  lemma AppendedIsBetween(acts: seq<Act>, b: nat, a: nat, e: nat)
    requires b <= a < e <= |acts| && acts[a].Append?
    ensures acts[a].event in Between(acts, b, e)
  {
    BetweenConcat(acts, b, a, e);
    BetweenConcat(acts, a, a + 1, e);
    assert Between(acts, a, a + 1) == [acts[a].event] by {
      assert Between(acts, a, a) == [];
    }
  }

  /** Whatever overlaps, an event appended while an execution of its session is open is published once that ends. */
  lemma {:induction false} EveryEventIsPublished(acts: seq<Act>, b: nat, a: nat, e: nat)
    requires ActsOk(acts) && b < a < e < |acts| && OpenFrom(acts, b, e) && acts[e] == End(acts[b].stage)
    requires acts[a].Append? && acts[a].event.sessionId == acts[b].sessionId
    ensures acts[a].event in At(acts, |acts|).published
  {
    hide LogOk, Between, NewEvents, ListEvents, At;
    EndPublishesSinceBegin(acts, b, e);
    AppendedIsBetween(acts, b, a, e);
    ListEventsAre(Between(acts, b, e), acts[b].sessionId);
    AfterEnd(acts, e);
    PublishedStays(acts, e + 1, |acts|);
    assert acts[a].event in Published(At(acts, e), acts[b].stage);
    PrefixHolds(At(acts, e + 1).published, At(acts, |acts|).published, acts[a].event);
  }

  lemma AfterEnd(acts: seq<Act>, e: nat)
    requires e < |acts| && acts[e].End?
    ensures At(acts, e + 1).published == At(acts, e).published + Published(At(acts, e), acts[e].stage)
  {
  }

  lemma PrefixHolds(a: EventLog, b: EventLog, e: Event)
    requires a <= b && e in a
    ensures e in b
  {
  }

  // ---------- how often ----------

  function Copies(events: EventLog, e: Event): nat {
    if events == [] then 0 else (if events[0] == e then 1 else 0) + Copies(events[1..], e)
  }

  lemma {:induction false} CopiesConcat(a: EventLog, b: EventLog, e: Event)
    ensures Copies(a + b, e) == Copies(a, e) + Copies(b, e)
    decreases |a|
  {
    if a == [] {
      assert a + b == b;
    } else {
      assert (a + b)[1..] == a[1..] + b;
      CopiesConcat(a[1..], b, e);
    }
  }

  lemma {:induction false} OneCopy(events: EventLog, e: Event)
    requires LogOk(events)
    ensures Copies(events, e) == if e in events then 1 else 0
    decreases |events|
  {
    if events != [] {
      assert LogOk(events[1..]);
      OneCopy(events[1..], e);
      assert e == events[0] ==> e !in events[1..];
    }
  }

  lemma {:induction false} InBetween(acts: seq<Act>, b: nat, e: nat, x: Event) returns (a: nat)
    requires b <= e <= |acts| && x in Between(acts, b, e)
    ensures b <= a < e && acts[a] == Append(x)
    decreases e
  {
    if acts[e - 1] == Append(x) {
      a := e - 1;
    } else {
      assert x in Between(acts, b, e - 1);
      a := InBetween(acts, b, e - 1, x);
    }
  }

  /** Every open execution has begun and not ended since. */
  lemma {:induction false} OpenHasBegun(acts: seq<Act>, i: nat, k: nat) returns (b: nat)
    requires i <= |acts| && k in At(acts, i).open
    ensures OpenFrom(acts, b, i) && acts[b].stage == k
    decreases i
  {
    hide NewEvents, ListEvents;
    if acts[i - 1].Begin? && acts[i - 1].stage == k {
      b := i - 1;
    } else {
      b := OpenHasBegun(acts, i - 1, k);
    }
  }

  /** An execution of the event's session ends at i, and the event was appended at a while it was open. */
  predicate EndCovers(acts: seq<Act>, i: nat, x: Event)
    requires i < |acts|
  {
    acts[i].End? && exists b, a :: 0 <= b < a < i && CoversFrom(acts, b, a, i, x)
  }

  predicate CoversFrom(acts: seq<Act>, b: nat, a: nat, i: nat, x: Event)
    requires b < a < i < |acts| && acts[i].End?
  {
    OpenFrom(acts, b, i) && acts[b].stage == acts[i].stage && acts[b].sessionId == x.sessionId && acts[a] == Append(x)
  }

  function Covering(acts: seq<Act>, n: nat, x: Event): nat
    requires n <= |acts|
  {
    if n == 0 then 0 else Covering(acts, n - 1, x) + (if EndCovers(acts, n - 1, x) then 1 else 0)
  }

  lemma EndPublishesCovered(acts: seq<Act>, i: nat, x: Event)
    requires ActsOk(acts) && i < |acts| && acts[i].End?
    ensures Copies(Published(At(acts, i), acts[i].stage), x) == if EndCovers(acts, i, x) then 1 else 0
  {
    hide LogOk, Between, NewEvents, ListEvents, At, Copies;
    var k := acts[i].stage;
    if k in At(acts, i).open {
      var b := OpenHasBegun(acts, i, k);
      EndPublishesSinceBegin(acts, b, i);
      PartIsOk(acts, b, i);
      var part := Between(acts, b, i);
      ListEventsOk(part, acts[b].sessionId);
      ListEventsAre(part, acts[b].sessionId);
      OneCopy(ListEvents(part, acts[b].sessionId), x);
      if x in part && x.sessionId == acts[b].sessionId {
        var a := InBetween(acts, b, i, x);
        assert CoversFrom(acts, b, a, i, x);
      }
      if EndCovers(acts, i, x) {
        var c, a :| 0 <= c < a < i && CoversFrom(acts, c, a, i, x);
        assert c == b;
        AppendedIsBetween(acts, b, a, i);
      }
    } else {
      NoCopies(x);
      forall c, a | 0 <= c < a < i
        ensures !CoversFrom(acts, c, a, i, x)
      {
        if OpenFrom(acts, c, i) {
          OpenRemembers(acts, c, i);
        }
      }
    }
  }

  lemma NoCopies(x: Event)
    ensures Copies([], x) == 0
  {
  }

  /**
   * The exact count: an event is published once for every execution of its session that was open when
   * it was appended and that has ended. One execution at a time means exactly once.
   */
  lemma {:induction false} PublishedOncePerCover(acts: seq<Act>, n: nat, x: Event)
    requires ActsOk(acts) && n <= |acts|
    ensures Copies(At(acts, n).published, x) == Covering(acts, n, x)
    decreases n
  {
    hide ActsOk, NewEvents, ListEvents, EndCovers, Copies;
    if n == 0 {
      NoCopies(x);
    } else {
      PublishedOncePerCover(acts, n - 1, x);
      var w := At(acts, n - 1);
      if acts[n - 1].End? {
        EndPublishesCovered(acts, n - 1, x);
        CopiesConcat(w.published, Published(w, acts[n - 1].stage), x);
      } else {
        NotEndCovers(acts, n - 1, x);
      }
    }
  }

  lemma NotEndCovers(acts: seq<Act>, i: nat, x: Event)
    requires i < |acts| && !acts[i].End?
    ensures !EndCovers(acts, i, x)
  {
  }
}
