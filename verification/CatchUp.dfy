/** A projector's passes over one tenant's events (`catch_up`, `read_feed`, `CatchUpRunner::drain`). */
module CatchUp {
  import opened Prelude
  import opened State
  import opened Index

  /** One tenant's events at positions past `from` and up to `to`, in global order. */
  function Waiting(log: map<nat, Event>, tenant: Tenant, from: nat, to: nat): seq<Event> {
    if to <= from then []
    else
      Waiting(log, tenant, from, to - 1)
      + (if to in log && log[to].stream.tenant == tenant then [log[to]] else [])
  }

  datatype Progress = Progress(events: seq<Event>, position: nat, moreWaiting: bool)

  /** One pass: at most a batch of what waits, and whether more does. Feed pages are read the same way. */
  function Pass(s: State, tenant: Tenant, position: nat, batch: nat): Progress {
    var n := BoundedLimit(batch);
    var waiting := Waiting(s.events.byPosition, tenant, position, s.next);
    var events := if |waiting| <= n then waiting else waiting[..n];
    Progress(events, if events == [] then position else events[|events| - 1].position, |waiting| > n)
  }

  // ---- What waits ----

  lemma {:induction false} WaitingJoin(log: map<nat, Event>, tenant: Tenant, from: nat, mid: nat, to: nat)
    requires from <= mid <= to
    ensures Waiting(log, tenant, from, to) == Waiting(log, tenant, from, mid) + Waiting(log, tenant, mid, to)
  {
    if mid < to {
      WaitingJoin(log, tenant, from, mid, to - 1);
    }
  }

  /** The first `k` that wait are exactly those up to the last of them. */
  lemma {:induction false} FirstWaiting(e: Events, tenant: Tenant, from: nat, to: nat, k: nat)
    requires Coherent(e) && k <= |Waiting(e.byPosition, tenant, from, to)|
    ensures var waiting := Waiting(e.byPosition, tenant, from, to);
      var at := if k == 0 then from else waiting[k - 1].position;
      && (k > 0 ==> from < at <= to) && waiting[..k] == Waiting(e.byPosition, tenant, from, at)
  {
    hide Contiguous, Indexed;
    var log := e.byPosition;
    if to > from {
      var waiting, shorter := Waiting(log, tenant, from, to), Waiting(log, tenant, from, to - 1);
      if k <= |shorter| {
        FirstWaiting(e, tenant, from, to - 1, k);
        assert waiting[..k] == shorter[..k];
      } else {
        assert Located(e, to);
        assert waiting[..k] == waiting;
      }
    }
  }

  /** A pass applies exactly what waits between the cursor and where it leaves it. */
  lemma PassExact(s: State, tenant: Tenant, position: nat, batch: nat)
    requires Agreed(s)
    ensures var p := Pass(s, tenant, position, batch);
      && position <= p.position && (p.events != [] ==> position < p.position <= s.next)
      && p.events == Waiting(s.events.byPosition, tenant, position, p.position)
      && (!p.moreWaiting ==> p.events == Waiting(s.events.byPosition, tenant, position, s.next))
      && (p.moreWaiting ==> p.events != [])
  {
    hide Coherent, Waiting;
    var waiting := Waiting(s.events.byPosition, tenant, position, s.next);
    var p := Pass(s, tenant, position, batch);
    FirstWaiting(s.events, tenant, position, s.next, |p.events|);
    assert waiting[..|p.events|] == p.events;
    if p.events == [] {
      NothingWaits(s.events.byPosition, tenant, position);
    }
  }

  lemma NothingWaits(log: map<nat, Event>, tenant: Tenant, at: nat)
    ensures Waiting(log, tenant, at, at) == []
  {
  }

  // ---- Draining ----

  /** `drain`, when nothing is appended meanwhile: every waiting event once, in global order, for any
      batch size, and the cursor at the last of them. */
  method Drain(s: State, tenant: Tenant, cursor: nat, batch: nat) returns (applied: seq<Event>, position: nat)
    requires Agreed(s)
    ensures applied == Waiting(s.events.byPosition, tenant, cursor, s.next)
    ensures position == if applied == [] then cursor else applied[|applied| - 1].position
  {
    hide Agreed, Waiting, Pass;
    ghost var log := s.events.byPosition;
    applied, position := [], cursor;
    NothingWaits(log, tenant, cursor);
    while true
      invariant cursor <= position && (applied != [] ==> position <= s.next)
      invariant applied == Waiting(log, tenant, cursor, position)
      invariant position == if applied == [] then cursor else applied[|applied| - 1].position
      decreases if position < s.next then s.next - position else 0
    {
      var progress := Pass(s, tenant, position, batch);
      PassExact(s, tenant, position, batch);
      PassEnds(s, tenant, position, batch);
      WaitingJoin(log, tenant, cursor, position, progress.position);
      if !progress.moreWaiting {
        DrainedAll(log, tenant, cursor, position, s.next);
      }
      applied := applied + progress.events;
      position := progress.position;
      if !progress.moreWaiting || |progress.events| == 0 {
        return;
      }
    }
  }

  lemma PassEnds(s: State, tenant: Tenant, position: nat, batch: nat)
    ensures var p := Pass(s, tenant, position, batch);
      p.position == if p.events == [] then position else p.events[|p.events| - 1].position
  {
    hide Waiting;
  }

  lemma DrainedAll(log: map<nat, Event>, tenant: Tenant, from: nat, mid: nat, to: nat)
    requires from <= mid
    ensures mid <= to ==> Waiting(log, tenant, from, to) == Waiting(log, tenant, from, mid) + Waiting(log, tenant, mid, to)
    ensures to < mid ==> Waiting(log, tenant, mid, to) == []
  {
    if mid <= to {
      WaitingJoin(log, tenant, from, mid, to);
    }
  }

  // ---- While others append ----

  /** The log of `s'` is that of `s` and events past it. */
  ghost predicate Grows(s: State, s': State) {
    && s.next <= s'.next
    && forall p :: p <= s.next ==>
         (p in s.events.byPosition <==> p in s'.events.byPosition)
         && (p in s.events.byPosition ==> s'.events.byPosition[p] == s.events.byPosition[p])
  }

  lemma ApplyGrows(s: State, op: Op)
    requires Apply(s, op).Some?
    ensures Grows(s, Apply(s, op).value)
  {
    hide Head, Cleared;
  }

  /** Whatever commits, short of a rewrite, only grows the log. */
  lemma {:induction false} FoldGrows(s: State, ops: Transaction)
    requires Fold(s, ops).Some?
    ensures Grows(s, Fold(s, ops).value)
  {
    hide Apply;
    if ops != [] {
      var n := |ops| - 1;
      FoldGrows(s, ops[..n]);
      ApplyGrows(Fold(s, ops[..n]).value, ops[n]);
    }
  }

  lemma {:induction false} WaitingStays(s: State, s': State, tenant: Tenant, from: nat, to: nat)
    requires Grows(s, s') && to <= s.next
    ensures Waiting(s'.events.byPosition, tenant, from, to) == Waiting(s.events.byPosition, tenant, from, to)
  {
    if from < to {
      WaitingStays(s, s', tenant, from, to - 1);
    }
  }

  /** Passes over whatever the state is at each of them. */
  function Passes(states: seq<State>, tenant: Tenant, cursor: nat, batch: nat): (seq<Event>, nat) {
    if states == [] then ([], cursor)
    else
      var n := |states| - 1;
      var (applied, position) := Passes(states[..n], tenant, cursor, batch);
      var p := Pass(states[n], tenant, position, batch);
      (applied + p.events, p.position)
  }

  ghost predicate Growing(states: seq<State>) {
    && (forall i :: 0 <= i < |states| ==> Agreed(states[i]))
    && (forall i, j :: 0 <= i < j < |states| ==> Grows(states[i], states[j]))
  }

  /** Any number of passes, with any appends between them, apply exactly the tenant's events between
      the first cursor and the last, each once and in global order; when the last pass says nothing
      waits, that is every event past the first cursor. */
  lemma {:induction false} PassesExact(states: seq<State>, tenant: Tenant, cursor: nat, batch: nat)
    requires Growing(states) && states != []
    ensures var (applied, position) := Passes(states, tenant, cursor, batch);
      var last := states[|states| - 1];
      && cursor <= position && (applied != [] ==> position <= last.next) && (applied == [] ==> position == cursor)
      && applied == Waiting(last.events.byPosition, tenant, cursor, position)
      && (!Pass(last, tenant, Passes(states[..|states| - 1], tenant, cursor, batch).1, batch).moreWaiting ==>
            applied == Waiting(last.events.byPosition, tenant, cursor, last.next))
  {
    hide Agreed, Grows, Waiting, Pass;
    var n := |states| - 1;
    var last := states[n];
    var (applied, position) := Passes(states[..n], tenant, cursor, batch);
    if n == 0 {
      NothingWaits(last.events.byPosition, tenant, cursor);
    } else {
      PassesExact(states[..n], tenant, cursor, batch);
      CarriedOver(states[n - 1], last, tenant, cursor, position, applied);
    }
    PassExact(last, tenant, position, batch);
    PassEnds(last, tenant, position, batch);
    var p := Pass(last, tenant, position, batch);
    WaitingJoin(last.events.byPosition, tenant, cursor, position, p.position);
    DrainedAll(last.events.byPosition, tenant, cursor, position, last.next);
  }

  lemma CarriedOver(s: State, s': State, tenant: Tenant, cursor: nat, position: nat, applied: seq<Event>)
    requires Grows(s, s') && cursor <= position && (applied != [] ==> position <= s.next) && (applied == [] ==> position == cursor)
    requires applied == Waiting(s.events.byPosition, tenant, cursor, position)
    ensures applied == Waiting(s'.events.byPosition, tenant, cursor, position) && (applied != [] ==> position <= s'.next)
  {
    if applied != [] {
      WaitingStays(s, s', tenant, cursor, position);
    }
  }
}
