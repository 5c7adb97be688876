/** The two indexes of the folded events agree, and every read through one is a read of the other
    (`state.rs`, `Events`; `lib.rs`, `slice` and `read_feed`). */
module Index {
  import opened Prelude
  import opened State

  // ---- The invariant ----

  /** Event `p` of the log is where its stream's index says. */
  ghost predicate Located(e: Events, p: nat) {
    && p in e.byPosition && e.byPosition[p].position == p && p > 0
    && var x := e.byPosition[p]; x.version in VersionsOf(e, x.stream) && VersionsOf(e, x.stream)[x.version] == p
  }

  /** Version `v` of a stream names an event of that stream and version. */
  ghost predicate Indexed(e: Events, stream: StreamId, v: nat) {
    && v in VersionsOf(e, stream) && v > 0
    && var p := VersionsOf(e, stream)[v];
       p in e.byPosition && e.byPosition[p].stream == stream && e.byPosition[p].version == v
  }

  /** A stream's versions are 1..n, at increasing positions. */
  ghost predicate Contiguous(versions: map<nat, nat>) {
    && (forall v :: v in versions ==> forall w :: 1 <= w <= v ==> w in versions)
    && (forall v, w :: v in versions && w in versions && v < w ==> versions[v] < versions[w])
  }

  /** `byStream` is `byPosition` regrouped, and every stream is 1..n in position order. */
  ghost predicate Coherent(e: Events) {
    && (forall p :: p in e.byPosition ==> Located(e, p))
    && (forall stream, v :: v in VersionsOf(e, stream) ==> Indexed(e, stream, v))
    && (forall stream :: Contiguous(VersionsOf(e, stream)))
  }

  ghost predicate Agreed(s: State) {
    Coherent(s.events) && forall p :: p in s.events.byPosition ==> p <= s.next
  }

  lemma InsertAgreed(s: State, x: Event)
    requires Agreed(s) && x.position > s.next && x.version == Head(s.events, x.stream) + 1
    ensures Agreed(s.(next := x.position, events := Insert(s.events, x)))
  {
    hide Contiguous, Head, Located, Indexed;
    var e, e' := s.events, Insert(s.events, x);
    forall p | p in e'.byPosition ensures Located(e', p) {
      InsertLocated(s, x, p);
    }
    forall stream, v | v in VersionsOf(e', stream) ensures Indexed(e', stream, v) {
      InsertIndexed(s, x, stream, v);
    }
    forall stream ensures Contiguous(VersionsOf(e', stream)) {
      assert Contiguous(VersionsOf(e, stream));
      if stream == x.stream { InsertContiguous(e, x); }
    }
  }

  lemma InsertLocated(s: State, x: Event, p: nat)
    requires Agreed(s) && x.position > s.next && x.version == Head(s.events, x.stream) + 1
    requires p == x.position || p in s.events.byPosition
    ensures Located(Insert(s.events, x), p)
  {
    assert x.version !in VersionsOf(s.events, x.stream);
    if p != x.position { assert Located(s.events, p); }
  }

  lemma InsertIndexed(s: State, x: Event, stream: StreamId, v: nat)
    requires Agreed(s) && x.position > s.next && x.version == Head(s.events, x.stream) + 1
    requires v in VersionsOf(Insert(s.events, x), stream)
    ensures Indexed(Insert(s.events, x), stream, v)
  {
    if stream != x.stream || v != x.version {
      assert Indexed(s.events, stream, v);
    }
  }

  lemma InsertContiguous(e: Events, x: Event)
    requires Coherent(e) && x.version == Head(e, x.stream) + 1
    requires forall p :: p in e.byPosition ==> p < x.position
    ensures Contiguous(VersionsOf(e, x.stream)[x.version := x.position])
  {
    var versions := VersionsOf(e, x.stream);
    assert Contiguous(versions);
    forall v | v in versions ensures versions[v] < x.position && v < x.version {
      assert Indexed(e, x.stream, v);
    }
    forall w | 1 <= w < x.version ensures w in versions {
      assert x.version - 1 in versions;
    }
  }

  /** After every accepted fold, of any history, the indexes agree. */
  lemma {:induction false} ReplayAgreed(history: seq<Transaction>)
    requires Replay(history).Some?
    ensures Agreed(Replay(history).value)
  {
    hide Agreed, Fold;
    if history == [] {
      EmptyAgreed();
    } else {
      var n := |history| - 1;
      ReplayAgreed(history[..n]);
      FoldAgreed(Replay(history[..n]).value, history[n]);
    }
  }

  lemma EmptyAgreed()
    ensures Agreed(EMPTY)
  {
  }

  lemma {:induction false} FoldAgreed(s: State, ops: Transaction)
    requires Agreed(s) && Fold(s, ops).Some?
    ensures Agreed(Fold(s, ops).value)
  {
    hide Agreed, Head;
    if ops != [] {
      var n := |ops| - 1;
      FoldAgreed(s, ops[..n]);
      ApplyAgreed(Fold(s, ops[..n]).value, ops[n]);
    }
  }

  lemma ApplyAgreed(s: State, op: Op)
    requires Agreed(s) && Apply(s, op).Some?
    ensures Agreed(Apply(s, op).value)
  {
    hide Head, Insert, Coherent;
    if op.Recorded? {
      InsertAgreed(s, op.event);
    }
  }

  // ---- Reads ----

  /** `values`: the events at positions up to `n`, in global order. */
  function Values(log: map<nat, Event>, n: nat): seq<Event> {
    if n == 0 then []
    else Values(log, n - 1) + (if n in log then [log[n]] else [])
  }

  function All(s: State): seq<Event> {
    Values(s.events.byPosition, s.next)
  }

  /** `of_stream`: walk the stream's index from `from` to `to`, and look each position up. */
  function Window(e: Events, stream: StreamId, from: nat, to: nat): seq<Event> {
    if to < from || to == 0 then []
    else
      var versions := VersionsOf(e, stream);
      Window(e, stream, from, to - 1)
      + (if to in versions && versions[to] in e.byPosition then [e.byPosition[versions[to]]] else [])
  }

  /** The upper bound is the stream's head when the caller gives none. */
  function OfStream(e: Events, stream: StreamId, from: nat, to: Option<nat>): seq<Event> {
    Window(e, stream, from, AtMostHead(to, Head(e, stream)))
  }

  predicate Between(x: Event, stream: StreamId, from: nat, to: Option<nat>) {
    x.stream == stream && from <= x.version && (to.None? || x.version <= to.value)
  }

  /** The independent reading of a stream window: filter the whole log. */
  function Matching(events: seq<Event>, stream: StreamId, from: nat, to: Option<nat>): seq<Event> {
    if events == [] then []
    else
      var n := |events| - 1;
      Matching(events[..n], stream, from, to) + (if Between(events[n], stream, from, to) then [events[n]] else [])
  }

  /** How many events of a stream lie at positions up to `n`. */
  function Count(log: map<nat, Event>, stream: StreamId, n: nat): nat {
    if n == 0 then 0
    else Count(log, stream, n - 1) + (if n in log && log[n].stream == stream then 1 else 0)
  }

  /** Up to position `n`, a stream's events are exactly its versions 1..Count. */
  lemma {:induction false} CountIsVersion(e: Events, stream: StreamId, n: nat)
    requires Coherent(e)
    ensures forall v :: v in VersionsOf(e, stream) && VersionsOf(e, stream)[v] <= n <==> 1 <= v <= Count(e.byPosition, stream, n)
  {
    var versions, log := VersionsOf(e, stream), e.byPosition;
    assert Contiguous(versions);
    if n == 0 {
      forall v | v in versions ensures versions[v] > 0 {
        assert Indexed(e, stream, v);
        assert Located(e, versions[v]);
      }
    } else {
      CountIsVersion(e, stream, n - 1);
      var k := Count(log, stream, n - 1);
      if n in log && log[n].stream == stream {
        assert Located(e, n);
        NextVersion(e, stream, n, k);
      } else {
        forall v | v in versions ensures versions[v] != n {
          assert Indexed(e, stream, v);
        }
      }
    }
  }

  lemma NextVersion(e: Events, stream: StreamId, n: nat, k: nat)
    requires Coherent(e) && n > 0 && Located(e, n) && e.byPosition[n].stream == stream
    requires forall v :: v in VersionsOf(e, stream) && VersionsOf(e, stream)[v] <= n - 1 <==> 1 <= v <= k
    ensures e.byPosition[n].version == k + 1
    ensures forall v :: v in VersionsOf(e, stream) && VersionsOf(e, stream)[v] <= n <==> 1 <= v <= k + 1
  {
    var versions, x := VersionsOf(e, stream), e.byPosition[n].version;
    assert Contiguous(versions) && Indexed(e, stream, x);
    assert x > k;
    assert x > 1 ==> x - 1 in versions && versions[x - 1] < versions[x];
    assert forall v :: v in versions && x < v ==> versions[x] < versions[v];
  }

  lemma {:induction false} FilterIsWindow(e: Events, stream: StreamId, from: nat, to: Option<nat>, n: nat)
    requires Coherent(e)
    ensures var k := Count(e.byPosition, stream, n);
      Matching(Values(e.byPosition, n), stream, from, to) == Window(e, stream, from, AtMostHead(to, k))
  {
    hide Coherent, Matching, Window, Values, AtMostHead;
    if n == 0 {
      NothingMatches(e, stream, from, to);
    } else {
      var log, k := e.byPosition, Count(e.byPosition, stream, n - 1);
      FilterIsWindow(e, stream, from, to, n - 1);
      ValuesSnoc(log, n);
      if n in log {
        MatchingSnoc(Values(log, n - 1), log[n], stream, from, to);
        if log[n].stream == stream {
          VersionAt(e, stream, n);
          WindowNext(e, stream, from, to, k);
        }
      }
    }
  }

  lemma NothingMatches(e: Events, stream: StreamId, from: nat, to: Option<nat>)
    ensures Matching(Values(e.byPosition, 0), stream, from, to) == Window(e, stream, from, AtMostHead(to, 0)) == []
  {
  }

  lemma ValuesSnoc(log: map<nat, Event>, n: nat)
    requires n > 0
    ensures Values(log, n) == if n in log then Values(log, n - 1) + [log[n]] else Values(log, n - 1)
  {
  }

  function AtMostHead(to: Option<nat>, k: nat): nat {
    if to.None? || to.value > k then k else to.value
  }

  /** One more version extends exactly the windows that reach it. */
  lemma WindowNext(e: Events, stream: StreamId, from: nat, to: Option<nat>, k: nat)
    requires k + 1 in VersionsOf(e, stream) && VersionsOf(e, stream)[k + 1] in e.byPosition
    ensures var x := e.byPosition[VersionsOf(e, stream)[k + 1]];
      Window(e, stream, from, AtMostHead(to, k + 1))
      == Window(e, stream, from, AtMostHead(to, k)) + (if from <= k + 1 && (to.None? || k + 1 <= to.value) then [x] else [])
  {
  }

  lemma MatchingSnoc(events: seq<Event>, x: Event, stream: StreamId, from: nat, to: Option<nat>)
    ensures Matching(events + [x], stream, from, to)
         == if Between(x, stream, from, to) then Matching(events, stream, from, to) + [x] else Matching(events, stream, from, to)
  {
    assert (events + [x])[..|events|] == events;
    assert Matching(events, stream, from, to) + [] == Matching(events, stream, from, to);
  }

  /** The event at position `n` is the `Count(n)`th of its stream. */
  lemma VersionAt(e: Events, stream: StreamId, n: nat)
    requires Coherent(e) && n in e.byPosition && e.byPosition[n].stream == stream
    ensures n > 0
    ensures e.byPosition[n].version == Count(e.byPosition, stream, n) == Count(e.byPosition, stream, n - 1) + 1
    ensures var v := e.byPosition[n].version; v in VersionsOf(e, stream) && VersionsOf(e, stream)[v] == n
  {
    assert Located(e, n);
    CountIsVersion(e, stream, n - 1);
    NextVersion(e, stream, n, Count(e.byPosition, stream, n - 1));
  }

  lemma CountIsHead(s: State, stream: StreamId)
    requires Agreed(s)
    ensures Count(s.events.byPosition, stream, s.next) == Head(s.events, stream)
  {
    var versions := VersionsOf(s.events, stream);
    CountIsVersion(s.events, stream, s.next);
    forall v | v in versions ensures versions[v] <= s.next {
      assert Indexed(s.events, stream, v);
    }
    var k := Count(s.events.byPosition, stream, s.next);
    assert forall v :: v in versions <==> 1 <= v <= k;
    if k > 0 { assert k in versions; }
  }

  /** A window through the stream index is the whole log filtered, for any range: empty, inverted or
      past the head. The index visits only the stream. */
  lemma OfStreamIsFilter(s: State, stream: StreamId, from: nat, to: Option<nat>)
    requires Agreed(s)
    ensures OfStream(s.events, stream, from, to) == Matching(All(s), stream, from, to)
  {
    hide Coherent;
    FilterIsWindow(s.events, stream, from, to, s.next);
    CountIsHead(s, stream);
  }

  // ---- Windows and pages ----

  const MAX_READ_LIMIT: nat := 1000

  function BoundedLimit(limit: nat): nat {
    if limit < 1 then 1 else if limit > MAX_READ_LIMIT then MAX_READ_LIMIT else limit
  }

  datatype StreamSlice = StreamSlice(events: seq<Event>, nextVersion: nat, endOfStream: bool)

  /** `slice`: one window on a stream, as `read_stream` answers it. */
  function Slice(s: State, stream: StreamId, after: nat, limit: nat): StreamSlice {
    var n := BoundedLimit(limit);
    var all := OfStream(s.events, stream, after + 1, None);
    var events := if |all| <= n then all else all[..n];
    StreamSlice(events, if events == [] then after else events[|events| - 1].version, |all| <= n)
  }

  lemma {:induction false} WindowShape(s: State, stream: StreamId, from: nat, to: nat)
    requires Agreed(s) && to <= Head(s.events, stream) && from > 0
    ensures |Window(s.events, stream, from, to)| == if to < from then 0 else to - from + 1
    ensures forall i :: 0 <= i < |Window(s.events, stream, from, to)| ==>
      Window(s.events, stream, from, to)[i].version == from + i && Window(s.events, stream, from, to)[i].stream == stream
  {
    if from <= to {
      WindowShape(s, stream, from, to - 1);
      var versions := VersionsOf(s.events, stream);
      assert Contiguous(versions);
      assert Head(s.events, stream) in versions;
      assert to in versions;
      assert Indexed(s.events, stream, to);
    }
  }

  /** A slice is the next versions of the stream in order, without a gap, and says truly whether
      more remain; so following `nextVersion` reads each version once. */
  lemma SliceShape(s: State, stream: StreamId, after: nat, limit: nat)
    requires Agreed(s)
    ensures var r, head, n := Slice(s, stream, after, limit), Head(s.events, stream), BoundedLimit(limit);
      && (forall i :: 0 <= i < |r.events| ==> r.events[i].version == after + 1 + i && r.events[i].stream == stream)
      && |r.events| == (if head <= after then 0 else if head - after <= n then head - after else n)
      && r.nextVersion == after + |r.events|
      && (r.endOfStream <==> head <= after + n)
  {
    hide Head, Agreed;
    WindowShape(s, stream, after + 1, Head(s.events, stream));
  }
}
