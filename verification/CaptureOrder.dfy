/** The order rules that a captured history is checked by (`capture.rs` of the core crate): versions
    without gaps for linear stores, causality for stores whose streams can fork. */
module CaptureOrder {
  import opened Prelude
  import opened State
  import opened Index

  /** A captured event. Linear stores carry no digest and no parents. */
  datatype Captured = Captured(position: nat, stream: StreamId, version: nat, digest: Option<string>, parents: seq<string>)

  /** The part of `validate_captured_event` that the order depends on. */
  predicate Envelope(tenant: Tenant, x: Captured) {
    x.stream.tenant == tenant && x.version > 0 && x.position > 0
  }

  predicate Rising(events: seq<Captured>) {
    forall i, j :: 0 <= i < j < |events| ==> events[i].position < events[j].position
  }

  predicate Enveloped(tenant: Tenant, events: seq<Captured>) {
    Rising(events) && forall i :: 0 <= i < |events| ==> Envelope(tenant, events[i])
  }

  // ---- The linear rule ----

  /** How many of the first `n` events are on a stream. */
  function Before(events: seq<Captured>, stream: StreamId, n: nat): nat
    requires n <= |events|
  {
    if n == 0 then 0 else Before(events, stream, n - 1) + (if events[n - 1].stream == stream then 1 else 0)
  }

  predicate Numbered(events: seq<Captured>, i: nat)
    requires i < |events|
  {
    events[i].version == Before(events, events[i].stream, i) + 1
  }

  /** Positions rise, and each stream's versions are 1, 2, 3 and so on. */
  predicate Linear(tenant: Tenant, events: seq<Captured>) {
    Enveloped(tenant, events) && forall i :: 0 <= i < |events| ==> Numbered(events, i)
  }

  function HeadOf(heads: map<StreamId, nat>, stream: StreamId): nat {
    if stream in heads then heads[stream] else 0
  }

  /** `validate_captured_order`. */
  method CheckLinear(tenant: Tenant, events: seq<Captured>) returns (ok: bool)
    ensures ok <==> Linear(tenant, events)
  {
    var position := 0;
    var heads: map<StreamId, nat> := map[];
    for i := 0 to |events|
      invariant Enveloped(tenant, events[..i]) && position == if i == 0 then 0 else events[i - 1].position
      invariant forall j :: 0 <= j < i ==> Numbered(events, j)
      invariant forall stream :: HeadOf(heads, stream) == Before(events, stream, i)
    {
      var event := events[i];
      if !Envelope(tenant, event) {
        return false;
      }
      if event.position <= position {
        return false;
      }
      position := event.position;
      if HeadOf(heads, event.stream) + 1 != event.version {
        assert !Numbered(events, i);
        return false;
      }
      heads := heads[event.stream := event.version];
      RisesOn(tenant, events, i);
    }
    assert events[..|events|] == events;
    return true;
  }

  lemma RisesOn(tenant: Tenant, events: seq<Captured>, i: nat)
    requires i < |events| && Enveloped(tenant, events[..i]) && Envelope(tenant, events[i])
    requires i > 0 ==> events[i - 1].position < events[i].position
    ensures Enveloped(tenant, events[..i + 1])
  {
    assert forall j :: 0 <= j < i ==> events[..i + 1][j] == events[..i][j];
    if i > 0 {
      assert events[..i][i - 1] == events[i - 1];
    }
  }

  // ---- The branchable rule ----

  /** Event `j` was captured earlier on the same stream, and event `i` names it as a parent. */
  predicate IsParent(events: seq<Captured>, j: int, i: int) {
    && 0 <= j < i < |events| && events[j].stream == events[i].stream
    && events[j].digest.Some? && events[j].digest.value in events[i].parents
  }

  predicate Carries(events: seq<Captured>, j: int, i: int, parent: string) {
    IsParent(events, j, i) && events[j].digest == Some(parent)
  }

  ghost predicate Present(events: seq<Captured>, i: int, parent: string) {
    exists j :: Carries(events, j, i, parent)
  }

  /** Every parent was captured, and the version is one past the highest of them. */
  ghost predicate Graded(events: seq<Captured>, i: nat)
    requires i < |events|
  {
    && (forall p :: p in events[i].parents ==> Present(events, i, p))
    && (forall j :: IsParent(events, j, i) ==> events[j].version < events[i].version)
    && (if events[i].parents == [] then events[i].version == 1
        else exists j :: IsParent(events, j, i) && events[j].version + 1 == events[i].version)
  }

  /** No stream holds one digest twice. */
  predicate Digested(events: seq<Captured>) {
    && (forall i :: 0 <= i < |events| ==> events[i].digest.Some?)
    && (forall i, j :: 0 <= i < j < |events| && events[i].stream == events[j].stream ==> events[i].digest != events[j].digest)
  }

  ghost predicate Branchable(tenant: Tenant, events: seq<Captured>) {
    Enveloped(tenant, events) && Digested(events) && forall i :: 0 <= i < |events| ==> Graded(events, i)
  }

  type Seen = map<(StreamId, string), nat>

  predicate SeenAt(events: seq<Captured>, j: int, stream: StreamId, digest: string) {
    0 <= j < |events| && events[j].stream == stream && events[j].digest == Some(digest)
  }

  /** The walk's memory: the version of each digest so far, by stream. */
  ghost predicate Remembers(seen: Seen, events: seq<Captured>, n: nat) {
    && n <= |events|
    && (forall j :: 0 <= j < n && events[j].digest.Some? ==>
          (events[j].stream, events[j].digest.value) in seen
          && seen[(events[j].stream, events[j].digest.value)] == events[j].version)
    && (forall k :: k in seen ==> exists j :: j < n && SeenAt(events, j, k.0, k.1))
  }

  /** The inner loop: the highest version among an event's parents, if all of them were seen. */
  method Highest(seen: Seen, ghost events: seq<Captured>, event: Captured, ghost i: nat) returns (r: Option<nat>)
    requires i < |events| && events[i] == event && Remembers(seen, events, i)
    ensures r.Some? <==> forall p :: p in event.parents ==> Present(events, i, p)
    ensures r.Some? ==>
      && (forall j :: IsParent(events, j, i) ==> events[j].version <= r.value)
      && (if event.parents == [] then r.value == 0
          else r.value == 0 || exists j :: IsParent(events, j, i) && events[j].version == r.value)
  {
    var highest := 0;
    for k := 0 to |event.parents|
      invariant forall p :: p in event.parents[..k] ==> Present(events, i, p)
      invariant forall p :: p in event.parents[..k] ==> seen[(event.stream, p)] <= highest
      invariant forall p :: p in event.parents[..k] ==> (event.stream, p) in seen
      invariant highest == 0 || exists j :: IsParent(events, j, i) && events[j].version == highest
    {
      var parent := event.parents[k];
      if (event.stream, parent) !in seen {
        assert !Present(events, i, parent) && parent in event.parents;
        return None;
      }
      ghost var j :| j < i && SeenAt(events, j, event.stream, parent);
      assert event.parents[..k + 1] == event.parents[..k] + [parent];
      assert Carries(events, j, i, parent) && seen[(event.stream, parent)] == events[j].version;
      if seen[(event.stream, parent)] > highest {
        highest := seen[(event.stream, parent)];
      }
    }
    assert event.parents[..|event.parents|] == event.parents;
    forall j | IsParent(events, j, i) ensures events[j].version <= highest {
      assert seen[(event.stream, events[j].digest.value)] == events[j].version;
    }
    return Some(highest);
  }

  /** `validate_captured_branchable_order`. */
  method CheckBranchable(tenant: Tenant, events: seq<Captured>) returns (ok: bool)
    ensures ok <==> Branchable(tenant, events)
  {
    hide Graded, Remembers;
    var position := 0;
    var seen: Seen := map[];
    RemembersNothing(events);
    for i := 0 to |events|
      invariant Enveloped(tenant, events[..i]) && position == if i == 0 then 0 else events[i - 1].position
      invariant Digested(events[..i]) && Remembers(seen, events, i)
      invariant forall j :: 0 <= j < i ==> Graded(events, j)
    {
      var event := events[i];
      if !Envelope(tenant, event) {
        return false;
      }
      if event.position <= position {
        return false;
      }
      position := event.position;
      if event.digest.None? {
        return false;
      }
      var highest := Highest(seen, events, event, i);
      GradedIff(events, i, highest);
      if highest.None? || highest.value + 1 != event.version {
        return false;
      }
      if (event.stream, event.digest.value) in seen {
        Repeated(seen, events, i);
        return false;
      }
      RisesOn(tenant, events, i);
      RemembersNext(seen, events, i);
      seen := seen[(event.stream, event.digest.value) := event.version];
    }
    assert events[..|events|] == events;
    return true;
  }

  lemma RemembersNothing(events: seq<Captured>)
    ensures Remembers(map[], events, 0)
  {
  }

  /** The computed maximum decides the rule, given that versions start at 1. */
  lemma GradedIff(events: seq<Captured>, i: nat, highest: Option<nat>)
    requires i < |events| && forall j :: 0 <= j < i ==> events[..i][j].version > 0
    requires highest.Some? <==> forall p :: p in events[i].parents ==> Present(events, i, p)
    requires highest.Some? ==>
      && (forall j :: IsParent(events, j, i) ==> events[j].version <= highest.value)
      && (if events[i].parents == [] then highest.value == 0
          else highest.value == 0 || exists j :: IsParent(events, j, i) && events[j].version == highest.value)
    ensures Graded(events, i) <==> highest.Some? && highest.value + 1 == events[i].version
  {
    if highest.Some? && events[i].parents != [] {
      var p := events[i].parents[0];
      assert p in events[i].parents;
      assert Present(events, i, p);
      var j :| Carries(events, j, i, p);
      assert events[j].version == events[..i][j].version;
    }
  }

  lemma Repeated(seen: Seen, events: seq<Captured>, i: nat)
    requires i < |events| && Remembers(seen, events, i) && events[i].digest.Some?
    requires (events[i].stream, events[i].digest.value) in seen
    ensures !Digested(events)
  {
    var k := (events[i].stream, events[i].digest.value);
    assert exists j :: j < i && SeenAt(events, j, k.0, k.1);
  }

  lemma RemembersNext(seen: Seen, events: seq<Captured>, i: nat)
    requires i < |events| && Remembers(seen, events, i) && events[i].digest.Some? && Digested(events[..i])
    requires (events[i].stream, events[i].digest.value) !in seen
    ensures Remembers(seen[(events[i].stream, events[i].digest.value) := events[i].version], events, i + 1)
    ensures Digested(events[..i + 1])
  {
    var after := seen[(events[i].stream, events[i].digest.value) := events[i].version];
    forall k | k in after ensures exists j :: j < i + 1 && SeenAt(events, j, k.0, k.1) {
      if k == (events[i].stream, events[i].digest.value) {
        assert SeenAt(events, i, k.0, k.1);
      } else {
        var j :| j < i && SeenAt(events, j, k.0, k.1);
      }
    }
    var now := events[..i + 1];
    forall a, b | 0 <= a < b < |now| && now[a].stream == now[b].stream ensures now[a].digest != now[b].digest {
      if b < i {
        assert events[..i][a] == now[a] && events[..i][b] == now[b];
      } else {
        assert now[a] == events[..i][a] && now[a].digest.Some?;
      }
    }
    assert forall a :: 0 <= a < i ==> now[a] == events[..i][a];
  }

  // ---- Versions are depths ----

  ghost predicate Linked(events: seq<Captured>, chain: seq<nat>, k: nat) {
    k + 1 < |chain| ==> IsParent(events, chain[k], chain[k + 1])
  }

  /** Each event of the chain is a parent of the next. */
  ghost predicate Chain(events: seq<Captured>, chain: seq<nat>) {
    && (forall k :: 0 <= k < |chain| ==> chain[k] < |events|)
    && (forall k: nat :: Linked(events, chain, k))
  }

  /** No chain of parents ending at an event is longer than its version. */
  lemma {:induction false} ChainAtMostVersion(tenant: Tenant, events: seq<Captured>, chain: seq<nat>)
    requires Branchable(tenant, events) && Chain(events, chain) && chain != []
    ensures |chain| <= events[chain[|chain| - 1]].version
  {
    var n := |chain| - 1;
    assert Envelope(tenant, events[chain[n]]);
    if n > 0 {
      forall k: nat ensures Linked(events, chain[..n], k) {
        assert Linked(events, chain, k);
      }
      ChainAtMostVersion(tenant, events, chain[..n]);
      assert Linked(events, chain, n - 1);
      assert Graded(events, chain[n]);
    }
  }

  /** And one is exactly that long: an event's version is the length of its longest chain of parents. */
  lemma {:induction false} VersionIsDepth(tenant: Tenant, events: seq<Captured>, i: nat) returns (chain: seq<nat>)
    requires Branchable(tenant, events) && i < |events|
    ensures Chain(events, chain) && chain != [] && chain[|chain| - 1] == i && |chain| == events[i].version
    decreases i
  {
    assert Graded(events, i);
    if events[i].parents == [] {
      chain := [i];
    } else {
      var j :| IsParent(events, j, i) && events[j].version + 1 == events[i].version;
      var shorter := VersionIsDepth(tenant, events, j);
      chain := shorter + [i];
      forall k: nat ensures Linked(events, chain, k) {
        assert Linked(events, shorter, k);
      }
    }
  }

  predicate Precedes(events: seq<Captured>, j: int, i: int) {
    && 0 <= j < i < |events| && events[j].stream == events[i].stream
    && events[j].position < events[i].position && events[j].version < events[i].version
  }

  /** A parent was captured strictly earlier, on the same stream. */
  lemma ParentsPrecede(tenant: Tenant, events: seq<Captured>, i: nat, parent: string)
    requires Branchable(tenant, events) && i < |events| && parent in events[i].parents
    ensures exists j :: Carries(events, j, i, parent) && Precedes(events, j, i)
  {
    assert Graded(events, i) && Present(events, i, parent);
    var j :| Carries(events, j, i, parent);
  }

  // ---- A chain without forks is linear ----

  /** The last event before `n` on a stream, if there is one. */
  function Last(events: seq<Captured>, stream: StreamId, n: nat): Option<nat>
    requires n <= |events|
  {
    if n == 0 then None else if events[n - 1].stream == stream then Some(n - 1) else Last(events, stream, n - 1)
  }

  /** Each event's only parent is its predecessor on its stream. */
  predicate Unforked(events: seq<Captured>, i: nat)
    requires i < |events|
  {
    match Last(events, events[i].stream, i)
    case None => events[i].parents == []
    case Some(j) => j < |events| && events[j].digest.Some? && events[i].parents == [events[j].digest.value]
  }

  lemma {:induction false} LastCounts(events: seq<Captured>, stream: StreamId, n: nat)
    requires n <= |events|
    ensures match Last(events, stream, n)
      case None => Before(events, stream, n) == 0
      case Some(j) => j < n && events[j].stream == stream && Before(events, stream, n) == Before(events, stream, j) + 1
  {
    if n > 0 && events[n - 1].stream != stream {
      LastCounts(events, stream, n - 1);
    }
  }

  lemma {:induction false} UnforkedNumbered(tenant: Tenant, events: seq<Captured>, i: nat)
    requires Branchable(tenant, events) && (forall k :: 0 <= k < |events| ==> Unforked(events, k)) && i < |events|
    ensures Numbered(events, i)
    decreases i
  {
    var stream := events[i].stream;
    LastCounts(events, stream, i);
    assert Graded(events, i) && Unforked(events, i);
    if Last(events, stream, i).Some? {
      var j := Last(events, stream, i).value;
      UnforkedNumbered(tenant, events, j);
      var k :| IsParent(events, k, i) && events[k].version + 1 == events[i].version;
      assert events[k].digest == events[j].digest;
      assert k == j;
    }
  }

  /** An accepted history in which no stream forks also passes the linear rule. */
  lemma UnforkedIsLinear(tenant: Tenant, events: seq<Captured>)
    requires Branchable(tenant, events) && forall k :: 0 <= k < |events| ==> Unforked(events, k)
    ensures Linear(tenant, events)
  {
    forall i | 0 <= i < |events| ensures Numbered(events, i) {
      UnforkedNumbered(tenant, events, i);
    }
  }

  // ---- What a folded state captures ----

  function Capture(x: Event): Captured {
    Captured(x.position, x.stream, x.version, None, [])
  }

  /** One tenant's events up to position `n`, in global order. */
  function TenantEvents(log: map<nat, Event>, tenant: Tenant, n: nat): seq<Captured> {
    if n == 0 then []
    else
      TenantEvents(log, tenant, n - 1)
      + (if n in log && log[n].stream.tenant == tenant then [Capture(log[n])] else [])
  }

  lemma {:induction false} BeforeSame(a: seq<Captured>, b: seq<Captured>, stream: StreamId, n: nat)
    requires n <= |a| && n <= |b| && a[..n] == b[..n]
    ensures Before(a, stream, n) == Before(b, stream, n)
  {
    if n > 0 {
      assert a[..n][..n - 1] == a[..n - 1] && b[..n][..n - 1] == b[..n - 1];
      assert a[n - 1] == a[..n][n - 1] == b[..n][n - 1] == b[n - 1];
      BeforeSame(a, b, stream, n - 1);
    }
  }

  lemma {:induction false} TenantCounts(e: Events, tenant: Tenant, stream: StreamId, n: nat)
    requires stream.tenant == tenant
    ensures var events := TenantEvents(e.byPosition, tenant, n);
      Before(events, stream, |events|) == Count(e.byPosition, stream, n)
  {
    if n > 0 {
      TenantCounts(e, tenant, stream, n - 1);
      var shorter, events := TenantEvents(e.byPosition, tenant, n - 1), TenantEvents(e.byPosition, tenant, n);
      BeforeSame(shorter, events, stream, |shorter|);
    }
  }

  /** One more event, numbered after the rest, keeps the rule. */
  lemma LinearSnoc(tenant: Tenant, events: seq<Captured>, x: Captured)
    requires Linear(tenant, events) && Envelope(tenant, x) && x.version == Before(events, x.stream, |events|) + 1
    requires events == [] || events[|events| - 1].position < x.position
    ensures Linear(tenant, events + [x])
  {
    var all := events + [x];
    forall i | 0 <= i < |all| ensures Numbered(all, i) {
      assert all[..i] == events[..i];
      BeforeSame(events, all, all[i].stream, i);
      assert i < |events| ==> Numbered(events, i);
    }
  }

  /** The events a fold accepted satisfy the linear order rule, tenant by tenant. */
  lemma {:induction false} TenantEventsLinear(e: Events, tenant: Tenant, n: nat)
    requires Coherent(e)
    ensures Linear(tenant, TenantEvents(e.byPosition, tenant, n))
    ensures var events := TenantEvents(e.byPosition, tenant, n); events == [] || events[|events| - 1].position <= n
  {
    hide Coherent, Linear;
    if n == 0 {
      NothingLinear(tenant);
    } else {
      TenantEventsLinear(e, tenant, n - 1);
      if n in e.byPosition && e.byPosition[n].stream.tenant == tenant {
        var x := e.byPosition[n];
        VersionAt(e, x.stream, n);
        EventAt(e, n);
        TenantCounts(e, tenant, x.stream, n - 1);
        LinearSnoc(tenant, TenantEvents(e.byPosition, tenant, n - 1), Capture(x));
      } else {
        assert TenantEvents(e.byPosition, tenant, n) == TenantEvents(e.byPosition, tenant, n - 1);
      }
    }
  }

  lemma NothingLinear(tenant: Tenant)
    ensures Linear(tenant, [])
  {
  }

  lemma EventAt(e: Events, n: nat)
    requires Coherent(e) && n in e.byPosition
    ensures e.byPosition[n].position == n > 0 && e.byPosition[n].version > 0
  {
    assert Located(e, n);
    var x := e.byPosition[n];
    assert Indexed(e, x.stream, x.version);
  }

  /** Whatever replays can be captured: every tenant's history passes the linear order rule. */
  lemma ReplayedIsLinear(history: seq<Transaction>, tenant: Tenant)
    requires Replay(history).Some?
    ensures var s := Replay(history).value; Linear(tenant, TenantEvents(s.events.byPosition, tenant, s.next))
  {
    hide Linear, Coherent;
    ReplayAgreed(history);
    TenantEventsLinear(Replay(history).value.events, tenant, Replay(history).value.next);
  }
}
