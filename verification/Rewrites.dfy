/** Rewriting committed history commutes with replaying it (`lib.rs`, `forget_tenant` and `redact`). */
module Rewrites {
  import opened Prelude
  import opened State
  import opened Index
  import opened Scopes

  // ---- Erasing a tenant ----

  /** `forget_tenant` over one transaction: keep what is not the tenant's. */
  function Erase(ops: Transaction, t: Tenant): Transaction {
    if ops == [] then []
    else
      var n := |ops| - 1;
      Erase(ops[..n], t) + (if ops[n].Tenant() == Some(t) then [] else [ops[n]])
  }

  function EraseAll(history: seq<Transaction>, t: Tenant): (r: seq<Transaction>)
    ensures |r| == |history|
  {
    if history == [] then []
    else
      var n := |history| - 1;
      EraseAll(history[..n], t) + [Erase(history[n], t)]
  }

  /** A map without the keys that are `theirs`. */
  ghost function Without<K, V>(m: map<K, V>, theirs: K -> bool): map<K, V> {
    map k | k in m && !theirs(k) :: m[k]
  }

  function StreamOf(t: Tenant): StreamId -> bool { (k: StreamId) => k.tenant == t }
  function CommandOf(t: Tenant): ((StreamId, string)) -> bool { (k: (StreamId, string)) => k.0.tenant == t }
  function PairOf(t: Tenant): ((Tenant, string)) -> bool { (k: (Tenant, string)) => k.0 == t }
  function TripleOf(t: Tenant): ((Tenant, string, string)) -> bool { (k: (Tenant, string, string)) => k.0 == t }
  function TenantIs(t: Tenant): Tenant -> bool { (k: Tenant) => k == t }
  ghost function CounterOf(t: Tenant): string -> bool { (c: string) => Owner(c) == Some(t) }

  ghost function ErasedLog(log: map<nat, Event>, t: Tenant): map<nat, Event> {
    map p | p in log && log[p].stream.tenant != t :: log[p]
  }

  ghost function ErasedDirty(dirty: set<(Tenant, string)>, t: Tenant): set<(Tenant, string)> {
    set k | k in dirty && k.0 != t
  }

  /** The state with everything of one tenant removed and nothing else changed. */
  ghost function Erased(s: State, t: Tenant): State {
    State(
      Events(ErasedLog(s.events.byPosition, t), Without(s.events.byStream, StreamOf(t))),
      Without(s.commands, CommandOf(t)),
      Without(s.claims, TripleOf(t)),
      Without(s.groups, PairOf(t)),
      Without(s.identities, TenantIs(t)),
      Without(s.generations, StreamOf(t)),
      s.projections,
      ErasedDirty(s.dirty, t),
      Without(s.rows, TripleOf(t)),
      Without(s.cursors, PairOf(t)),
      Without(s.blobs, PairOf(t)),
      s.next,
      Without(s.counters, CounterOf(t)))
  }

  lemma WithoutPut<K, V>(m: map<K, V>, theirs: K -> bool, k: K, v: V)
    ensures Without(m[k := v], theirs) == if theirs(k) then Without(m, theirs) else Without(m, theirs)[k := v]
  {
  }

  lemma WithoutDrop<K, V>(m: map<K, V>, theirs: K -> bool, k: K)
    ensures Without(m - {k}, theirs) == if theirs(k) then Without(m, theirs) else Without(m, theirs) - {k}
  {
  }

  lemma WithoutCleared(rows: map<(Tenant, string, string), string>, t: Tenant, tenant: Tenant, name: string)
    ensures Without(Cleared(rows, tenant, name), TripleOf(t))
         == if tenant == t then Without(rows, TripleOf(t)) else Cleared(Without(rows, TripleOf(t)), tenant, name)
  {
  }

  /** A counter is recorded under its own scope's coordinate. */
  ghost predicate Tagged(op: Op) {
    op.Counter? ==> op.owner == Owner(op.coordinate)
  }

  /** `e` is `s` without the tenant, except that its next position may lag. */
  ghost predicate Lags(e: State, s: State, t: Tenant) {
    e == Erased(s, t).(next := e.next) && e.next <= s.next
  }

  lemma ErasedHead(e: Events, e': Events, stream: StreamId, t: Tenant)
    requires stream.tenant != t && e'.byStream == Without(e.byStream, StreamOf(t))
    ensures VersionsOf(e', stream) == VersionsOf(e, stream)
  {
  }

  lemma LogPut(log: map<nat, Event>, x: Event, t: Tenant)
    requires x.position !in log
    ensures ErasedLog(log[x.position := x], t)
         == if x.stream.tenant == t then ErasedLog(log, t) else ErasedLog(log, t)[x.position := x]
  {
  }

  /** An event of the tenant leaves no trace; any other is inserted in both states alike. */
  lemma EraseEvent(s: State, e: State, x: Event, t: Tenant)
    requires Agreed(s) && Lags(e, s, t) && x.position > s.next
    ensures var s' := s.(next := x.position, events := Insert(s.events, x));
      if x.stream.tenant == t then Lags(e, s', t)
      else Lags(e.(next := x.position, events := Insert(e.events, x)), s', t)
           && Head(e.events, x.stream) == Head(s.events, x.stream)
  {
    hide Without, ErasedLog, Coherent;
    LogPut(s.events.byPosition, x, t);
    WithoutPut(s.events.byStream, StreamOf(t), x.stream, VersionsOf(s.events, x.stream)[x.version := x.position]);
    if x.stream.tenant != t {
      ErasedHead(s.events, e.events, x.stream, t);
    }
  }

  // Replacing one part of a state replaces that part of the erased state.

  lemma PutCommands(s: State, e: State, t: Tenant, m: map<(StreamId, string), Receipt>)
    requires Lags(e, s, t)
    ensures Lags(e.(commands := Without(m, CommandOf(t))), s.(commands := m), t)
    ensures e.commands == Without(s.commands, CommandOf(t))
  {
    hide Without, ErasedLog, ErasedDirty;
  }

  lemma PutClaims(s: State, e: State, t: Tenant, m: map<(Tenant, string, string), Receipt>)
    requires Lags(e, s, t)
    ensures Lags(e.(claims := Without(m, TripleOf(t))), s.(claims := m), t)
    ensures e.claims == Without(s.claims, TripleOf(t))
  {
    hide Without, ErasedLog, ErasedDirty;
  }

  lemma PutGroups(s: State, e: State, t: Tenant, m: map<(Tenant, string), GroupReceipt>)
    requires Lags(e, s, t)
    ensures Lags(e.(groups := Without(m, PairOf(t))), s.(groups := m), t)
    ensures e.groups == Without(s.groups, PairOf(t))
  {
    hide Without, ErasedLog, ErasedDirty;
  }

  lemma PutIdentities(s: State, e: State, t: Tenant, m: map<Tenant, string>)
    requires Lags(e, s, t)
    ensures Lags(e.(identities := Without(m, TenantIs(t))), s.(identities := m), t)
    ensures e.identities == Without(s.identities, TenantIs(t))
  {
    hide Without, ErasedLog, ErasedDirty;
  }

  lemma PutGenerations(s: State, e: State, t: Tenant, m: map<StreamId, string>)
    requires Lags(e, s, t)
    ensures Lags(e.(generations := Without(m, StreamOf(t))), s.(generations := m), t)
    ensures e.generations == Without(s.generations, StreamOf(t))
  {
    hide Without, ErasedLog, ErasedDirty;
  }

  lemma PutDirty(s: State, e: State, t: Tenant, m: set<(Tenant, string)>)
    requires Lags(e, s, t)
    ensures Lags(e.(dirty := ErasedDirty(m, t)), s.(dirty := m), t)
    ensures e.dirty == ErasedDirty(s.dirty, t)
  {
    hide Without, ErasedLog, ErasedDirty;
  }

  lemma PutRows(s: State, e: State, t: Tenant, m: map<(Tenant, string, string), string>)
    requires Lags(e, s, t)
    ensures Lags(e.(rows := Without(m, TripleOf(t))), s.(rows := m), t)
    ensures e.rows == Without(s.rows, TripleOf(t))
  {
    hide Without, ErasedLog, ErasedDirty;
  }

  lemma PutCursors(s: State, e: State, t: Tenant, m: map<(Tenant, string), nat>)
    requires Lags(e, s, t)
    ensures Lags(e.(cursors := Without(m, PairOf(t))), s.(cursors := m), t)
    ensures e.cursors == Without(s.cursors, PairOf(t))
  {
    hide Without, ErasedLog, ErasedDirty;
  }

  lemma PutBlobs(s: State, e: State, t: Tenant, m: map<(Tenant, string), BlobObject>)
    requires Lags(e, s, t)
    ensures Lags(e.(blobs := Without(m, PairOf(t))), s.(blobs := m), t)
    ensures e.blobs == Without(s.blobs, PairOf(t))
  {
    hide Without, ErasedLog, ErasedDirty;
  }

  lemma PutCounters(s: State, e: State, t: Tenant, m: map<string, int>)
    requires Lags(e, s, t)
    ensures Lags(e.(counters := Without(m, CounterOf(t))), s.(counters := m), t)
    ensures e.counters == Without(s.counters, CounterOf(t))
  {
    hide Without, ErasedLog, ErasedDirty;
  }

  /** Dropping the tenant's operations and keeping the others: each kept one is accepted and does to
      the erased state what it did to the whole one, and a dropped one leaves no trace in it. */
  ghost predicate ErasesStep(s: State, e: State, op: Op, t: Tenant)
    requires Apply(s, op).Some?
  {
    if op.Tenant() == Some(t) then Lags(e, Apply(s, op).value, t)
    else Apply(e, op).Some? && Lags(Apply(e, op).value, Apply(s, op).value, t)
  }

  lemma EraseOp(s: State, e: State, op: Op, t: Tenant)
    requires Agreed(s) && Lags(e, s, t) && Tagged(op) && Apply(s, op).Some?
    ensures ErasesStep(s, e, op, t)
  {
    hide Agreed, Without, ErasedLog, ErasedDirty, Owner, ErasesStep, Erased, Lags;
    if op.Watermark? || op.Projection? || op.Recorded? {
      EraseLog(s, e, op, t);
    } else if op.Command? || op.Claim? || op.Group? || op.Identity? || op.Generation? || op.Counter? {
      EraseReceipt(s, e, op, t);
    } else {
      EraseView(s, e, op, t);
    }
  }

  lemma PutNext(s: State, e: State, t: Tenant, n: nat, m: nat)
    requires Lags(e, s, t) && n <= m
    ensures Lags(e.(next := n), s.(next := m), t)
  {
    hide Without, ErasedLog, ErasedDirty;
  }

  lemma PutProjections(s: State, e: State, t: Tenant, m: map<string, seq<string>>)
    requires Lags(e, s, t)
    ensures e.projections == s.projections && Lags(e.(projections := m), s.(projections := m), t)
  {
    hide Without, ErasedLog, ErasedDirty;
  }

  lemma EraseLog(s: State, e: State, op: Op, t: Tenant)
    requires Apply(s, op).Some? && Agreed(s) && Lags(e, s, t) && (op.Watermark? || op.Projection? || op.Recorded?)
    ensures ErasesStep(s, e, op, t)
  {
    hide Agreed, Head, Insert, Lags, Erased;
    LagsNext(e, s, t);
    match op {
      case Recorded(x) => EraseEvent(s, e, x, t);
      case Watermark(p) =>
        PutNext(s, e, t, if e.next < p then p else e.next, if s.next < p then p else s.next);
      case Projection(n, indexed) => PutProjections(s, e, t, s.projections[n := indexed]);
    }
  }

  lemma EraseReceipt(s: State, e: State, op: Op, t: Tenant)
    requires Apply(s, op).Some? && Lags(e, s, t) && Tagged(op)
    requires op.Command? || op.Claim? || op.Group? || op.Identity? || op.Generation? || op.Counter?
    ensures ErasesStep(s, e, op, t)
  {
    hide Without, Lags, Erased, Owner;
    match op {
      case Command(stream, k, d, f, l) =>
        WithoutPut(s.commands, CommandOf(t), (stream, k), Receipt(d, Range(stream, f, l)));
        PutCommands(s, e, t, s.commands[(stream, k) := Receipt(d, Range(stream, f, l))]);
      case Claim(a, b, c, d, r) =>
        WithoutPut(s.claims, TripleOf(t), (a, b, c), Receipt(d, r));
        PutClaims(s, e, t, s.claims[(a, b, c) := Receipt(d, r)]);
      case Group(a, k, d, r, b) =>
        WithoutPut(s.groups, PairOf(t), (a, k), GroupReceipt(d, r, b));
        PutGroups(s, e, t, s.groups[(a, k) := GroupReceipt(d, r, b)]);
      case Identity(a, id) =>
        WithoutPut(s.identities, TenantIs(t), a, id);
        PutIdentities(s, e, t, s.identities[a := id]);
      case Generation(stream, id) =>
        WithoutPut(s.generations, StreamOf(t), stream, id);
        PutGenerations(s, e, t, s.generations[stream := id]);
      case Counter(_, c, v) =>
        WithoutPut(s.counters, CounterOf(t), c, v);
        PutCounters(s, e, t, s.counters[c := v]);
    }
  }

  lemma EraseView(s: State, e: State, op: Op, t: Tenant)
    requires Apply(s, op).Some? && Lags(e, s, t) && (op.DirtyView? || op.Row? || op.ClearRows? || op.Cursor? || op.Blob?)
    ensures ErasesStep(s, e, op, t)
  {
    hide Without, ErasedDirty, Lags, Erased, Cleared;
    var s' := Apply(s, op).value;
    match op {
      case DirtyView(a, n, d) =>
        EraseDirty(s.dirty, t, (a, n));
        PutDirty(s, e, t, s'.dirty);
      case Row(a, n, k, row) =>
        if row.Some? { WithoutPut(s.rows, TripleOf(t), (a, n, k), row.value); }
        else { WithoutDrop(s.rows, TripleOf(t), (a, n, k)); }
        PutRows(s, e, t, s'.rows);
      case ClearRows(a, n) =>
        WithoutCleared(s.rows, t, a, n);
        PutRows(s, e, t, s'.rows);
      case Cursor(a, n, p) =>
        WithoutPut(s.cursors, PairOf(t), (a, n), p);
        PutCursors(s, e, t, s'.cursors);
      case Blob(a, d, bound) =>
        if bound.Some? { WithoutPut(s.blobs, PairOf(t), (a, d), bound.value); }
        else { WithoutDrop(s.blobs, PairOf(t), (a, d)); }
        PutBlobs(s, e, t, s'.blobs);
    }
  }

  lemma EraseDirty(dirty: set<(Tenant, string)>, t: Tenant, k: (Tenant, string))
    ensures ErasedDirty(dirty + {k}, t) == if k.0 == t then ErasedDirty(dirty, t) else ErasedDirty(dirty, t) + {k}
    ensures ErasedDirty(dirty - {k}, t) == if k.0 == t then ErasedDirty(dirty, t) else ErasedDirty(dirty, t) - {k}
  {
  }

  /** A transaction that records events ends in a watermark at or past all of them. */
  ghost predicate Covered(ops: Transaction) {
    (forall op :: op in ops ==> !op.Recorded?)
    || (ops != [] && ops[|ops| - 1].Watermark? && Below(ops, ops[|ops| - 1].position))
  }

  ghost predicate Below(ops: Transaction, top: nat) {
    forall op :: op in ops && op.Recorded? ==> op.event.position <= top
  }

  ghost predicate AllTagged(ops: Transaction) {
    forall op :: op in ops ==> Tagged(op)
  }

  /** Erasing never makes a transaction fail. The next position lags only until a watermark. */
  lemma {:induction false} EraseFold(s: State, e: State, ops: Transaction, t: Tenant, top: nat)
    requires Agreed(s) && Lags(e, s, t) && AllTagged(ops) && Fold(s, ops).Some?
    requires e.next == s.next && Below(ops, top)
    ensures Fold(e, Erase(ops, t)).Some?
    ensures var s', e' := Fold(s, ops).value, Fold(e, Erase(ops, t)).value;
      Lags(e', s', t) && (e'.next == s'.next || s'.next <= top)
  {
    hide Agreed, Lags, Tagged, Apply;
    if ops != [] {
      var n := |ops| - 1;
      assert AllTagged(ops[..n]) && Below(ops[..n], top);
      assert ops[n] in ops;
      EraseFold(s, e, ops[..n], t, top);
      var s1, e1 := Fold(s, ops[..n]).value, Fold(e, Erase(ops[..n], t)).value;
      FoldAgreed(s, ops[..n]);
      EraseOp(s1, e1, ops[n], t);
      EraseNext(s1, e1, ops[n], t, top);
      if ops[n].Tenant() == Some(t) {
        assert Erase(ops, t) == Erase(ops[..n], t);
      } else {
        assert Erase(ops, t)[..|Erase(ops[..n], t)|] == Erase(ops[..n], t);
      }
    }
  }

  lemma EraseNext(s: State, e: State, op: Op, t: Tenant, top: nat)
    requires Lags(e, s, t) && Apply(s, op).Some? && ErasesStep(s, e, op, t)
    requires e.next == s.next || s.next <= top
    requires op.Recorded? ==> op.event.position <= top
    ensures var s' := Apply(s, op).value;
      if op.Tenant() == Some(t) then e.next == s'.next || s'.next <= top
      else Apply(e, op).value.next == s'.next || s'.next <= top
  {
    hide Erased, Head, Insert;
  }

  lemma LagsNext(e: State, s: State, t: Tenant)
    requires Lags(e, s, t)
    ensures e.next <= s.next
  {
  }

  lemma LevelIsErased(e: State, s: State, t: Tenant)
    requires Lags(e, s, t) && e.next == s.next
    ensures e == Erased(s, t)
  {
  }

  /** A last watermark is kept by the erasure, and raises the next position to itself. */
  lemma WatermarkFloor(e: State, ops: Transaction, t: Tenant)
    requires ops != [] && ops[|ops| - 1].Watermark? && Fold(e, Erase(ops, t)).Some?
    ensures Fold(e, Erase(ops, t)).value.next >= ops[|ops| - 1].position
  {
    hide Fold, Head, Insert;
    FoldSnoc(e, Erase(ops[..|ops| - 1], t), ops[|ops| - 1]);
  }

  /** With its watermark, a transaction leaves the erased state exactly level. */
  lemma EraseCovered(s: State, ops: Transaction, t: Tenant)
    requires Agreed(s) && AllTagged(ops) && Fold(s, ops).Some? && Covered(ops)
    ensures Fold(Erased(s, t), Erase(ops, t)) == Some(Erased(Fold(s, ops).value, t))
  {
    hide Agreed, AllTagged, Erased, Apply, Fold, Lags;
    var e := Erased(s, t);
    ErasedLags(s, t);
    if forall op :: op in ops ==> !op.Recorded? {
      EraseFold(s, e, ops, t, 0);
    } else {
      EraseFold(s, e, ops, t, ops[|ops| - 1].position);
      WatermarkFloor(e, ops, t);
    }
    LagsNext(Fold(e, Erase(ops, t)).value, Fold(s, ops).value, t);
    LevelIsErased(Fold(e, Erase(ops, t)).value, Fold(s, ops).value, t);
  }

  lemma ErasedLags(s: State, t: Tenant)
    ensures Lags(Erased(s, t), s, t) && Erased(s, t).next == s.next
  {
  }

  /** What every committed history is: events are covered by watermarks, counters by their owners. */
  ghost predicate Disciplined(history: seq<Transaction>) {
    forall i :: 0 <= i < |history| ==> Covered(history[i]) && AllTagged(history[i])
  }

  /** Erasure commutes with replay. The history without a tenant's operations replays, without
      refusal, to the original state with exactly that tenant removed. The next position is the
      same, so no position that the tenant used is ever given out again. */
  lemma {:induction false} ErasureCommutes(history: seq<Transaction>, t: Tenant)
    requires Replay(history).Some? && Disciplined(history)
    ensures Replay(EraseAll(history, t)) == Some(Erased(Replay(history).value, t))
  {
    hide Fold, Erased, Covered, AllTagged, Agreed;
    if history == [] {
      EmptyErased(t);
    } else {
      var n := |history| - 1;
      ErasureCommutes(history[..n], t);
      ReplayAgreed(history[..n]);
      EraseCovered(Replay(history[..n]).value, history[n], t);
      var kept := EraseAll(history[..n], t);
      assert (kept + [Erase(history[n], t)])[..|kept|] == kept;
    }
  }

  lemma EmptyErased(t: Tenant)
    ensures Erased(EMPTY, t) == EMPTY
  {
    assert Erased(EMPTY, t).events == EMPTY.events;
  }

  // ---- Redacting an event ----

  /** `redact` over one operation: the new body in place of the old, and no derived rows or cursors
      of the tenant. */
  predicate Derived(op: Op, t: Tenant) {
    (op.Row? || op.Cursor?) && op.tenant == t
  }

  function RedactOp(op: Op, x: Event): Op {
    if op.Recorded? && op.event.id == x.id then Recorded(x) else op
  }

  function Redact(ops: Transaction, x: Event): Transaction {
    if ops == [] then []
    else
      var n := |ops| - 1;
      Redact(ops[..n], x) + (if Derived(ops[n], x.stream.tenant) then [] else [RedactOp(ops[n], x)])
  }

  function RedactAll(history: seq<Transaction>, x: Event): (r: seq<Transaction>)
    ensures |r| == |history|
  {
    if history == [] then []
    else
      var n := |history| - 1;
      RedactAll(history[..n], x) + [Redact(history[n], x)]
  }

  function RedactedLog(log: map<nat, Event>, x: Event): map<nat, Event> {
    map p | p in log :: if log[p].id == x.id then x else log[p]
  }

  /** The state with one event's body replaced and the tenant's rows and cursors gone. */
  ghost function Redacted(s: State, x: Event): State {
    s.(events := Events(RedactedLog(s.events.byPosition, x), s.events.byStream),
       rows := Without(s.rows, TripleOf(x.stream.tenant)),
       cursors := Without(s.cursors, PairOf(x.stream.tenant)))
  }

  /** `x` is `e` with another body. */
  predicate SameEvent(e: Event, x: Event) {
    e.(body := x.body, redacted := x.redacted) == x
  }

  /** Event ids never repeat: every record under the id is the event being redacted. */
  ghost predicate OnlyEvent(ops: Transaction, x: Event) {
    forall op :: op in ops && op.Recorded? && op.event.id == x.id ==> SameEvent(op.event, x)
  }

  lemma LogRedacted(log: map<nat, Event>, e: Event, x: Event)
    requires e.id == x.id ==> SameEvent(e, x)
    ensures RedactedLog(log[e.position := e], x) == RedactedLog(log, x)[e.position := if e.id == x.id then x else e]
  {
  }

  ghost predicate RedactsStep(s: State, op: Op, x: Event)
    requires Apply(s, op).Some?
  {
    if Derived(op, x.stream.tenant) then Redacted(Apply(s, op).value, x) == Redacted(s, x)
    else Apply(Redacted(s, x), RedactOp(op, x)) == Some(Redacted(Apply(s, op).value, x))
  }

  lemma RedactStep(s: State, op: Op, x: Event)
    requires Apply(s, op).Some?
    requires op.Recorded? && op.event.id == x.id ==> SameEvent(op.event, x)
    ensures RedactsStep(s, op, x)
  {
    hide Without, RedactedLog, Cleared, Largest;
    if op.Recorded? {
      LogRedacted(s.events.byPosition, op.event, x);
    } else if op.Row? || op.ClearRows? || op.Cursor? {
      RedactView(s, op, x);
    }
  }

  lemma RedactView(s: State, op: Op, x: Event)
    requires Apply(s, op).Some? && (op.Row? || op.ClearRows? || op.Cursor?)
    ensures RedactsStep(s, op, x)
  {
    hide RedactsStep, Apply;
    if op.Row? {
      RedactRow(s, op, x);
    } else if op.ClearRows? {
      RedactCleared(s, op, x);
    } else {
      RedactCursor(s, op, x);
    }
  }

  lemma RedactCleared(s: State, op: Op, x: Event)
    requires Apply(s, op).Some? && op.ClearRows?
    ensures RedactsStep(s, op, x)
  {
    hide Without, Cleared, Redacted;
    WithoutCleared(s.rows, x.stream.tenant, op.tenant, op.name);
    ClearedTwice(s.rows, x.stream.tenant, op.name);
    PutRedactedRows(s, x, Cleared(s.rows, op.tenant, op.name));
  }

  lemma RedactCursor(s: State, op: Op, x: Event)
    requires Apply(s, op).Some? && op.Cursor?
    ensures RedactsStep(s, op, x)
  {
    hide Without, Redacted;
    WithoutPut(s.cursors, PairOf(x.stream.tenant), (op.tenant, op.name), op.position);
    PutRedactedCursors(s, x, s.cursors[(op.tenant, op.name) := op.position]);
  }

  lemma RedactRow(s: State, op: Op, x: Event)
    requires Apply(s, op).Some? && op.Row?
    ensures RedactsStep(s, op, x)
  {
    hide Without, Redacted;
    var t := x.stream.tenant;
    if op.row.Some? { WithoutPut(s.rows, TripleOf(t), (op.tenant, op.name, op.key), op.row.value); }
    else { WithoutDrop(s.rows, TripleOf(t), (op.tenant, op.name, op.key)); }
    PutRedactedRows(s, x, Apply(s, op).value.rows);
  }

  lemma PutRedactedRows(s: State, x: Event, rows: map<(Tenant, string, string), string>)
    ensures Redacted(s.(rows := rows), x) == Redacted(s, x).(rows := Without(rows, TripleOf(x.stream.tenant)))
    ensures Redacted(s, x).rows == Without(s.rows, TripleOf(x.stream.tenant))
  {
    hide Without, RedactedLog;
  }

  lemma PutRedactedCursors(s: State, x: Event, cursors: map<(Tenant, string), nat>)
    ensures Redacted(s.(cursors := cursors), x) == Redacted(s, x).(cursors := Without(cursors, PairOf(x.stream.tenant)))
    ensures Redacted(s, x).cursors == Without(s.cursors, PairOf(x.stream.tenant))
  {
    hide Without, RedactedLog;
  }

  lemma ClearedTwice(rows: map<(Tenant, string, string), string>, t: Tenant, name: string)
    ensures Cleared(Without(rows, TripleOf(t)), t, name) == Without(rows, TripleOf(t))
  {
  }

  lemma {:induction false} RedactFold(s: State, ops: Transaction, x: Event)
    requires Fold(s, ops).Some? && OnlyEvent(ops, x)
    ensures Fold(Redacted(s, x), Redact(ops, x)) == Some(Redacted(Fold(s, ops).value, x))
  {
    hide Redacted, Apply, SameEvent;
    if ops != [] {
      var n := |ops| - 1;
      assert OnlyEvent(ops[..n], x) && ops[n] in ops;
      RedactFold(s, ops[..n], x);
      RedactStep(Fold(s, ops[..n]).value, ops[n], x);
      var kept := Redact(ops[..n], x);
      if Derived(ops[n], x.stream.tenant) {
        assert Redact(ops, x) == kept;
      } else {
        assert (kept + [RedactOp(ops[n], x)])[..|kept|] == kept;
      }
    }
  }

  /** Redaction commutes with replay. The rewritten history always replays, to the same events,
      positions, versions and receipts with only that event's body changed and the tenant's rows
      and cursors empty. */
  lemma {:induction false} RedactionCommutes(history: seq<Transaction>, x: Event)
    requires Replay(history).Some?
    requires forall i :: 0 <= i < |history| ==> OnlyEvent(history[i], x)
    ensures Replay(RedactAll(history, x)) == Some(Redacted(Replay(history).value, x))
  {
    hide Redacted, Fold, OnlyEvent;
    if history == [] {
      EmptyRedacted(x);
    } else {
      var n := |history| - 1;
      RedactionCommutes(history[..n], x);
      RedactFold(Replay(history[..n]).value, history[n], x);
      var kept := RedactAll(history[..n], x);
      assert (kept + [Redact(history[n], x)])[..|kept|] == kept;
    }
  }

  lemma EmptyRedacted(x: Event)
    ensures Redacted(EMPTY, x) == EMPTY
  {
    assert Redacted(EMPTY, x).events == EMPTY.events;
  }
}
