/** Admission counters: one request's reservations, and what they add up to over runs
    (`admission.rs`, `ordered_reservations`; `projection.rs`, `View::reserve`). */
module Admission {
  import opened Prelude
  import opened Order
  import opened Scopes
  import opened State
  import opened Rewrites
  import opened Requests
  import opened Receipts
  import opened Stores
  import opened Transactions

  const I64_MAX: int := 0x7FFF_FFFF_FFFF_FFFF
  type I64 = x: int | -I64_MAX - 1 <= x <= I64_MAX

  datatype Reservation = Reservation(scope: Scope, delta: I64, ceiling: I64)

  predicate BelongsTo(scope: Scope, tenant: Tenant) {
    scope.TenantScope? ==> scope.tenant == tenant
  }

  predicate ValidOne(r: Reservation, tenant: Tenant) {
    BelongsTo(r.scope, tenant) && r.ceiling >= 0 && Field(r.scope.key)
  }

  predicate Distinct(rs: seq<Reservation>) {
    forall i, j :: 0 <= i < j < |rs| ==> rs[i].scope != rs[j].scope
  }

  /** What `ordered_reservations` accepts, said of the scopes rather than their coordinates. */
  predicate Admissible(rs: seq<Reservation>, tenant: Tenant) {
    1 <= |rs| <= 64 && (forall i :: 0 <= i < |rs| ==> ValidOne(rs[i], tenant)) && Distinct(rs)
  }

  // ---- Ordering ----

  predicate Sorted(rs: seq<Reservation>) {
    forall i, j :: 0 <= i < j < |rs| ==> AtMost(Coordinate(rs[i].scope), Coordinate(rs[j].scope))
  }

  /** Put one reservation where the order wants it. */
  method Place(rs: seq<Reservation>, r: Reservation) returns (placed: seq<Reservation>)
    requires Sorted(rs)
    ensures Sorted(placed) && multiset(placed) == multiset(rs) + multiset{r}
  {
    hide AtMost, Coordinate;
    var i := |rs|;
    while i > 0 && !AtMost(Coordinate(rs[i - 1].scope), Coordinate(r.scope))
      invariant 0 <= i <= |rs|
      invariant forall j :: i <= j < |rs| ==> AtMost(Coordinate(r.scope), Coordinate(rs[j].scope))
    {
      AtMostTotal(Coordinate(rs[i - 1].scope), Coordinate(r.scope));
      i := i - 1;
    }
    forall j | 0 <= j < i ensures AtMost(Coordinate(rs[j].scope), Coordinate(r.scope)) {
      if j < i - 1 {
        AtMostChains(Coordinate(rs[j].scope), Coordinate(rs[i - 1].scope), Coordinate(r.scope));
      }
    }
    placed := rs[..i] + [r] + rs[i..];
    PlacedSorted(rs, i, r);
    PlacedCounts(rs, i, r);
  }

  lemma PlacedSorted(rs: seq<Reservation>, i: nat, r: Reservation)
    requires Sorted(rs) && i <= |rs|
    requires forall j :: 0 <= j < i ==> AtMost(Coordinate(rs[j].scope), Coordinate(r.scope))
    requires forall j :: i <= j < |rs| ==> AtMost(Coordinate(r.scope), Coordinate(rs[j].scope))
    ensures Sorted(rs[..i] + [r] + rs[i..])
  {
    hide AtMost, Coordinate;
    var placed := rs[..i] + [r] + rs[i..];
    assert forall j :: 0 <= j < |placed| ==> placed[j] == if j < i then rs[j] else if j == i then r else rs[j - 1];
  }

  lemma PlacedCounts<T>(rs: seq<T>, i: nat, r: T)
    requires i <= |rs|
    ensures multiset(rs[..i] + [r] + rs[i..]) == multiset(rs) + multiset{r}
  {
    assert rs == rs[..i] + rs[i..];
  }

  /** `ordered_reservations`: accepted exactly when admissible, and then a sorted permutation. */
  method Ordered(rs: seq<Reservation>, tenant: Tenant) returns (out: Option<seq<Reservation>>)
    ensures out.Some? <==> Admissible(rs, tenant)
    ensures out.Some? ==> Sorted(out.value) && multiset(out.value) == multiset(rs)
  {
    hide AtMost, Coordinate, Field;
    if rs == [] || |rs| > 64 {
      return None;
    }
    var ordered := [];
    for i := 0 to |rs|
      invariant Sorted(ordered) && multiset(ordered) == multiset(rs[..i])
      invariant forall j :: 0 <= j < i ==> ValidOne(rs[j], tenant)
    {
      if !BelongsTo(rs[i].scope, tenant) || rs[i].ceiling < 0 || !Field(rs[i].scope.key) {
        return None;
      }
      assert rs[..i + 1] == rs[..i] + [rs[i]];
      ordered := Place(ordered, rs[i]);
    }
    assert rs[..|rs|] == rs;
    for i := 1 to |ordered|
      invariant forall j :: 1 <= j < i ==> Coordinate(ordered[j - 1].scope) != Coordinate(ordered[j].scope)
    {
      if Coordinate(ordered[i - 1].scope) == Coordinate(ordered[i].scope) {
        CoordinateInjective(ordered[i - 1].scope, ordered[i].scope);
        SamePlaces(ordered, rs);
        return None;
      }
    }
    NoNeighbours(ordered);
    SamePlaces(rs, ordered);
    return Some(ordered);
  }

  /** Being sorted, equal coordinates would be neighbours. */
  lemma NoNeighbours(rs: seq<Reservation>)
    requires Sorted(rs) && forall j :: 1 <= j < |rs| ==> Coordinate(rs[j - 1].scope) != Coordinate(rs[j].scope)
    ensures Distinct(rs)
  {
    hide AtMost, Coordinate;
    forall i, j | 0 <= i < j < |rs| ensures rs[i].scope != rs[j].scope {
      if rs[i].scope == rs[j].scope {
        AtMostTotal(Coordinate(rs[i].scope), Coordinate(rs[i + 1].scope));
      }
    }
  }

  /** Distinctness does not depend on the order. */
  lemma SamePlaces(a: seq<Reservation>, b: seq<Reservation>)
    requires multiset(a) == multiset(b)
    ensures Distinct(b) ==> Distinct(a)
  {
    if Distinct(b) {
      forall i, j | 0 <= i < j < |a| ensures a[i].scope != a[j].scope {
        if a[i].scope == a[j].scope {
          assert a[i] in multiset(a) && a[j] in multiset(a);
          assert a[i] in b && a[j] in b;
          assert a[i] == a[j];
          TwoCopies(a, i, j);
          OneCopy(b, a[i]);
        }
      }
    }
  }

  lemma TwoCopies<T>(a: seq<T>, i: nat, j: nat)
    requires i < j < |a| && a[i] == a[j]
    ensures multiset(a)[a[i]] >= 2
  {
    assert a == a[..i] + [a[i]] + a[i + 1..j] + [a[j]] + a[j + 1..];
  }

  lemma {:induction false} OneCopy(b: seq<Reservation>, r: Reservation)
    requires Distinct(b)
    ensures multiset(b)[r] <= 1
  {
    if b != [] {
      var n := |b| - 1;
      OneCopy(b[..n], r);
      assert b == b[..n] + [b[n]];
    }
  }

  // ---- One reservation request ----

  type Counters = map<string, int>

  function Value(counters: Counters, scope: Scope): int {
    if Coordinate(scope) in counters then counters[Coordinate(scope)] else 0
  }

  /** The checked addition, and both bounds. */
  predicate Fits(counters: Counters, r: Reservation) {
    var value := Value(counters, r.scope) + r.delta;
    -I64_MAX - 1 <= value <= I64_MAX && 0 <= value <= r.ceiling
  }

  predicate Accepts(counters: Counters, rs: seq<Reservation>, tenant: Tenant) {
    Admissible(rs, tenant) && forall i :: 0 <= i < |rs| ==> Fits(counters, rs[i])
  }

  function Write(counters: Counters, r: Reservation): Op {
    Counter(ScopeTenant(r.scope), Coordinate(r.scope), Value(counters, r.scope) + r.delta)
  }

  function ReserveOps(counters: Counters, rs: seq<Reservation>): (ops: seq<Op>)
    ensures |ops| == |rs| && forall i :: 0 <= i < |rs| ==> ops[i] == Write(counters, rs[i])
  {
    seq(|rs|, i requires 0 <= i < |rs| => Write(counters, rs[i]))
  }

  /** `reserve`: every delta is checked against the state before any is recorded, so a refusal, even
      one that the guard catches, leaves nothing. */
  method Reserve(tx: OpenTransaction, permitted: bool, rs: seq<Reservation>, tenant: Tenant)
    returns (out: Option<seq<int>>, ghost ordered: seq<Reservation>)
    requires tx.Valid()
    modifies tx`pending, tx`state
    ensures tx.Valid()
    ensures out.Some? <==> permitted && Accepts(old(tx.state.counters), rs, tenant)
    ensures out.None? ==> tx.pending == old(tx.pending) && tx.state == old(tx.state)
    ensures out.Some? ==>
      && Sorted(ordered) && multiset(ordered) == multiset(rs)
      && tx.pending == old(tx.pending) + ReserveOps(old(tx.state.counters), ordered)
      && Fold(old(tx.state), ReserveOps(old(tx.state.counters), ordered)) == Some(tx.state)
      && |out.value| == |ordered|
      && forall i :: 0 <= i < |ordered| ==> out.value[i] == Value(old(tx.state.counters), ordered[i].scope) + ordered[i].delta
  {
    hide Coordinate, AtMost, Field, Fold, Apply, Index.Agreed;
    ordered := [];
    if !permitted {
      return None, [];
    }
    var checked := Ordered(rs, tenant);
    if checked.None? {
      return None, [];
    }
    var all := checked.value;
    ordered := all;
    SameMembers(rs, all);
    var writes, values := [], [];
    for i := 0 to |all|
      invariant writes == ReserveOps(tx.state.counters, all)[..i] && |values| == i
      invariant forall j :: 0 <= j < i ==>
        && Fits(tx.state.counters, all[j])
        && values[j] == Value(tx.state.counters, all[j].scope) + all[j].delta
    {
      var value := Value(tx.state.counters, all[i].scope) + all[i].delta;
      if !(-I64_MAX - 1 <= value <= I64_MAX) || value < 0 || value > all[i].ceiling {
        assert !Fits(tx.state.counters, all[i]) && all[i] in rs;
        return None, all;
      }
      writes := writes + [Counter(ScopeTenant(all[i].scope), Coordinate(all[i].scope), value)];
      values := values + [value];
    }
    assert writes == ReserveOps(tx.state.counters, all);
    forall i | 0 <= i < |rs| ensures Fits(tx.state.counters, rs[i]) {
      assert rs[i] in all;
    }
    tx.RecordQuiet(writes);
    return Some(values), all;
  }

  lemma SameMembers(a: seq<Reservation>, b: seq<Reservation>)
    requires multiset(a) == multiset(b)
    ensures forall r :: r in a <==> r in b
  {
    forall r ensures r in a <==> r in b {
      assert r in a <==> r in multiset(a);
      assert r in b <==> r in multiset(b);
    }
  }

  // ---- What a request adds ----

  /** The deltas a request has for one scope. */
  function Delta(rs: seq<Reservation>, scope: Scope): int {
    if rs == [] then 0
    else
      var n := |rs| - 1;
      Delta(rs[..n], scope) + (if rs[n].scope == scope then rs[n].delta else 0)
  }

  lemma {:induction false} DeltaConcat(a: seq<Reservation>, b: seq<Reservation>, scope: Scope)
    ensures Delta(a + b, scope) == Delta(a, scope) + Delta(b, scope)
  {
    if b == [] {
      assert a + b == a;
    } else {
      var n := |b| - 1;
      DeltaConcat(a, b[..n], scope);
      assert (a + b)[..|a| + n] == a + b[..n];
    }
  }

  lemma {:induction false} DeltaNone(rs: seq<Reservation>, scope: Scope)
    requires forall i :: 0 <= i < |rs| ==> rs[i].scope != scope
    ensures Delta(rs, scope) == 0
  {
    if rs != [] {
      DeltaNone(rs[..|rs| - 1], scope);
    }
  }

  lemma DeltaOf(rs: seq<Reservation>, scope: Scope, i: nat)
    requires Distinct(rs) && i < |rs| && rs[i].scope == scope
    ensures Delta(rs, scope) == rs[i].delta
  {
    assert rs == rs[..i] + [rs[i]] + rs[i + 1..];
    DeltaNone(rs[..i], scope);
    DeltaNone(rs[i + 1..], scope);
    DeltaConcat(rs[..i] + [rs[i]], rs[i + 1..], scope);
    DeltaConcat(rs[..i], [rs[i]], scope);
  }

  /** The order of distinct reservations does not change what they add. */
  lemma DeltaReordered(a: seq<Reservation>, b: seq<Reservation>, scope: Scope)
    requires Distinct(a) && Distinct(b) && multiset(a) == multiset(b)
    ensures Delta(a, scope) == Delta(b, scope)
  {
    hide Delta;
    SameMembers(a, b);
    if exists i :: 0 <= i < |a| && a[i].scope == scope {
      var i :| 0 <= i < |a| && a[i].scope == scope;
      assert a[i] in b;
      var j :| 0 <= j < |b| && b[j] == a[i];
      DeltaOf(a, scope, i);
      DeltaOf(b, scope, j);
    } else {
      forall j | 0 <= j < |b| ensures b[j].scope != scope {
        assert b[j] in a;
      }
      DeltaNone(a, scope);
      DeltaNone(b, scope);
    }
  }

  /** The counters after some recorded writes. */
  function Counted(counters: Counters, ops: seq<Op>): Counters {
    if ops == [] then counters
    else
      var n := |ops| - 1;
      var before := Counted(counters, ops[..n]);
      if ops[n].Counter? then before[ops[n].coordinate := ops[n].value] else before
  }

  lemma {:induction false} CountedConcat(counters: Counters, a: seq<Op>, b: seq<Op>)
    ensures Counted(counters, a + b) == Counted(Counted(counters, a), b)
  {
    if b == [] {
      assert a + b == a;
    } else {
      var n := |b| - 1;
      CountedConcat(counters, a, b[..n]);
      assert (a + b)[..|a| + n] == a + b[..n];
    }
  }

  lemma CountedApply(s: State, op: Op)
    requires Apply(s, op).Some?
    ensures Apply(s, op).value.counters == if op.Counter? then s.counters[op.coordinate := op.value] else s.counters
  {
    hide Head, Insert, Cleared;
  }

  lemma {:induction false} FoldCounted(s: State, ops: seq<Op>)
    requires Fold(s, ops).Some?
    ensures Fold(s, ops).value.counters == Counted(s.counters, ops)
  {
    hide Apply;
    if ops != [] {
      var n := |ops| - 1;
      FoldCounted(s, ops[..n]);
      CountedApply(Fold(s, ops[..n]).value, ops[n]);
    }
  }

  predicate NoCounters(ops: seq<Op>) {
    forall op :: op in ops ==> !op.Counter?
  }

  lemma {:induction false} CountedNothing(counters: Counters, ops: seq<Op>)
    requires NoCounters(ops)
    ensures Counted(counters, ops) == counters
  {
    if ops != [] {
      CountedNothing(counters, ops[..|ops| - 1]);
    }
  }

  /** Writing distinct scopes moves each counter by its own delta. */
  lemma {:induction false} ReserveCounts(counters: Counters, rs: seq<Reservation>, k: nat, scope: Scope)
    requires Distinct(rs) && k <= |rs|
    ensures Value(Counted(counters, ReserveOps(counters, rs)[..k]), scope) == Value(counters, scope) + Delta(rs[..k], scope)
  {
    hide Coordinate, Value;
    if k > 0 {
      var r, ops := rs[k - 1], ReserveOps(counters, rs);
      ReserveCounts(counters, rs, k - 1, scope);
      assert ops[..k][..k - 1] == ops[..k - 1] && rs[..k][..k - 1] == rs[..k - 1];
      PutCounts(counters, Counted(counters, ops[..k - 1]), r, scope);
      if r.scope == scope {
        DeltaNone(rs[..k - 1], scope);
      }
    }
  }

  /** Writing one scope's counter moves no other. */
  lemma PutCounts(counters: Counters, now: Counters, r: Reservation, scope: Scope)
    ensures Value(now[Coordinate(r.scope) := Value(counters, r.scope) + r.delta], scope)
         == if r.scope == scope then Value(counters, r.scope) + r.delta else Value(now, scope)
  {
    hide Coordinate;
    if Coordinate(r.scope) == Coordinate(scope) {
      CoordinateInjective(r.scope, scope);
    }
  }

  // ---- A guard's calls ----

  /** One call of `reserve`, and the order it was checked in. */
  datatype Call = Call(requested: seq<Reservation>, ordered: seq<Reservation>)

  ghost predicate ValidCalls(calls: seq<Call>) {
    forall i :: 0 <= i < |calls| ==> multiset(calls[i].ordered) == multiset(calls[i].requested)
  }

  /** What a guard records: each call that is accepted, in turn; refusals are caught. */
  function GuardOps(counters: Counters, calls: seq<Call>, tenant: Tenant): seq<Op> {
    if calls == [] then []
    else
      var n := |calls| - 1;
      var before := GuardOps(counters, calls[..n], tenant);
      var now := Counted(counters, before);
      before + (if Accepts(now, calls[n].requested, tenant) then ReserveOps(now, calls[n].ordered) else [])
  }

  function GuardDelta(counters: Counters, calls: seq<Call>, tenant: Tenant, scope: Scope): int {
    if calls == [] then 0
    else
      var n := |calls| - 1;
      var now := Counted(counters, GuardOps(counters, calls[..n], tenant));
      GuardDelta(counters, calls[..n], tenant, scope)
      + (if Accepts(now, calls[n].requested, tenant) then Delta(calls[n].requested, scope) else 0)
  }

  /** Every reservation of this scope names the same ceiling. */
  predicate Fixed(rs: seq<Reservation>, scope: Scope, ceiling: int) {
    forall i :: 0 <= i < |rs| && rs[i].scope == scope ==> rs[i].ceiling == ceiling
  }

  /** An accepted request leaves no counter negative. */
  lemma AcceptedFloor(counters: Counters, rs: seq<Reservation>, tenant: Tenant, scope: Scope)
    requires Accepts(counters, rs, tenant) && 0 <= Value(counters, scope)
    ensures 0 <= Value(counters, scope) + Delta(rs, scope)
  {
    hide Coordinate, Field, Value;
    if exists i :: 0 <= i < |rs| && rs[i].scope == scope {
      var i :| 0 <= i < |rs| && rs[i].scope == scope;
      DeltaOf(rs, scope, i);
      assert Fits(counters, rs[i]);
    } else {
      DeltaNone(rs, scope);
    }
  }

  /** An accepted request leaves the scope within its ceiling. */
  lemma AcceptedFits(counters: Counters, rs: seq<Reservation>, tenant: Tenant, scope: Scope, ceiling: int)
    requires Accepts(counters, rs, tenant) && Fixed(rs, scope, ceiling) && 0 <= Value(counters, scope) <= ceiling
    ensures 0 <= Value(counters, scope) + Delta(rs, scope) <= ceiling
  {
    hide Coordinate, Field, Value;
    if exists i :: 0 <= i < |rs| && rs[i].scope == scope {
      var i :| 0 <= i < |rs| && rs[i].scope == scope;
      DeltaOf(rs, scope, i);
      assert Fits(counters, rs[i]);
    } else {
      DeltaNone(rs, scope);
    }
  }

  /** A guard moves each counter by exactly the deltas of its accepted calls. */
  lemma {:induction false} GuardCounts(counters: Counters, calls: seq<Call>, tenant: Tenant, scope: Scope)
    requires ValidCalls(calls)
    ensures Value(Counted(counters, GuardOps(counters, calls, tenant)), scope)
         == Value(counters, scope) + GuardDelta(counters, calls, tenant, scope)
  {
    hide Coordinate, Field, Value, Counted, Delta;
    if calls == [] {
      CountedNothing(counters, []);
    } else {
      var n := |calls| - 1;
      GuardCounts(counters, calls[..n], tenant, scope);
      var before := GuardOps(counters, calls[..n], tenant);
      var now, call := Counted(counters, before), calls[n];
      if Accepts(now, call.requested, tenant) {
        var ops := ReserveOps(now, call.ordered);
        SamePlaces(call.ordered, call.requested);
        ReserveCounts(now, call.ordered, |call.ordered|, scope);
        assert ops[..|ops|] == ops && call.ordered[..|call.ordered|] == call.ordered;
        DeltaReordered(call.ordered, call.requested, scope);
        CountedConcat(counters, before, ops);
      } else {
        assert before + [] == before;
      }
    }
  }

  lemma {:induction false} GuardFloor(counters: Counters, calls: seq<Call>, tenant: Tenant, scope: Scope)
    requires ValidCalls(calls) && 0 <= Value(counters, scope)
    ensures 0 <= Value(counters, scope) + GuardDelta(counters, calls, tenant, scope)
  {
    hide Coordinate, Field, Value, Counted, Delta, Accepts;
    if calls != [] {
      var n := |calls| - 1;
      GuardFloor(counters, calls[..n], tenant, scope);
      GuardCounts(counters, calls[..n], tenant, scope);
      var now := Counted(counters, GuardOps(counters, calls[..n], tenant));
      if Accepts(now, calls[n].requested, tenant) {
        AcceptedFloor(now, calls[n].requested, tenant, scope);
      }
    }
  }

  /** What a guard reserves are counters, each marked with the tenant its coordinate belongs to. */
  lemma {:induction false} GuardTagged(counters: Counters, calls: seq<Call>, tenant: Tenant)
    ensures AllTagged(GuardOps(counters, calls, tenant)) && forall op :: op in GuardOps(counters, calls, tenant) ==> op.Counter?
  {
    hide Coordinate, Field, Value, Counted, Accepts, Owner;
    if calls != [] {
      var n := |calls| - 1;
      GuardTagged(counters, calls[..n], tenant);
      var now := Counted(counters, GuardOps(counters, calls[..n], tenant));
      forall op | op in ReserveOps(now, calls[n].ordered) ensures op.Counter? && Tagged(op) {
        var i :| 0 <= i < |calls[n].ordered| && op == Write(now, calls[n].ordered[i]);
        OwnerOfCoordinate(calls[n].ordered[i].scope);
      }
    }
  }

  lemma {:induction false} GuardFits(counters: Counters, calls: seq<Call>, tenant: Tenant, scope: Scope, ceiling: int)
    requires ValidCalls(calls) && 0 <= Value(counters, scope) <= ceiling
    requires forall i :: 0 <= i < |calls| ==> Fixed(calls[i].requested, scope, ceiling)
    ensures 0 <= Value(counters, scope) + GuardDelta(counters, calls, tenant, scope) <= ceiling
  {
    hide Coordinate, Field, Value, Counted, Delta, Accepts, Fixed;
    if calls != [] {
      var n := |calls| - 1;
      GuardFits(counters, calls[..n], tenant, scope, ceiling);
      GuardCounts(counters, calls[..n], tenant, scope);
      var now := Counted(counters, GuardOps(counters, calls[..n], tenant));
      if Accepts(now, calls[n].requested, tenant) {
        AcceptedFits(now, calls[n].requested, tenant, scope, ceiling);
      }
    }
  }

  // ---- Runs ----

  /** The counters among some operations, in order. */
  function CounterOps(ops: seq<Op>): seq<Op> {
    if ops == [] then []
    else
      var n := |ops| - 1;
      CounterOps(ops[..n]) + (if ops[n].Counter? then [ops[n]] else [])
  }

  lemma {:induction false} CountedCounters(counters: Counters, ops: seq<Op>)
    ensures Counted(counters, CounterOps(ops)) == Counted(counters, ops)
  {
    if ops != [] {
      var n := |ops| - 1;
      CountedCounters(counters, ops[..n]);
      var kept := CounterOps(ops[..n]);
      assert (kept + [ops[n]])[..|kept|] == kept && kept + [] == kept;
    }
  }

  /** One transaction, with the reservations its guard made among whatever else it recorded. */
  datatype Turn = Turn(change: Change, calls: seq<Call>)

  ghost predicate ValidTurn(st: Store, turn: Turn) {
    && ValidChange(st, turn.change) && ValidCalls(turn.calls)
    && (turn.change.Note? ==> NoCounters(turn.change.ops))
    && (turn.change.Serve? ==>
          CounterOps(turn.change.request.guard.ops)
          == GuardOps(st.state.counters, turn.calls, RequestTenant(turn.change.request)))
  }

  function RunTurns(st: Store, turns: seq<Turn>): Store {
    if turns == [] then st else Step(RunTurns(st, turns[..|turns| - 1]), turns[|turns| - 1].change)
  }

  ghost predicate ValidTurns(st: Store, turns: seq<Turn>) {
    turns == [] || (var n := |turns| - 1; ValidTurns(st, turns[..n]) && ValidTurn(RunTurns(st, turns[..n]), turns[n]))
  }

  /** A request whose guard was called and whose transaction committed: a new one, or a retry that is
      admitted again for the batch it carries. */
  predicate Charged(st: Store, r: Request) {
    var out := Perform(st.state, r).outcome;
    out.Ok? && (out.value.deduplicated ==> r.AppendGroup? && !r.atomic && r.batch != [])
  }

  /** What one turn makes of a running sum: it adds what it committed, or clears it with its tenant. */
  function Tally(st: Store, turn: Turn, scope: Scope, sum: int): int {
    match turn.change
    case Forget(t) => if ScopeTenant(scope) == Some(t) then 0 else sum
    case Serve(r) =>
      if Charged(st, r) then sum + GuardDelta(st.state.counters, turn.calls, RequestTenant(r), scope) else sum
    case Note(_) => sum
    case RedactEvent(_, _, _, _, _) => sum
  }

  /** The deltas committed for a scope since its tenant was last forgotten. */
  function CommittedSum(st: Store, turns: seq<Turn>, scope: Scope): int {
    if turns == [] then 0
    else
      var n := |turns| - 1;
      Tally(RunTurns(st, turns[..n]), turns[n], scope, CommittedSum(st, turns[..n], scope))
  }

  lemma {:induction false} BatchCounters(s: State, members: seq<Member>)
    requires AppendMembers(s, members).Ok? && forall i :: 0 <= i < |members| ==> ValidMember(members[i])
    ensures NoCounters(AppendMembers(s, members).value.ops)
  {
    hide Check, StateAfter, Assigned, Head;
    if members != [] {
      BatchCounters(s, members[..|members| - 1]);
    }
  }

  /** Bindings touch no counter, on whichever side of the guard they are. */
  lemma AdmitCounts(s: State, r: Request, counters: Counters)
    requires Admit(s, r).error.None?
    ensures Counted(counters, Admit(s, r).ops) == Counted(counters, r.guard.ops)
  {
    hide Bind, StateAfter, Counted;
    if r.AppendGroup? {
      var bound := if r.atomic then Bind(s, r.tenant, r.batch).ops else Bind(StateAfter(s, r.guard.ops), r.tenant, r.batch).ops;
      BindQuiet(s, r.tenant, r.batch);
      BindQuiet(StateAfter(s, r.guard.ops), r.tenant, r.batch);
      CountedNothing(counters, bound);
      CountedNothing(Counted(counters, r.guard.ops), bound);
      CountedConcat(counters, bound, r.guard.ops);
      CountedConcat(counters, r.guard.ops, bound);
    }
  }

  /** Only the guard of a request touches counters. */
  lemma ServeCounts(st: Store, r: Request)
    requires Sound(st) && ValidChange(st, Serve(r))
    ensures Step(st, Serve(r)).state.counters ==
      if Charged(st, r) then Counted(st.state.counters, r.guard.ops) else st.state.counters
  {
    hide Perform, Partition, Disciplined, DistinctIds, Replay, NewIds, Fold, Counted;
    hide AllTagged, Index.Agreed, ValidRequest;
    var w := Perform(st.state, r);
    if w.outcome.Ok? {
      SoundAgreed(st);
      RequestServes(st.state, r);
      FoldCounted(st.state, w.pending);
      CountedNothing(st.state.counters, []);
      if w.outcome.value.deduplicated {
        RetryShape(st.state, r);
      } else {
        FreshCounts(st.state, r);
        FreshRecords(st.state, r);
      }
    }
  }

  lemma FreshCounts(s: State, r: Request)
    requires ValidRequest(r) && Perform(s, r).outcome.Ok? && !Perform(s, r).outcome.value.deduplicated
    ensures Counted(s.counters, Perform(s, r).pending) == Counted(s.counters, r.guard.ops)
  {
    hide Perform, Counted, AppendMembers, StateAfter, Admit, Digests;
    PerformShape(s, r);
    var a := Admit(s, r).ops;
    var b := AppendMembers(StateAfter(s, a), MembersOf(r)).value;
    BatchCounters(StateAfter(s, a), MembersOf(r));
    AdmitCounts(s, r, s.counters);
    var rest := b.ops + ReceiptOps(r, b.ranges);
    assert Perform(s, r).pending == a + rest;
    CountedConcat(s.counters, a, rest);
    CountedNothing(Counted(s.counters, a), rest);
  }

  lemma ErasedValue(s: State, t: Tenant, scope: Scope)
    ensures Value(Erased(s, t).counters, scope) == if ScopeTenant(scope) == Some(t) then 0 else Value(s.counters, scope)
  {
    hide Coordinate, Owner;
    OwnerOfCoordinate(scope);
  }

  lemma OtherCounts(st: Store, c: Change)
    requires Sound(st) && ValidChange(st, c) && (c.RedactEvent? || (c.Note? && NoCounters(c.ops)))
    ensures Step(st, c).state.counters == st.state.counters
  {
    hide Perform, Partition, Disciplined, DistinctIds, Replay, Fold, Counted, Index.OfStream;
    if c.RedactEvent? {
      RedactSound(st, c);
    } else if Fold(st.state, c.ops).Some? {
      FoldCounted(st.state, c.ops);
      CountedNothing(st.state.counters, c.ops);
    }
  }

  lemma TurnCounts(st: Store, turn: Turn, scope: Scope)
    requires Sound(st) && ValidTurn(st, turn)
    ensures Value(Step(st, turn.change).state.counters, scope) == Tally(st, turn, scope, Value(st.state.counters, scope))
  {
    hide Sound, ValidChange, Step, Value, Counted, GuardOps, GuardDelta, Charged, Erased, CounterOps;
    match turn.change
    case Forget(t) =>
      ForgetSound(st, t);
      ErasedValue(st.state, t, scope);
    case Serve(r) =>
      ServeCounts(st, r);
      CountedCounters(st.state.counters, r.guard.ops);
      GuardCounts(st.state.counters, turn.calls, RequestTenant(r), scope);
    case Note(_) => OtherCounts(st, turn.change);
    case RedactEvent(_, _, _, _, _) => OtherCounts(st, turn.change);
  }

  /** Over every run, whatever ceilings its reservations name, a counter is the sum of the deltas
      committed since its scope was last erased, and is never negative. */
  lemma {:induction false} CountersAddUp(turns: seq<Turn>, scope: Scope)
    requires ValidTurns(NEW, turns)
    ensures Sound(RunTurns(NEW, turns))
    ensures Value(RunTurns(NEW, turns).state.counters, scope) == CommittedSum(NEW, turns, scope)
    ensures 0 <= Value(RunTurns(NEW, turns).state.counters, scope)
  {
    hide Sound, ValidChange, Step, Value, GuardOps, GuardDelta, Charged;
    if turns == [] {
      NewSound();
      NothingCounted(scope);
    } else {
      var n := |turns| - 1;
      CountersAddUp(turns[..n], scope);
      var st := RunTurns(NEW, turns[..n]);
      StepSound(st, turns[n].change);
      TurnCounts(st, turns[n], scope);
      if turns[n].change.Serve? {
        GuardFloor(st.state.counters, turns[n].calls, RequestTenant(turns[n].change.request), scope);
      }
    }
  }

  /** And when all its reservations name one ceiling, it stays within that. */
  lemma {:induction false} CountersBounded(turns: seq<Turn>, scope: Scope, ceiling: nat)
    requires ValidTurns(NEW, turns)
    requires forall i, j :: 0 <= i < |turns| && 0 <= j < |turns[i].calls| ==> Fixed(turns[i].calls[j].requested, scope, ceiling)
    ensures 0 <= Value(RunTurns(NEW, turns).state.counters, scope) <= ceiling
  {
    hide Sound, ValidChange, Step, Value, GuardOps, GuardDelta, Charged, Fixed;
    if turns == [] {
      NothingCounted(scope);
    } else {
      var n := |turns| - 1;
      CountersBounded(turns[..n], scope, ceiling);
      CountersAddUp(turns[..n], scope);
      var st := RunTurns(NEW, turns[..n]);
      TurnCounts(st, turns[n], scope);
      if turns[n].change.Serve? {
        GuardFits(st.state.counters, turns[n].calls, RequestTenant(turns[n].change.request), scope, ceiling);
      }
    }
  }

  lemma NothingCounted(scope: Scope)
    ensures Value(EMPTY.counters, scope) == 0
  {
  }

  // ---- A retry that reserves again ----

  const QUOTA := DeploymentScope("q")
  const ONE_MORE := [Call([Reservation(QUOTA, 1, 2)], [Reservation(QUOTA, 1, 2)])]

  /** A group with a batch and a guard that reserves one. */
  function Upload(ops: seq<Op>, id: string): Request {
    AppendGroup("t", "k", "d", [Member(StreamId("t", "order", "1"), Any, [NewEvent(id, "{}")], [])], Guard(ops, false),
                [BlobWrite("b", "h", "o")], false, None)
  }

  function UploadTurn(counters: Counters, id: string): Turn {
    Turn(Serve(Upload(GuardOps(counters, ONE_MORE, "t"), id)), ONE_MORE)
  }

  lemma OneMore(counters: Counters)
    requires 0 <= Value(counters, QUOTA) <= 1
    ensures GuardDelta(counters, ONE_MORE, "t", QUOTA) == 1
  {
    var rs := ONE_MORE[0].requested;
    assert ONE_MORE[..0] == [] && rs[..0] == [];
    assert Counted(counters, GuardOps(counters, [], "t")) == counters;
    assert Fits(counters, rs[0]) && ValidOne(rs[0], "t");
    assert Accepts(counters, rs, "t");
    assert Delta(rs, QUOTA) == 1;
  }

  lemma {:induction false} AllCounters(ops: seq<Op>)
    requires forall op :: op in ops ==> op.Counter?
    ensures CounterOps(ops) == ops
  {
    if ops != [] {
      AllCounters(ops[..|ops| - 1]);
    }
  }

  lemma UploadValid(st: Store, id: string)
    requires forall p :: p in st.state.events.byPosition ==> st.state.events.byPosition[p].id != id
    ensures ValidTurn(st, UploadTurn(st.state.counters, id))
  {
    hide GuardOps, Owner, Field, RequestIds, CounterOps, AllTagged, Upload;
    var ops := GuardOps(st.state.counters, ONE_MORE, "t");
    GuardTagged(st.state.counters, ONE_MORE, "t");
    AllCounters(ops);
    UploadIds(ops, id);
    UploadShape(ops, id);
  }

  lemma UploadShape(ops: seq<Op>, id: string)
    requires forall op :: op in ops ==> op.Counter?
    ensures var r := Upload(ops, id); ValidRequest(r) && r.guard.ops == ops && RequestTenant(r) == "t"
  {
    hide Field;
  }

  lemma UploadIds(ops: seq<Op>, id: string)
    ensures RequestIds(Upload(ops, id)) == [id]
  {
    var members := Upload(ops, id).members;
    assert members[..0] == [];
    assert NewEventIds(members[0].events) == [id];
    assert MemberIds([]) == [] && MemberIds(members) == MemberIds([]) + [id];
  }

  /** Where the key is unused and nothing is bound, the upload is served. */
  lemma UploadServed(s: State, id: string)
    requires s.groups == map[] && s.blobs == map[]
    ensures var r := Upload(GuardOps(s.counters, ONE_MORE, "t"), id);
      Perform(s, r).outcome.Ok? && !Perform(s, r).outcome.value.deduplicated
  {
    hide GuardOps, Fold, Head, MemberOps, Assigned, AllQuiet;
    var ops := GuardOps(s.counters, ONE_MORE, "t");
    var r := Upload(ops, id);
    GuardTagged(s.counters, ONE_MORE, "t");
    AllQuietCounters(ops);
    QuietFold(s, ops);
    GuardBlobs(s, ops);
    var s0 := StateAfter(s, ops);
    assert r.batch[..0] == [] && Field("b");
    Unchanged(s0);
    assert BoundHash(s0, "t", "b").None?;
    assert Bind(s0, "t", r.batch).ok;
    assert r.members[..0] == [];
    assert AppendMembers(StateAfter(s, Admit(s, r).ops), r.members).Ok?;
  }

  lemma AllQuietCounters(ops: seq<Op>)
    requires forall op :: op in ops ==> op.Counter?
    ensures AllQuiet(ops)
  {
  }

  /** A group that carries a batch is admitted again when it is retried: the retry is answered, appends
      nothing, and its reservation counts a second time. */
  lemma RetryReservesAgain()
    ensures var first := UploadTurn(EMPTY.counters, "e1");
      var st := Step(NEW, first.change);
      var again := UploadTurn(st.state.counters, "e2");
      && ValidTurn(NEW, first) && ValidTurn(st, again) && Repeats(again.change.request, first.change.request)
      && Perform(st.state, again.change.request).outcome.Ok?
      && Perform(st.state, again.change.request).outcome.value.deduplicated
      && Value(st.state.counters, QUOTA) == 1 && Value(Step(st, again.change).state.counters, QUOTA) == 2
  {
    hide Sound, Step, Perform, GuardOps, GuardDelta, ValidChange, Value, ValidCalls;
    var first := UploadTurn(EMPTY.counters, "e1");
    UploadValid(NEW, "e1");
    UploadServed(EMPTY, "e1");
    NewSound();
    NothingCounted(QUOTA);
    OneMore(EMPTY.counters);
    StepSound(NEW, first.change);
    TurnCounts(NEW, first, QUOTA);
    var st := Step(NEW, first.change);
    AfterUpload();
    var again := UploadTurn(st.state.counters, "e2");
    UploadValid(st, "e2");
    OneMore(st.state.counters);
    TurnCounts(st, again, QUOTA);
  }

  /** After the upload its retry is undisputed, and the log holds only its event. */
  lemma AfterUpload()
    ensures var first := UploadTurn(EMPTY.counters, "e1").change.request;
      var s := Step(NEW, Serve(first)).state;
      var again := UploadTurn(s.counters, "e2").change.request;
      && Perform(s, again).outcome.Ok? && Perform(s, again).outcome.value.deduplicated
      && forall p :: p in s.events.byPosition ==> s.events.byPosition[p].id == "e1"
  {
    hide Perform, GuardOps, Partition, Disciplined, DistinctIds, Replay, Fold, Index.Agreed, Undisputed, Receipted, Complete;
    var r := UploadTurn(EMPTY.counters, "e1").change.request;
    UploadValid(NEW, "e1");
    UploadServed(EMPTY, "e1");
    NewSound();
    SoundAgreed(NEW);
    StepSound(NEW, Serve(r));
    var st := Step(NEW, Serve(r));
    SoundAgreed(st);
    ServedReceipt(NEW, r);
    FreshBatchHolds(EMPTY, r);
    FreshRecords(EMPTY, r);
    PerformIds(EMPTY, r);
    UploadIds(GuardOps(EMPTY.counters, ONE_MORE, "t"), "e1");
    FoldIds(EMPTY, Perform(EMPTY, r).pending);
    var again := UploadTurn(st.state.counters, "e2").change.request;
    GuardTagged(st.state.counters, ONE_MORE, "t");
    SameBatch(st.state, r, again);
    RetryAnswered(st.state, r, RangesOf(Perform(EMPTY, r).outcome.value.appends), again);
  }

  lemma SameBatch(s: State, r: Request, again: Request)
    requires r.AppendGroup? && again.AppendGroup? && again.tenant == r.tenant && again.key == r.key && again.batch == r.batch
    requires (r.tenant, r.key) in s.groups && BatchHolds(s, r) && !again.guard.refuses
    ensures Undisputed(s, again)
  {
    hide Field, Digests, Contradicts;
  }
}
