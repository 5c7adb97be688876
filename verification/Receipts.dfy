/** Receipts partition history (`lib.rs`).

    Every version of every stream is covered by exactly one recorded range, of a command or of a
    group member. Claims name recorded ranges. No request overwrites a receipt. A retry is answered
    from its receipt, appends nothing, and records only what its guard did if that was called again. */
module Receipts {
  import opened Prelude
  import opened State
  import opened Index
  import opened Rewrites
  import opened Requests

  // ---- What recording events does to a state ----

  /** Everything but rows, counters and blobs is as it was. */
  ghost predicate SameLog(a: State, b: State) {
    a == b.(rows := a.rows, counters := a.counters, blobs := a.blobs)
  }

  lemma QuietApply(s: State, op: Op)
    requires Quiet(op)
    ensures Apply(s, op).Some? && SameLog(Apply(s, op).value, s)
  {
    hide Cleared;
  }

  lemma {:induction false} QuietFold(s: State, ops: seq<Op>)
    requires AllQuiet(ops)
    ensures Fold(s, ops).Some? && SameLog(Fold(s, ops).value, s)
  {
    hide Apply, Quiet;
    if ops != [] {
      var n := |ops| - 1;
      assert AllQuiet(ops[..n]) && Quiet(ops[n]);
      QuietFold(s, ops[..n]);
      QuietApply(Fold(s, ops[..n]).value, ops[n]);
    }
  }

  /** Only events and the next position moved, and one stream's head with them. */
  ghost predicate Grew(s: State, s': State, stream: StreamId, n: nat) {
    && SameLog(s'.(events := s.events, next := s.next), s)
    && s'.next == s.next + n && Agreed(s')
    && Head(s'.events, stream) == Head(s.events, stream) + n
    && forall other :: other != stream ==> Head(s'.events, other) == Head(s.events, other)
  }

  lemma RecordOne(s: State, x: Event)
    requires Agreed(s) && x.version == Head(s.events, x.stream) + 1 && x.position == s.next + 1
    ensures Apply(s, Recorded(x)).Some? && Grew(s, Apply(s, Recorded(x)).value, x.stream, 1)
  {
    hide Coherent;
    var s' := Apply(s, Recorded(x)).value;
    ApplyAgreed(s, Recorded(x));
    var versions := VersionsOf(s'.events, x.stream);
    assert x.version in versions && forall v :: v in versions ==> v == x.version || v in VersionsOf(s.events, x.stream);
  }

  lemma GrewTwice(a: State, b: State, c: State, stream: StreamId, m: nat, n: nat)
    requires Grew(a, b, stream, m) && Grew(b, c, stream, n)
    ensures Grew(a, c, stream, m + n)
  {
    hide Agreed, Head;
  }

  lemma GrewNothing(s: State, stream: StreamId)
    requires Agreed(s)
    ensures Grew(s, s, stream, 0)
  {
    hide Agreed, Head;
  }

  lemma {:induction false} RecordMany(s: State, stream: StreamId, events: seq<NewEvent>, k: nat)
    requires Agreed(s) && k <= |events|
    ensures var ops := RecordedOps(Assigned(stream, Head(s.events, stream), s.next, events));
      Fold(s, ops[..k]).Some? && Grew(s, Fold(s, ops[..k]).value, stream, k)
  {
    hide Agreed, Head, Apply, Grew;
    var ops := RecordedOps(Assigned(stream, Head(s.events, stream), s.next, events));
    if k == 0 {
      GrewNothing(s, stream);
    } else {
      RecordMany(s, stream, events, k - 1);
      var s1 := Fold(s, ops[..k - 1]).value;
      GrewHead(s, s1, stream, k - 1);
      RecordOne(s1, ops[k - 1].event);
      assert ops[..k] == ops[..k - 1] + [ops[k - 1]];
      FoldSnoc(s, ops[..k - 1], ops[k - 1]);
      GrewTwice(s, s1, Fold(s, ops[..k]).value, stream, k - 1, 1);
    }
  }

  lemma GrewHead(s: State, s': State, stream: StreamId, n: nat)
    requires Grew(s, s', stream, n)
    ensures Agreed(s') && s'.next == s.next + n && Head(s'.events, stream) == Head(s.events, stream) + n
  {
    hide Agreed, Head;
  }

  lemma MemberFold(s: State, m: Member)
    requires Agreed(s) && ValidMember(m)
    ensures Fold(s, MemberOps(s, m)).Some? && Grew(s, Fold(s, MemberOps(s, m)).value, m.stream, |m.events|)
  {
    hide Agreed, Head, Apply, Fold, AllQuiet;
    var ops := RecordedOps(Assigned(m.stream, Head(s.events, m.stream), s.next, m.events));
    RecordMany(s, m.stream, m.events, |m.events|);
    assert ops[..|m.events|] == ops;
    var s1 := Fold(s, ops).value;
    RowsQuiet(m.derived);
    QuietFold(s1, m.derived);
    FoldConcat(s, ops, m.derived);
    QuietGrew(s, s1, Fold(s1, m.derived).value, m.stream, |m.events|);
  }

  lemma QuietGrew(s: State, s1: State, s2: State, stream: StreamId, n: nat)
    requires Grew(s, s1, stream, n) && SameLog(s2, s1)
    ensures Grew(s, s2, stream, n)
  {
    hide Coherent, Head;
  }

  // ---- The ranges of a batch ----

  ghost predicate Within(s0: State, s1: State, r: Range) {
    Head(s0.events, r.stream) < r.first <= r.last <= Head(s1.events, r.stream)
  }

  predicate Covers(r: Range, stream: StreamId, v: nat) {
    r.stream == stream && r.first <= v <= r.last
  }

  predicate Apart(a: Range, b: Range) {
    a.stream != b.stream || a.last < b.first || b.last < a.first
  }

  /** The ranges are disjoint and are exactly the versions that the batch added. */
  ghost predicate Spread(s0: State, s1: State, ranges: seq<Range>) {
    && (forall stream :: Head(s0.events, stream) <= Head(s1.events, stream))
    && (forall i :: 0 <= i < |ranges| ==> Within(s0, s1, ranges[i]))
    && (forall i, j :: 0 <= i < j < |ranges| ==> Apart(ranges[i], ranges[j]))
    && (forall stream, v :: Head(s0.events, stream) < v <= Head(s1.events, stream) ==> InSome(ranges, stream, v))
  }

  ghost predicate InSome(ranges: seq<Range>, stream: StreamId, v: nat) {
    exists i :: 0 <= i < |ranges| && Covers(ranges[i], stream, v)
  }

  lemma SpreadMore(s0: State, s1: State, s2: State, ranges: seq<Range>, m: Member)
    requires Spread(s0, s1, ranges) && Grew(s1, s2, m.stream, |m.events|) && m.events != []
    ensures Spread(s0, s2, ranges + [MemberRange(s1, m)])
  {
    hide Agreed, Head, SameLog;
    var r := MemberRange(s1, m);
    var all := ranges + [r];
    forall i, j | 0 <= i < j < |all| ensures Apart(all[i], all[j]) {
      if j == |ranges| { assert Within(s0, s1, ranges[i]); }
    }
    forall i | 0 <= i < |all| ensures Within(s0, s2, all[i]) {
      if i < |ranges| { assert Within(s0, s1, ranges[i]); }
    }
    forall stream, v | Head(s0.events, stream) < v <= Head(s2.events, stream) ensures InSome(all, stream, v) {
      if v <= Head(s1.events, stream) {
        assert InSome(ranges, stream, v);
        var i :| 0 <= i < |ranges| && Covers(ranges[i], stream, v);
        assert Covers(all[i], stream, v);
      } else {
        assert Covers(all[|ranges|], stream, v);
      }
    }
  }

  /** Only events, rows, counters and blobs moved. */
  ghost predicate KeepsReceipts(s: State, s': State) {
    SameLog(s'.(events := s.events, next := s.next), s)
  }

  lemma {:induction false} BatchSpread(s: State, members: seq<Member>)
    requires Agreed(s) && AppendMembers(s, members).Ok?
    requires forall i :: 0 <= i < |members| ==> ValidMember(members[i])
    ensures var b := AppendMembers(s, members).value;
      && Fold(s, b.ops) == Some(b.state) && Agreed(b.state) && KeepsReceipts(s, b.state)
      && |b.ranges| == |members| && Spread(s, b.state, b.ranges)
      && (forall i :: 0 <= i < |members| ==> b.ranges[i].stream == members[i].stream)
  {
    hide Agreed, Head, Grew, Spread, ValidMember, KeepsReceipts, Apply, MemberOps, Wanted;
    if members == [] {
      SpreadNothing(s);
    } else {
      var n := |members| - 1;
      BatchSpread(s, members[..n]);
      var b, m := AppendMembers(s, members[..n]).value, members[n];
      MemberFold(b.state, m);
      FoldConcat(s, b.ops, MemberOps(b.state, m));
      var s2 := Fold(b.state, MemberOps(b.state, m)).value;
      GrewHead(b.state, s2, m.stream, |m.events|);
      MemberNotEmpty(m);
      SpreadMore(s, b.state, s2, b.ranges, m);
      GrewKeeps(s, b.state, s2, m.stream, |m.events|);
    }
  }

  lemma MemberNotEmpty(m: Member)
    requires ValidMember(m)
    ensures m.events != []
  {
  }

  lemma SpreadNothing(s: State)
    ensures Spread(s, s, []) && KeepsReceipts(s, s)
  {
    hide Head;
  }

  lemma GrewKeeps(s: State, s1: State, s2: State, stream: StreamId, n: nat)
    requires KeepsReceipts(s, s1) && Grew(s1, s2, stream, n)
    ensures KeepsReceipts(s, s2)
  {
    hide Agreed, Head;
  }

  // ---- The partition ----

  /** Where a range is recorded: by a command, or by one member of a group. */
  datatype Slot = CommandSlot(stream: StreamId, key: string) | GroupSlot(tenant: Tenant, key: string, index: nat)
  {
    function Owner(): Tenant {
      if CommandSlot? then stream.tenant else tenant
    }
  }

  predicate Has(s: State, slot: Slot) {
    match slot
    case CommandSlot(stream, key) => (stream, key) in s.commands
    case GroupSlot(t, key, i) => (t, key) in s.groups && i < |s.groups[(t, key)].ranges|
  }

  function At(s: State, slot: Slot): Range
    requires Has(s, slot)
  {
    match slot
    case CommandSlot(stream, key) => s.commands[(stream, key)].range
    case GroupSlot(t, key, i) => s.groups[(t, key)].ranges[i]
  }

  /** A recorded range is a nonempty run of versions that its stream has. */
  ghost predicate Sane(s: State, slot: Slot)
    requires Has(s, slot)
  {
    var r := At(s, slot);
    && 1 <= r.first <= r.last <= Head(s.events, r.stream) && r.stream.tenant == slot.Owner()
    && (slot.CommandSlot? ==> r.stream == slot.stream)
  }

  ghost predicate SlotCovers(s: State, slot: Slot, stream: StreamId, v: nat) {
    Has(s, slot) && Covers(At(s, slot), stream, v)
  }

  ghost predicate Accounted(s: State, stream: StreamId, v: nat) {
    exists slot :: SlotCovers(s, slot, stream, v)
  }

  /** A claim names a range that a command of the same tenant recorded. */
  ghost predicate ClaimBacked(s: State, k: (Tenant, string, string))
    requires k in s.claims
  {
    var r := s.claims[k].range;
    r.stream.tenant == k.0 && exists key :: (r.stream, key) in s.commands && s.commands[(r.stream, key)].range == r
  }

  /** Recorded ranges are disjoint and cover exactly 1..head of every stream. */
  ghost predicate Partition(s: State) {
    && (forall slot :: Has(s, slot) ==> Sane(s, slot))
    && (forall a, b :: Has(s, a) && Has(s, b) && a != b ==> Apart(At(s, a), At(s, b)))
    && (forall stream, v :: 1 <= v <= Head(s.events, stream) ==> Accounted(s, stream, v))
    && (forall k :: k in s.claims ==> ClaimBacked(s, k))
  }

  /** Every receipt of `s` is still there, unchanged. */
  ghost predicate Retains(s: State, s': State) {
    && (forall k :: k in s.commands ==> k in s'.commands && s'.commands[k] == s.commands[k])
    && (forall k :: k in s.groups ==> k in s'.groups && s'.groups[k] == s.groups[k])
    && (forall k :: k in s.claims ==> k in s'.claims && s'.claims[k] == s.claims[k])
  }

  ghost predicate Placed(s: State, slot: Slot, r: Range) {
    && Has(s, slot) && At(s, slot) == r && slot.Owner() == r.stream.tenant
    && (slot.CommandSlot? ==> slot.stream == r.stream)
  }

  /** The slots that a request adds, in the order of its ranges. */
  ghost predicate Adds(s: State, s': State, slots: seq<Slot>, ranges: seq<Range>) {
    && |slots| == |ranges|
    && (forall i :: 0 <= i < |slots| ==> Placed(s', slots[i], ranges[i]))
    && (forall slot :: Has(s', slot) ==> slot in slots || (Has(s, slot) && At(s', slot) == At(s, slot)))
    && (forall i, j :: 0 <= i < j < |slots| ==> slots[i] != slots[j])
  }

  /** Recording the ranges of a batch that spread over new versions keeps the partition. */
  lemma AddsPartition(s: State, s': State, slots: seq<Slot>, ranges: seq<Range>)
    requires Partition(s) && Spread(s, s', ranges) && Adds(s, s', slots, ranges) && Retains(s, s')
    requires forall k :: k in s'.claims ==> k in s.claims || ClaimBacked(s', k)
    ensures Partition(s')
  {
    hide Head;
    forall slot | Has(s', slot) ensures Sane(s', slot) {
      AddedSane(s, s', slots, ranges, slot);
    }
    forall a, b | Has(s', a) && Has(s', b) && a != b ensures Apart(At(s', a), At(s', b)) {
      AddedApart(s, s', slots, ranges, a, b);
    }
    forall stream, v | 1 <= v <= Head(s'.events, stream) ensures Accounted(s', stream, v) {
      AddedAccounted(s, s', slots, ranges, stream, v);
    }
    forall k | k in s'.claims ensures ClaimBacked(s', k) {
      if k in s.claims {
        assert ClaimBacked(s, k);
        var r := s.claims[k].range;
        var key :| (r.stream, key) in s.commands && s.commands[(r.stream, key)].range == r;
        assert (r.stream, key) in s'.commands && s'.commands[(r.stream, key)].range == r;
      }
    }
  }

  lemma AddedSane(s: State, s': State, slots: seq<Slot>, ranges: seq<Range>, slot: Slot)
    requires Partition(s) && Spread(s, s', ranges) && Adds(s, s', slots, ranges) && Has(s', slot)
    ensures Sane(s', slot)
  {
    hide Head;
    if slot in slots {
      var i :| 0 <= i < |slots| && slots[i] == slot;
      assert Within(s, s', ranges[i]) && Placed(s', slot, ranges[i]);
    } else {
      assert Sane(s, slot);
    }
  }

  lemma AddedApart(s: State, s': State, slots: seq<Slot>, ranges: seq<Range>, a: Slot, b: Slot)
    requires Partition(s) && Spread(s, s', ranges) && Adds(s, s', slots, ranges)
    requires Has(s', a) && Has(s', b) && a != b
    ensures Apart(At(s', a), At(s', b))
  {
    hide Head;
    if a in slots {
      var i :| 0 <= i < |slots| && slots[i] == a;
      assert Within(s, s', ranges[i]) && Placed(s', a, ranges[i]);
      if b in slots {
        var j :| 0 <= j < |slots| && slots[j] == b;
        assert Placed(s', b, ranges[j]);
        if i < j { assert Apart(ranges[i], ranges[j]); } else { assert Apart(ranges[j], ranges[i]); }
      } else {
        assert Sane(s, b);
      }
    } else {
      assert Sane(s, a);
      if b in slots {
        var j :| 0 <= j < |slots| && slots[j] == b;
        assert Within(s, s', ranges[j]) && Placed(s', b, ranges[j]);
      }
    }
  }

  lemma AddedAccounted(s: State, s': State, slots: seq<Slot>, ranges: seq<Range>, stream: StreamId, v: nat)
    requires Partition(s) && Spread(s, s', ranges) && Adds(s, s', slots, ranges) && Retains(s, s')
    requires 1 <= v <= Head(s'.events, stream)
    ensures Accounted(s', stream, v)
  {
    hide Head;
    if v <= Head(s.events, stream) {
      assert Accounted(s, stream, v);
      var slot :| SlotCovers(s, slot, stream, v);
      assert SlotCovers(s', slot, stream, v);
    } else {
      assert InSome(ranges, stream, v);
      var i :| 0 <= i < |ranges| && Covers(ranges[i], stream, v);
      assert Placed(s', slots[i], ranges[i]);
      assert SlotCovers(s', slots[i], stream, v);
    }
  }

  // ---- Requests keep the partition ----

  /** The partition depends on the receipts and the stream index alone. */
  lemma PartitionCarries(s: State, s': State)
    requires Partition(s) && s'.commands == s.commands && s'.claims == s.claims && s'.groups == s.groups
    requires s'.events.byStream == s.events.byStream
    ensures Partition(s')
  {
    hide Largest;
    assert forall stream :: Head(s'.events, stream) == Head(s.events, stream);
    assert forall slot :: Has(s', slot) <==> Has(s, slot);
    assert forall slot :: Has(s', slot) ==> Has(s, slot) && At(s', slot) == At(s, slot) && (Sane(s, slot) ==> Sane(s', slot));
    forall stream, v | 1 <= v <= Head(s'.events, stream) ensures Accounted(s', stream, v) {
      assert Accounted(s, stream, v);
      var slot :| SlotCovers(s, slot, stream, v);
      assert SlotCovers(s', slot, stream, v);
    }
    forall k | k in s'.claims ensures ClaimBacked(s', k) {
      assert ClaimBacked(s, k);
    }
  }

  lemma ErasedHas(s: State, t: Tenant, slot: Slot)
    ensures Has(Erased(s, t), slot) <==> Has(s, slot) && slot.Owner() != t
    ensures Has(Erased(s, t), slot) ==> At(Erased(s, t), slot) == At(s, slot)
  {
    hide ErasedLog, ErasedDirty, CounterOf;
  }

  lemma ErasedHeads(s: State, t: Tenant, stream: StreamId)
    ensures Head(Erased(s, t).events, stream) == if stream.tenant == t then 0 else Head(s.events, stream)
  {
    hide ErasedLog, ErasedDirty, CounterOf;
  }

  /** Erasing a tenant takes its receipts with its streams. */
  lemma ErasedPartition(s: State, t: Tenant)
    requires Partition(s)
    ensures Partition(Erased(s, t))
  {
    hide Erased, Head;
    var e := Erased(s, t);
    forall slot | Has(e, slot) ensures Sane(e, slot) {
      ErasedHas(s, t, slot);
      assert Sane(s, slot);
      ErasedHeads(s, t, At(e, slot).stream);
    }
    forall a, b | Has(e, a) && Has(e, b) && a != b ensures Apart(At(e, a), At(e, b)) {
      ErasedHas(s, t, a);
      ErasedHas(s, t, b);
    }
    forall stream, v | 1 <= v <= Head(e.events, stream) ensures Accounted(e, stream, v) {
      ErasedHeads(s, t, stream);
      assert Accounted(s, stream, v);
      var slot :| SlotCovers(s, slot, stream, v);
      assert Sane(s, slot);
      ErasedHas(s, t, slot);
      assert SlotCovers(e, slot, stream, v);
    }
    forall k | k in e.claims ensures ClaimBacked(e, k) {
      ErasedClaim(s, t, k);
    }
  }

  lemma ErasedClaim(s: State, t: Tenant, k: (Tenant, string, string))
    requires Partition(s) && k in Erased(s, t).claims
    ensures ClaimBacked(Erased(s, t), k)
  {
    hide ErasedLog, ErasedDirty, CounterOf, Head;
    assert k in s.claims && k.0 != t && ClaimBacked(s, k);
    var r := s.claims[k].range;
    var key :| (r.stream, key) in s.commands && s.commands[(r.stream, key)].range == r;
    assert (r.stream, key) in Erased(s, t).commands && Erased(s, t).commands[(r.stream, key)].range == r;
  }

  /** Recording a command, and its claim if there is one, after its events. */
  function WithCommand(s: State, m: Member, range: Range, key: string, digest: string, claim: Option<ClaimId>): State {
    var c := s.(commands := s.commands[(m.stream, key) := Receipt(digest, range)]);
    if claim.None? then c
    else c.(claims := c.claims[(m.stream.tenant, claim.value.scope, claim.value.key) := Receipt(claim.value.digest, range)])
  }

  lemma CommandFold(s: State, m: Member, range: Range, key: string, digest: string, claim: Option<ClaimId>)
    requires range.stream == m.stream
    ensures Fold(s, [Command(m.stream, key, digest, range.first, range.last)] + ClaimOps(m, range, claim))
         == Some(WithCommand(s, m, range, key, digest, claim))
  {
    hide Fold, Apply;
    var op := Command(m.stream, key, digest, range.first, range.last);
    FoldNothing(s);
    FoldSnoc(s, [], op);
    CommandApplied(s, m.stream, key, digest, range);
    assert [] + [op] == [op];
    if claim.Some? {
      var c := s.(commands := s.commands[(m.stream, key) := Receipt(digest, range)]);
      FoldSnoc(s, [op], ClaimOps(m, range, claim)[0]);
      ClaimApplied(c, m.stream.tenant, claim.value, range);
    } else {
      assert [op] + [] == [op];
    }
  }

  lemma FoldNothing(s: State)
    ensures Fold(s, []) == Some(s)
  {
  }

  lemma CommandApplied(s: State, stream: StreamId, key: string, digest: string, range: Range)
    requires range.stream == stream
    ensures Apply(s, Command(stream, key, digest, range.first, range.last))
         == Some(s.(commands := s.commands[(stream, key) := Receipt(digest, range)]))
  {
  }

  lemma ClaimApplied(s: State, t: Tenant, claim: ClaimId, range: Range)
    ensures Apply(s, Claim(t, claim.scope, claim.key, claim.digest, range))
         == Some(s.(claims := s.claims[(t, claim.scope, claim.key) := Receipt(claim.digest, range)]))
  {
  }

  lemma CommandPartition(s: State, s1: State, m: Member, range: Range, key: string, digest: string, claim: Option<ClaimId>)
    requires Partition(s) && Spread(s, s1, [range]) && KeepsReceipts(s, s1) && range.stream == m.stream
    requires (m.stream, key) !in s.commands
    requires claim.Some? ==> (m.stream.tenant, claim.value.scope, claim.value.key) !in s.claims
    ensures Partition(WithCommand(s1, m, range, key, digest, claim))
    ensures Retains(s, WithCommand(s1, m, range, key, digest, claim))
  {
    hide Head, Spread, Partition, Adds, Retains, ClaimBacked;
    var s' := WithCommand(s1, m, range, key, digest, claim);
    var slot := CommandSlot(m.stream, key);
    CommandAdds(s, s1, m, range, key, digest, claim);
    SpreadSame(s, s1, s', [range]);
    CommandKeeps(s, s1, m, range, key, digest, claim);
    AddsPartition(s, s', [slot], [range]);
  }

  /** The receipts that were there, and what backs the new claim. */
  lemma CommandKeeps(s: State, s1: State, m: Member, range: Range, key: string, digest: string, claim: Option<ClaimId>)
    requires KeepsReceipts(s, s1) && range.stream == m.stream && (m.stream, key) !in s.commands
    requires claim.Some? ==> (m.stream.tenant, claim.value.scope, claim.value.key) !in s.claims
    ensures var s' := WithCommand(s1, m, range, key, digest, claim);
      Retains(s, s') && forall k :: k in s'.claims ==> k in s.claims || ClaimBacked(s', k)
  {
    var s' := WithCommand(s1, m, range, key, digest, claim);
    forall k | k in s'.claims && k !in s.claims ensures ClaimBacked(s', k) {
      assert (m.stream, key) in s'.commands && s'.commands[(m.stream, key)].range == range;
    }
  }

  lemma CommandAdds(s: State, s1: State, m: Member, range: Range, key: string, digest: string, claim: Option<ClaimId>)
    requires KeepsReceipts(s, s1) && range.stream == m.stream
    ensures Adds(s, WithCommand(s1, m, range, key, digest, claim), [CommandSlot(m.stream, key)], [range])
  {
    var s' := WithCommand(s1, m, range, key, digest, claim);
    assert Placed(s', CommandSlot(m.stream, key), range);
  }

  lemma SpreadSame(s: State, s1: State, s2: State, ranges: seq<Range>)
    requires Spread(s, s1, ranges) && s2.events == s1.events
    ensures Spread(s, s2, ranges)
  {
    hide Head;
    assert forall i :: 0 <= i < |ranges| ==> Within(s, s1, ranges[i]) ==> Within(s, s2, ranges[i]);
  }

  function WithGroup(s: State, t: Tenant, key: string, digest: string, ranges: seq<Range>, blobs: set<string>): State {
    s.(groups := s.groups[(t, key) := GroupReceipt(digest, ranges, blobs)])
  }

  function GroupSlots(t: Tenant, key: string, n: nat): (r: seq<Slot>)
    ensures |r| == n && forall i :: 0 <= i < n ==> r[i] == GroupSlot(t, key, i)
  {
    seq(n, i requires 0 <= i < n => GroupSlot(t, key, i))
  }

  lemma GroupPartition(s: State, s1: State, t: Tenant, key: string, digest: string, ranges: seq<Range>, blobs: set<string>)
    requires Partition(s) && Spread(s, s1, ranges) && KeepsReceipts(s, s1) && (t, key) !in s.groups
    requires forall i :: 0 <= i < |ranges| ==> ranges[i].stream.tenant == t
    ensures Partition(WithGroup(s1, t, key, digest, ranges, blobs))
    ensures Retains(s, WithGroup(s1, t, key, digest, ranges, blobs))
  {
    hide Head, Spread, Partition;
    var s' := WithGroup(s1, t, key, digest, ranges, blobs);
    var slots := GroupSlots(t, key, |ranges|);
    assert forall i :: 0 <= i < |slots| ==> Placed(s', slots[i], ranges[i]);
    forall slot | Has(s', slot) ensures slot in slots || (Has(s, slot) && At(s', slot) == At(s, slot)) {
      if slot.GroupSlot? && slot.tenant == t && slot.key == key {
        assert slot == slots[slot.index];
      }
    }
    assert Adds(s, s', slots, ranges);
    SpreadSame(s, s1, s', ranges);
    AddsPartition(s, s', slots, ranges);
  }

  lemma Admitted(s: State, admission: seq<Op>)
    requires Agreed(s) && Partition(s) && AllQuiet(admission)
    ensures var s1 := StateAfter(s, admission);
      Fold(s, admission) == Some(s1) && Agreed(s1) && Partition(s1) && SameLog(s1, s)
  {
    hide Agreed, Partition, Fold, SameLog;
    QuietFold(s, admission);
    FoldAgreed(s, admission);
    SameReceipts(Fold(s, admission).value, s);
    PartitionCarries(s, Fold(s, admission).value);
  }

  /** What holds between the states before and after a request that was not refused. */
  ghost predicate Serves(s: State, r: Request) {
    var w := Perform(s, r);
    && Fold(s, w.pending).Some?
    && var s' := Fold(s, w.pending).value; Agreed(s') && Partition(s') && Retains(s, s')
  }

  /** A request that is not a retry uses keys that no receipt has. */
  lemma FreshUnused(s: State, r: Request)
    requires Perform(s, r).outcome.Ok? && !Perform(s, r).outcome.value.deduplicated
    ensures r.Append? ==> (r.member.stream, r.key) !in s.commands
    ensures r.Append? && r.claim.Some? ==> (r.member.stream.tenant, r.claim.value.scope, r.claim.value.key) !in s.claims
    ensures r.AppendGroup? ==> (r.tenant, r.key) !in s.groups
  {
    hide PerformNew, Objection, StateAfter, RecallAll, Check;
  }

  /** A new append ends in the batch's state with its receipts recorded. */
  lemma AppendEnds(s: State, r: Request)
    requires Agreed(s) && Partition(s) && ValidRequest(r) && r.Append?
    requires Perform(s, r).outcome.Ok? && !Perform(s, r).outcome.value.deduplicated
    ensures AppendMembers(StateAfter(s, Admit(s, r).ops), [r.member]).Ok?
    ensures var b := AppendMembers(StateAfter(s, Admit(s, r).ops), [r.member]).value;
      && |b.ranges| == 1 && b.ranges[0].stream == r.member.stream
      && Perform(s, r).outcome.value.appends == b.results
      && Fold(s, Perform(s, r).pending) == Some(WithCommand(b.state, r.member, b.ranges[0], r.key, r.digest, r.claim))
  {
    hide Agreed, Partition, Fold, SameLog, KeepsReceipts, Spread, AppendMembers, AllQuiet, Apply, Perform, Admit;
    var admission := Admit(s, r).ops;
    PerformShape(s, r);
    AdmitQuiet(s, r);
    var s1, members := StateAfter(s, admission), [r.member];
    Admitted(s, admission);
    BatchSpread(s1, members);
    var b := AppendMembers(s1, members).value;
    assert b.ranges[0].stream == members[0].stream;
    CommandFold(b.state, r.member, b.ranges[0], r.key, r.digest, r.claim);
    FoldConcat(s, admission, b.ops);
    FoldConcat(s, admission + b.ops, ReceiptOps(r, b.ranges));
  }

  /** A new append extends its stream and records the range it wrote. */
  lemma AppendServes(s: State, r: Request)
    requires Agreed(s) && Partition(s) && ValidRequest(r) && r.Append?
    requires Perform(s, r).outcome.Ok? && !Perform(s, r).outcome.value.deduplicated
    ensures Serves(s, r)
  {
    hide Agreed, Partition, Fold, SameLog, KeepsReceipts, Spread, AppendMembers, AllQuiet, Retains, Apply, Perform, Admit;
    var s1, members := StateAfter(s, Admit(s, r).ops), [r.member];
    AdmitQuiet(s, r);
    Admitted(s, Admit(s, r).ops);
    FreshUnused(s, r);
    AppendEnds(s, r);
    BatchSpread(s1, members);
    var b := AppendMembers(s1, members).value;
    var range := b.ranges[0];
    assert b.ranges == [range];
    SameReceipts(s1, s);
    CommandPartition(s1, b.state, r.member, range, r.key, r.digest, r.claim);
    var s' := WithCommand(b.state, r.member, range, r.key, r.digest, r.claim);
    AgreedSame(b.state, s');
    RetainsSame(s, s1, s');
  }

  lemma SameReceipts(a: State, b: State)
    requires SameLog(a, b)
    ensures a.commands == b.commands && a.claims == b.claims && a.groups == b.groups && a.events == b.events && a.next == b.next
  {
  }

  lemma AgreedSame(a: State, b: State)
    requires Agreed(a) && b.events == a.events && b.next == a.next
    ensures Agreed(b)
  {
    hide Coherent;
  }

  lemma RetainsSame(s: State, s1: State, s2: State)
    requires SameLog(s1, s) && Retains(s1, s2)
    ensures Retains(s, s2)
  {
  }

  /** A new group ends in the batch's state with its receipt recorded. */
  lemma GroupEnds(s: State, r: Request)
    requires Agreed(s) && Partition(s) && ValidRequest(r) && r.AppendGroup?
    requires Perform(s, r).outcome.Ok? && !Perform(s, r).outcome.value.deduplicated
    ensures AppendMembers(StateAfter(s, Admit(s, r).ops), r.members).Ok?
    ensures var b := AppendMembers(StateAfter(s, Admit(s, r).ops), r.members).value;
      && Perform(s, r).outcome.value.appends == b.results
      && Fold(s, Perform(s, r).pending) == Some(WithGroup(b.state, r.tenant, r.key, r.digest, b.ranges, Digests(r.batch)))
  {
    hide Agreed, Partition, Fold, SameLog, KeepsReceipts, Spread, AppendMembers, AllQuiet, Apply, ValidMember, Perform, Admit, Digests;
    var admission := Admit(s, r).ops;
    PerformShape(s, r);
    AdmitQuiet(s, r);
    var s1 := StateAfter(s, admission);
    Admitted(s, admission);
    BatchSpread(s1, r.members);
    var b := AppendMembers(s1, r.members).value;
    FoldConcat(s, admission, b.ops);
    FoldSnoc(s, admission + b.ops, Group(r.tenant, r.key, r.digest, b.ranges, Digests(r.batch)));
    GroupApplied(b.state, r.tenant, r.key, r.digest, b.ranges, Digests(r.batch));
  }

  lemma GroupApplied(s: State, t: Tenant, key: string, digest: string, ranges: seq<Range>, blobs: set<string>)
    ensures Apply(s, Group(t, key, digest, ranges, blobs)) == Some(WithGroup(s, t, key, digest, ranges, blobs))
  {
  }

  /** A new group extends each member's stream and records every range under one receipt. */
  lemma GroupServes(s: State, r: Request)
    requires Agreed(s) && Partition(s) && ValidRequest(r) && r.AppendGroup?
    requires Perform(s, r).outcome.Ok? && !Perform(s, r).outcome.value.deduplicated
    ensures Serves(s, r)
  {
    hide Agreed, Partition, Fold, SameLog, KeepsReceipts, Spread, AppendMembers, AllQuiet, Retains, ValidMember, Apply;
    hide Perform, Admit, Digests;
    var s1 := StateAfter(s, Admit(s, r).ops);
    AdmitQuiet(s, r);
    Admitted(s, Admit(s, r).ops);
    FreshUnused(s, r);
    GroupEnds(s, r);
    BatchSpread(s1, r.members);
    var b := AppendMembers(s1, r.members).value;
    SameReceipts(s1, s);
    GroupPartition(s1, b.state, r.tenant, r.key, r.digest, b.ranges, Digests(r.batch));
    var s' := WithGroup(b.state, r.tenant, r.key, r.digest, b.ranges, Digests(r.batch));
    AgreedSame(b.state, s');
    RetainsSame(s, s1, s');
  }

  /** Every request that is not refused keeps the indexes and the partition, and overwrites nothing. */
  lemma RequestServes(s: State, r: Request)
    requires Agreed(s) && Partition(s) && ValidRequest(r) && Perform(s, r).outcome.Ok?
    ensures Serves(s, r)
  {
    hide Agreed, Partition, AppendMembers, ValidRequest, Perform, Fold, AllQuiet;
    if !Perform(s, r).outcome.value.deduplicated {
      if r.Append? { AppendServes(s, r); } else { GroupServes(s, r); }
    } else {
      RetryShape(s, r);
      AdmitQuiet(s, r);
      Admitted(s, RetryOps(r));
      SameReceipts(StateAfter(s, RetryOps(r)), s);
    }
  }

  // ---- Retries ----

  /** The request is recorded under its digest with these ranges. */
  ghost predicate Receipted(s: State, r: Request, ranges: seq<Range>) {
    match r
    case Append(m, key, digest, claim, _) =>
      && |ranges| == 1
      && (m.stream, key) in s.commands && s.commands[(m.stream, key)] == Receipt(digest, ranges[0])
      && (claim.Some? ==>
            var k := (m.stream.tenant, claim.value.scope, claim.value.key);
            k in s.claims && s.claims[k] == Receipt(claim.value.digest, ranges[0]))
    case AppendGroup(t, key, digest, _, _, _, _, _) =>
      (t, key) in s.groups && s.groups[(t, key)].digest == digest && s.groups[(t, key)].ranges == ranges
  }

  /** The same request again, whatever its guard does this time: for a group also the batch-bearing
      form of what the atomic entry recorded. */
  predicate Repeats(again: Request, r: Request) {
    match r
    case Append(m, key, digest, claim, _) =>
      again.Append? && again.member.stream == m.stream && again.key == key && again.digest == digest && again.claim == claim
    case AppendGroup(t, key, digest, _, _, _, _, _) =>
      && again.AppendGroup? && again.tenant == t && again.key == key
      && (again.digest == digest || (!again.atomic && again.fingerprint == Some(digest)))
  }

  function RangesOf(results: seq<AppendResult>): (r: seq<Range>)
    ensures |r| == |results| && forall i :: 0 <= i < |r| ==> r[i] == results[i].range
  {
    seq(|results|, i requires 0 <= i < |results| => results[i].range)
  }

  lemma {:induction false} BatchResults(s: State, members: seq<Member>)
    requires AppendMembers(s, members).Ok?
    ensures var b := AppendMembers(s, members).value; RangesOf(b.results) == b.ranges
  {
    hide MemberOps, Check, Assigned, Head;
    if members != [] {
      BatchResults(s, members[..|members| - 1]);
    }
  }

  /** A request that recorded something left a receipt for exactly what it answered. */
  lemma FreshIsReceipted(s: State, r: Request)
    requires Agreed(s) && Partition(s) && ValidRequest(r)
    requires Perform(s, r).outcome.Ok? && !Perform(s, r).outcome.value.deduplicated
    ensures Fold(s, Perform(s, r).pending).Some?
    ensures Receipted(Fold(s, Perform(s, r).pending).value, r, RangesOf(Perform(s, r).outcome.value.appends))
  {
    hide Agreed, Partition, Fold, AppendMembers, AllQuiet, Apply, ValidMember, Perform, Admit, Digests;
    var s1 := StateAfter(s, Admit(s, r).ops);
    if r.Append? {
      AppendEnds(s, r);
      BatchResults(s1, [r.member]);
    } else {
      GroupEnds(s, r);
      BatchResults(s1, r.members);
    }
  }

  /** A guard's rows and counters leave the log, the receipts and the bindings alone. */
  lemma RetryKeeps(s: State, r: Request)
    requires ValidRequest(r)
    ensures Fold(s, RetryOps(r)) == Some(StateAfter(s, RetryOps(r)))
    ensures SameLog(StateAfter(s, RetryOps(r)), s) && StateAfter(s, RetryOps(r)).blobs == s.blobs
  {
    hide Fold, SameLog, AllQuiet, Admit;
    AdmitQuiet(s, r);
    QuietFold(s, RetryOps(r));
    GuardBlobs(s, RetryOps(r));
  }

  lemma {:induction false} GuardBlobs(s: State, ops: seq<Op>)
    requires Fold(s, ops).Some? && forall op :: op in ops ==> !op.Blob?
    ensures Fold(s, ops).value.blobs == s.blobs
  {
    hide Apply;
    if ops != [] {
      var n := |ops| - 1;
      GuardBlobs(s, ops[..n]);
      GuardBlob(Fold(s, ops[..n]).value, ops[n]);
    }
  }

  lemma GuardBlob(s: State, op: Op)
    requires Apply(s, op).Some? && !op.Blob?
    ensures Apply(s, op).value.blobs == s.blobs
  {
    hide Head, Insert, Cleared;
  }

  /** The batch of a retry is the recorded one, and whatever of it is still bound has its content. */
  ghost predicate BatchHolds(s: State, r: Request)
    requires r.AppendGroup? && (r.tenant, r.key) in s.groups
  {
    && (forall i :: 0 <= i < |r.batch| ==> Field(r.batch[i].digest))
    && Digests(r.batch) == s.groups[(r.tenant, r.key)].blobs
    && (forall i :: 0 <= i < |r.batch| ==> !Contradicts(s, r.tenant, r.batch[i]))
  }

  /** When a recorded request is answered. Only a group that carries a batch can be refused: by its
      guard, which is called again, or for a batch that is not the recorded one. */
  ghost predicate Undisputed(s: State, r: Request)
    requires r.AppendGroup? ==> (r.tenant, r.key) in s.groups
  {
    r.Append? || r.atomic || r.batch == []
    || (!r.guard.refuses && (s.groups[(r.tenant, r.key)].digest != r.digest || BatchHolds(s, r)))
  }

  lemma ObjectionMeans(s: State, r: Request)
    requires ValidRequest(r) && r.AppendGroup? && (r.tenant, r.key) in s.groups
    requires var recorded := s.groups[(r.tenant, r.key)].digest;
      recorded == r.digest || (!r.atomic && r.fingerprint == Some(recorded))
    ensures Objection(s, r, s.groups[(r.tenant, r.key)]).None? <==> Undisputed(s, r)
  {
    hide Field, SameLog, Fold, StateAfter, Digests;
    RetryKeeps(s, r);
    var s' := StateAfter(s, RetryOps(r));
    assert forall i :: 0 <= i < |r.batch| ==> Contradicts(s', r.tenant, r.batch[i]) == Contradicts(s, r.tenant, r.batch[i]);
  }

  /** A retry appends no event and overwrites no receipt. It records what its guard did if it carries a
      batch outside the atomic entry, and nothing otherwise. It is answered exactly when undisputed, and
      then with the recorded ranges, each with the events that hold its versions now: one per version,
      in order. */
  lemma RetryAnswered(s: State, first: Request, ranges: seq<Range>, r: Request)
    requires Agreed(s) && Partition(s) && ValidRequest(r) && Receipted(s, first, ranges) && Repeats(r, first)
    ensures r.AppendGroup? ==> (r.tenant, r.key) in s.groups
    ensures Perform(s, r).pending == RetryOps(r)
    ensures Fold(s, RetryOps(r)).Some? && SameLog(Fold(s, RetryOps(r)).value, s)
    ensures Perform(s, r).outcome.Ok? <==> Undisputed(s, r)
    ensures Perform(s, r).outcome.Ok? ==> Perform(s, r).outcome.value == Answer(RecallAll(s, ranges), true)
    ensures forall i :: 0 <= i < |ranges| ==> Complete(s, ranges[i])
  {
    hide Agreed, Head, Fold, SameLog, OfStream, Objection, Undisputed, PerformNew, ValidRequest;
    RetryKeeps(s, r);
    SameReceipts(StateAfter(s, RetryOps(r)), s);
    SameRecall(s, StateAfter(s, RetryOps(r)), ranges);
    if r.Append? {
      assert Undisputed(s, r) by { AppendUndisputed(s, r); }
      var slot := CommandSlot(r.member.stream, r.key);
      assert Has(s, slot) && Sane(s, slot) && ranges == [ranges[0]];
      FoldNothing(s);
      RecallComplete(s, ranges[0]);
    } else {
      ObjectionMeans(s, r);
      forall i | 0 <= i < |ranges| ensures Complete(s, ranges[i]) {
        var slot := GroupSlot(r.tenant, r.key, i);
        assert Has(s, slot) && Sane(s, slot);
        RecallComplete(s, ranges[i]);
      }
    }
  }

  /** A group that was just served would be answered again with its own batch, unless its guard refuses. */
  lemma FreshBatchHolds(s: State, r: Request)
    requires Agreed(s) && Partition(s) && ValidRequest(r) && r.AppendGroup? && !r.atomic
    requires Perform(s, r).outcome.Ok? && !Perform(s, r).outcome.value.deduplicated
    ensures Fold(s, Perform(s, r).pending).Some?
    ensures var s' := Fold(s, Perform(s, r).pending).value; (r.tenant, r.key) in s'.groups && BatchHolds(s', r)
  {
    hide Agreed, Partition, Fold, Perform, AppendMembers, AllQuiet, ValidMember, Digests, Field, Bind, BoundHash;
    GroupEnds(s, r);
    PerformShape(s, r);
    var s0 := StateAfter(s, r.guard.ops);
    var admission, bound := Admit(s, r).ops, Bind(s0, r.tenant, r.batch);
    AdmitQuiet(s, r);
    GuardIsQuiet(r);
    Admitted(s, r.guard.ops);
    Admitted(s, admission);
    FoldConcat(s, r.guard.ops, bound.ops);
    BindExact(s0, r.tenant, r.batch);
    var s1 := StateAfter(s, admission);
    assert s1 == StateAfter(s0, bound.ops);
    var b := AppendMembers(s1, r.members).value;
    BatchSpread(s1, r.members);
    BatchBlobs(s1, r.members);
    GuardBlobs(s1, b.ops);
    forall i | 0 <= i < |r.batch| ensures BoundHash(b.state, r.tenant, r.batch[i].digest) == Some(r.batch[i].hash) {
      SameBound(s1, b.state, r.tenant, r.batch[i].digest);
    }
    var s' := WithGroup(b.state, r.tenant, r.key, r.digest, b.ranges, Digests(r.batch));
    forall i | 0 <= i < |r.batch| ensures !Contradicts(s', r.tenant, r.batch[i]) {
      SameBound(b.state, s', r.tenant, r.batch[i].digest);
    }
  }

  lemma GuardIsQuiet(r: Request)
    requires ValidRequest(r)
    ensures AllQuiet(r.guard.ops)
  {
  }

  lemma SameBound(s: State, s': State, tenant: Tenant, digest: string)
    requires s'.blobs == s.blobs
    ensures BoundHash(s', tenant, digest) == BoundHash(s, tenant, digest)
  {
  }

  lemma {:induction false} BatchBlobs(s: State, members: seq<Member>)
    requires AppendMembers(s, members).Ok? && forall i :: 0 <= i < |members| ==> ValidMember(members[i])
    ensures forall op :: op in AppendMembers(s, members).value.ops ==> !op.Blob?
  {
    hide Check, StateAfter, Assigned, Head;
    if members != [] {
      BatchBlobs(s, members[..|members| - 1]);
    }
  }

  lemma AppendUndisputed(s: State, r: Request)
    requires r.Append?
    ensures Undisputed(s, r)
  {
  }

  lemma SameRecall(s: State, s': State, ranges: seq<Range>)
    requires s'.events == s.events
    ensures RecallAll(s', ranges) == RecallAll(s, ranges)
  {
    hide OfStream;
  }

  /** An answered retry records nothing if and only if its guard was not called or recorded nothing. */
  lemma RetryRecordsNothing(s: State, r: Request)
    requires Perform(s, r).outcome.Ok? && Perform(s, r).outcome.value.deduplicated
    ensures Perform(s, r).pending == [] <==> r.Append? || r.atomic || r.batch == [] || r.guard.ops == []
  {
    hide Perform;
    RetryShape(s, r);
  }

  ghost predicate Complete(s: State, range: Range) {
    var events := Recall(s, range).events;
    && |events| == range.last - range.first + 1
    && forall i :: 0 <= i < |events| ==> events[i].version == range.first + i && events[i].stream == range.stream
  }

  lemma RecallComplete(s: State, range: Range)
    requires Agreed(s) && 1 <= range.first <= range.last <= Head(s.events, range.stream)
    ensures Complete(s, range)
  {
    hide Agreed, Head;
    WindowShape(s, range.stream, range.first, range.last);
  }

  lemma RetainedReceipt(s: State, s': State, r: Request, ranges: seq<Range>)
    requires Receipted(s, r, ranges) && Retains(s, s')
    ensures Receipted(s', r, ranges)
  {
  }
}
