/** One open transaction, updated in place (`lib.rs`, `Transaction`).

    Every method is proved against the functions of `Requests` and `Stores`: what it records, what
    state it leaves and what it answers. */
module Transactions {
  import opened Prelude
  import opened State
  import opened Index
  import opened Rewrites
  import opened Requests
  import opened Receipts
  import opened Stores

  class OpenTransaction {
    var history: seq<Transaction>
    var state: State
    var pending: seq<Op>
    var privacy: bool

    /** Whether the atomic entry has staged content (`atomic_content`). */
    var staged: bool

    /** The state before anything in `pending`. */
    ghost var base: State

    /** Either the state has kept up with what was recorded, or nothing may be kept of it. */
    ghost predicate Valid()
      reads this
    {
      Fold(base, pending) == Some(state) && Agreed(state)
    }

    constructor (st: Store)
      requires Agreed(st.state)
      ensures Valid() && history == st.history && state == base == st.state && pending == [] && !privacy && !staged
    {
      history, state, base, pending, privacy, staged := st.history, st.state, st.state, [], false, false;
    }

    /** `Transaction::record`: pushed before it is applied. A refusal may have touched the state. */
    method Record(op: Op) returns (ok: bool)
      requires Valid()
      modifies this`pending, this`state
      ensures pending == old(pending) + [op]
      ensures ok == Apply(old(state), op).Some?
      ensures ok ==> Valid() && Some(state) == Apply(old(state), op)
    {
      hide Fold, Agreed, Apply;
      FoldSnoc(base, pending, op);
      pending := pending + [op];
      var applied := Apply(state, op);
      ok := applied.Some?;
      if ok {
        ApplyAgreed(state, op);
        state := applied.value;
      } else {
        state := *;
      }
    }

    /** Everything a guard or a projector records, which never refuses. */
    method RecordQuiet(ops: seq<Op>)
      requires Valid() && AllQuiet(ops)
      modifies this`pending, this`state
      ensures Valid() && pending == old(pending) + ops && Fold(old(state), ops) == Some(state)
    {
      hide Fold, Agreed, Apply;
      assert ops[..0] == [];
      FoldNothing(state);
      for i := 0 to |ops|
        invariant Valid() && pending == old(pending) + ops[..i] && Fold(old(state), ops[..i]) == Some(state)
      {
        QuietApply(state, ops[i]);
        FoldSnoc(old(state), ops[..i], ops[i]);
        assert ops[..i + 1] == ops[..i] + [ops[i]];
        var _ := Record(ops[i]);
      }
      assert ops[..|ops|] == ops;
    }

    /** `Transaction::append`: the optimistic check, then one event at a time, then the projectors. */
    method Append(m: Member) returns (r: Result<AppendResult, Error>)
      requires Valid() && AllQuiet(m.derived)
      modifies this`pending, this`state
      ensures Valid()
      ensures r.Err? <==> Check(old(state), m).Err?
      ensures r.Err? ==> r.error == Check(old(state), m).error && pending == old(pending) && state == old(state)
      ensures r.Ok? ==>
        && pending == old(pending) + MemberOps(old(state), m)
        && Fold(old(state), MemberOps(old(state), m)) == Some(state)
        && r.value.range == MemberRange(old(state), m)
        && r.value.events == Assigned(m.stream, Head(old(state).events, m.stream), old(state).next, m.events)
    {
      hide Fold, Agreed, Apply, Head, AllQuiet, Grew;
      var head := Head(state.events, m.stream);
      var wanted := Wanted(m.expected, head);
      if wanted.None? {
        return Err(Unsupported);
      }
      if wanted.value != head {
        return Err(Conflict(wanted.value, head));
      }
      var written: seq<Event> := [];
      ghost var start := state;
      ghost var events := Assigned(m.stream, head, start.next, m.events);
      ghost var ops := RecordedOps(events);
      assert ops[..0] == [];
      FoldNothing(start);
      for i := 0 to |m.events|
        invariant Valid() && written == events[..i]
        invariant pending == old(pending) + ops[..i] && Fold(start, ops[..i]) == Some(state)
      {
        RecordMany(start, m.stream, m.events, i);
        GrewHead(start, state, m.stream, i);
        RecordMany(start, m.stream, m.events, i + 1);
        assert ops[..i + 1] == ops[..i] + [ops[i]];
        FoldSnoc(start, ops[..i], ops[i]);
        var event := Event(state.next + 1, m.stream, head + 1 + |written|, m.events[i].id, m.events[i].body, false);
        assert ops[i] == Recorded(event);
        var _ := Record(Recorded(event));
        written := written + [event];
      }
      assert ops[..|ops|] == ops && events[..|events|] == events;
      FoldConcat(start, ops, m.derived);
      RecordQuiet(m.derived);
      return Ok(AppendResult(Range(m.stream, head + 1, head + |written|), written));
    }

    /** The loop of `group`: one member after another, until one refuses. */
    method AppendAll(members: seq<Member>) returns (r: Result<(seq<Range>, seq<AppendResult>), Error>)
      requires Valid() && forall i :: 0 <= i < |members| ==> AllQuiet(members[i].derived)
      modifies this`pending, this`state
      ensures Valid()
      ensures r.Err? <==> AppendMembers(old(state), members).Err?
      ensures r.Err? ==>
        && r.error == AppendMembers(old(state), members).error
        && pending == old(pending) + RefusedOps(old(state), members)
      ensures r.Ok? ==>
        var b := AppendMembers(old(state), members).value;
        pending == old(pending) + b.ops && state == b.state && r.value == (b.ranges, b.results)
    {
      hide Fold, Agreed, Apply, Head, AllQuiet, Check, MemberOps, MemberRange, Assigned;
      var ranges, results := [], [];
      assert members[..0] == [];
      for i := 0 to |members|
        invariant Valid() && AppendMembers(old(state), members[..i]).Ok?
        invariant var b := AppendMembers(old(state), members[..i]).value;
          pending == old(pending) + b.ops && state == b.state && ranges == b.ranges && results == b.results
      {
        assert members[..i + 1][..i] == members[..i];
        var result := Append(members[i]);
        if result.Err? {
          RefusedAt(old(state), members, i);
          return Err(result.error);
        }
        ranges, results := ranges + [result.value.range], results + [result.value];
      }
      assert members[..|members|] == members;
      return Ok((ranges, results));
    }

    /** `append_guarded`. */
    method AppendGuarded(r: Request) returns (out: Result<Answer, Error>)
      requires Valid() && ValidRequest(r) && r.Append?
      modifies this`pending, this`state, this`staged
      ensures Valid() && out == Perform(old(state), r).outcome && pending == old(pending) + Perform(old(state), r).pending
      ensures staged == old(staged)
    {
      hide Fold, Agreed, Apply, Requests.PerformNew, Check, RecallAll, Head;
      FoldNothing(state);
      var m := r.member;
      if r.claim.Some? {
        var claim := r.claim.value;
        var claimed := Lookup(state.claims, (m.stream.tenant, claim.scope, claim.key), claim.digest, claim.key);
        if claimed.Err? {
          return Err(claimed.error);
        }
        if claimed.value.Some? {
          return Ok(Answer(RecallAll(state, [claimed.value.value]), true));
        }
      }
      var found := Lookup(state.commands, (m.stream, r.key), r.digest, r.key);
      if found.Err? {
        return Err(found.error);
      }
      if found.value.Some? {
        return Ok(Answer(RecallAll(state, [found.value.value]), true));
      }
      var checked := Check(state, m);
      if checked.Err? {
        return Err(checked.error);
      }
      out := PerformNew(r);
    }

    /** The command, and the claim if there is one, under the range just appended. */
    method RecordReceipt(r: Request, range: Range)
      requires Valid() && r.Append? && range.stream == r.member.stream
      modifies this`pending, this`state
      ensures Valid()
      ensures pending == old(pending) + [Command(r.member.stream, r.key, r.digest, range.first, range.last)]
                         + ClaimOps(r.member, range, r.claim)
    {
      hide Fold, Agreed, Apply;
      CommandApplied(state, r.member.stream, r.key, r.digest, range);
      var _ := Record(Command(r.member.stream, r.key, r.digest, range.first, range.last));
      if r.claim.Some? {
        var claim := r.claim.value;
        ClaimApplied(state, r.member.stream.tenant, claim, range);
        var _ := Record(Claim(r.member.stream.tenant, claim.scope, claim.key, claim.digest, range));
      }
    }

    /** `bind_blob` for each blob: recorded at once, so a refusal leaves what went before. */
    method BindEach(tenant: Tenant, batch: seq<BlobWrite>) returns (ok: bool)
      requires Valid() && forall i :: 0 <= i < |batch| ==> Field(batch[i].digest)
      modifies this`pending, this`state
      ensures Valid() && ok == Bind(old(state), tenant, batch).ok
      ensures pending == old(pending) + Bind(old(state), tenant, batch).ops
      ensures Fold(old(state), Bind(old(state), tenant, batch).ops) == Some(state)
    {
      hide Fold, Agreed, Apply, Field;
      ghost var start := state;
      FoldNothing(start);
      assert batch[..0] == [];
      for i := 0 to |batch|
        invariant Valid() && Bind(start, tenant, batch[..i]).ok
        invariant pending == old(pending) + Bind(start, tenant, batch[..i]).ops
        invariant Fold(start, Bind(start, tenant, batch[..i]).ops) == Some(state)
      {
        assert batch[..i + 1][..i] == batch[..i];
        var bound := BoundHash(state, tenant, batch[i].digest);
        if bound.Some? {
          if bound.value != batch[i].hash {
            BindStops(start, tenant, batch, i + 1);
            return false;
          }
        } else {
          var op := Blob(tenant, batch[i].digest, Some(BlobObject(batch[i].id, batch[i].hash)));
          QuietApply(state, op);
          FoldSnoc(start, Bind(start, tenant, batch[..i]).ops, op);
          var _ := Record(op);
        }
      }
      assert batch[..|batch|] == batch;
      return true;
    }

    /** `bind_blobs`: the whole batch is checked before any binding is recorded. */
    method BindAll(tenant: Tenant, batch: seq<BlobWrite>) returns (ok: bool)
      requires Valid()
      modifies this`pending, this`state
      ensures Valid() && ok == Bind(old(state), tenant, batch).ok
      ensures !ok ==> pending == old(pending) && state == old(state)
      ensures ok ==> pending == old(pending) + Bind(old(state), tenant, batch).ops
      ensures ok ==> Fold(old(state), Bind(old(state), tenant, batch).ops) == Some(state)
    {
      hide Fold, Agreed, Apply, Field, StateAfter, BoundHash;
      var unbound: seq<Op> := [];
      assert batch[..0] == [];
      for i := 0 to |batch|
        invariant Valid() && pending == old(pending) && state == old(state)
        invariant Bind(state, tenant, batch[..i]) == Bound(unbound, true)
      {
        assert batch[..i + 1][..i] == batch[..i];
        BindBinds(state, tenant, batch[..i]);
        BoundAfter(state, unbound, tenant, batch[i].digest);
        if !Field(batch[i].digest) {
          BindStops(state, tenant, batch, i + 1);
          return false;
        }
        var earlier := Earlier(unbound, batch[i].digest);
        var bound := if earlier.Some? then earlier else BoundHash(state, tenant, batch[i].digest);
        if bound.Some? {
          if bound.value != batch[i].hash {
            BindStops(state, tenant, batch, i + 1);
            return false;
          }
        } else {
          unbound := unbound + [Blob(tenant, batch[i].digest, Some(BlobObject(batch[i].id, batch[i].hash)))];
        }
      }
      assert batch[..|batch|] == batch;
      BindBinds(state, tenant, batch);
      BindsQuiet(unbound, tenant);
      RecordQuiet(unbound);
      return true;
    }

    /** `verify_batch`. */
    method VerifyRetry(r: Request, receipt: GroupReceipt) returns (e: Option<Error>)
      requires r.AppendGroup?
      ensures e == VerifyBatch(state, r.tenant, r.batch, receipt.blobs, r.key)
    {
      hide Field, Contradicts, Digests;
      if r.batch == [] {
        return None;
      }
      for i := 0 to |r.batch|
        invariant forall j :: 0 <= j < i ==> Field(r.batch[j].digest)
      {
        if !Field(r.batch[i].digest) {
          return Some(InvalidBlob);
        }
      }
      if Digests(r.batch) != receipt.blobs {
        return Some(IdempotencyMismatch(r.key));
      }
      for i := 0 to |r.batch|
        invariant forall j :: 0 <= j < i ==> !Contradicts(state, r.tenant, r.batch[j])
      {
        if Contradicts(state, r.tenant, r.batch[i]) {
          return Some(InvalidBlob);
        }
      }
      return None;
    }

    /** The guard and the batch of a new request, in the order of its entry point. */
    method AdmitNew(r: Request) returns (e: Option<Error>)
      requires Valid() && ValidRequest(r)
      modifies this`pending, this`state, this`staged
      ensures Valid() && e == Admit(old(state), r).error && pending == old(pending) + Admit(old(state), r).ops
      ensures e.None? ==> Fold(old(state), Admit(old(state), r).ops) == Some(state)
      ensures staged == (old(staged) || (r.AppendGroup? && r.atomic && Bind(old(state), r.tenant, r.batch).ok))
    {
      hide Fold, Agreed, Apply, Field, Bind;
      ghost var start := state;
      AdmitQuiet(state, r);
      GuardIsQuiet(r);
      if r.AppendGroup? && r.atomic {
        var bound := BindEach(r.tenant, r.batch);
        if !bound {
          return Some(InvalidBlob);
        }
        staged := true;
        FoldConcat(start, Bind(start, r.tenant, r.batch).ops, r.guard.ops);
        RecordQuiet(r.guard.ops);
        return Checked(r.guard);
      }
      RecordQuiet(r.guard.ops);
      if r.guard.refuses {
        return Some(GuardRefused);
      }
      if r.AppendGroup? {
        FoldConcat(start, r.guard.ops, Bind(state, r.tenant, r.batch).ops);
        var bound := BindAll(r.tenant, r.batch);
        if !bound {
          return Some(InvalidBlob);
        }
      }
      return None;
    }

    /** What `append_guarded`, `group` and `append_atomic_group` do with a request that is not a retry. */
    method PerformNew(r: Request) returns (out: Result<Answer, Error>)
      requires Valid() && ValidRequest(r)
      modifies this`pending, this`state, this`staged
      ensures Valid()
      ensures out == Requests.PerformNew(old(state), r).outcome
      ensures pending == old(pending) + Requests.PerformNew(old(state), r).pending
      ensures staged == (old(staged) || (r.AppendGroup? && r.atomic && Bind(old(state), r.tenant, r.batch).ok))
    {
      hide Fold, Agreed, Apply, AllQuiet, AppendMembers, Admit, RefusedOps, Bind, Digests, Field, ReceiptOps;
      ghost var start := state;
      var refused := AdmitNew(r);
      if refused.Some? {
        return Err(refused.value);
      }
      var members := MembersOf(r);
      forall i | 0 <= i < |members| ensures AllQuiet(members[i].derived) {
        RowsQuiet(members[i].derived);
      }
      var batch := AppendAll(members);
      if batch.Err? {
        return Err(batch.error);
      }
      BatchRanges(StateAfter(start, Admit(start, r).ops), members);
      RecordReceipts(r, batch.value.0);
      return Ok(Answer(batch.value.1, false));
    }

    /** The receipts of a request, under the ranges just appended. */
    method RecordReceipts(r: Request, ranges: seq<Range>)
      requires Valid() && |ranges| == |MembersOf(r)|
      requires forall i :: 0 <= i < |ranges| ==> ranges[i].stream == MembersOf(r)[i].stream
      modifies this`pending, this`state
      ensures Valid() && pending == old(pending) + ReceiptOps(r, ranges)
    {
      hide Fold, Agreed, Apply, Digests;
      if r.Append? {
        assert ranges[0].stream == MembersOf(r)[0].stream;
        RecordReceipt(r, ranges[0]);
      } else {
        GroupApplied(state, r.tenant, r.key, r.digest, ranges, Digests(r.batch));
        var _ := Record(Group(r.tenant, r.key, r.digest, ranges, Digests(r.batch)));
      }
    }

    /** `group` and `append_atomic_group`. */
    method AppendGroup(r: Request) returns (out: Result<Answer, Error>)
      requires Valid() && ValidRequest(r) && r.AppendGroup?
      modifies this`pending, this`state, this`staged
      ensures Valid() && out == Perform(old(state), r).outcome && pending == old(pending) + Perform(old(state), r).pending
      ensures staged == (old(staged) || Stages(old(state), r))
    {
      hide Fold, Agreed, Apply, AllQuiet, Requests.PerformNew, RecallAll, Bind, VerifyBatch;
      if (r.tenant, r.key) !in state.groups {
        out := PerformNew(r);
        return;
      }
      ghost var start := state;
      var receipt := state.groups[(r.tenant, r.key)];
      FoldNothing(start);
      if !r.atomic && r.batch != [] {
        GuardIsQuiet(r);
        RecordQuiet(r.guard.ops);
        if r.guard.refuses {
          return Err(GuardRefused);
        }
      }
      assert Some(state) == Fold(start, RetryOps(r));
      if receipt.digest != r.digest {
        if r.atomic || r.fingerprint != Some(receipt.digest) {
          return Err(IdempotencyMismatch(r.key));
        }
      } else if !r.atomic {
        var e := VerifyRetry(r, receipt);
        if e.Some? {
          return Err(e.value);
        }
      }
      return Ok(Answer(RecallAll(state, receipt.ranges), true));
    }

    /** The rewriting loop of `forget_tenant`. */
    method EraseHistory(t: Tenant)
      modifies this`history
      ensures history == EraseAll(old(history), t)
    {
      ghost var before := history;
      assert EraseAll(before[..0], t) == [];
      hide Erase, EraseAll;
      for i := 0 to |history|
        invariant history == EraseAll(before[..i], t) + before[i..]
      {
        ErasesOn(before, i, t);
        Overwritten(EraseAll(before[..i], t), before, i, Erase(before[i], t));
        history := history[i := Erase(history[i], t)];
      }
      assert before[..|before|] == before;
    }

    /** The rewriting loop of `redact`. */
    method RedactHistory(x: Event)
      modifies this`history
      ensures history == RedactAll(old(history), x)
    {
      ghost var before := history;
      assert RedactAll(before[..0], x) == [];
      hide Rewrites.Redact, RedactAll;
      for i := 0 to |history|
        invariant history == RedactAll(before[..i], x) + before[i..]
      {
        RedactsOn(before, i, x);
        Overwritten(RedactAll(before[..i], x), before, i, Rewrites.Redact(before[i], x));
        history := history[i := Rewrites.Redact(history[i], x)];
      }
      assert before[..|before|] == before;
    }

    /** `forget_tenant`: every transaction rewritten in place, then one replay, which never refuses. */
    method Forget(t: Tenant) returns (ok: bool)
      requires Sound(Store(history, state)) && pending == [] && base == state
      modifies this
      ensures ok && Valid() && pending == [] && privacy
      ensures Store(history, state) == Step(old(Store(history, state)), Change.Forget(t))
      ensures state == Erased(old(state), t)
    {
      hide Fold, Agreed, Partition, Disciplined, DistinctIds, Replay, Erased, EraseAll;
      ErasureCommutes(history, t);
      EraseHistory(t);
      var replayed := ReplayLoop(history);
      ok := replayed.Some?;
      if ok {
        state := replayed.value;
        base := state;
        FoldNothing(state);
        ReplayAgreed(history);
        privacy := true;
      }
    }

    /** `redact`: replace the event's body wherever it is recorded, drop the tenant's derived rows and
        cursors, replay, then mark every view of the tenant and retire the stream's snapshots. */
    method Redact(stream: StreamId, version: nat, tombstone: string, generation: string, views: seq<string>)
      returns (r: Option<Event>)
      requires Sound(Store(history, state)) && pending == [] && base == state
      modifies this
      ensures Valid()
      ensures var found := OfStream(old(state).events, stream, version, Some(version));
        && (r.Some? <==> found != [])
        && (r.None? ==> history == old(history) && state == base == old(state) && pending == [] && privacy == old(privacy))
        && (r.Some? ==>
              && r.value == Tombstone(found[0], tombstone) && privacy
              && history == RedactAll(old(history), r.value) && base == Redacted(old(state), r.value)
              && pending == AfterRedaction(stream, generation, views)
              && state == RedactedState(old(state), r.value, generation, views))
    {
      hide Fold, Agreed, Partition, Disciplined, DistinctIds, Replay, Redacted, RedactAll, OfStream, OnlyEvent;
      ReplayAgreed(history);
      var found := OfStream(state.events, stream, version, Some(version));
      FoldNothing(state);
      if found == [] {
        return None;
      }
      var x := Tombstone(found[0], tombstone);
      FoundLogged(state, stream, version);
      OnlyOne(Store(history, state), found[0], x);
      RedactionCommutes(history, x);
      RedactHistory(x);
      var replayed := ReplayLoop(history);
      state := replayed.value;
      base := state;
      ReplayAgreed(history);
      MarkRedacted(stream, generation, views);
      privacy := true;
      return Some(x);
    }

    method MarkRedacted(stream: StreamId, generation: string, views: seq<string>)
      requires Agreed(state) && pending == [] && base == state
      modifies this`pending, this`state
      ensures Valid() && pending == AfterRedaction(stream, generation, views)
      ensures state == old(state).(dirty := old(state).dirty + DirtyPairs(stream.tenant, views),
                                   generations := old(state).generations[stream := generation])
    {
      hide Fold, Agreed, Apply;
      ghost var ops := AfterRedaction(stream, generation, views);
      FoldNothing(state);
      for i := 0 to |views|
        invariant Valid() && pending == ops[..i]
      {
        DirtyFold(base, stream, generation, views, i);
        DirtyFold(base, stream, generation, views, i + 1);
        assert ops[..i + 1] == ops[..i] + [ops[i]];
        FoldSnoc(base, ops[..i], ops[i]);
        var _ := Record(DirtyView(stream.tenant, views[i], true));
      }
      AfterRedactionFolds(base, stream, generation, views);
      assert ops == ops[..|views|] + [ops[|views|]];
      FoldSnoc(base, ops[..|views|], ops[|views|]);
      var _ := Record(Generation(stream, generation));
    }

    /** The end of a transaction that did not refuse: a watermark behind what was recorded, and one
        frame. The watermark is never applied, and need not be. */
    method Commit()
      requires Valid() && Replay(history) == Some(base)
      modifies this`history
      ensures history == if old(pending) == [] then old(history) else old(history) + [Committed(old(pending), old(state).next)]
      ensures Replay(history) == Some(state)
    {
      hide Fold, Agreed;
      CommitReplays(Store(history, base), pending);
      if pending == [] {
        FoldNothing(base);
      } else {
        history := history + [pending + [Watermark(state.next)]];
      }
    }
  }

  lemma BindsQuiet(ops: seq<Op>, tenant: Tenant)
    requires Binds(ops, tenant)
    ensures AllQuiet(ops)
  {
  }

  /** Overwriting the next element of a half-rewritten list. */
  lemma Overwritten<T>(done: seq<T>, before: seq<T>, i: nat, x: T)
    requires |done| == i < |before|
    ensures (done + before[i..])[i] == before[i]
    ensures (done + before[i..])[i := x] == done + [x] + before[i + 1..]
  {
  }

  lemma ErasesOn(before: seq<Transaction>, i: nat, t: Tenant)
    requires i < |before|
    ensures EraseAll(before[..i + 1], t) == EraseAll(before[..i], t) + [Erase(before[i], t)]
  {
    assert before[..i + 1][..i] == before[..i];
  }

  lemma RedactsOn(before: seq<Transaction>, i: nat, x: Event)
    requires i < |before|
    ensures RedactAll(before[..i + 1], x) == RedactAll(before[..i], x) + [Rewrites.Redact(before[i], x)]
  {
    assert before[..i + 1][..i] == before[..i];
  }

  lemma {:induction false} RefusedAt(s: State, members: seq<Member>, i: nat)
    requires i < |members| && AppendMembers(s, members[..i]).Ok?
    requires Check(AppendMembers(s, members[..i]).value.state, members[i]).Err?
    ensures AppendMembers(s, members).Err?
    ensures AppendMembers(s, members).error == Check(AppendMembers(s, members[..i]).value.state, members[i]).error
    ensures RefusedOps(s, members) == AppendMembers(s, members[..i]).value.ops
    decreases |members|
  {
    hide Check, MemberOps, MemberRange, Assigned, StateAfter;
    var n := |members| - 1;
    if i < n {
      assert members[..n][..i] == members[..i];
      RefusedAt(s, members[..n], i);
    }
  }

  lemma {:induction false} BatchRanges(s: State, members: seq<Member>)
    requires AppendMembers(s, members).Ok?
    ensures var ranges := AppendMembers(s, members).value.ranges;
      |ranges| == |members| && forall i :: 0 <= i < |members| ==> ranges[i].stream == members[i].stream
  {
    hide Check, MemberOps, Assigned, StateAfter, Head;
    if members != [] {
      BatchRanges(s, members[..|members| - 1]);
    }
  }
}
