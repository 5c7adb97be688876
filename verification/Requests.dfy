/** What one request records, and what it answers (`lib.rs`, `append_guarded`, `group` and the
    `Transaction` methods under them).

    Projectors and guards are arbitrary: a request carries what they record this time. */
module Requests {
  import opened Prelude
  import opened State
  import opened Index

  datatype Expected = Any | NoStream | Exact(version: nat) | Merge

  /** A new event and the id minted for it. */
  datatype NewEvent = NewEvent(id: string, body: string)

  /** One stream of a request, with what inline projectors record for it. */
  datatype Member = Member(stream: StreamId, expected: Expected, events: seq<NewEvent>, derived: seq<Op>)

  datatype ClaimId = ClaimId(scope: string, key: string, digest: string)

  /** What the guard does when it is called: the rows and counters it records, and whether it refuses. */
  datatype Guard = Guard(ops: seq<Op>, refuses: bool)

  /** A blob of a batch: its digest, its content by the content's hash, and the id minted for its object. */
  datatype BlobWrite = BlobWrite(digest: string, hash: string, id: string)

  /** `atomic` is the entry that publishes blobs with the group under a fingerprint of both;
      `fingerprint` is that fingerprint for this group and batch, if the batch has one. */
  datatype Request =
    | Append(member: Member, key: string, digest: string, claim: Option<ClaimId>, guard: Guard)
    | AppendGroup(tenant: Tenant, key: string, digest: string, members: seq<Member>, guard: Guard,
                  batch: seq<BlobWrite>, atomic: bool, fingerprint: Option<string>)

  datatype Error =
    | Conflict(expected: nat, actual: nat)
    | Unsupported
    | IdempotencyMismatch(key: string)
    | GuardRefused
    | InvalidBlob

  datatype AppendResult = AppendResult(range: Range, events: seq<Event>)
  datatype Answer = Answer(appends: seq<AppendResult>, deduplicated: bool)

  /** What a transaction's work leaves: the operations it recorded, and its outcome. */
  datatype Work = Work(pending: seq<Op>, outcome: Result<Answer, Error>)

  // ---- One member ----

  /** The version an expectation asks for; a linear store has no heads to merge. */
  function Wanted(expected: Expected, head: nat): Option<nat> {
    match expected
    case Any => Some(head)
    case NoStream => Some(0)
    case Exact(v) => Some(v)
    case Merge => None
  }

  /** Versions continue the stream and positions the log. */
  function Assigned(stream: StreamId, head: nat, next: nat, events: seq<NewEvent>): (r: seq<Event>)
    ensures |r| == |events|
    ensures forall i :: 0 <= i < |r| ==> r[i] == Event(next + 1 + i, stream, head + 1 + i, events[i].id, events[i].body, false)
  {
    seq(|events|, i requires 0 <= i < |events| =>
      Event(next + 1 + i, stream, head + 1 + i, events[i].id, events[i].body, false))
  }

  function RecordedOps(events: seq<Event>): (r: seq<Op>)
    ensures |r| == |events| && forall i :: 0 <= i < |r| ==> r[i] == Recorded(events[i])
  {
    seq(|events|, i requires 0 <= i < |events| => Recorded(events[i]))
  }

  function MemberOps(s: State, m: Member): seq<Op> {
    RecordedOps(Assigned(m.stream, Head(s.events, m.stream), s.next, m.events)) + m.derived
  }

  function MemberRange(s: State, m: Member): Range {
    var head := Head(s.events, m.stream);
    Range(m.stream, head + 1, head + |m.events|)
  }

  /** The optimistic check of `Transaction::append`. */
  function Check(s: State, m: Member): Result<(), Error> {
    var head := Head(s.events, m.stream);
    match Wanted(m.expected, head)
    case None => Err(Unsupported)
    case Some(w) => if w != head then Err(Conflict(w, head)) else Ok(())
  }

  // ---- Several members ----

  datatype Batch = Batch(ops: seq<Op>, state: State, ranges: seq<Range>, results: seq<AppendResult>)

  function StateAfter(s: State, ops: seq<Op>): State {
    if Fold(s, ops).Some? then Fold(s, ops).value else s
  }

  /** `Transaction::append` for each member in turn; the first refusal ends it. */
  function AppendMembers(s: State, members: seq<Member>): Result<Batch, Error> {
    if members == [] then Ok(Batch([], s, [], []))
    else
      var n := |members| - 1;
      match AppendMembers(s, members[..n])
      case Err(e) => Err(e)
      case Ok(b) =>
        match Check(b.state, members[n])
        case Err(e) => Err(e)
        case Ok(_) =>
          var m := members[n];
          var ops, range := MemberOps(b.state, m), MemberRange(b.state, m);
          var events := Assigned(m.stream, Head(b.state.events, m.stream), b.state.next, m.events);
          Ok(Batch(b.ops + ops, StateAfter(b.state, ops), b.ranges + [range], b.results + [AppendResult(range, events)]))
  }

  /** What a refused batch had recorded: the members before the one that refused. */
  function RefusedOps(s: State, members: seq<Member>): seq<Op>
    requires AppendMembers(s, members).Err?
  {
    var n := |members| - 1;
    match AppendMembers(s, members[..n])
    case Err(_) => RefusedOps(s, members[..n])
    case Ok(b) => b.ops
  }

  // ---- Blobs ----

  const MAX_FIELD_LEN: nat := 512

  /** `validate_field`. */
  predicate Field(value: string) {
    1 <= |value| <= MAX_FIELD_LEN && forall i :: 0 <= i < |value| ==> ' ' <= value[i] <= '~'
  }

  /** The hash of the content that a digest is bound to. */
  function BoundHash(s: State, tenant: Tenant, digest: string): Option<string> {
    if (tenant, digest) in s.blobs then Some(s.blobs[(tenant, digest)].hash) else None
  }

  /** What binding a batch recorded, and whether it went through. */
  datatype Bound = Bound(ops: seq<Op>, ok: bool)

  /** `bind_blobs` and `bind_blob`: a digest binds once, and only to one content. */
  function Bind(s: State, tenant: Tenant, batch: seq<BlobWrite>): Bound {
    if batch == [] then Bound([], true)
    else
      var n := |batch| - 1;
      var before, blob := Bind(s, tenant, batch[..n]), batch[n];
      if !before.ok then before
      else if !Field(blob.digest) then before.(ok := false)
      else match BoundHash(StateAfter(s, before.ops), tenant, blob.digest)
        case None => Bound(before.ops + [Blob(tenant, blob.digest, Some(BlobObject(blob.id, blob.hash)))], true)
        case Some(hash) => before.(ok := hash == blob.hash)
  }

  function Digests(batch: seq<BlobWrite>): set<string> {
    set b | b in batch :: b.digest
  }

  predicate Contradicts(s: State, tenant: Tenant, blob: BlobWrite) {
    var bound := BoundHash(s, tenant, blob.digest);
    bound.Some? && bound.value != blob.hash
  }

  /** `verify_batch`: a retry's batch is the one recorded, and what is still bound has its content. */
  function VerifyBatch(s: State, tenant: Tenant, batch: seq<BlobWrite>, committed: set<string>, key: string): Option<Error> {
    if batch == [] then None
    else if exists i :: 0 <= i < |batch| && !Field(batch[i].digest) then Some(InvalidBlob)
    else if Digests(batch) != committed then Some(IdempotencyMismatch(key))
    else if exists i :: 0 <= i < |batch| && Contradicts(s, tenant, batch[i]) then Some(InvalidBlob)
    else None
  }

  // ---- Admission ----

  /** What admitting a new request recorded, and why it was refused if it was. */
  datatype Admission = Admission(ops: seq<Op>, error: Option<Error>)

  function Checked(guard: Guard): Option<Error> {
    if guard.refuses then Some(GuardRefused) else None
  }

  /** The guard, and the bindings of a batch: after the guard, or before it for an atomic group. */
  function Admit(s: State, r: Request): Admission {
    if r.Append? then Admission(r.guard.ops, Checked(r.guard))
    else if r.atomic then
      var bound := Bind(s, r.tenant, r.batch);
      if !bound.ok then Admission(bound.ops, Some(InvalidBlob)) else Admission(bound.ops + r.guard.ops, Checked(r.guard))
    else if r.guard.refuses then Admission(r.guard.ops, Some(GuardRefused))
    else
      var bound := Bind(StateAfter(s, r.guard.ops), r.tenant, r.batch);
      if !bound.ok then Admission(r.guard.ops, Some(InvalidBlob)) else Admission(r.guard.ops + bound.ops, None)
  }

  /** The atomic entry has staged its content: a refusal from here on keeps no view. */
  predicate Stages(s: State, r: Request) {
    r.AppendGroup? && r.atomic && r.batch != [] && (r.tenant, r.key) !in s.groups && Bind(s, r.tenant, r.batch).ok
  }

  // ---- A request ----

  /** `Transaction::result`: the recorded range's current events. */
  function Recall(s: State, range: Range): AppendResult {
    AppendResult(range, OfStream(s.events, range.stream, range.first, Some(range.last)))
  }

  function RecallAll(s: State, ranges: seq<Range>): (r: seq<AppendResult>)
    ensures |r| == |ranges| && forall i :: 0 <= i < |r| ==> r[i] == Recall(s, ranges[i])
  {
    seq(|ranges|, i requires 0 <= i < |ranges| => Recall(s, ranges[i]))
  }

  /** `Transaction::claim` and `Transaction::command`: a receipt under the same digest answers. */
  function Lookup<K>(receipts: map<K, Receipt>, k: K, digest: string, name: string): Result<Option<Range>, Error> {
    if k !in receipts then Ok(None)
    else if receipts[k].digest != digest then Err(IdempotencyMismatch(name))
    else Ok(Some(receipts[k].range))
  }

  /** An answer from a receipt, after whatever was recorded on the way to it. */
  function Answered(s: State, ops: seq<Op>, ranges: seq<Range>): Work {
    Work(ops, Ok(Answer(RecallAll(StateAfter(s, ops), ranges), true)))
  }

  function ClaimOps(m: Member, range: Range, claim: Option<ClaimId>): seq<Op> {
    if claim.None? then []
    else [Claim(m.stream.tenant, claim.value.scope, claim.value.key, claim.value.digest, range)]
  }

  function MembersOf(r: Request): seq<Member> {
    if r.Append? then [r.member] else r.members
  }

  /** The receipts a request records after its events. */
  function ReceiptOps(r: Request, ranges: seq<Range>): seq<Op> {
    match r
    case Append(m, key, digest, claim, _) =>
      if ranges == [] then []
      else [Command(m.stream, key, digest, ranges[0].first, ranges[0].last)] + ClaimOps(m, ranges[0], claim)
    case AppendGroup(t, key, digest, _, _, batch, _, _) => [Group(t, key, digest, ranges, Digests(batch))]
  }

  /** `append_guarded`: a claim or a command receipt answers a retry; otherwise check, admit, append
      and record the receipts. */
  function PerformAppend(s: State, r: Request): Work
    requires r.Append?
  {
    var stream := r.member.stream;
    var claimed: Result<Option<Range>, Error> :=
      if r.claim.None? then Ok(None)
      else Lookup(s.claims, (stream.tenant, r.claim.value.scope, r.claim.value.key), r.claim.value.digest, r.claim.value.key);
    if claimed.Err? then Work([], Err(claimed.error))
    else if claimed.value.Some? then Answered(s, [], [claimed.value.value])
    else
      var found := Lookup(s.commands, (stream, r.key), r.digest, r.key);
      if found.Err? then Work([], Err(found.error))
      else if found.value.Some? then Answered(s, [], [found.value.value])
      else if Check(s, r.member).Err? then Work([], Err(Check(s, r.member).error))
      else PerformNew(s, r)
  }

  /** Everything that is not a retry: admit, append every member in turn, record the receipts. */
  function PerformNew(s: State, r: Request): Work {
    var a := Admit(s, r);
    if a.error.Some? then Work(a.ops, Err(a.error.value))
    else match AppendMembers(StateAfter(s, a.ops), MembersOf(r))
      case Err(e) => Work(a.ops + RefusedOps(StateAfter(s, a.ops), MembersOf(r)), Err(e))
      case Ok(b) => Work(a.ops + b.ops + ReceiptOps(r, b.ranges), Ok(Answer(b.results, false)))
  }

  /** What a retry of a group records. A retry that carries a batch is admitted again, before anything
      is said about the batch, unless it is the atomic entry's. */
  function RetryOps(r: Request): seq<Op> {
    if r.AppendGroup? && !r.atomic && r.batch != [] then r.guard.ops else []
  }

  predicate GuardStops(r: Request) {
    r.AppendGroup? && !r.atomic && r.batch != [] && r.guard.refuses
  }

  /** Why a receipt does not answer a group, if it does not. */
  function Objection(s: State, r: Request, receipt: GroupReceipt): Option<Error>
    requires r.AppendGroup?
  {
    if GuardStops(r) then Some(GuardRefused)
    else if receipt.digest != r.digest then
      if !r.atomic && r.fingerprint == Some(receipt.digest) then None else Some(IdempotencyMismatch(r.key))
    else if r.atomic then None
    else VerifyBatch(StateAfter(s, RetryOps(r)), r.tenant, r.batch, receipt.blobs, r.key)
  }

  /** `group` and `append_atomic_group`: the group's receipt answers a retry. */
  function PerformGroup(s: State, r: Request): Work
    requires r.AppendGroup?
  {
    if (r.tenant, r.key) !in s.groups then PerformNew(s, r)
    else
      var receipt := s.groups[(r.tenant, r.key)];
      match Objection(s, r, receipt)
      case Some(e) => Work(RetryOps(r), Err(e))
      case None => Answered(s, RetryOps(r), receipt.ranges)
  }

  function Perform(s: State, r: Request): Work {
    if r.Append? then PerformAppend(s, r) else PerformGroup(s, r)
  }

  /** A request that is neither refused nor a retry records its admission, its events and its receipts. */
  lemma PerformShape(s: State, r: Request)
    requires MembersOf(r) != [] && Perform(s, r).outcome.Ok? && !Perform(s, r).outcome.value.deduplicated
    ensures Perform(s, r) == PerformNew(s, r) && Admit(s, r).error.None?
    ensures AppendMembers(StateAfter(s, Admit(s, r).ops), MembersOf(r)).Ok?
    ensures var b := AppendMembers(StateAfter(s, Admit(s, r).ops), MembersOf(r)).value;
      && Perform(s, r).outcome.value.appends == b.results
      && Perform(s, r).pending == Admit(s, r).ops + b.ops + ReceiptOps(r, b.ranges)
  {
    hide StateAfter, Check, Recall, MemberOps, MemberRange, Assigned, Admit, AppendMembers, ReceiptOps, Objection;
  }

  /** What a retry records is what its guard did, if its guard was called at all. */
  lemma RetryShape(s: State, r: Request)
    requires Perform(s, r).outcome.Ok? && Perform(s, r).outcome.value.deduplicated
    ensures Perform(s, r).pending == RetryOps(r)
  {
    hide StateAfter, Check, Recall, Admit, AppendMembers, ReceiptOps, Objection;
  }

  // ---- What callers may pass ----

  /** What guards and projectors record, and the bindings of a batch. */
  predicate Quiet(op: Op) {
    op.Row? || op.Counter? || op.Blob?
  }

  predicate AllQuiet(ops: seq<Op>) {
    forall op :: op in ops ==> Quiet(op)
  }

  /** What a projector can record: it may not reserve. */
  predicate RowsOnly(ops: seq<Op>) {
    forall op :: op in ops ==> op.Row?
  }

  lemma RowsQuiet(ops: seq<Op>)
    requires RowsOnly(ops)
    ensures AllQuiet(ops)
  {
  }

  predicate ValidGuard(guard: Guard) {
    forall op :: op in guard.ops ==> op.Row? || op.Counter?
  }

  /** `validate_append` and the fingerprints: no empty append, no empty group, one tenant, and for the
      atomic entry a batch with usable digests. */
  predicate ValidMember(m: Member) {
    m.events != [] && RowsOnly(m.derived)
  }

  predicate ValidRequest(r: Request) {
    && ValidGuard(r.guard)
    && match r
       case Append(m, _, _, _, _) => ValidMember(m)
       case AppendGroup(t, _, _, members, _, batch, atomic, fingerprint) =>
         && members != [] && (forall i :: 0 <= i < |members| ==> ValidMember(members[i]) && members[i].stream.tenant == t)
         && (batch == [] ==> fingerprint.None? && !atomic)
         && (atomic ==> forall i :: 0 <= i < |batch| ==> Field(batch[i].digest))
  }

  // ---- Bindings ----

  /** The content that a list of bindings gives a digest. */
  function Earlier(ops: seq<Op>, digest: string): Option<string> {
    if ops == [] then None
    else
      var n := |ops| - 1;
      if ops[n].Blob? && ops[n].digest == digest && ops[n].bound.Some? then Some(ops[n].bound.value.hash)
      else Earlier(ops[..n], digest)
  }

  predicate Binds(ops: seq<Op>, tenant: Tenant) {
    forall op :: op in ops ==> op.Blob? && op.tenant == tenant && op.bound.Some?
  }

  /** What is bound after some bindings: by the last of them, or as before. */
  lemma {:induction false} BoundAfter(s: State, ops: seq<Op>, tenant: Tenant, digest: string)
    requires Binds(ops, tenant)
    ensures Fold(s, ops).Some?
    ensures BoundHash(StateAfter(s, ops), tenant, digest)
         == if Earlier(ops, digest).Some? then Earlier(ops, digest) else BoundHash(s, tenant, digest)
  {
    hide Apply;
    if ops != [] {
      var n := |ops| - 1;
      assert ops[n] in ops;
      BoundAfter(s, ops[..n], tenant, digest);
      BindApplied(StateAfter(s, ops[..n]), ops[n]);
    }
  }

  lemma BindApplied(s: State, op: Op)
    requires op.Blob? && op.bound.Some?
    ensures Apply(s, op) == Some(s.(blobs := s.blobs[(op.tenant, op.digest) := op.bound.value]))
  {
  }

  lemma {:induction false} BindBinds(s: State, tenant: Tenant, batch: seq<BlobWrite>)
    ensures Binds(Bind(s, tenant, batch).ops, tenant)
  {
    hide StateAfter, BoundHash, Field;
    if batch != [] {
      BindBinds(s, tenant, batch[..|batch| - 1]);
    }
  }

  /** A batch that binds leaves each of its digests bound to its content, and whatever happens no
      digest that was bound is given another. */
  lemma {:induction false} BindExact(s: State, tenant: Tenant, batch: seq<BlobWrite>)
    ensures var s' := StateAfter(s, Bind(s, tenant, batch).ops);
      && (forall d :: BoundHash(s, tenant, d).Some? ==> BoundHash(s', tenant, d) == BoundHash(s, tenant, d))
      && (Bind(s, tenant, batch).ok ==> forall i :: 0 <= i < |batch| ==>
            Field(batch[i].digest) && BoundHash(s', tenant, batch[i].digest) == Some(batch[i].hash))
  {
    hide Field, StateAfter, BoundHash;
    if batch == [] {
      assert StateAfter(s, []) == s by { Unchanged(s); }
    } else {
      var n := |batch| - 1;
      BindExact(s, tenant, batch[..n]);
      BindBinds(s, tenant, batch[..n]);
      var before, after := Bind(s, tenant, batch[..n]).ops, Bind(s, tenant, batch).ops;
      if after != before {
        BoundSnoc(s, before, tenant, batch[n]);
      }
    }
  }

  lemma BoundSnoc(s: State, before: seq<Op>, tenant: Tenant, blob: BlobWrite)
    requires Binds(before, tenant)
    ensures var after := before + [Blob(tenant, blob.digest, Some(BlobObject(blob.id, blob.hash)))];
      forall d :: BoundHash(StateAfter(s, after), tenant, d)
        == if d == blob.digest then Some(blob.hash) else BoundHash(StateAfter(s, before), tenant, d)
  {
    hide StateAfter, BoundHash;
    var after := before + [Blob(tenant, blob.digest, Some(BlobObject(blob.id, blob.hash)))];
    assert after[..|before|] == before;
    forall d ensures BoundHash(StateAfter(s, after), tenant, d)
                  == if d == blob.digest then Some(blob.hash) else BoundHash(StateAfter(s, before), tenant, d)
    {
      BoundAfter(s, before, tenant, d);
      BoundAfter(s, after, tenant, d);
    }
  }

  lemma Unchanged(s: State)
    ensures StateAfter(s, []) == s
  {
  }

  /** Once refused, a batch stays refused with what it had recorded. */
  lemma {:induction false} BindStops(s: State, tenant: Tenant, batch: seq<BlobWrite>, i: nat)
    requires i <= |batch| && !Bind(s, tenant, batch[..i]).ok
    ensures Bind(s, tenant, batch) == Bind(s, tenant, batch[..i])
    decreases |batch|
  {
    hide StateAfter, BoundHash, Field;
    if i == |batch| {
      assert batch[..i] == batch;
    } else {
      var n := |batch| - 1;
      assert batch[..n][..i] == batch[..i];
      BindStops(s, tenant, batch[..n], i);
    }
  }

  // ---- Admission is quiet ----

  lemma {:induction false} BindQuiet(s: State, tenant: Tenant, batch: seq<BlobWrite>)
    ensures forall op :: op in Bind(s, tenant, batch).ops ==> op.Blob?
  {
    hide StateAfter, BoundHash, Field;
    if batch != [] {
      BindQuiet(s, tenant, batch[..|batch| - 1]);
    }
  }

  lemma AdmitQuiet(s: State, r: Request)
    requires ValidRequest(r)
    ensures AllQuiet(Admit(s, r).ops) && AllQuiet(RetryOps(r))
  {
    hide StateAfter, Bind;
    if r.AppendGroup? {
      BindQuiet(s, r.tenant, r.batch);
      BindQuiet(StateAfter(s, r.guard.ops), r.tenant, r.batch);
    }
  }
}
