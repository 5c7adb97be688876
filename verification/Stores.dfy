/** Whole runs of one store's history: requests, administrative records, redactions and erasures
    (`lib.rs`).

    Over every run the kept state is the replay of the kept history. That is what the rewriting
    operations rely on when they replay in place of refusing. */
module Stores {
  import opened Prelude
  import opened State
  import opened Index
  import opened Rewrites
  import opened Requests
  import opened Receipts
  import Scopes

  datatype Store = Store(history: seq<Transaction>, state: State)

  /** What one transaction does to a store. `Note` is everything that records neither events nor
      receipts: identities, generations, projections, rows, cursors and blobs. */
  datatype Change =
    | Serve(request: Request)
    | Note(ops: seq<Op>)
    | Forget(tenant: Tenant)
    | RedactEvent(stream: StreamId, version: nat, tombstone: string, generation: string, views: seq<string>)

  predicate Noted(op: Op) {
    !op.Recorded? && !op.Command? && !op.Claim? && !op.Group? && !op.Watermark?
  }

  /** The frame a transaction commits: what it recorded, then a watermark, which is not applied. */
  function Committed(pending: seq<Op>, next: nat): Transaction {
    pending + [Watermark(next)]
  }

  /** A transaction that recorded nothing commits nothing; one that refuses leaves the store alone. */
  function Commit(st: Store, pending: seq<Op>): Store {
    if pending == [] || Fold(st.state, pending).None? then st
    else
      var s := Fold(st.state, pending).value;
      Store(st.history + [Committed(pending, s.next)], s)
  }

  /** The event a redaction leaves: the same event with a tombstone for its body. */
  function Tombstone(x: Event, body: string): Event {
    x.(body := body, redacted := true)
  }

  /** `redact` after the rewrite: every view of the tenant dirty, and a new snapshot generation. */
  function AfterRedaction(stream: StreamId, generation: string, views: seq<string>): (r: seq<Op>)
    ensures |r| == |views| + 1
    ensures forall i :: 0 <= i < |views| ==> r[i] == DirtyView(stream.tenant, views[i], true)
    ensures r[|views|] == Generation(stream, generation)
  {
    seq(|views|, i requires 0 <= i < |views| => DirtyView(stream.tenant, views[i], true)) + [Generation(stream, generation)]
  }

  /** Rewrite the history and replay it. The replay is what the source runs. */
  function Rewrite(st: Store, history: seq<Transaction>): Store {
    if Replay(history).None? then st else Store(history, Replay(history).value)
  }

  function Step(st: Store, c: Change): Store {
    match c
    case Serve(r) =>
      var w := Perform(st.state, r);
      if w.outcome.Err? then st else Commit(st, w.pending)
    case Note(ops) => Commit(st, ops)
    case Forget(t) => Rewrite(st, EraseAll(st.history, t))
    case RedactEvent(stream, version, body, generation, views) =>
      var found := OfStream(st.state.events, stream, version, Some(version));
      if found == [] then st
      else
        var x := Tombstone(found[0], body);
        Commit(Rewrite(st, RedactAll(st.history, x)), AfterRedaction(stream, generation, views))
  }

  // ---- The invariant ----

  /** Every recorded event of the history is the one that the log holds at its position. */
  ghost predicate Logged(history: seq<Transaction>, log: map<nat, Event>) {
    forall i :: 0 <= i < |history| ==> LoggedOps(history[i], log)
  }

  ghost predicate LoggedOps(ops: Transaction, log: map<nat, Event>) {
    forall op :: op in ops && op.Recorded? ==> op.event.position in log && log[op.event.position] == op.event
  }

  ghost predicate DistinctIds(log: map<nat, Event>) {
    forall p, q :: p in log && q in log && log[p].id == log[q].id ==> p == q
  }

  ghost predicate Sound(st: Store) {
    && Replay(st.history) == Some(st.state) && Disciplined(st.history)
    && Partition(st.state) && DistinctIds(st.state.events.byPosition)
  }

  // ---- Facts about replayed logs ----

  lemma ApplyLogs(s: State, op: Op)
    requires Agreed(s) && Apply(s, op).Some?
    ensures forall p :: p in s.events.byPosition ==>
      p in Apply(s, op).value.events.byPosition && Apply(s, op).value.events.byPosition[p] == s.events.byPosition[p]
    ensures op.Recorded? ==>
      && op.event.position in Apply(s, op).value.events.byPosition
      && Apply(s, op).value.events.byPosition[op.event.position] == op.event
    ensures s.next <= Apply(s, op).value.next
    ensures forall p :: p in Apply(s, op).value.events.byPosition && p !in s.events.byPosition ==>
      op.Recorded? && p == op.event.position
  {
    hide Coherent, Head;
  }

  /** A fold only adds to the log, and everything it records is there afterwards. */
  lemma {:induction false} FoldLogs(s: State, ops: Transaction)
    requires Agreed(s) && Fold(s, ops).Some?
    ensures var s' := Fold(s, ops).value;
      && Agreed(s') && s.next <= s'.next && LoggedOps(ops, s'.events.byPosition) && Extends(s, s')
      && (forall p :: p in s'.events.byPosition && p !in s.events.byPosition ==>
            exists op :: op in ops && op.Recorded? && op.event == s'.events.byPosition[p])
  {
    hide Agreed, Apply;
    if ops != [] {
      var n := |ops| - 1;
      FoldLogs(s, ops[..n]);
      var s1 := Fold(s, ops[..n]).value;
      ApplyLogs(s1, ops[n]);
      ApplyAgreed(s1, ops[n]);
    }
  }

  ghost predicate Extends(s: State, s': State) {
    forall p :: p in s.events.byPosition ==> p in s'.events.byPosition && s'.events.byPosition[p] == s.events.byPosition[p]
  }

  lemma {:induction false} ReplayLogs(history: seq<Transaction>)
    requires Replay(history).Some?
    ensures Logged(history, Replay(history).value.events.byPosition)
  {
    hide Fold, LoggedOps;
    if history != [] {
      var n := |history| - 1;
      ReplayLogs(history[..n]);
      ReplayAgreed(history[..n]);
      FoldLogs(Replay(history[..n]).value, history[n]);
      forall i | 0 <= i < n ensures LoggedOps(history[i], Replay(history).value.events.byPosition) {
        LoggedLonger(history[i], Replay(history[..n]).value, Replay(history).value);
      }
    }
  }

  lemma LoggedLonger(ops: Transaction, s: State, s': State)
    requires LoggedOps(ops, s.events.byPosition) && Extends(s, s')
    ensures LoggedOps(ops, s'.events.byPosition)
  {
  }

  // ---- Committing ----

  /** The unapplied watermark changes nothing: the kept state is the replay of what was committed. */
  lemma CommitReplays(st: Store, pending: seq<Op>)
    requires Replay(st.history) == Some(st.state)
    ensures Replay(Commit(st, pending).history) == Some(Commit(st, pending).state)
  {
    hide Fold, Head, Insert;
    if pending != [] && Fold(st.state, pending).Some? {
      var s := Fold(st.state, pending).value;
      FoldSnoc(st.state, pending, Watermark(s.next));
      var frame := Committed(pending, s.next);
      assert (st.history + [frame])[..|st.history|] == st.history;
    }
  }

  lemma CommitDisciplined(st: Store, pending: seq<Op>)
    requires Agreed(st.state) && Disciplined(st.history) && AllTagged(pending)
    ensures Disciplined(Commit(st, pending).history)
  {
    hide Fold, Agreed;
    if pending != [] && Fold(st.state, pending).Some? {
      var s := Fold(st.state, pending).value;
      FoldLogs(st.state, pending);
      var frame := Committed(pending, s.next);
      AgreedBound(s);
      assert Below(frame, s.next) && Covered(frame) && AllTagged(frame);
    }
  }

  lemma AgreedBound(s: State)
    requires Agreed(s)
    ensures forall p :: p in s.events.byPosition ==> p <= s.next
  {
  }

  // ---- Ids ----

  /** The ids of the events a transaction records, in order. */
  function Ids(ops: seq<Op>): seq<string> {
    if ops == [] then []
    else
      var n := |ops| - 1;
      Ids(ops[..n]) + (if ops[n].Recorded? then [ops[n].event.id] else [])
  }

  predicate NoRepeats(ids: seq<string>) {
    forall i, j :: 0 <= i < j < |ids| ==> ids[i] != ids[j]
  }

  ghost predicate NewIds(ids: seq<string>, log: map<nat, Event>) {
    NoRepeats(ids) && forall p :: p in log ==> log[p].id !in ids
  }

  lemma {:induction false} IdsConcat(a: seq<Op>, b: seq<Op>)
    ensures Ids(a + b) == Ids(a) + Ids(b)
  {
    if b == [] {
      assert a + b == a;
    } else {
      var n := |b| - 1;
      IdsConcat(a, b[..n]);
      assert (a + b)[..|a| + n] == a + b[..n];
    }
  }

  lemma {:induction false} QuietIds(ops: seq<Op>)
    requires forall op :: op in ops ==> !op.Recorded?
    ensures Ids(ops) == []
  {
    if ops != [] {
      QuietIds(ops[..|ops| - 1]);
    }
  }

  /** Minted ids stay distinct: folding events with new ids repeats none in the log. */
  lemma {:induction false} FoldIds(s: State, ops: seq<Op>)
    requires Agreed(s) && Fold(s, ops).Some? && DistinctIds(s.events.byPosition) && NewIds(Ids(ops), s.events.byPosition)
    ensures DistinctIds(Fold(s, ops).value.events.byPosition)
    ensures forall p :: p in Fold(s, ops).value.events.byPosition ==>
      (p in s.events.byPosition && Fold(s, ops).value.events.byPosition[p] == s.events.byPosition[p])
      || Fold(s, ops).value.events.byPosition[p].id in Ids(ops)
  {
    hide Agreed, Apply;
    if ops != [] {
      var n := |ops| - 1;
      var ids, before := Ids(ops), Ids(ops[..n]);
      assert forall i :: 0 <= i < |before| ==> before[i] == ids[i];
      assert forall id :: id in before ==> id in ids;
      FoldIds(s, ops[..n]);
      var s1 := Fold(s, ops[..n]).value;
      FoldAgreed(s, ops[..n]);
      ApplyLogs(s1, ops[n]);
      if ops[n].Recorded? {
        assert ids[|before|] == ops[n].event.id && ops[n].event.id !in before;
      }
    }
  }

  function NewEventIds(events: seq<NewEvent>): (r: seq<string>)
    ensures |r| == |events| && forall i :: 0 <= i < |r| ==> r[i] == events[i].id
  {
    seq(|events|, i requires 0 <= i < |events| => events[i].id)
  }

  function MemberIds(members: seq<Member>): seq<string> {
    if members == [] then []
    else MemberIds(members[..|members| - 1]) + NewEventIds(members[|members| - 1].events)
  }

  /** The ids minted for a request. */
  function RequestIds(r: Request): seq<string> {
    MemberIds(MembersOf(r))
  }

  lemma {:induction false} RecordedIds(events: seq<Event>, news: seq<NewEvent>, k: nat)
    requires |events| == |news| && k <= |events| && forall i :: 0 <= i < |events| ==> events[i].id == news[i].id
    ensures Ids(RecordedOps(events)[..k]) == NewEventIds(news)[..k]
  {
    if k > 0 {
      RecordedIds(events, news, k - 1);
      assert RecordedOps(events)[..k][..k - 1] == RecordedOps(events)[..k - 1];
      assert NewEventIds(news)[..k] == NewEventIds(news)[..k - 1] + [news[k - 1].id];
    }
  }

  lemma MemberOpsIds(s: State, m: Member)
    requires ValidMember(m)
    ensures Ids(MemberOps(s, m)) == NewEventIds(m.events)
  {
    hide Head;
    var events := Assigned(m.stream, Head(s.events, m.stream), s.next, m.events);
    RecordedIds(events, m.events, |events|);
    assert RecordedOps(events)[..|events|] == RecordedOps(events) && NewEventIds(m.events)[..|events|] == NewEventIds(m.events);
    QuietIds(m.derived);
    IdsConcat(RecordedOps(events), m.derived);
  }

  lemma {:induction false} BatchIds(s: State, members: seq<Member>)
    requires AppendMembers(s, members).Ok? && forall i :: 0 <= i < |members| ==> ValidMember(members[i])
    ensures Ids(AppendMembers(s, members).value.ops) == MemberIds(members)
  {
    hide Check, MemberOps, ValidMember, StateAfter;
    if members != [] {
      var n := |members| - 1;
      BatchIds(s, members[..n]);
      var b := AppendMembers(s, members[..n]).value;
      MemberOpsIds(b.state, members[n]);
      IdsConcat(b.ops, MemberOps(b.state, members[n]));
    }
  }

  /** A request records exactly the events it carries. */
  lemma PerformIds(s: State, r: Request)
    requires ValidRequest(r) && Perform(s, r).outcome.Ok?
    ensures Ids(Perform(s, r).pending) == if Perform(s, r).outcome.value.deduplicated then [] else RequestIds(r)
  {
    hide ValidMember, Perform, AppendMembers, StateAfter, Admit, RetryOps, Ids, ReceiptOps, AllQuiet;
    AdmitQuiet(s, r);
    if Perform(s, r).outcome.value.deduplicated {
      RetryShape(s, r);
      AllQuietIds(RetryOps(r));
    } else {
      PerformShape(s, r);
      var a := Admit(s, r).ops;
      var b := AppendMembers(StateAfter(s, a), MembersOf(r)).value;
      BatchIds(StateAfter(s, a), MembersOf(r));
      AllQuietIds(a);
      ReceiptIds(r, b.ranges);
      IdsBetween(a, b.ops, ReceiptOps(r, b.ranges));
    }
  }

  lemma AllQuietIds(ops: seq<Op>)
    requires AllQuiet(ops)
    ensures Ids(ops) == []
  {
    QuietIds(ops);
  }

  lemma IdsBetween(a: seq<Op>, b: seq<Op>, c: seq<Op>)
    requires Ids(a) == [] && Ids(c) == []
    ensures Ids(a + b + c) == Ids(b)
  {
    hide Ids;
    IdsConcat(a, b);
    IdsConcat(a + b, c);
  }

  lemma ReceiptIds(r: Request, ranges: seq<Range>)
    ensures Ids(ReceiptOps(r, ranges)) == []
  {
    hide Digests;
    QuietIds(ReceiptOps(r, ranges));
  }

  // ---- Every change keeps the invariant ----

  /** What a caller and the minting of ids guarantee. */
  ghost predicate ValidChange(st: Store, c: Change) {
    match c
    case Serve(r) =>
      && ValidRequest(r) && AllTagged(r.guard.ops)
      && NewIds(RequestIds(r), st.state.events.byPosition)
    case Note(ops) => AllTagged(ops) && forall op :: op in ops ==> Noted(op)
    case Forget(_) => true
    case RedactEvent(_, _, _, _, views) => (set v | v in views) == st.state.projections.Keys
  }

  lemma {:induction false} BatchTagged(s: State, members: seq<Member>)
    requires AppendMembers(s, members).Ok?
    requires forall i :: 0 <= i < |members| ==> AllTagged(members[i].derived)
    ensures AllTagged(AppendMembers(s, members).value.ops)
  {
    hide Check, Tagged, Assigned, StateAfter, Head;
    if members != [] {
      var n := |members| - 1;
      BatchTagged(s, members[..n]);
      var b, m := AppendMembers(s, members[..n]).value, members[n];
      var events := Assigned(m.stream, Head(b.state.events, m.stream), b.state.next, m.events);
      RecordedTagged(events);
    }
  }

  lemma RecordedTagged(events: seq<Event>)
    ensures AllTagged(RecordedOps(events))
  {
  }

  lemma PerformTagged(st: Store, r: Request)
    requires ValidChange(st, Serve(r)) && Perform(st.state, r).outcome.Ok?
    ensures AllTagged(Perform(st.state, r).pending)
  {
    hide Perform, AppendMembers, NewIds, StateAfter, Scopes.Owner, Admit, Digests;
    AdmitTagged(st.state, r);
    if Perform(st.state, r).outcome.value.deduplicated {
      RetryShape(st.state, r);
    } else {
      PerformShape(st.state, r);
      BatchTagged(StateAfter(st.state, Admit(st.state, r).ops), MembersOf(r));
    }
  }

  lemma AdmitTagged(s: State, r: Request)
    requires AllTagged(r.guard.ops)
    ensures AllTagged(Admit(s, r).ops)
  {
    hide StateAfter, Bind, Scopes.Owner;
    if r.AppendGroup? {
      BindQuiet(s, r.tenant, r.batch);
      BindQuiet(StateAfter(s, r.guard.ops), r.tenant, r.batch);
    }
  }

  lemma ServeSound(st: Store, r: Request)
    requires Sound(st) && ValidChange(st, Serve(r))
    ensures Sound(Step(st, Serve(r)))
  {
    hide Perform, Fold, Partition, DistinctIds, Disciplined, Replay, NewIds;
    var w := Perform(st.state, r);
    if w.outcome.Ok? {
      ReplayAgreed(st.history);
      RequestServes(st.state, r);
      CommitReplays(st, w.pending);
      PerformTagged(st, r);
      CommitDisciplined(st, w.pending);
      PerformIds(st.state, r);
      NewIdsFewer(RequestIds(r), st.state.events.byPosition);
      FoldIds(st.state, w.pending);
    }
  }

  lemma NewIdsFewer(ids: seq<string>, log: map<nat, Event>)
    requires NewIds(ids, log)
    ensures NewIds([], log)
  {
  }

  /** Administrative records touch neither the log nor the receipts. */
  ghost predicate KeepsLog(s: State, s': State) {
    s == s'.(identities := s.identities, generations := s.generations, projections := s.projections, dirty := s.dirty,
             rows := s.rows, cursors := s.cursors, blobs := s.blobs, counters := s.counters)
  }

  lemma NoteApply(s: State, op: Op)
    requires Apply(s, op).Some? && Noted(op)
    ensures KeepsLog(s, Apply(s, op).value)
  {
    hide Cleared;
  }

  lemma KeepsLogTwice(a: State, b: State, c: State)
    requires KeepsLog(a, b) && KeepsLog(b, c)
    ensures KeepsLog(a, c)
  {
  }

  lemma {:induction false} NoteFold(s: State, ops: seq<Op>)
    requires Fold(s, ops).Some? && forall op :: op in ops ==> Noted(op)
    ensures KeepsLog(s, Fold(s, ops).value)
  {
    hide Apply, Noted;
    if ops != [] {
      hide KeepsLog;
      var n := |ops| - 1;
      NoteFold(s, ops[..n]);
      NoteApply(Fold(s, ops[..n]).value, ops[n]);
      KeepsLogTwice(s, Fold(s, ops[..n]).value, Fold(s, ops).value);
    }
  }

  lemma NoteSound(st: Store, ops: seq<Op>)
    requires Sound(st) && AllTagged(ops) && forall op :: op in ops ==> Noted(op)
    ensures Sound(Commit(st, ops))
  {
    hide Fold, Partition, DistinctIds, Disciplined, Replay, AllTagged;
    ReplayAgreed(st.history);
    CommitReplays(st, ops);
    CommitDisciplined(st, ops);
    if Fold(st.state, ops).Some? {
      NoteFold(st.state, ops);
      PartitionCarries(st.state, Fold(st.state, ops).value);
    }
  }

  // ---- Rewrites ----

  lemma {:induction false} EraseSub(ops: Transaction, t: Tenant)
    ensures forall op :: op in Erase(ops, t) ==> op in ops
  {
    if ops != [] {
      EraseSub(ops[..|ops| - 1], t);
    }
  }

  lemma EraseDisciplinedOps(ops: Transaction, t: Tenant)
    requires Covered(ops) && AllTagged(ops)
    ensures Covered(Erase(ops, t)) && AllTagged(Erase(ops, t))
  {
    hide Tagged;
    EraseSub(ops, t);
    if exists op :: op in ops && op.Recorded? {
      assert Erase(ops, t)[|Erase(ops, t)| - 1] == ops[|ops| - 1];
    }
  }

  lemma {:induction false} EraseDisciplined(history: seq<Transaction>, t: Tenant)
    requires Disciplined(history)
    ensures Disciplined(EraseAll(history, t))
  {
    hide Covered, AllTagged, Erase;
    if history != [] {
      var n := |history| - 1;
      EraseDisciplined(history[..n], t);
      EraseDisciplinedOps(history[n], t);
    }
  }

  /** Forgetting a tenant leaves exactly the state without it. */
  lemma ForgetSound(st: Store, t: Tenant)
    requires Sound(st)
    ensures Sound(Step(st, Forget(t))) && Step(st, Forget(t)).state == Erased(st.state, t)
  {
    hide Partition, Disciplined, Replay, Erased;
    ErasureCommutes(st.history, t);
    EraseDisciplined(st.history, t);
    ErasedPartition(st.state, t);
    ErasedIds(st.state, t);
  }

  lemma ErasedIds(s: State, t: Tenant)
    requires DistinctIds(s.events.byPosition)
    ensures DistinctIds(Erased(s, t).events.byPosition)
  {
    hide Without, ErasedDirty;
  }

  lemma {:induction false} RedactSub(ops: Transaction, x: Event)
    ensures forall op :: op in Redact(ops, x) ==> exists o :: o in ops && op == RedactOp(o, x)
  {
    if ops != [] {
      var n := |ops| - 1;
      RedactSub(ops[..n], x);
      assert forall o :: o in ops[..n] ==> o in ops;
      assert ops[n] in ops;
    }
  }

  lemma RedactDisciplinedOps(ops: Transaction, x: Event)
    requires Covered(ops) && AllTagged(ops) && OnlyEvent(ops, x)
    ensures Covered(Redact(ops, x)) && AllTagged(Redact(ops, x))
  {
    hide Scopes.Owner;
    RedactSub(ops, x);
    if exists op :: op in ops && op.Recorded? {
      assert Redact(ops, x)[|Redact(ops, x)| - 1] == ops[|ops| - 1];
      var top := ops[|ops| - 1].position;
      forall op | op in Redact(ops, x) && op.Recorded? ensures op.event.position <= top {
        var o :| o in ops && op == RedactOp(o, x);
      }
    }
  }

  lemma {:induction false} RedactDisciplined(history: seq<Transaction>, x: Event)
    requires Disciplined(history) && forall i :: 0 <= i < |history| ==> OnlyEvent(history[i], x)
    ensures Disciplined(RedactAll(history, x))
  {
    hide Covered, AllTagged, Redact, OnlyEvent;
    if history != [] {
      var n := |history| - 1;
      RedactDisciplined(history[..n], x);
      RedactDisciplinedOps(history[n], x);
    }
  }

  /** Because ids do not repeat, every record under the event's id is the event. */
  lemma OnlyOne(st: Store, x: Event, y: Event)
    requires Sound(st) && x.position in st.state.events.byPosition && st.state.events.byPosition[x.position] == x
    requires SameEvent(x, y)
    ensures forall i :: 0 <= i < |st.history| ==> OnlyEvent(st.history[i], y)
  {
    hide Partition, Disciplined, Replay;
    ReplayLogs(st.history);
    forall i | 0 <= i < |st.history| ensures OnlyEvent(st.history[i], y) {
      assert LoggedOps(st.history[i], st.state.events.byPosition);
    }
  }

  /** The event a redaction finds is the one the log holds for that stream and version. */
  lemma FoundLogged(s: State, stream: StreamId, version: nat)
    requires Agreed(s)
    requires OfStream(s.events, stream, version, Some(version)) != []
    ensures var x := OfStream(s.events, stream, version, Some(version))[0];
      x.position in s.events.byPosition && s.events.byPosition[x.position] == x && x.stream == stream && x.version == version
  {
    hide Largest;
    var e := s.events;
    assert Window(e, stream, version, version - 1) == [];
    var versions := VersionsOf(e, stream);
    assert version in versions && Indexed(e, stream, version);
    assert Located(e, versions[version]);
  }

  /** What a redaction leaves of a state: one body, that tenant's rows and cursors, every view of the
      tenant dirty, and a new generation for the stream. Nothing of another tenant moves. */
  ghost function RedactedState(s: State, x: Event, generation: string, views: seq<string>): State {
    var r := Redacted(s, x);
    r.(dirty := r.dirty + DirtyPairs(x.stream.tenant, views), generations := r.generations[x.stream := generation])
  }

  function DirtyPairs(t: Tenant, views: seq<string>): set<(Tenant, string)> {
    set v | v in views :: (t, v)
  }

  lemma {:induction false} DirtyFold(s: State, stream: StreamId, generation: string, views: seq<string>, k: nat)
    requires k <= |views|
    ensures Fold(s, AfterRedaction(stream, generation, views)[..k])
         == Some(s.(dirty := s.dirty + DirtyPairs(stream.tenant, views[..k])))
  {
    hide Apply;
    var ops := AfterRedaction(stream, generation, views);
    if k == 0 {
      assert s.dirty + DirtyPairs(stream.tenant, views[..0]) == s.dirty;
    } else {
      hide Fold, DirtyPairs;
      DirtyFold(s, stream, generation, views, k - 1);
      assert ops[..k] == ops[..k - 1] + [ops[k - 1]];
      FoldSnoc(s, ops[..k - 1], ops[k - 1]);
      DirtyApplied(s, stream.tenant, views, k);
    }
  }

  lemma DirtyApplied(s: State, t: Tenant, views: seq<string>, k: nat)
    requires 0 < k <= |views|
    ensures Apply(s.(dirty := s.dirty + DirtyPairs(t, views[..k - 1])), DirtyView(t, views[k - 1], true))
         == Some(s.(dirty := s.dirty + DirtyPairs(t, views[..k])))
  {
    assert views[..k] == views[..k - 1] + [views[k - 1]];
    assert s.dirty + DirtyPairs(t, views[..k - 1]) + {(t, views[k - 1])} == s.dirty + DirtyPairs(t, views[..k]);
  }

  lemma AfterRedactionFolds(s: State, stream: StreamId, generation: string, views: seq<string>)
    ensures Fold(s, AfterRedaction(stream, generation, views))
         == Some(s.(dirty := s.dirty + DirtyPairs(stream.tenant, views), generations := s.generations[stream := generation]))
  {
    hide Head, Insert, Fold;
    var ops, n := AfterRedaction(stream, generation, views), |views|;
    DirtyFold(s, stream, generation, views, n);
    assert views[..n] == views;
    assert ops == ops[..n] + [ops[n]];
    FoldSnoc(s, ops[..n], ops[n]);
  }

  /** Redacting an event always succeeds, and leaves exactly that. */
  lemma RedactSound(st: Store, c: Change)
    requires Sound(st) && c.RedactEvent?
    ensures Sound(Step(st, c))
    ensures var found := OfStream(st.state.events, c.stream, c.version, Some(c.version));
      found != [] ==> Step(st, c).state == RedactedState(st.state, Tombstone(found[0], c.tombstone), c.generation, c.views)
  {
    hide Partition, Disciplined, Replay, Redacted, Fold, OfStream, DistinctIds, AllTagged;
    var found := OfStream(st.state.events, c.stream, c.version, Some(c.version));
    if found != [] {
      ReplayAgreed(st.history);
      FoundLogged(st.state, c.stream, c.version);
      var x := Tombstone(found[0], c.tombstone);
      OnlyOne(st, found[0], x);
      RedactionCommutes(st.history, x);
      RedactDisciplined(st.history, x);
      RedactedKeeps(st.state, x);
      PartitionCarries(st.state, Redacted(st.state, x));
      var mid := Rewrite(st, RedactAll(st.history, x));
      assert Sound(mid);
      AfterRedactionTagged(c.stream, c.generation, c.views);
      NoteSound(mid, AfterRedaction(c.stream, c.generation, c.views));
      AfterRedactionFolds(mid.state, c.stream, c.generation, c.views);
    }
  }

  lemma RedactedKeeps(s: State, x: Event)
    requires DistinctIds(s.events.byPosition)
    ensures DistinctIds(Redacted(s, x).events.byPosition) && Redacted(s, x).events.byStream == s.events.byStream
    ensures Redacted(s, x).commands == s.commands && Redacted(s, x).claims == s.claims && Redacted(s, x).groups == s.groups
  {
    hide Without;
  }

  lemma AfterRedactionTagged(stream: StreamId, generation: string, views: seq<string>)
    ensures AllTagged(AfterRedaction(stream, generation, views))
    ensures forall op :: op in AfterRedaction(stream, generation, views) ==> Noted(op)
  {
  }

  // ---- Runs ----

  lemma StepSound(st: Store, c: Change)
    requires Sound(st) && ValidChange(st, c)
    ensures Sound(Step(st, c))
  {
    hide Sound, Step;
    match c {
      case Serve(r) => ServeSound(st, r);
      case Note(ops) => NoteStep(st, ops);
      case Forget(t) => ForgetSound(st, t);
      case RedactEvent(_, _, _, _, _) => RedactSound(st, c);
    }
  }

  lemma NoteStep(st: Store, ops: seq<Op>)
    requires Sound(st) && ValidChange(st, Note(ops))
    ensures Sound(Step(st, Note(ops)))
  {
    hide Sound, Commit;
    NoteSound(st, ops);
  }

  function Run(st: Store, cs: seq<Change>): Store {
    if cs == [] then st else Step(Run(st, cs[..|cs| - 1]), cs[|cs| - 1])
  }

  ghost predicate ValidRun(st: Store, cs: seq<Change>) {
    forall i :: 0 <= i < |cs| ==> ValidChange(Run(st, cs[..i]), cs[i])
  }

  const NEW := Store([], EMPTY)

  lemma NewSound()
    ensures Sound(NEW)
  {
    hide Largest, Head, Agreed;
    forall stream ensures Head(EMPTY.events, stream) == 0 {
      EmptyHead(stream);
    }
    assert forall slot :: !Has(EMPTY, slot);
  }

  lemma EmptyHead(stream: StreamId)
    ensures Head(EMPTY.events, stream) == 0
  {
    assert VersionsOf(EMPTY.events, stream).Keys == {};
  }

  /** Over every run of requests, records, redactions and erasures, the kept state is the replay of
      the kept history, the indexes agree, receipts partition every stream and ids are distinct. */
  lemma {:induction false} RunSound(cs: seq<Change>)
    requires ValidRun(NEW, cs)
    ensures Sound(Run(NEW, cs)) && Agreed(Run(NEW, cs).state)
  {
    hide Sound, Step, ValidChange;
    if cs == [] {
      NewSound();
    } else {
      var n := |cs| - 1;
      assert forall i :: 0 <= i < n ==> cs[..n][..i] == cs[..i];
      RunSound(cs[..n]);
      StepSound(Run(NEW, cs[..n]), cs[n]);
    }
    SoundAgreed(Run(NEW, cs));
  }

  lemma SoundAgreed(st: Store)
    requires Sound(st)
    ensures Agreed(st.state)
  {
    hide Partition, Disciplined, Agreed;
    ReplayAgreed(st.history);
  }

  // ---- Retries over runs ----

  function RequestTenant(r: Request): Tenant {
    if r.Append? then r.member.stream.tenant else r.tenant
  }

  lemma ErasedReceipt(s: State, t: Tenant, r: Request, ranges: seq<Range>)
    requires Receipted(s, r, ranges) && RequestTenant(r) != t
    ensures Receipted(Erased(s, t), r, ranges)
  {
    hide ErasedLog, ErasedDirty, CounterOf;
  }

  /** Only forgetting its tenant removes a receipt; nothing overwrites one. */
  lemma StepKeepsReceipt(st: Store, c: Change, r: Request, ranges: seq<Range>)
    requires Sound(st) && ValidChange(st, c) && Receipted(st.state, r, ranges) && c != Forget(RequestTenant(r))
    ensures Receipted(Step(st, c).state, r, ranges)
  {
    hide Partition, Disciplined, Replay, Perform, Fold, DistinctIds, Erased, Receipted, NewIds, OfStream, Redacted;
    SoundAgreed(st);
    match c {
      case Serve(q) =>
        if Perform(st.state, q).outcome.Ok? {
          RequestServes(st.state, q);
          RetainedReceipt(st.state, Fold(st.state, Perform(st.state, q).pending).value, r, ranges);
        }
      case Note(ops) =>
        if Fold(st.state, ops).Some? {
          NoteFold(st.state, ops);
          SameReceipted(st.state, Fold(st.state, ops).value, r, ranges);
        }
      case Forget(t) =>
        ForgetSound(st, t);
        ErasedReceipt(st.state, t, r, ranges);
      case RedactEvent(_, _, _, _, _) =>
        RedactSound(st, c);
        if OfStream(st.state.events, c.stream, c.version, Some(c.version)) != [] {
          var x := Tombstone(OfStream(st.state.events, c.stream, c.version, Some(c.version))[0], c.tombstone);
          RedactedKeeps(st.state, x);
          SameReceipted(st.state, Step(st, c).state, r, ranges);
        }
    }
  }

  lemma SameReceipted(s: State, s': State, r: Request, ranges: seq<Range>)
    requires Receipted(s, r, ranges) && s'.commands == s.commands && s'.claims == s.claims && s'.groups == s.groups
    ensures Receipted(s', r, ranges)
  {
  }

  lemma ShorterRun(cs: seq<Change>)
    requires ValidRun(NEW, cs) && cs != []
    ensures ValidRun(NEW, cs[..|cs| - 1]) && ValidChange(Run(NEW, cs[..|cs| - 1]), cs[|cs| - 1])
  {
    hide ValidChange, Run;
    var n := |cs| - 1;
    assert forall j :: 0 <= j < n ==> cs[..n][..j] == cs[..j];
  }

  lemma {:induction false} RunKeepsReceipt(cs: seq<Change>, i: nat, r: Request, ranges: seq<Range>)
    requires ValidRun(NEW, cs) && i <= |cs| && Receipted(Run(NEW, cs[..i]).state, r, ranges)
    requires forall j :: i <= j < |cs| ==> cs[j] != Forget(RequestTenant(r))
    ensures Receipted(Run(NEW, cs).state, r, ranges)
    decreases |cs|
  {
    hide Receipted, Step, ValidChange, Sound, ValidRun;
    if i == |cs| {
      assert cs[..i] == cs;
    } else {
      var n := |cs| - 1;
      ShorterRun(cs);
      assert cs[..n][..i] == cs[..i];
      RunKeepsReceipt(cs[..n], i, r, ranges);
      RunSound(cs[..n]);
      StepKeepsReceipt(Run(NEW, cs[..n]), cs[n], r, ranges);
    }
  }

  /** A request made again, at any later point of any run that has not forgotten the tenant, appends no
      event, overwrites no receipt and records only what its guard did, if that was called. It is
      answered exactly when undisputed, and then with the ranges of the first answer, each holding its
      events as they are now. */
  lemma RetryAfterRun(cs: seq<Change>, i: nat, r: Request, again: Request)
    requires ValidRun(NEW, cs) && i < |cs| && cs[i] == Serve(r) && ValidRequest(again) && Repeats(again, r)
    requires var w := Perform(Run(NEW, cs[..i]).state, r); w.outcome.Ok? && !w.outcome.value.deduplicated
    requires forall j :: i < j < |cs| ==> cs[j] != Forget(RequestTenant(r))
    ensures var first := Perform(Run(NEW, cs[..i]).state, r).outcome.value;
      var now := Run(NEW, cs).state;
      var w := Perform(now, again);
      && w.pending == RetryOps(again)
      && Fold(now, w.pending).Some? && SameLog(Fold(now, w.pending).value, now)
      && (again.AppendGroup? ==> (again.tenant, again.key) in now.groups)
      && (w.outcome.Ok? <==> Undisputed(now, again))
      && (w.outcome.Ok? ==> w.outcome.value == Answer(RecallAll(now, RangesOf(first.appends)), true))
      && (forall k :: 0 <= k < |first.appends| ==> Complete(now, first.appends[k].range))
  {
    hide Perform, Partition, Replay, Disciplined, Receipted, Complete, NewIds, Fold, SameLog, Undisputed, ValidRequest, Repeats;
    var st := Run(NEW, cs[..i]);
    var ranges := RangesOf(Perform(st.state, r).outcome.value.appends);
    ReceiptAfter(cs, i, r);
    RunSound(cs);
    RetryAnswered(Run(NEW, cs).state, r, ranges, again);
  }

  lemma ReceiptAfter(cs: seq<Change>, i: nat, r: Request)
    requires ValidRun(NEW, cs) && i < |cs| && cs[i] == Serve(r)
    requires var w := Perform(Run(NEW, cs[..i]).state, r); w.outcome.Ok? && !w.outcome.value.deduplicated
    requires forall j :: i < j < |cs| ==> cs[j] != Forget(RequestTenant(r))
    ensures Receipted(Run(NEW, cs).state, r, RangesOf(Perform(Run(NEW, cs[..i]).state, r).outcome.value.appends))
  {
    hide Perform, Receipted, Sound, ValidRun, ValidChange, Run, Step;
    var st := Run(NEW, cs[..i]);
    RunUpTo(cs, i);
    RunSound(cs[..i]);
    ServedReceipt(st, r);
    RunKeepsReceipt(cs, i + 1, r, RangesOf(Perform(st.state, r).outcome.value.appends));
  }

  lemma RunUpTo(cs: seq<Change>, i: nat)
    requires ValidRun(NEW, cs) && i < |cs|
    ensures ValidRun(NEW, cs[..i]) && ValidChange(Run(NEW, cs[..i]), cs[i])
    ensures Run(NEW, cs[..i + 1]) == Step(Run(NEW, cs[..i]), cs[i])
  {
    hide ValidChange, Step;
    assert forall j :: 0 <= j < i ==> cs[..i][..j] == cs[..j];
    assert cs[..i + 1][..i] == cs[..i];
  }

  lemma ServedReceipt(st: Store, r: Request)
    requires Sound(st) && ValidChange(st, Serve(r))
    requires Perform(st.state, r).outcome.Ok? && !Perform(st.state, r).outcome.value.deduplicated
    ensures Receipted(Step(st, Serve(r)).state, r, RangesOf(Perform(st.state, r).outcome.value.appends))
  {
    hide Perform, Partition, Replay, Disciplined, Receipted, NewIds, Fold, ValidRequest, AllTagged, Agreed;
    SoundAgreed(st);
    FreshIsReceipted(st.state, r);
    FreshRecords(st.state, r);
  }

  lemma FreshRecords(s: State, r: Request)
    requires ValidRequest(r) && Perform(s, r).outcome.Ok? && !Perform(s, r).outcome.value.deduplicated
    ensures Perform(s, r).pending != []
  {
    hide Perform, AppendMembers, ValidMember, Admit, StateAfter, AllQuiet;
    PerformShape(s, r);
    BatchNotEmpty(StateAfter(s, Admit(s, r).ops), MembersOf(r));
  }

  lemma {:induction false} BatchNotEmpty(s: State, members: seq<Member>)
    requires AppendMembers(s, members).Ok?
    ensures |AppendMembers(s, members).value.ranges| == |members|
  {
    hide MemberOps, Check, Assigned, Head, StateAfter;
    if members != [] {
      BatchNotEmpty(s, members[..|members| - 1]);
    }
  }
}
