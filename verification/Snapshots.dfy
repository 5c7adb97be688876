/** Cached folds of one stream, and the generations that retire them (`aggregate.rs`; `lib.rs`,
    `generation`, `save_snapshot_checked` and `load_snapshot`).

    A worker observes the stream's generation, loads the cached fold, reads the rest page by page,
    appends, and saves a new fold under the generation it observed. Every one of these is its own
    transaction, so anything may happen in between: appends, redactions, and the erasure of the
    tenant followed by its recreation.

    An aggregate's state is the list of events applied to it, which determines every fold. */
module Snapshots {
  import opened Prelude
  import opened State
  import opened Index
  import opened Rewrites
  import opened Requests
  import opened Receipts
  import opened Stores

  datatype Snapshot = Snapshot(version: nat, state: seq<Event>)
  datatype Worker = Worker(stream: StreamId, generation: string, version: nat, state: seq<Event>)

  /** The store, the cache files by stream, the running workers, and every generation ever minted. */
  datatype Cluster = Cluster(store: Store, cache: map<StreamId, (string, Snapshot)>, workers: map<nat, Worker>, minted: set<string>)

  datatype Step =
    | Others(change: Change)
    | Observe(w: nat, stream: StreamId, id: string)
    | LoadCached(w: nat, readable: bool)
    | Read(w: nat, limit: nat)
    | Append(w: nat, request: Request)
    | Save(w: nat)
    | Dispose(stream: StreamId)

  // ---- The steps ----

  predicate Live(s: State, stream: StreamId, generation: string) {
    stream in s.generations && s.generations[stream] == generation
  }

  /** `load_snapshot`. */
  function Cached(c: Cluster, stream: StreamId): Option<Snapshot> {
    if stream in c.cache && Live(c.store.state, stream, c.cache[stream].0) then Some(c.cache[stream].1) else None
  }

  /** The loop of `finish`: fold what the append returned past the loaded version. */
  function Finish(state: seq<Event>, version: nat, events: seq<Event>): (seq<Event>, nat) {
    if events == [] then (state, version)
    else
      var n := |events| - 1;
      var (done, v) := Finish(state, version, events[..n]);
      if events[n].version > v then (done + [events[n]], events[n].version) else (done, v)
  }

  method FinishLoop(loaded: seq<Event>, at: nat, events: seq<Event>) returns (state: seq<Event>, version: nat)
    ensures (state, version) == Finish(loaded, at, events)
  {
    state, version := loaded, at;
    for i := 0 to |events|
      invariant (state, version) == Finish(loaded, at, events[..i])
    {
      assert events[..i + 1][..i] == events[..i];
      if events[i].version > version {
        state, version := state + [events[i]], events[i].version;
      }
    }
    assert events[..|events|] == events;
  }

  function Take(c: Cluster, step: Step): Cluster {
    match step
    case Others(change) =>
      c.(store := Stores.Step(c.store, change), minted := if change.RedactEvent? then c.minted + {change.generation} else c.minted)
    case Observe(w, stream, id) =>
      if stream in c.store.state.generations then
        c.(workers := c.workers[w := Worker(stream, c.store.state.generations[stream], 0, [])])
      else
        c.(store := Stores.Commit(c.store, [Generation(stream, id)]), minted := c.minted + {id},
           workers := c.workers[w := Worker(stream, id, 0, [])])
    case LoadCached(w, readable) =>
      if w !in c.workers then c
      else
        var found := Cached(c, c.workers[w].stream);
        var start := if found.Some? && readable then found.value else Snapshot(0, []);
        c.(workers := c.workers[w := c.workers[w].(version := start.version, state := start.state)])
    case Read(w, limit) =>
      if w !in c.workers then c
      else
        var slice := Slice(c.store.state, c.workers[w].stream, c.workers[w].version, limit);
        c.(workers := c.workers[w := c.workers[w].(version := slice.nextVersion, state := c.workers[w].state + slice.events)])
    case Append(w, request) =>
      var work := Perform(c.store.state, request);
      if w !in c.workers || work.outcome.Err? || work.outcome.value.appends == [] then c
      else
        var (state, version) := Finish(c.workers[w].state, c.workers[w].version, work.outcome.value.appends[0].events);
        c.(store := Stores.Commit(c.store, work.pending), workers := c.workers[w := c.workers[w].(version := version, state := state)])
    case Save(w) =>
      if w !in c.workers || !Live(c.store.state, c.workers[w].stream, c.workers[w].generation) then c
      else
        var worker := c.workers[w];
        c.(cache := c.cache[worker.stream := (worker.generation, Snapshot(worker.version, worker.state))])
    case Dispose(stream) => c.(cache := c.cache - {stream})
  }

  // ---- What the fold of a stream is ----

  /** The first `n` events of a stream, as they are now. */
  function Prefix(s: State, stream: StreamId, n: nat): seq<Event> {
    Window(s.events, stream, 1, n)
  }

  ghost predicate Genuine(s: State, stream: StreamId, version: nat, state: seq<Event>) {
    version <= Head(s.events, stream) && state == Prefix(s, stream, version)
  }

  ghost predicate InLog(s: State, x: Event) {
    x.position in s.events.byPosition && s.events.byPosition[x.position] == x
  }

  /** A window is whatever logged events have its versions. */
  lemma {:induction false} WindowOf(s: State, stream: StreamId, from: nat, events: seq<Event>)
    requires Agreed(s) && from > 0
    requires forall i :: 0 <= i < |events| ==> events[i].stream == stream && events[i].version == from + i && InLog(s, events[i])
    ensures Window(s.events, stream, from, from + |events| - 1) == events
    ensures events != [] ==> from + |events| - 1 <= Head(s.events, stream)
  {
    if events != [] {
      var n := |events| - 1;
      WindowOf(s, stream, from, events[..n]);
      assert Located(s.events, events[n].position);
    }
  }

  lemma {:induction false} WindowJoin(e: Events, stream: StreamId, a: nat, b: nat)
    requires a <= b
    ensures Window(e, stream, 1, b) == Window(e, stream, 1, a) + Window(e, stream, a + 1, b)
  {
    if a < b {
      WindowJoin(e, stream, a, b - 1);
    }
  }

  lemma {:induction false} PrefixLogged(s: State, stream: StreamId, n: nat)
    requires Agreed(s) && n <= Head(s.events, stream)
    ensures forall i :: 0 <= i < |Prefix(s, stream, n)| ==> InLog(s, Prefix(s, stream, n)[i])
  {
    hide Contiguous;
    if n > 0 {
      PrefixLogged(s, stream, n - 1);
      var versions, shorter, all := VersionsOf(s.events, stream), Prefix(s, stream, n - 1), Prefix(s, stream, n);
      forall i | 0 <= i < |all| ensures InLog(s, all[i]) {
        if i < |shorter| {
          assert all[i] == shorter[i];
        } else {
          assert Indexed(s.events, stream, n);
          assert Located(s.events, versions[n]);
        }
      }
    }
  }

  /** Everything logged of the stream is still logged. */
  ghost predicate Carries(s: State, s': State, stream: StreamId) {
    forall p :: p in s.events.byPosition && s.events.byPosition[p].stream == stream ==>
      p in s'.events.byPosition && s'.events.byPosition[p] == s.events.byPosition[p]
  }

  lemma CarriesGenuine(s: State, s': State, stream: StreamId, version: nat, state: seq<Event>)
    requires Agreed(s) && Agreed(s') && Carries(s, s', stream) && Genuine(s, stream, version, state)
    ensures Genuine(s', stream, version, state)
  {
    hide Agreed, Head;
    WindowShape(s, stream, 1, version);
    PrefixLogged(s, stream, version);
    WindowOf(s', stream, 1, state);
  }

  // ---- What others do to a live generation ----

  predicate NoGeneration(ops: seq<Op>) {
    forall op :: op in ops ==> !op.Generation?
  }

  lemma ApplyGenerations(s: State, op: Op)
    requires !op.Generation? && Apply(s, op).Some?
    ensures Apply(s, op).value.generations == s.generations
  {
    hide Head, Insert, Cleared;
  }

  lemma {:induction false} FoldGenerations(s: State, ops: seq<Op>)
    requires NoGeneration(ops) && Fold(s, ops).Some?
    ensures Fold(s, ops).value.generations == s.generations
  {
    hide Apply;
    if ops != [] {
      var n := |ops| - 1;
      FoldGenerations(s, ops[..n]);
      ApplyGenerations(Fold(s, ops[..n]).value, ops[n]);
    }
  }

  lemma {:induction false} BatchGenerations(s: State, members: seq<Member>)
    requires AppendMembers(s, members).Ok? && forall i :: 0 <= i < |members| ==> ValidMember(members[i])
    ensures NoGeneration(AppendMembers(s, members).value.ops)
  {
    hide Check, StateAfter, Assigned, Head;
    if members != [] {
      BatchGenerations(s, members[..|members| - 1]);
    }
  }

  lemma PerformGenerations(s: State, r: Request)
    requires ValidRequest(r) && Perform(s, r).outcome.Ok?
    ensures NoGeneration(Perform(s, r).pending)
  {
    hide Perform, AppendMembers, StateAfter, Admit, RetryOps, Digests;
    AdmitQuiet(s, r);
    if Perform(s, r).outcome.value.deduplicated {
      RetryShape(s, r);
    } else {
      PerformShape(s, r);
      BatchGenerations(StateAfter(s, Admit(s, r).ops), MembersOf(r));
    }
  }

  /** A committed request grows the log and leaves every generation. */
  lemma ServeCarries(st: Store, r: Request, stream: StreamId)
    requires Stores.Sound(st) && ValidChange(st, Serve(r)) && Perform(st.state, r).outcome.Ok?
    ensures var s' := Stores.Commit(st, Perform(st.state, r).pending).state;
      && Carries(st.state, s', stream) && s'.generations == st.state.generations
      && Fold(st.state, Perform(st.state, r).pending) == Some(s')
  {
    hide Perform, Fold, Partition, Disciplined, DistinctIds, Replay, NewIds, Agreed;
    SoundAgreed(st);
    RequestServes(st.state, r);
    var pending := Perform(st.state, r).pending;
    PerformGenerations(st.state, r);
    FoldGenerations(st.state, pending);
    FoldLogs(st.state, pending);
    if pending == [] {
      FoldNothing(st.state);
    }
  }

  lemma NoteCarries(st: Store, ops: seq<Op>, stream: StreamId)
    requires (forall op :: op in ops ==> Noted(op)) && NoGeneration(ops)
    ensures var s' := Stores.Commit(st, ops).state;
      Carries(st.state, s', stream) && s'.generations == st.state.generations
  {
    hide Fold;
    if Fold(st.state, ops).Some? {
      NoteFold(st.state, ops);
      FoldGenerations(st.state, ops);
    }
  }

  /** A generation that is live after a change was live before it, and its stream is carried. Only a
      redaction's own new generation is an exception. */
  lemma ChangeCarries(st: Store, c: Change, stream: StreamId, generation: string)
    requires Stores.Sound(st) && ValidChange(st, c) && (c.Note? ==> NoGeneration(c.ops))
    requires Live(Stores.Step(st, c).state, stream, generation) && !(c.RedactEvent? && generation == c.generation)
    ensures Live(st.state, stream, generation) && Carries(st.state, Stores.Step(st, c).state, stream)
  {
    hide Perform, Fold, Partition, Disciplined, DistinctIds, Replay, NewIds, OfStream, Stores.Commit;
    match c
    case Serve(r) =>
      if Perform(st.state, r).outcome.Ok? {
        ServeCarries(st, r, stream);
      }
    case Note(ops) => NoteCarries(st, ops, stream);
    case Forget(t) =>
      ForgetSound(st, t);
      ErasedCarries(st.state, t, stream, generation);
    case RedactEvent(_, _, _, _, _) =>
      RedactSound(st, c);
      var found := OfStream(st.state.events, c.stream, c.version, Some(c.version));
      if found != [] {
        SoundAgreed(st);
        FoundLogged(st.state, c.stream, c.version);
        RedactCarries(st.state, found[0], Tombstone(found[0], c.tombstone), c.generation, c.views, stream, generation);
      }
  }

  lemma ErasedCarries(s: State, t: Tenant, stream: StreamId, generation: string)
    requires Live(Erased(s, t), stream, generation)
    ensures Live(s, stream, generation) && Carries(s, Erased(s, t), stream)
  {
  }

  lemma RedactCarries(s: State, x: Event, y: Event, fresher: string, views: seq<string>, stream: StreamId, generation: string)
    requires InLog(s, x) && DistinctIds(s.events.byPosition) && SameEvent(x, y) && generation != fresher
    requires Live(RedactedState(s, y, fresher, views), stream, generation)
    ensures Live(s, stream, generation) && Carries(s, RedactedState(s, y, fresher, views), stream)
  {
    hide Without, DirtyPairs;
  }

  // ---- The invariant ----

  ghost predicate WorkerOk(c: Cluster, k: Worker) {
    && k.generation in c.minted
    && (Live(c.store.state, k.stream, k.generation) ==> Genuine(c.store.state, k.stream, k.version, k.state))
  }

  ghost predicate CacheOk(c: Cluster, stream: StreamId, entry: (string, Snapshot)) {
    && entry.0 in c.minted
    && (Live(c.store.state, stream, entry.0) ==> Genuine(c.store.state, stream, entry.1.version, entry.1.state))
  }

  ghost predicate ClusterOk(c: Cluster) {
    && Stores.Sound(c.store)
    && (forall stream :: stream in c.store.state.generations ==> c.store.state.generations[stream] in c.minted)
    && (forall w :: w in c.workers ==> WorkerOk(c, c.workers[w]))
    && (forall stream :: stream in c.cache ==> CacheOk(c, stream, c.cache[stream]))
  }

  /** When folding a deduplicated result is right: it holds nothing new, or it continues the stream. */
  predicate SafeRange(k: Worker, range: Range) {
    range.last <= k.version || (range.stream == k.stream && range.first <= k.version + 1)
  }

  predicate Expects(k: Worker, m: Member) {
    m.stream == k.stream && (m.expected == Exact(k.version) || (m.expected == NoStream && k.version == 0))
  }

  ghost predicate ValidStep(c: Cluster, step: Step) {
    match step
    case Others(change) =>
      && ValidChange(c.store, change)
      && (change.RedactEvent? ==> change.generation !in c.minted)
      && (change.Note? ==> NoGeneration(change.ops))
    case Observe(_, _, id) => id !in c.minted
    case Append(w, request) =>
      && w in c.workers && request.Append? && ValidChange(c.store, Serve(request)) && Expects(c.workers[w], request.member)
      && (var out := Perform(c.store.state, request).outcome;
          out.Ok? && out.value.deduplicated && out.value.appends != [] ==> SafeRange(c.workers[w], out.value.appends[0].range))
    case _ => true
  }

  // ---- Finishing ----

  /** Folding a run of consecutive versions keeps those past the loaded version. */
  lemma {:induction false} FinishRun(state: seq<Event>, version: nat, events: seq<Event>, first: nat)
    requires forall i :: 0 <= i < |events| ==> events[i].version == first + i
    ensures var skip := if version < first then 0 else if version + 1 - first <= |events| then version + 1 - first else |events|;
      && Finish(state, version, events).0 == state + events[skip..]
      && Finish(state, version, events).1 == if skip == |events| then version else first + |events| - 1
  {
    if events != [] {
      FinishRun(state, version, events[..|events| - 1], first);
    }
  }

  /** `finish` keeps the fold genuine exactly when the returned range holds nothing past the loaded
      version, or is of the same stream and leaves no gap after it. */
  lemma FinishExact(s: State, k: Worker, range: Range)
    requires Agreed(s) && Genuine(s, k.stream, k.version, k.state)
    requires 1 <= range.first <= range.last <= Head(s.events, range.stream)
    ensures var (state, version) := Finish(k.state, k.version, Recall(s, range).events);
      Genuine(s, k.stream, version, state) <==> SafeRange(k, range)
  {
    hide Agreed, Head, Genuine, Finish, Recall;
    if SafeRange(k, range) {
      FinishSafe(s, k, range);
    } else {
      FinishUnsafe(s, k, range);
    }
  }

  lemma FinishSafe(s: State, k: Worker, range: Range)
    requires Agreed(s) && Genuine(s, k.stream, k.version, k.state) && SafeRange(k, range)
    requires 1 <= range.first <= range.last <= Head(s.events, range.stream)
    ensures var (state, version) := Finish(k.state, k.version, Recall(s, range).events);
      Genuine(s, k.stream, version, state)
  {
    hide Agreed, Head, Finish, Recall, Window;
    var events := Recall(s, range).events;
    RecallComplete(s, range);
    FinishRun(k.state, k.version, events, range.first);
    var (state, version) := Finish(k.state, k.version, events);
    if range.last > k.version {
      WindowJoin(s.events, k.stream, k.version, range.last);
      FinishSuffix(s, k, range);
      assert version == range.last && state == Prefix(s, k.stream, range.last);
    } else {
      assert events[|events|..] == [];
      assert version == k.version && state == k.state;
    }
  }

  lemma FinishUnsafe(s: State, k: Worker, range: Range)
    requires Agreed(s) && Genuine(s, k.stream, k.version, k.state) && !SafeRange(k, range)
    requires 1 <= range.first <= range.last <= Head(s.events, range.stream)
    ensures var (state, version) := Finish(k.state, k.version, Recall(s, range).events);
      !Genuine(s, k.stream, version, state)
  {
    hide Agreed, Head, Finish, Recall;
    var events := Recall(s, range).events;
    RecallComplete(s, range);
    FinishRun(k.state, k.version, events, range.first);
    WindowShape(s, k.stream, 1, k.version);
    var (state, version) := Finish(k.state, k.version, events);
    assert version == range.last;
    if range.last <= Head(s.events, k.stream) {
      WindowShape(s, k.stream, 1, range.last);
      assert state[|state| - 1] == events[|events| - 1];
    }
  }

  /** What is left of a continuing range past the loaded version is the stream past it. */
  lemma FinishSuffix(s: State, k: Worker, range: Range)
    requires Agreed(s) && range.stream == k.stream && range.first <= k.version + 1
    requires 1 <= range.first && k.version < range.last <= Head(s.events, k.stream)
    ensures var events := Recall(s, range).events;
      k.version + 1 - range.first <= |events|
      && events[k.version + 1 - range.first..] == Window(s.events, k.stream, k.version + 1, range.last)
  {
    hide Agreed, Head, Window;
    var earlier, later := Window(s.events, k.stream, range.first, k.version), Window(s.events, k.stream, k.version + 1, range.last);
    WindowSplit(s.events, k.stream, range.first, k.version, range.last);
    WindowShape(s, k.stream, range.first, k.version);
    assert Recall(s, range).events == earlier + later && |earlier| == k.version + 1 - range.first;
  }

  lemma {:induction false} WindowSplit(e: Events, stream: StreamId, from: nat, a: nat, b: nat)
    requires from <= a + 1 && a <= b
    ensures Window(e, stream, from, b) == Window(e, stream, from, a) + Window(e, stream, a + 1, b)
  {
    if a < b {
      WindowSplit(e, stream, from, a, b - 1);
    }
  }

  // ---- What an append returns ----

  /** A retry's answer is one recorded range, with the events it holds now. */
  lemma DeduplicatedRange(s: State, r: Request)
    requires Partition(s) && r.Append? && Perform(s, r).outcome.Ok? && Perform(s, r).outcome.value.deduplicated
    ensures Perform(s, r).pending == [] && |Perform(s, r).outcome.value.appends| == 1
    ensures var a := Perform(s, r).outcome.value.appends[0];
      a == Recall(s, a.range) && 1 <= a.range.first <= a.range.last <= Head(s.events, a.range.stream)
  {
    hide Head, AppendMembers, Admit, ReceiptOps, RefusedOps, Check, OfStream, Apart, Accounted;
    Unchanged(s);
    var range := Perform(s, r).outcome.value.appends[0].range;
    var claim := if r.claim.Some? then r.claim.value else ClaimId("", "", "");
    var k := (r.member.stream.tenant, claim.scope, claim.key);
    if r.claim.Some? && k in s.claims {
      assert ClaimBacked(s, k);
      var key :| (range.stream, key) in s.commands && s.commands[(range.stream, key)].range == range;
      assert Has(s, CommandSlot(range.stream, key)) && Sane(s, CommandSlot(range.stream, key));
    } else {
      assert Has(s, CommandSlot(r.member.stream, r.key)) && Sane(s, CommandSlot(r.member.stream, r.key));
    }
  }

  /** A new append continues the version that the worker expected, and what it returned is recorded. */
  lemma FreshEvents(s: State, r: Request)
    requires Agreed(s) && Partition(s) && ValidRequest(r) && r.Append?
    requires Perform(s, r).outcome.Ok? && !Perform(s, r).outcome.value.deduplicated
    ensures Check(s, r.member).Ok? && |Perform(s, r).outcome.value.appends| == 1
    ensures var events := Perform(s, r).outcome.value.appends[0].events;
      forall i :: 0 <= i < |events| ==>
        && events[i].stream == r.member.stream && events[i].version == Head(s.events, r.member.stream) + 1 + i
        && Recorded(events[i]) in Perform(s, r).pending
  {
    hide Agreed, Partition, Head, AllQuiet, SameLog, Fold, Wanted, Perform, Admit;
    PerformShape(s, r);
    FreshChecked(s, r);
    AdmitQuiet(s, r);
    Admitted(s, Admit(s, r).ops);
    var s1 := StateAfter(s, Admit(s, r).ops);
    SameHead(s1, s, r.member.stream);
    var b := AppendMembers(s1, [r.member]).value;
    var events := Assigned(r.member.stream, Head(s1.events, r.member.stream), s1.next, r.member.events);
    OneMember(s1, r.member);
    forall i | 0 <= i < |events| ensures Recorded(events[i]) in Perform(s, r).pending {
      assert RecordedOps(events)[i] == Recorded(events[i]);
      assert Recorded(events[i]) in b.ops;
    }
  }

  lemma FreshChecked(s: State, r: Request)
    requires r.Append? && Perform(s, r).outcome.Ok? && !Perform(s, r).outcome.value.deduplicated
    ensures Check(s, r.member).Ok?
  {
    hide PerformNew, Check, RecallAll;
  }

  lemma OneMember(s: State, m: Member)
    requires AppendMembers(s, [m]).Ok?
    ensures var b := AppendMembers(s, [m]).value;
      var events := Assigned(m.stream, Head(s.events, m.stream), s.next, m.events);
      b.ops == RecordedOps(events) + m.derived && b.results == [AppendResult(MemberRange(s, m), events)]
  {
    hide Head, StateAfter, Wanted, Assigned, RecordedOps;
    assert AppendMembers(s, []) == Ok(Batch([], s, [], [])) && [m][..0] == [];
  }

  lemma SameHead(a: State, b: State, stream: StreamId)
    requires SameLog(a, b)
    ensures Head(a.events, stream) == Head(b.events, stream)
  {
    hide Head;
  }

  /** Finishing a new append keeps the worker's fold genuine. */
  lemma FinishFresh(st: Store, k: Worker, r: Request)
    requires Stores.Sound(st) && ValidChange(st, Serve(r)) && r.Append? && Expects(k, r.member)
    requires Perform(st.state, r).outcome.Ok? && !Perform(st.state, r).outcome.value.deduplicated
    requires Genuine(st.state, k.stream, k.version, k.state)
    ensures var out := Perform(st.state, r).outcome.value.appends;
      && |out| == 1
      && var (state, version) := Finish(k.state, k.version, out[0].events);
         Genuine(Stores.Commit(st, Perform(st.state, r).pending).state, k.stream, version, state)
  {
    hide Perform, Fold, Partition, Disciplined, DistinctIds, Replay, NewIds, Agreed, Head;
    hide Finish, Window, AllQuiet, AllTagged, ValidMember;
    var s, w := st.state, Perform(st.state, r);
    SoundAgreed(st);
    FreshEvents(s, r);
    ServeCarries(st, r, k.stream);
    var s' := Stores.Commit(st, w.pending).state;
    FoldLogs(s, w.pending);
    CarriesGenuine(s, s', k.stream, k.version, k.state);
    var events := w.outcome.value.appends[0].events;
    forall i | 0 <= i < |events| ensures InLog(s', events[i]) {
      assert LoggedOps(w.pending, s'.events.byPosition) && Recorded(events[i]) in w.pending;
    }
    WindowOf(s', k.stream, k.version + 1, events);
    WindowJoin(s'.events, k.stream, k.version, k.version + |events|);
    FinishRun(k.state, k.version, events, k.version + 1);
    assert events[0..] == events;
    if events == [] {
      assert Finish(k.state, k.version, events) == (k.state, k.version);
    } else {
      assert Finish(k.state, k.version, events) == (Prefix(s', k.stream, k.version + |events|), k.version + |events|);
    }
  }

  /** Reading the next page keeps the worker's fold genuine. */
  lemma ReadGenuine(s: State, stream: StreamId, version: nat, state: seq<Event>, limit: nat)
    requires Agreed(s) && Genuine(s, stream, version, state)
    ensures var slice := Slice(s, stream, version, limit); Genuine(s, stream, slice.nextVersion, state + slice.events)
  {
    hide Agreed, Head;
    var slice, head := Slice(s, stream, version, limit), Head(s.events, stream);
    SliceShape(s, stream, version, limit);
    WindowShape(s, stream, version + 1, slice.nextVersion);
    WindowSplit(s.events, stream, version + 1, slice.nextVersion, head);
    assert slice.events == Window(s.events, stream, version + 1, slice.nextVersion);
    WindowJoin(s.events, stream, version, slice.nextVersion);
  }

  // ---- Every step ----

  /** The store moved; workers and files did not. */
  lemma StoreMoves(c: Cluster, c': Cluster)
    requires ClusterOk(c) && Stores.Sound(c'.store) && c'.workers == c.workers && c'.cache == c.cache && c.minted <= c'.minted
    requires forall stream :: stream in c'.store.state.generations ==> c'.store.state.generations[stream] in c'.minted
    requires forall stream, g :: g in c.minted && Live(c'.store.state, stream, g) ==>
      Live(c.store.state, stream, g) && Carries(c.store.state, c'.store.state, stream)
    ensures ClusterOk(c')
  {
    hide Stores.Sound, Carries, Genuine, Live;
    SoundAgreed(c.store);
    SoundAgreed(c'.store);
    hide Agreed;
    forall w | w in c.workers ensures WorkerOk(c', c.workers[w]) {
      var k := c.workers[w];
      assert WorkerOk(c, k);
      if Live(c'.store.state, k.stream, k.generation) {
        CarriesGenuine(c.store.state, c'.store.state, k.stream, k.version, k.state);
      }
    }
    forall stream | stream in c.cache ensures CacheOk(c', stream, c.cache[stream]) {
      var entry := c.cache[stream];
      assert CacheOk(c, stream, entry);
      if Live(c'.store.state, stream, entry.0) {
        CarriesGenuine(c.store.state, c'.store.state, stream, entry.1.version, entry.1.state);
      }
    }
  }

  lemma OthersOk(c: Cluster, change: Change)
    requires ClusterOk(c) && ValidStep(c, Others(change))
    ensures ClusterOk(Take(c, Others(change)))
  {
    hide Stores.Sound, ValidChange, Stores.Step, Carries, WorkerOk, CacheOk;
    var c' := Take(c, Others(change));
    StepSound(c.store, change);
    forall stream, g | g in c.minted && Live(c'.store.state, stream, g)
      ensures Live(c.store.state, stream, g) && Carries(c.store.state, c'.store.state, stream)
    {
      ChangeCarries(c.store, change, stream, g);
    }
    forall stream | stream in c'.store.state.generations ensures c'.store.state.generations[stream] in c'.minted {
      var g := c'.store.state.generations[stream];
      if !(change.RedactEvent? && g == change.generation) {
        ChangeCarries(c.store, change, stream, g);
      }
    }
    StoreMoves(c, c');
  }

  lemma EmptyGenuine(s: State, stream: StreamId)
    ensures Genuine(s, stream, 0, [])
  {
    hide Head;
  }

  /** Replacing one worker by one whose fold is genuine where it matters. */
  lemma PutWorker(c: Cluster, w: nat, k: Worker)
    requires ClusterOk(c) && WorkerOk(c, k)
    ensures ClusterOk(c.(workers := c.workers[w := k]))
  {
    hide Stores.Sound, Genuine;
  }

  lemma ObserveOk(c: Cluster, w: nat, stream: StreamId, id: string)
    requires ClusterOk(c) && id !in c.minted
    ensures ClusterOk(Take(c, Observe(w, stream, id)))
  {
    hide Stores.Sound, WorkerOk, CacheOk, Fold, Agreed, Genuine;
    if stream in c.store.state.generations {
      var k := Worker(stream, c.store.state.generations[stream], 0, []);
      EmptyGenuine(c.store.state, stream);
      assert WorkerOk(c, k) by { GenuineWorker(c, k); }
      PutWorker(c, w, k);
    } else {
      var ops := [Generation(stream, id)];
      var mid := c.(store := Stores.Commit(c.store, ops), minted := c.minted + {id});
      NoteSound(c.store, ops);
      GenerationApplied(c.store.state, stream, id);
      StoreMoves(c, mid);
      var k := Worker(stream, id, 0, []);
      EmptyGenuine(mid.store.state, stream);
      GenuineWorker(mid, k);
      PutWorker(mid, w, k);
    }
  }

  lemma GenuineWorker(c: Cluster, k: Worker)
    requires k.generation in c.minted && Genuine(c.store.state, k.stream, k.version, k.state)
    ensures WorkerOk(c, k)
  {
    hide Genuine;
  }

  lemma GenerationApplied(s: State, stream: StreamId, id: string)
    ensures Fold(s, [Generation(stream, id)]) == Some(s.(generations := s.generations[stream := id]))
  {
    hide Head, Insert;
    assert [Generation(stream, id)][..0] == [];
  }

  lemma LoadOk(c: Cluster, w: nat, readable: bool)
    requires ClusterOk(c)
    ensures ClusterOk(Take(c, LoadCached(w, readable)))
  {
    hide Stores.Sound, Genuine;
    if w in c.workers {
      var k := c.workers[w];
      var found := Cached(c, k.stream);
      var start := if found.Some? && readable then found.value else Snapshot(0, []);
      EmptyGenuine(c.store.state, k.stream);
      assert WorkerOk(c, k);
      assert k.stream in c.cache ==> CacheOk(c, k.stream, c.cache[k.stream]);
      PutWorker(c, w, k.(version := start.version, state := start.state));
    }
  }

  lemma ReadOk(c: Cluster, w: nat, limit: nat)
    requires ClusterOk(c)
    ensures ClusterOk(Take(c, Read(w, limit)))
  {
    hide Stores.Sound, Genuine, Slice, Agreed;
    if w in c.workers {
      var k := c.workers[w];
      var slice := Slice(c.store.state, k.stream, k.version, limit);
      SoundAgreed(c.store);
      assert WorkerOk(c, k);
      if Live(c.store.state, k.stream, k.generation) {
        ReadGenuine(c.store.state, k.stream, k.version, k.state, limit);
      }
      PutWorker(c, w, k.(version := slice.nextVersion, state := k.state + slice.events));
    }
  }

  lemma SaveOk(c: Cluster, w: nat)
    requires ClusterOk(c)
    ensures ClusterOk(Take(c, Save(w)))
  {
    hide Stores.Sound, Genuine;
    if w in c.workers {
      var k := c.workers[w];
      assert WorkerOk(c, k);
      assert CacheOk(c, k.stream, (k.generation, Snapshot(k.version, k.state)));
    }
  }

  lemma AppendOk(c: Cluster, w: nat, r: Request)
    requires ClusterOk(c) && ValidStep(c, Step.Append(w, r))
    ensures ClusterOk(Take(c, Step.Append(w, r)))
  {
    hide Stores.Sound, Genuine, Perform, ValidChange, Finish, Stores.Commit, Agreed, WorkerOk, CacheOk, Carries;
    var work := Perform(c.store.state, r);
    if work.outcome.Ok? && work.outcome.value.appends != [] {
      var k := c.workers[w];
      var (state, version) := Finish(k.state, k.version, work.outcome.value.appends[0].events);
      var mid := c.(store := Stores.Commit(c.store, work.pending));
      ServedOk(c, r);
      FinishOk(c, k, r);
      PutWorker(mid, w, k.(version := version, state := state));
    }
  }

  function RequestStream(r: Request): StreamId {
    if r.Append? then r.member.stream else StreamId(r.tenant, "", "")
  }

  lemma ServedOk(c: Cluster, r: Request)
    requires ClusterOk(c) && ValidChange(c.store, Serve(r)) && Perform(c.store.state, r).outcome.Ok?
    ensures ClusterOk(c.(store := Stores.Commit(c.store, Perform(c.store.state, r).pending)))
  {
    hide Stores.Sound, Perform, ValidChange, Stores.Commit, WorkerOk, CacheOk;
    var mid := c.(store := Stores.Commit(c.store, Perform(c.store.state, r).pending));
    ServeSound(c.store, r);
    ServeCarries(c.store, r, RequestStream(r));
    forall stream ensures Carries(c.store.state, mid.store.state, stream) {
      ServeCarries(c.store, r, stream);
    }
    StoreMoves(c, mid);
  }

  lemma FinishOk(c: Cluster, k: Worker, r: Request)
    requires ClusterOk(c) && WorkerOk(c, k) && ValidChange(c.store, Serve(r)) && r.Append? && Expects(k, r.member)
    requires var out := Perform(c.store.state, r).outcome;
      out.Ok? && out.value.appends != [] && (out.value.deduplicated ==> SafeRange(k, out.value.appends[0].range))
    ensures var work := Perform(c.store.state, r);
      var (state, version) := Finish(k.state, k.version, work.outcome.value.appends[0].events);
      WorkerOk(c.(store := Stores.Commit(c.store, work.pending)), k.(version := version, state := state))
  {
    hide Perform, ValidChange, Finish, Genuine, Agreed, Disciplined, Partition, Replay, Fold;
    var s, work := c.store.state, Perform(c.store.state, r);
    ServeCarries(c.store, r, k.stream);
    if Live(s, k.stream, k.generation) {
      if work.outcome.value.deduplicated {
        DeduplicatedRange(s, r);
        SoundAgreed(c.store);
        FinishSafe(s, k, work.outcome.value.appends[0].range);
      } else {
        FinishFresh(c.store, k, r);
      }
    }
  }

  lemma TakeOk(c: Cluster, step: Step)
    requires ClusterOk(c) && ValidStep(c, step)
    ensures ClusterOk(Take(c, step))
  {
    hide ClusterOk, Take;
    match step
    case Others(change) => OthersOk(c, change);
    case Observe(w, stream, id) => ObserveOk(c, w, stream, id);
    case LoadCached(w, readable) => LoadOk(c, w, readable);
    case Read(w, limit) => ReadOk(c, w, limit);
    case Append(w, request) => AppendOk(c, w, request);
    case Save(w) => SaveOk(c, w);
    case Dispose(stream) => DisposeOk(c, stream);
  }

  lemma DisposeOk(c: Cluster, stream: StreamId)
    requires ClusterOk(c)
    ensures ClusterOk(Take(c, Dispose(stream)))
  {
    hide Stores.Sound, Genuine;
  }

  // ---- Runs ----

  function Run(c: Cluster, steps: seq<Step>): Cluster {
    if steps == [] then c else Take(Run(c, steps[..|steps| - 1]), steps[|steps| - 1])
  }

  ghost predicate ValidRun(c: Cluster, steps: seq<Step>) {
    steps == [] || (var n := |steps| - 1; ValidRun(c, steps[..n]) && ValidStep(Run(c, steps[..n]), steps[n]))
  }

  const FIRST := Cluster(NEW, map[], map[], {})

  lemma {:induction false} RunOk(steps: seq<Step>)
    requires ValidRun(FIRST, steps)
    ensures ClusterOk(Run(FIRST, steps))
  {
    hide ClusterOk, Take, ValidStep;
    if steps == [] {
      FirstOk();
    } else {
      var n := |steps| - 1;
      RunOk(steps[..n]);
      TakeOk(Run(FIRST, steps[..n]), steps[n]);
    }
  }

  lemma FirstOk()
    ensures ClusterOk(FIRST)
  {
    hide Stores.Sound;
    NewSound();
  }

  /** In every interleaving, a cached fold that `load_snapshot` returns is the fold of the stream's
      first events as they are now, so continuing it with the rest is the fold from zero. */
  lemma CachedIsFold(steps: seq<Step>, stream: StreamId)
    requires ValidRun(FIRST, steps) && Cached(Run(FIRST, steps), stream).Some?
    ensures var s := Run(FIRST, steps).store.state;
      var found := Cached(Run(FIRST, steps), stream).value;
      && found.version <= Head(s.events, stream) && found.state == Prefix(s, stream, found.version)
      && found.state + OfStream(s.events, stream, found.version + 1, None) == OfStream(s.events, stream, 1, None)
  {
    hide ValidRun, Run, Stores.Sound, Head;
    RunOk(steps);
    var c := Run(FIRST, steps);
    assert CacheOk(c, stream, c.cache[stream]);
    WindowJoin(c.store.state.events, stream, Cached(c, stream).value.version, Head(c.store.state.events, stream));
  }

  /** The paging loop of `load_observed`, when nothing changes under it: from any genuine cached fold,
      the fold of the whole stream. */
  method Load(s: State, stream: StreamId, cached: Option<Snapshot>) returns (state: seq<Event>, version: nat, isNew: bool)
    requires Agreed(s) && (cached.Some? ==> Genuine(s, stream, cached.value.version, cached.value.state))
    ensures state == OfStream(s.events, stream, 1, None) && version == Head(s.events, stream)
    ensures isNew <==> Head(s.events, stream) == 0
  {
    hide Agreed, Head, Slice, Window;
    EmptyGenuine(s, stream);
    state, version := [], 0;
    if cached.Some? {
      state, version := cached.value.state, cached.value.version;
    }
    var seen := version > 0;
    while true
      invariant Genuine(s, stream, version, state) && (seen <==> version > 0)
      decreases Head(s.events, stream) - version
    {
      var slice := Slice(s, stream, version, MAX_READ_LIMIT);
      SliceShape(s, stream, version, MAX_READ_LIMIT);
      ReadGenuine(s, stream, version, state, MAX_READ_LIMIT);
      if slice.events == [] {
        break;
      }
      seen := true;
      state, version := state + slice.events, slice.nextVersion;
      if slice.endOfStream {
        break;
      }
    }
    isNew := !seen;
  }

  // ---- Where finishing goes wrong ----

  const MINE := StreamId("t", "order", "1")
  const OTHER := StreamId("t", "order", "2")
  const THEIRS := Event(1, OTHER, 1, "e", "{}", false)
  const THEIR_RANGE := Range(OTHER, 1, 1)

  /** An append to one stream under a claim, and an append to another under the same claim. */
  const SOURCE := Request.Append(Member(OTHER, NoStream, [NewEvent("e", "{}")], []), "c", "h", Some(ClaimId("s", "k", "d")), Guard([], false))
  const RETRY := Request.Append(Member(MINE, NoStream, [NewEvent("f", "{}")], []), "c", "h", Some(ClaimId("s", "k", "d")), Guard([], false))

  const SOURCE_OPS := [Op.Recorded(THEIRS), Command(OTHER, "c", "h", 1, 1), Claim("t", "s", "k", "d", THEIR_RANGE)]

  /** The state after the first. */
  const CLAIMED := EMPTY.(
    events := Events(map[1 := THEIRS], map[OTHER := map[1 := 1]]), next := 1,
    commands := map[(OTHER, "c") := Receipt("h", THEIR_RANGE)],
    claims := map[("t", "s", "k") := Receipt("d", THEIR_RANGE)])

  lemma SourceBatch()
    ensures AppendMembers(EMPTY, [SOURCE.member]).Ok?
    ensures var b := AppendMembers(EMPTY, [SOURCE.member]).value;
      b.ops == [Op.Recorded(THEIRS)] && b.ranges == [THEIR_RANGE] && b.results == [AppendResult(THEIR_RANGE, [THEIRS])]
  {
    EmptyHead(OTHER);
    hide Head, StateAfter;
    var m := SOURCE.member;
    assert [m][..0] == [] && AppendMembers(EMPTY, []) == Ok(Batch([], EMPTY, [], []));
    var events := Assigned(OTHER, 0, 0, m.events);
    assert events == [THEIRS];
    assert RecordedOps(events) == [Op.Recorded(THEIRS)];
    assert MemberOps(EMPTY, m) == [Op.Recorded(THEIRS)] && MemberRange(EMPTY, m) == THEIR_RANGE;
  }

  lemma SourceServed()
    ensures Perform(EMPTY, SOURCE) == Work(SOURCE_OPS, Ok(Answer([AppendResult(THEIR_RANGE, [THEIRS])], false)))
  {
    EmptyHead(OTHER);
    hide Head, AppendMembers, StateAfter;
    Unchanged(EMPTY);
    SourceBatch();
  }

  lemma SourceFolds()
    ensures Fold(EMPTY, SOURCE_OPS) == Some(CLAIMED)
  {
    EmptyHead(OTHER);
    hide Head, Apply;
    var s1 := EMPTY.(events := CLAIMED.events, next := 1);
    var s2 := s1.(commands := CLAIMED.commands);
    FoldNothing(EMPTY);
    assert SOURCE_OPS[..1] == [] + [Op.Recorded(THEIRS)] && SOURCE_OPS[..2] == SOURCE_OPS[..1] + [SOURCE_OPS[1]];
    assert SOURCE_OPS == SOURCE_OPS[..2] + [SOURCE_OPS[2]];
    FoldSnoc(EMPTY, [], Op.Recorded(THEIRS));
    FoldSnoc(EMPTY, SOURCE_OPS[..1], SOURCE_OPS[1]);
    FoldSnoc(EMPTY, SOURCE_OPS[..2], SOURCE_OPS[2]);
    TheirsApplied();
    CommandApplied(s1, OTHER, "c", "h", THEIR_RANGE);
    ClaimApplied(s2, "t", ClaimId("s", "k", "d"), THEIR_RANGE);
    assert s1.commands[(OTHER, "c") := Receipt("h", THEIR_RANGE)] == CLAIMED.commands;
    assert s2.claims[("t", "s", "k") := Receipt("d", THEIR_RANGE)] == CLAIMED.claims;
  }

  lemma TheirsApplied()
    ensures Apply(EMPTY, Op.Recorded(THEIRS)) == Some(EMPTY.(events := CLAIMED.events, next := 1))
  {
    EmptyHead(OTHER);
    hide Head;
    var none: map<nat, nat> := map[];
    assert VersionsOf(EMPTY.events, OTHER) == none && none[1 := 1] == map[1 := 1];
    assert EMPTY.events.byPosition[1 := THEIRS] == CLAIMED.events.byPosition;
    assert EMPTY.events.byStream[OTHER := map[1 := 1]] == CLAIMED.events.byStream;
  }

  lemma OtherEvents(s: State)
    requires s.events == CLAIMED.events
    ensures Head(s.events, OTHER) == 1 && Head(s.events, MINE) == 0 && Recall(s, THEIR_RANGE).events == [THEIRS]
  {
    var e := s.events;
    assert VersionsOf(e, MINE).Keys == {};
    assert VersionsOf(e, OTHER) == map[1 := 1] && 1 in VersionsOf(e, OTHER).Keys && Head(e, OTHER) == 1;
    assert Window(e, OTHER, 1, 0) == [];
    assert Window(e, OTHER, 1, 1) == [THEIRS];
  }

  /** The claim answers the second append with the first one's event, on the other stream. */
  lemma RetryServed(s: State)
    requires s.events == CLAIMED.events && s.claims == CLAIMED.claims
    ensures Perform(s, RETRY) == Work([], Ok(Answer([AppendResult(THEIR_RANGE, [THEIRS])], true)))
    ensures Finish([], 0, [THEIRS]) == ([THEIRS], 1)
  {
    OtherEvents(s);
    hide Recall, PerformNew;
    Unchanged(s);
    assert RecallAll(s, [THEIR_RANGE]) == [AppendResult(THEIR_RANGE, [THEIRS])] by { RecallOne(s); }
    assert [THEIRS][..0] == [];
  }

  lemma RecallOne(s: State)
    requires Recall(s, THEIR_RANGE).events == [THEIRS]
    ensures RecallAll(s, [THEIR_RANGE]) == [AppendResult(THEIR_RANGE, [THEIRS])]
  {
  }

  const AFTER_SOURCE := FIRST.(store := Stores.Step(NEW, Serve(SOURCE)))
  const OBSERVED := Take(AFTER_SOURCE, Observe(0, MINE, "g"))
  const FINISHED := Take(OBSERVED, Step.Append(0, RETRY))

  /** A claim may answer with another stream's event. A worker of an empty stream then folds it and saves
      it, and the cache returns a fold of an event that the stream never had. Every step is one that a
      caller may take; only the deduplicated range is not safe. */
  lemma FinishGoesWrong()
    ensures ValidStep(FIRST, Others(Serve(SOURCE))) && Take(FIRST, Others(Serve(SOURCE))) == AFTER_SOURCE
    ensures ValidStep(AFTER_SOURCE, Observe(0, MINE, "g")) && 0 in OBSERVED.workers
    ensures Expects(OBSERVED.workers[0], RETRY.member) && ValidChange(OBSERVED.store, Serve(RETRY))
    ensures !SafeRange(OBSERVED.workers[0], THEIR_RANGE)
    ensures var c := Take(FINISHED, Save(0));
      Cached(c, MINE) == Some(Snapshot(1, [THEIRS])) && !Genuine(c.store.state, MINE, 1, [THEIRS])
  {
    hide Head, Perform, Fold, Finish, Window, Genuine, ValidRequest, NewIds;
    SourceServed();
    SourceFolds();
    SourceValid();
    assert AFTER_SOURCE.store.state == CLAIMED;
    GenerationApplied(CLAIMED, MINE, "g");
    assert CLAIMED.generations[MINE := "g"] == map[MINE := "g"];
    SavedWrongly(OBSERVED);
  }

  lemma SavedWrongly(c: Cluster)
    requires c.store.state == CLAIMED.(generations := map[MINE := "g"])
    requires 0 in c.workers && c.workers[0] == Worker(MINE, "g", 0, [])
    ensures var c' := Take(Take(c, Step.Append(0, RETRY)), Save(0));
      Cached(c', MINE) == Some(Snapshot(1, [THEIRS])) && !Genuine(c'.store.state, MINE, 1, [THEIRS])
  {
    hide Head, Perform, Fold, Finish, Window;
    RetryServed(c.store.state);
    OtherEvents(c.store.state);
    var next := Take(c, Step.Append(0, RETRY));
    assert next.store == c.store && next.workers[0] == Worker(MINE, "g", 1, [THEIRS]);
  }

  lemma SourceValid()
    ensures ValidChange(NEW, Serve(SOURCE))
    ensures forall st: Store :: st.state.events == CLAIMED.events ==> ValidChange(st, Serve(RETRY))
  {
    assert [SOURCE.member][..0] == [] && [RETRY.member][..0] == [];
    assert MemberIds([SOURCE.member]) == MemberIds([]) + NewEventIds(SOURCE.member.events);
    assert MemberIds([RETRY.member]) == MemberIds([]) + NewEventIds(RETRY.member.events);
    assert RequestIds(SOURCE) == ["e"] && RequestIds(RETRY) == ["f"];
  }
}
