/** Several handles over one store, and the views each keeps between calls (`lib.rs`,
    `inline_admin.rs`, `capture.rs`).

    A handle remembers the manifest it last observed, and may keep a verified view: the transactions
    behind that manifest and the state they fold to. The next call folds only what is new onto that
    view. Every entry point that moves the observed manifest, refuses half way or loses its commit
    is a step here, in any order and by any handle. */
module Handles {
  import opened Prelude
  import opened Serde
  import opened Codec
  import opened State
  import opened Rewrites
  import opened Requests
  import opened Stores

  /** `serde_json::to_value` of a transaction. Values are only told apart. */
  type Encoding = Transaction -> Value

  ghost predicate Injective(enc: Encoding) {
    forall a: Transaction, b: Transaction :: enc(a) == enc(b) ==> a == b
  }

  function Encoded(enc: Encoding, history: seq<Transaction>): (r: seq<Value>)
    ensures |r| == |history| && forall i :: 0 <= i < |r| ==> r[i] == enc(history[i])
  {
    seq(|history|, i requires 0 <= i < |history| => enc(history[i]))
  }

  /** The manifest commits exactly this history. */
  predicate Names(enc: Encoding, m: Manifest, history: seq<Transaction>) {
    m.sequence == |history| && m.digest == End(m.ident, 0, ZERO, Encoded(enc, history))
  }

  /** A view that a handle may reuse. */
  datatype View = View(manifest: Manifest, transactions: seq<Transaction>, state: State)

  /** One handle: the manifest it last observed, its writer's view and its reader's view. */
  datatype Handle = Handle(observed: Option<Manifest>, verified: Option<View>, captured: Option<View>)

  /** What is committed on disk, and every handle on it. */
  datatype World = World(manifest: Manifest, history: seq<Transaction>, handles: seq<Handle>)

  // ---- Entering ----

  /** Another entry point may have moved the observed manifest past a view. */
  function Reusable(view: Option<View>, observed: Option<Manifest>): Option<View> {
    if view.Some? && observed == Some(view.value.manifest) then view else None
  }

  /** The frames past the observed manifest chain from its digest to the committed one. A resume
      establishes this and more. */
  predicate Chains(enc: Encoding, w: World, observed: Manifest) {
    && w.manifest.ident == observed.ident && observed.sequence <= w.manifest.sequence == |w.history|
    && w.manifest.digest == End(w.manifest.ident, observed.sequence, observed.digest,
                                Encoded(enc, w.history[observed.sequence..]))
  }

  /** `enter`: resume from the view if it is reusable and the resume succeeds, otherwise reread all,
      check that it extends what was observed, and replay. */
  function Enter(enc: Encoding, w: World, observed: Option<Manifest>, view: Option<View>, resumed: bool): Option<Store> {
    if resumed && Reusable(view, observed).Some? && Chains(enc, w, observed.value) then
      var added := w.history[observed.value.sequence..];
      match FoldAll(view.value.state, added)
      case None => None
      case Some(s) => Some(Store(view.value.transactions + added, s))
    else
      EnterCompletely(enc, w, observed)
  }

  function EnterCompletely(enc: Encoding, w: World, observed: Option<Manifest>): Option<Store> {
    if observed.Some? && !Codec.Extends(w.manifest, Encoded(enc, w.history), observed.value) then None
    else match Replay(w.history)
      case None => None
      case Some(s) => Some(Store(w.history, s))
  }

  // ---- One transaction's work ----

  /** What the closure of a transaction does: one change, or a refusal of its own after recording
      operations or writing objects. */
  datatype Job = Do(change: Change) | Refuse(recorded: seq<Op>, wrote: bool)

  /** How it ends. A refusal leaves the transaction's own copy of the history and state behind. */
  datatype Ended = Refused(clean: bool, left: Store) | Done(store: Store, rewritten: bool)

  function WorkOn(st: Store, job: Job): Ended {
    match job
    case Refuse(recorded, wrote) => Refused(recorded == [] && !wrote, st)
    case Do(Serve(r)) =>
      var w := Perform(st.state, r);
      if w.outcome.Err? then Refused(w.pending == [] && !Stages(st.state, r), st) else Done(Stores.Commit(st, w.pending), false)
    case Do(Note(ops)) =>
      if Fold(st.state, ops).None? then Refused(false, st) else Done(Stores.Commit(st, ops), false)
    case Do(Forget(t)) =>
      var rewritten := EraseAll(st.history, t);
      if Replay(rewritten).None? then Refused(true, Store(rewritten, st.state)) else Done(Step(st, Forget(t)), true)
    case Do(RedactEvent(stream, version, body, generation, views)) =>
      var found := Index.OfStream(st.state.events, stream, version, Some(version));
      if found == [] then Refused(true, st)
      else
        var rewritten := RedactAll(st.history, Tombstone(found[0], body));
        if Replay(rewritten).None? then Refused(true, Store(rewritten, st.state))
        else Done(Step(st, RedactEvent(stream, version, body, generation, views)), true)
  }

  // ---- Entry points ----

  /** Whether a commit reported success; one that failed may still have landed. */
  datatype Ending = Clean | Lost(landed: bool)

  datatype Answer = Valued | Early | Unanswered

  /** `shape` gives the length and the segments of the manifest that a commit publishes, `shares` says
      whether the two views of a handle share a buffer afterwards. */
  datatype Entry =
    | OpenWriter
    | OpenReader
    | Transact(h: nat, resumed: bool, job: Job, shape: Manifest, ending: Ending, shares: bool)
    | Register(h: nat, ops: seq<Op>, shape: Manifest, ending: Ending)
    | Attach(h: nat)
    | Rebuild(h: nat, ops: seq<Op>, shape: Manifest, ending: Ending)
    | Capture(h: nat, resumed: bool, answer: Answer, shares: bool)

  /** The manifest of a new history, in the same epoch or the next. */
  function Published(enc: Encoding, w: World, history: seq<Transaction>, rewritten: bool, shape: Manifest): Manifest {
    var ident := if rewritten then w.manifest.ident.(epoch := w.manifest.ident.epoch + 1) else w.manifest.ident;
    shape.(ident := ident, sequence := |history|, digest := End(ident, 0, ZERO, Encoded(enc, history)))
  }

  function Put(w: World, h: nat, handle: Handle): World
    requires h < |w.handles|
  {
    w.(handles := w.handles[h := handle])
  }

  /** What the commit leaves on disk, and what the handle then holds. */
  function CommitAs(enc: Encoding, w: World, h: nat, handle: Handle, history: seq<Transaction>, rewritten: bool,
                    shape: Manifest, ending: Ending, kept: Handle): World
    requires h < |w.handles|
  {
    var m := Published(enc, w, history, rewritten, shape);
    if ending == Clean then Put(w.(manifest := m, history := history), h, kept.(observed := Some(m)))
    else Put(if ending.landed then w.(manifest := m, history := history) else w, h, handle)
  }

  /** After the work: a clean refusal keeps its view, one that recorded anything keeps none, and a
      commit keeps what it committed unless it rewrote history. */
  function Conclude(enc: Encoding, w: World, h: nat, inside: Handle, st: Store, ended: Ended, shape: Manifest, ending: Ending): World
    requires h < |w.handles|
  {
    match ended
    case Refused(clean, left) =>
      Put(w, h, if !clean then inside
                else inside.(observed := Some(w.manifest), verified := Some(View(w.manifest, left.history, left.state))))
    case Done(st', rewritten) =>
      if !rewritten && st'.history == st.history then
        Put(w, h, inside.(observed := Some(w.manifest), verified := Some(View(w.manifest, st'.history, st'.state))))
      else
        var m := Published(enc, w, st'.history, rewritten, shape);
        CommitAs(enc, w, h, inside, st'.history, rewritten, shape, ending,
                 inside.(verified := if rewritten then None else Some(View(m, st'.history, st'.state))))
  }

  /** `FileEventStore::transaction`. The writer's view is taken before anything else. */
  function TransactStep(enc: Encoding, w: World, e: Entry): World
    requires e.Transact? && e.h < |w.handles|
  {
    var handle := w.handles[e.h];
    var taken := handle.(verified := None);
    match Enter(enc, w, handle.observed, handle.verified, e.resumed)
    case None => Put(w, e.h, taken)
    case Some(st) =>
      Conclude(enc, w, e.h, taken.(captured := if e.shares then handle.captured else None), st, WorkOn(st, e.job), e.shape, e.ending)
  }

  /** `register_inline`: a complete open; what it records is committed without a watermark, and only
      the observed manifest moves. */
  function RegisterStep(enc: Encoding, w: World, e: Entry): World
    requires e.Register? && e.h < |w.handles|
  {
    var handle := w.handles[e.h];
    match EnterCompletely(enc, w, handle.observed)
    case None => w
    case Some(st) =>
      if Fold(st.state, e.ops).None? then w
      else if e.ops == [] then Put(w, e.h, handle.(observed := Some(w.manifest)))
      else CommitAs(enc, w, e.h, handle, st.history + [e.ops], false, e.shape, e.ending, handle)
  }

  /** `rebuild_inline_projection`: a strict open, and always one frame. */
  function RebuildStep(enc: Encoding, w: World, e: Entry): World
    requires e.Rebuild? && e.h < |w.handles|
  {
    var handle := w.handles[e.h];
    match EnterCompletely(enc, w, handle.observed)
    case None => w
    case Some(st) =>
      match Fold(st.state, e.ops)
      case None => w
      case Some(s) =>
        CommitAs(enc, w, e.h, handle, st.history + [Committed(e.ops, s.next)], false, e.shape, e.ending, handle)
  }

  /** `capture`: from the reader's view, else the writer's. `Early` answers two refusals ahead of the
      divergence guard; nothing else is answered from a history that does not extend the observed one. */
  function CaptureStep(enc: Encoding, w: World, e: Entry): World
    requires e.Capture? && e.h < |w.handles|
  {
    var handle := w.handles[e.h];
    var mine := Reusable(handle.captured, handle.observed);
    var view := if mine.Some? then mine else Reusable(handle.verified, handle.observed);
    var taken := handle.(captured := None);
    match Enter(enc, w, handle.observed, view, e.resumed)
    case None => Put(w, e.h, taken)
    case Some(st) =>
      if e.answer != Valued then Put(w, e.h, taken)
      else
        var writer := if handle.verified.Some? && handle.verified.value.manifest == w.manifest && e.shares
                      then handle.verified else None;
        Put(w, e.h, Handle(Some(w.manifest), writer, Some(View(w.manifest, st.history, st.state))))
  }

  function EntryStep(enc: Encoding, w: World, e: Entry): World
    requires !e.OpenWriter? && !e.OpenReader? ==> e.h < |w.handles|
  {
    match e
    case OpenWriter => w.(handles := w.handles + [Handle(Some(w.manifest), None, None)])
    case OpenReader => w.(handles := w.handles + [Handle(None, None, None)])
    case Transact(_, _, _, _, _, _) => TransactStep(enc, w, e)
    case Register(_, _, _, _) => RegisterStep(enc, w, e)
    case Attach(h) =>
      if EnterCompletely(enc, w, w.handles[h].observed).None? then w
      else Put(w, h, w.handles[h].(observed := Some(w.manifest)))
    case Rebuild(_, _, _, _) => RebuildStep(enc, w, e)
    case Capture(_, _, _, _) => CaptureStep(enc, w, e)
  }

  /** What callers and the minting of ids guarantee of an entry. */
  ghost predicate ValidEntry(w: World, e: Entry) {
    && (!e.OpenWriter? && !e.OpenReader? ==> e.h < |w.handles|)
    && (e.Transact? && e.job.Do? && Replay(w.history).Some? ==>
          ValidChange(Store(w.history, Replay(w.history).value), e.job.change))
    && (e.Register? ==> forall op :: op in e.ops ==> op.Projection?)
    && (e.Rebuild? ==> AllTagged(e.ops) && forall op :: op in e.ops ==> Noted(op))
  }

  // ---- The invariant ----

  /** Same store and format; an older epoch, or this one and a prefix of what is committed. */
  ghost predicate Observed(enc: Encoding, w: World, o: Manifest) {
    && o.ident == w.manifest.ident.(epoch := o.ident.epoch) && o.ident.epoch <= w.manifest.ident.epoch
    && Named(enc, o)
    && (o.ident == w.manifest.ident ==> o.sequence <= |w.history| && Names(enc, o, w.history[..o.sequence]))
  }

  ghost predicate Named(enc: Encoding, o: Manifest) {
    exists seen :: Names(enc, o, seen)
  }

  /** A view's state is the replay of its transactions, which its manifest names. */
  ghost predicate Coherent(enc: Encoding, v: View) {
    Names(enc, v.manifest, v.transactions) && Replay(v.transactions) == Some(v.state)
  }

  ghost predicate HandleOk(enc: Encoding, w: World, h: Handle) {
    && (h.observed.Some? ==> Observed(enc, w, h.observed.value))
    && (h.verified.Some? ==> Coherent(enc, h.verified.value))
    && (h.captured.Some? ==> Coherent(enc, h.captured.value))
  }

  ghost predicate Invariant(enc: Encoding, w: World) {
    && Names(enc, w.manifest, w.history)
    && Replay(w.history).Some? && Sound(Store(w.history, Replay(w.history).value))
    && forall i :: 0 <= i < |w.handles| ==> HandleOk(enc, w, w.handles[i])
  }

  // ---- Entering is exact ----

  lemma EncodedPrefix(enc: Encoding, history: seq<Transaction>, n: nat)
    requires n <= |history|
    ensures Encoded(enc, history[..n]) == Encoded(enc, history)[..n]
    ensures Encoded(enc, history) == Encoded(enc, history[..n]) + Encoded(enc, history[n..])
  {
  }

  lemma EncodedApart(enc: Encoding, a: seq<Transaction>, b: seq<Transaction>)
    requires Injective(enc) && Encoded(enc, a) == Encoded(enc, b)
    ensures a == b
  {
    assert |a| == |b|;
    forall i | 0 <= i < |a| ensures a[i] == b[i] {
      assert Encoded(enc, a)[i] == Encoded(enc, b)[i];
    }
  }

  /** A manifest names one history. */
  lemma NamesOne(enc: Encoding, m: Manifest, a: seq<Transaction>, b: seq<Transaction>)
    requires Injective(enc) && Names(enc, m, a) && Names(enc, m, b)
    ensures a == b
  {
    EndInjective(m.ident, 0, ZERO, Encoded(enc, a), Encoded(enc, b));
    EncodedApart(enc, a, b);
  }

  lemma {:induction false} EndKeepsStart(id: Ident, s: nat, p: Digest, q: Digest, txs: seq<Value>)
    requires End(id, s, p, txs) == End(id, s, q, txs)
    ensures p == q
  {
    hide FrameDigest;
    if txs != [] {
      var n := |txs| - 1;
      FrameDigestInjective(id, s + |txs|, End(id, s, p, txs[..n]), txs[n], id, s + |txs|, End(id, s, q, txs[..n]), txs[n]);
      EndKeepsStart(id, s, p, q, txs[..n]);
    }
  }

  /** What the complete opener decodes is what its manifest names. */
  lemma OpenedNames(enc: Encoding, bytes: Bytes, m: Manifest, history: seq<Transaction>)
    requires Decode(bytes, m) == Some(Encoded(enc, history))
    ensures Names(enc, m, history)
  {
    hide DecodeChain, End;
    DecodeNames(bytes, m, 0, ZERO);
  }

  /** Within an epoch the frames chain from the observed manifest exactly when what it names is a prefix
      of what is committed. */
  lemma ChainsIffPrefix(enc: Encoding, w: World, observed: Manifest, seen: seq<Transaction>)
    requires Injective(enc) && Names(enc, w.manifest, w.history) && Names(enc, observed, seen)
    requires observed.ident == w.manifest.ident
    ensures Chains(enc, w, observed) <==> seen <= w.history
  {
    hide End, Injective;
    var n := |seen|;
    if n <= |w.history| {
      var id, head, tail := w.manifest.ident, Encoded(enc, w.history[..n]), Encoded(enc, w.history[n..]);
      EncodedPrefix(enc, w.history, n);
      EndConcat(id, 0, ZERO, head, tail);
      if Chains(enc, w, observed) {
        EndKeepsStart(id, n, End(id, 0, ZERO, head), observed.digest, tail);
        EndInjective(id, 0, ZERO, head, Encoded(enc, seen));
        EncodedApart(enc, w.history[..n], seen);
      }
      if seen <= w.history {
        assert w.history[..n] == seen;
      }
    }
  }

  /** A view of the observed manifest, folded over what is new, is the replay of what is committed:
      the fast path and the complete one agree, and both are refused exactly when the handle's epoch
      has been replaced. */
  lemma EnterExact(enc: Encoding, w: World, observed: Option<Manifest>, view: Option<View>, resumed: bool)
    requires Injective(enc) && Invariant(enc, w)
    requires observed.Some? ==> Observed(enc, w, observed.value)
    requires view.Some? ==> Coherent(enc, view.value)
    ensures Enter(enc, w, observed, view, resumed) ==
      if observed.Some? && observed.value.ident != w.manifest.ident then None
      else Some(Store(w.history, Replay(w.history).value))
  {
    hide Sound, End;
    if resumed && Reusable(view, observed).Some? && Chains(enc, w, observed.value) {
      var n := observed.value.sequence;
      NamesOne(enc, observed.value, view.value.transactions, w.history[..n]);
      assert w.history == w.history[..n] + w.history[n..];
      FoldAllConcat(EMPTY, w.history[..n], w.history[n..]);
    } else if observed.Some? && observed.value.ident == w.manifest.ident {
      var n := observed.value.sequence;
      EncodedPrefix(enc, w.history, n);
    }
  }

  // ---- Every entry keeps the invariant ----

  /** A refusal that recorded nothing leaves its copy as it entered: the rewriting operations rely on
      the rewritten history replaying. A commit is sound, and only a rewrite changes what was there. */
  lemma WorkSound(st: Store, job: Job)
    requires Sound(st) && (job.Do? ==> ValidChange(st, job.change))
    ensures match WorkOn(st, job)
      case Refused(clean, left) => clean ==> left == st
      case Done(st', rewritten) =>
        Sound(st') && (!rewritten ==> st.history <= st'.history && (st'.history == st.history ==> st' == st))
  {
    hide Sound, Perform, Fold, ValidChange, Replay, Step;
    match job
    case Refuse(_, _) =>
    case Do(Serve(r)) =>
      StepSound(st, Serve(r));
      ServeIsCommit(st, r);
    case Do(Note(ops)) =>
      StepSound(st, Note(ops));
      NoteIsCommit(st, ops);
    case Do(Forget(t)) =>
      StepSound(st, Forget(t));
      ForgetReplays(st, t);
    case Do(RedactEvent(_, _, _, _, _)) =>
      StepSound(st, job.change);
      RedactReplays(st, job.change);
  }

  lemma ServeIsCommit(st: Store, r: Request)
    ensures Perform(st.state, r).outcome.Ok? ==> Step(st, Serve(r)) == Stores.Commit(st, Perform(st.state, r).pending)
  {
    hide Perform, Stores.Commit;
  }

  lemma NoteIsCommit(st: Store, ops: seq<Op>)
    ensures Step(st, Note(ops)) == Stores.Commit(st, ops)
  {
    hide Stores.Commit;
  }

  lemma ForgetReplays(st: Store, t: Tenant)
    requires Sound(st)
    ensures Replay(EraseAll(st.history, t)).Some?
  {
    hide Receipts.Partition, Disciplined, Replay, Erased;
    ErasureCommutes(st.history, t);
  }

  lemma RedactReplays(st: Store, c: Change)
    requires Sound(st) && c.RedactEvent?
    ensures var found := Index.OfStream(st.state.events, c.stream, c.version, Some(c.version));
      found != [] ==> Replay(RedactAll(st.history, Tombstone(found[0], c.tombstone))).Some?
  {
    hide Receipts.Partition, Disciplined, Replay, Redacted, Index.OfStream, OnlyEvent;
    var found := Index.OfStream(st.state.events, c.stream, c.version, Some(c.version));
    if found != [] {
      Index.ReplayAgreed(st.history);
      FoundLogged(st.state, c.stream, c.version);
      OnlyOne(st, found[0], Tombstone(found[0], c.tombstone));
      RedactionCommutes(st.history, Tombstone(found[0], c.tombstone));
    }
  }

  /** Where the committed history may go: it grows in its epoch, or a rewrite opens the next one. */
  ghost predicate Moves(enc: Encoding, w: World, w': World) {
    && Names(enc, w'.manifest, w'.history)
    && ((w'.manifest.ident == w.manifest.ident && w.history <= w'.history)
        || w'.manifest.ident == w.manifest.ident.(epoch := w.manifest.ident.epoch + 1))
  }

  lemma ObservedMoves(enc: Encoding, w: World, w': World, o: Manifest)
    requires Moves(enc, w, w') && Observed(enc, w, o)
    ensures Observed(enc, w', o)
  {
    hide Names;
    if o.ident == w'.manifest.ident {
      assert w'.history[..o.sequence] == w.history[..o.sequence];
    }
  }

  lemma HandleMoves(enc: Encoding, w: World, w': World, h: Handle)
    requires Moves(enc, w, w') && HandleOk(enc, w, h)
    ensures HandleOk(enc, w', h)
  {
    hide Moves, Observed;
    if h.observed.Some? {
      ObservedMoves(enc, w, w', h.observed.value);
    }
  }

  /** The committed manifest is one every handle may hold. */
  lemma ObservesNow(enc: Encoding, w: World)
    requires Names(enc, w.manifest, w.history)
    ensures Observed(enc, w, w.manifest)
  {
    assert w.history[..|w.history|] == w.history;
  }

  /** Changing one handle and moving the history keeps the others. */
  lemma PutKeeps(enc: Encoding, w: World, w': World, h: nat, handle: Handle)
    requires Invariant(enc, w) && h < |w.handles| && Moves(enc, w, w') && w'.handles == w.handles
    requires Replay(w'.history).Some? && Sound(Store(w'.history, Replay(w'.history).value))
    requires HandleOk(enc, w', handle)
    ensures Invariant(enc, Put(w', h, handle)) && Moves(enc, w, Put(w', h, handle))
  {
    hide HandleOk, Names, Sound;
    forall i | 0 <= i < |w.handles| ensures HandleOk(enc, w', w.handles[i]) {
      HandleMoves(enc, w, w', w.handles[i]);
    }
    var end := Put(w', h, handle);
    forall i | 0 <= i < |end.handles| ensures HandleOk(enc, end, end.handles[i]) {
      SameDisk(enc, w', end, end.handles[i]);
    }
  }

  lemma SameDisk(enc: Encoding, w: World, w': World, h: Handle)
    requires w'.manifest == w.manifest && w'.history == w.history && HandleOk(enc, w, h)
    ensures HandleOk(enc, w', h)
  {
    hide Names, Replay;
  }

  lemma Stays(enc: Encoding, w: World)
    requires Invariant(enc, w)
    ensures Moves(enc, w, w)
  {
  }

  lemma CommitKeeps(enc: Encoding, w: World, h: nat, handle: Handle, history: seq<Transaction>, rewritten: bool,
                    shape: Manifest, ending: Ending, kept: Handle)
    requires Invariant(enc, w) && h < |w.handles| && HandleOk(enc, w, handle)
    requires Replay(history).Some? && Sound(Store(history, Replay(history).value))
    requires rewritten || w.history <= history
    requires kept.verified.Some? ==> Coherent(enc, kept.verified.value)
    requires kept.captured.Some? ==> Coherent(enc, kept.captured.value)
    ensures Invariant(enc, CommitAs(enc, w, h, handle, history, rewritten, shape, ending, kept))
    ensures Moves(enc, w, CommitAs(enc, w, h, handle, history, rewritten, shape, ending, kept))
  {
    hide Sound, Replay;
    var m := Published(enc, w, history, rewritten, shape);
    var w' := w.(manifest := m, history := history);
    assert Moves(enc, w, w');
    Stays(enc, w);
    if ending == Clean {
      ObservesNow(enc, w');
      PutKeeps(enc, w, w', h, kept.(observed := Some(m)));
    } else if ending.landed {
      HandleMoves(enc, w, w', handle);
      PutKeeps(enc, w, w', h, handle);
    } else {
      PutKeeps(enc, w, w, h, handle);
    }
  }

  lemma TransactKeeps(enc: Encoding, w: World, e: Entry)
    requires Injective(enc) && Invariant(enc, w) && ValidEntry(w, e) && e.Transact?
    ensures Invariant(enc, EntryStep(enc, w, e)) && Moves(enc, w, EntryStep(enc, w, e))
  {
    hide Sound, Replay, Enter, WorkOn, ValidChange, Names, CommitAs, Observed;
    var handle := w.handles[e.h];
    assert HandleOk(enc, w, handle);
    EnterExact(enc, w, handle.observed, handle.verified, e.resumed);
    Stays(enc, w);
    ObservesNow(enc, w);
    var taken := handle.(verified := None);
    var inside := taken.(captured := if e.shares then handle.captured else None);
    if Enter(enc, w, handle.observed, handle.verified, e.resumed).None? {
      PutKeeps(enc, w, w, e.h, taken);
    } else {
      var st := Store(w.history, Replay(w.history).value);
      WorkSound(st, e.job);
      var now := inside.(observed := Some(w.manifest), verified := Some(View(w.manifest, st.history, st.state)));
      assert HandleOk(enc, w, inside) && HandleOk(enc, w, now);
      PutKeeps(enc, w, w, e.h, inside);
      PutKeeps(enc, w, w, e.h, now);
      match WorkOn(st, e.job)
      case Refused(clean, left) =>
      case Done(st', rewritten) =>
        if rewritten || st'.history != st.history {
          var m := Published(enc, w, st'.history, rewritten, e.shape);
          var kept := inside.(verified := if rewritten then None else Some(View(m, st'.history, st'.state)));
          SoundReplays(st');
          PublishedNames(enc, w, st'.history, rewritten, e.shape);
          CommitKeeps(enc, w, e.h, inside, st'.history, rewritten, e.shape, e.ending, kept);
        }
    }
  }

  lemma SoundReplays(st: Store)
    requires Sound(st)
    ensures Replay(st.history) == Some(st.state)
  {
  }

  lemma PublishedNames(enc: Encoding, w: World, history: seq<Transaction>, rewritten: bool, shape: Manifest)
    ensures Names(enc, Published(enc, w, history, rewritten, shape), history)
  {
  }

  /** Projections alone need no watermark: they are nobody's data and hold no event. */
  lemma BareSound(st: Store, ops: seq<Op>)
    requires Sound(st) && Fold(st.state, ops).Some? && forall op :: op in ops ==> op.Projection?
    ensures Replay(st.history + [ops]) == Some(Fold(st.state, ops).value)
    ensures Sound(Store(st.history + [ops], Fold(st.state, ops).value))
  {
    hide Fold, Receipts.Partition, DistinctIds;
    assert (st.history + [ops])[..|st.history|] == st.history;
    NoteFold(st.state, ops);
    Receipts.PartitionCarries(st.state, Fold(st.state, ops).value);
    assert Covered(ops) && AllTagged(ops);
  }

  lemma RegisterKeeps(enc: Encoding, w: World, e: Entry)
    requires Injective(enc) && Invariant(enc, w) && ValidEntry(w, e) && e.Register?
    ensures Invariant(enc, EntryStep(enc, w, e)) && Moves(enc, w, EntryStep(enc, w, e))
  {
    hide Sound, Replay, EnterCompletely, Names, CommitAs, Observed, Fold;
    var handle := w.handles[e.h];
    assert HandleOk(enc, w, handle);
    EnterWhole(enc, w, handle.observed);
    var st := Store(w.history, Replay(w.history).value);
    if EnterCompletely(enc, w, handle.observed).Some? && Fold(st.state, e.ops).Some? {
      if e.ops == [] {
        Stays(enc, w);
        ObservesNow(enc, w);
        PutKeeps(enc, w, w, e.h, handle.(observed := Some(w.manifest)));
      } else {
        BareSound(st, e.ops);
        CommitKeeps(enc, w, e.h, handle, w.history + [e.ops], false, e.shape, e.ending, handle);
      }
    }
  }

  lemma EnterWhole(enc: Encoding, w: World, observed: Option<Manifest>)
    requires Injective(enc) && Invariant(enc, w) && (observed.Some? ==> Observed(enc, w, observed.value))
    ensures EnterCompletely(enc, w, observed) ==
      if observed.Some? && observed.value.ident != w.manifest.ident then None
      else Some(Store(w.history, Replay(w.history).value))
  {
    hide Invariant, Observed, EnterCompletely, Chains, Replay;
    EnterExact(enc, w, observed, None, false);
  }

  lemma RebuildKeeps(enc: Encoding, w: World, e: Entry)
    requires Injective(enc) && Invariant(enc, w) && ValidEntry(w, e) && e.Rebuild?
    ensures Invariant(enc, EntryStep(enc, w, e)) && Moves(enc, w, EntryStep(enc, w, e))
  {
    hide Sound, Replay, EnterCompletely, Names, CommitAs, Observed, Fold, AllTagged;
    var handle := w.handles[e.h];
    assert HandleOk(enc, w, handle);
    EnterWhole(enc, w, handle.observed);
    var st := Store(w.history, Replay(w.history).value);
    if EnterCompletely(enc, w, handle.observed).Some? && Fold(st.state, e.ops).Some? {
      var s := Fold(st.state, e.ops).value;
      RebuildSound(st, e.ops);
      CommitKeeps(enc, w, e.h, handle, w.history + [Committed(e.ops, s.next)], false, e.shape, e.ending, handle);
    }
  }

  lemma RebuildSound(st: Store, ops: seq<Op>)
    requires Sound(st) && Fold(st.state, ops).Some? && AllTagged(ops) && forall op :: op in ops ==> Noted(op)
    ensures var s := Fold(st.state, ops).value;
      && Replay(st.history + [Committed(ops, s.next)]) == Some(s)
      && Sound(Store(st.history + [Committed(ops, s.next)], s))
  {
    if ops == [] {
      LoneWatermark(st);
    } else {
      hide Fold, Receipts.Partition, DistinctIds, AllTagged, Disciplined;
      NoteSound(st, ops);
    }
  }

  lemma LoneWatermark(st: Store)
    requires Sound(st)
    ensures var frame := Committed([], st.state.next);
      Replay(st.history + [frame]) == Some(st.state) && Sound(Store(st.history + [frame], st.state))
  {
    hide Receipts.Partition, DistinctIds, Index.Agreed;
    var frame := Committed([], st.state.next);
    assert (st.history + [frame])[..|st.history|] == st.history;
    FoldSnoc(st.state, [], Watermark(st.state.next));
    assert Covered(frame) && AllTagged(frame);
  }

  lemma CaptureKeeps(enc: Encoding, w: World, e: Entry)
    requires Injective(enc) && Invariant(enc, w) && ValidEntry(w, e) && e.Capture?
    ensures Invariant(enc, EntryStep(enc, w, e)) && Moves(enc, w, EntryStep(enc, w, e))
  {
    hide Sound, Replay, Enter, Names, Observed;
    var handle := w.handles[e.h];
    assert HandleOk(enc, w, handle);
    var mine := Reusable(handle.captured, handle.observed);
    var view := if mine.Some? then mine else Reusable(handle.verified, handle.observed);
    EnterExact(enc, w, handle.observed, view, e.resumed);
    Stays(enc, w);
    ObservesNow(enc, w);
    var taken := handle.(captured := None);
    PutKeeps(enc, w, w, e.h, taken);
    var now := View(w.manifest, w.history, Replay(w.history).value);
    PutKeeps(enc, w, w, e.h, Handle(Some(w.manifest), handle.verified, Some(now)));
    PutKeeps(enc, w, w, e.h, Handle(Some(w.manifest), None, Some(now)));
  }

  lemma OpenKeeps(enc: Encoding, w: World, e: Entry)
    requires Injective(enc) && Invariant(enc, w) && ValidEntry(w, e) && (e.OpenWriter? || e.OpenReader? || e.Attach?)
    ensures Invariant(enc, EntryStep(enc, w, e)) && Moves(enc, w, EntryStep(enc, w, e))
  {
    hide Sound, Replay, EnterCompletely, Names, Observed;
    ObservesNow(enc, w);
    if e.Attach? {
      assert HandleOk(enc, w, w.handles[e.h]);
      Stays(enc, w);
      PutKeeps(enc, w, w, e.h, w.handles[e.h].(observed := Some(w.manifest)));
    } else {
      var end := EntryStep(enc, w, e);
      SameDisk(enc, w, end, end.handles[|w.handles|]);
      forall i | 0 <= i < |w.handles| ensures HandleOk(enc, end, end.handles[i]) {
        SameDisk(enc, w, end, w.handles[i]);
      }
    }
  }

  lemma EntryKeeps(enc: Encoding, w: World, e: Entry)
    requires Injective(enc) && Invariant(enc, w) && ValidEntry(w, e)
    ensures Invariant(enc, EntryStep(enc, w, e)) && Moves(enc, w, EntryStep(enc, w, e))
  {
    hide Invariant, Injective, EntryStep, Moves;
    match e
    case Transact(_, _, _, _, _, _) => TransactKeeps(enc, w, e);
    case Register(_, _, _, _) => RegisterKeeps(enc, w, e);
    case Rebuild(_, _, _, _) => RebuildKeeps(enc, w, e);
    case Capture(_, _, _, _) => CaptureKeeps(enc, w, e);
    case OpenWriter => OpenKeeps(enc, w, e);
    case OpenReader => OpenKeeps(enc, w, e);
    case Attach(_) => OpenKeeps(enc, w, e);
  }

  // ---- Runs ----

  ghost predicate ValidRun(enc: Encoding, w: World, es: seq<Entry>) {
    es == [] ||
    (var n := |es| - 1; ValidRun(enc, w, es[..n]) && ValidEntry(RunAll(enc, w, es[..n]), es[n]))
  }

  /** Entries by any handles, in order. An entry by a handle that was never opened does nothing. */
  function RunAll(enc: Encoding, w: World, es: seq<Entry>): World {
    if es == [] then w
    else
      var n := |es| - 1;
      var before := RunAll(enc, w, es[..n]);
      if es[n].OpenWriter? || es[n].OpenReader? || es[n].h < |before.handles| then EntryStep(enc, before, es[n])
      else before
  }

  /** In every reachable state every view that a handle may reuse is the replay of the history that
      its manifest names. */
  lemma {:induction false} RunKeeps(enc: Encoding, w: World, es: seq<Entry>)
    requires Injective(enc) && Invariant(enc, w) && ValidRun(enc, w, es)
    ensures Invariant(enc, RunAll(enc, w, es))
  {
    hide Invariant, ValidEntry, EntryStep, Injective;
    if es != [] {
      var n := |es| - 1;
      RunKeeps(enc, w, es[..n]);
      EntryKeeps(enc, RunAll(enc, w, es[..n]), es[n]);
    }
  }

  /** A store just created, with no handle yet. */
  lemma NewWorld(enc: Encoding, m: Manifest)
    requires m.sequence == 0 && m.digest == ZERO
    ensures Invariant(enc, World(m, [], []))
  {
    NewSound();
    assert Encoded(enc, []) == [];
  }

  // ---- What a handle serves ----

  /** The history that an entry's answer is about, if it is not refused as diverged. */
  function Served(enc: Encoding, w: World, e: Entry): Option<seq<Transaction>>
    requires !e.OpenWriter? && !e.OpenReader? && e.h < |w.handles|
  {
    var handle := w.handles[e.h];
    var entered :=
      match e
      case Transact(_, resumed, _, _, _, _) => Enter(enc, w, handle.observed, handle.verified, resumed)
      case Capture(_, resumed, _, _) =>
        var mine := Reusable(handle.captured, handle.observed);
        Enter(enc, w, handle.observed, if mine.Some? then mine else Reusable(handle.verified, handle.observed), resumed)
      case _ => EnterCompletely(enc, w, handle.observed);
    if entered.None? then None else Some(entered.value.history)
  }

  /** A handle is served the committed history, or refused because its epoch was replaced. */
  lemma ServesCommitted(enc: Encoding, w: World, e: Entry)
    requires Injective(enc) && Invariant(enc, w) && !e.OpenWriter? && !e.OpenReader? && e.h < |w.handles|
    ensures Served(enc, w, e) ==
      var o := w.handles[e.h].observed;
      if o.Some? && o.value.ident != w.manifest.ident then None else Some(w.history)
  {
    hide Enter, EnterCompletely, Replay, Sound, Observed, Names;
    var handle := w.handles[e.h];
    assert HandleOk(enc, w, handle);
    var mine := Reusable(handle.captured, handle.observed);
    var view := if mine.Some? then mine else Reusable(handle.verified, handle.observed);
    match e
    case Transact(_, resumed, _, _, _, _) => EnterExact(enc, w, handle.observed, handle.verified, resumed);
    case Capture(_, resumed, _, _) => EnterExact(enc, w, handle.observed, view, resumed);
    case _ => EnterWhole(enc, w, handle.observed);
  }

  /** Whatever the first manifest names is a prefix of whatever the second names. */
  ghost predicate Follows(enc: Encoding, o: Manifest, o': Manifest) {
    forall seen, seen' :: Names(enc, o, seen) && Names(enc, o', seen') ==> seen <= seen'
  }

  lemma FollowsTwice(enc: Encoding, a: Manifest, b: Manifest, c: Manifest)
    requires Follows(enc, a, b) && Follows(enc, b, c) && Named(enc, b)
    ensures Follows(enc, a, c)
  {
    hide Names;
    var mid :| Names(enc, b, mid);
  }

  lemma FollowsItself(enc: Encoding, o: Manifest)
    requires Injective(enc)
    ensures Follows(enc, o, o)
  {
    forall a, b | Names(enc, o, a) && Names(enc, o, b) ensures a <= b {
      NamesOne(enc, o, a, b);
    }
  }

  /** The committed manifest follows anything that a handle observed in its epoch. */
  lemma CommittedFollows(enc: Encoding, w: World, o: Manifest)
    requires Injective(enc) && Names(enc, w.manifest, w.history) && Observed(enc, w, o) && o.ident == w.manifest.ident
    ensures Follows(enc, o, w.manifest)
  {
    hide Names, Injective;
    forall a, b | Names(enc, o, a) && Names(enc, w.manifest, b) ensures a <= b {
      NamesOne(enc, o, a, w.history[..o.sequence]);
      NamesOne(enc, w.manifest, b, w.history);
    }
  }

  predicate OwnRewrite(e: Entry, h: nat) {
    e.Transact? && e.h == h && e.job.Do? && (e.job.change.Forget? || e.job.change.RedactEvent?)
  }

  /** The observed manifest stays, or moves to the committed one, which is then in the same epoch
      unless the handle itself rewrote it. */
  ghost predicate Tracks(w: World, w': World, e: Entry, h: nat) {
    && h < |w.handles| && h < |w'.handles|
    && (w'.handles[h].observed == w.handles[h].observed
        || (w'.handles[h].observed == Some(w'.manifest) && w.handles[h].observed.Some?
            && (OwnRewrite(e, h) || w'.manifest.ident == w.handles[h].observed.value.ident)))
  }

  lemma TransactTracks(enc: Encoding, w: World, e: Entry, h: nat)
    requires Injective(enc) && Invariant(enc, w) && e.Transact? && e.h < |w.handles|
    requires h < |w.handles| && w.handles[h].observed.Some?
    ensures Tracks(w, TransactStep(enc, w, e), e, h)
  {
    hide Enter, Invariant, Stores.Commit, Perform, Fold, Step, Replay, End;
    ServesCommitted(enc, w, e);
    if e.h == h && Enter(enc, w, w.handles[h].observed, w.handles[h].verified, e.resumed).Some? {
      var st := Enter(enc, w, w.handles[h].observed, w.handles[h].verified, e.resumed).value;
      var done := WorkOn(st, e.job);
      assert done.Done? && done.rewritten ==> OwnRewrite(e, h);
      hide WorkOn;
      assert Tracks(w, TransactStep(enc, w, e), e, h);
    }
  }

  lemma ObservedStep(enc: Encoding, w: World, e: Entry, h: nat)
    requires Injective(enc) && Invariant(enc, w) && ValidEntry(w, e) && h < |w.handles| && w.handles[h].observed.Some?
    ensures Tracks(w, EntryStep(enc, w, e), e, h)
  {
    hide Enter, EnterCompletely, Invariant, Fold, TransactStep, End;
    if e.Transact? {
      TransactTracks(enc, w, e, h);
    } else if !e.OpenWriter? && !e.OpenReader? {
      ServesCommitted(enc, w, e);
    }
  }

  lemma StepFollows(enc: Encoding, w: World, e: Entry, h: nat)
    requires Injective(enc) && Invariant(enc, w) && ValidEntry(w, e) && h < |w.handles| && w.handles[h].observed.Some?
    requires !OwnRewrite(e, h)
    ensures var w' := EntryStep(enc, w, e);
      && h < |w'.handles| && w'.handles[h].observed.Some?
      && Follows(enc, w.handles[h].observed.value, w'.handles[h].observed.value)
  {
    hide Observed, Names, EntryStep, Follows, Replay, Sound, Injective;
    var o := w.handles[h].observed.value;
    var w' := EntryStep(enc, w, e);
    ObservedStep(enc, w, e, h);
    FollowsItself(enc, o);
    if w'.handles[h].observed != Some(o) {
      EntryKeeps(enc, w, e);
      ObservedMoves(enc, w, w', o);
      CommittedFollows(enc, w', o);
    }
  }

  predicate NoOwnRewrite(es: seq<Entry>, h: nat) {
    forall i :: 0 <= i < |es| ==> !OwnRewrite(es[i], h)
  }

  /** Over every run of several handles, what a handle observes only ever grows, until it rewrites
      the history itself. */
  lemma {:induction false} RunFollows(enc: Encoding, w: World, es: seq<Entry>, h: nat)
    requires Injective(enc) && Invariant(enc, w) && ValidRun(enc, w, es) && NoOwnRewrite(es, h)
    requires h < |w.handles| && w.handles[h].observed.Some?
    ensures var w' := RunAll(enc, w, es);
      && h < |w'.handles| && w'.handles[h].observed.Some?
      && Follows(enc, w.handles[h].observed.value, w'.handles[h].observed.value)
  {
    hide Invariant, ValidEntry, EntryStep, Injective, Follows, OwnRewrite;
    if es == [] {
      FollowsItself(enc, w.handles[h].observed.value);
    } else {
      var n := |es| - 1;
      RunFollows(enc, w, es[..n], h);
      var mid := RunAll(enc, w, es[..n]);
      RunKeeps(enc, w, es[..n]);
      StepFollows(enc, mid, es[n], h);
      Reaches(mid, es[n]);
      HasName(enc, mid, h);
      FollowsTwice(enc, w.handles[h].observed.value, mid.handles[h].observed.value,
                   RunAll(enc, w, es).handles[h].observed.value);
    }
  }

  lemma Reaches(w: World, e: Entry)
    requires ValidEntry(w, e)
    ensures e.OpenWriter? || e.OpenReader? || e.h < |w.handles|
  {
  }

  lemma HasName(enc: Encoding, w: World, h: nat)
    requires Invariant(enc, w) && h < |w.handles| && w.handles[h].observed.Some?
    ensures Named(enc, w.handles[h].observed.value)
  {
    hide Names, Replay, Sound;
    assert HandleOk(enc, w, w.handles[h]);
  }

  /** Whatever a handle once observed is a prefix of everything it serves later, until its own rewrite. */
  lemma ServesExtensions(enc: Encoding, w: World, es: seq<Entry>, e: Entry, seen: seq<Transaction>)
    requires Injective(enc) && Invariant(enc, w) && ValidRun(enc, w, es)
    requires !e.OpenWriter? && !e.OpenReader? && e.h < |w.handles| && NoOwnRewrite(es, e.h)
    requires w.handles[e.h].observed.Some? && Names(enc, w.handles[e.h].observed.value, seen)
    requires e.h < |RunAll(enc, w, es).handles|
    ensures Served(enc, RunAll(enc, w, es), e).Some? ==> seen <= Served(enc, RunAll(enc, w, es), e).value
  {
    hide Names, EntryStep, ValidRun, Replay, Sound, Injective, OwnRewrite, Served, Observed;
    var now := RunAll(enc, w, es);
    RunKeeps(enc, w, es);
    RunFollows(enc, w, es, e.h);
    ServesCommitted(enc, now, e);
    var o := now.handles[e.h].observed.value;
    if o.ident == now.manifest.ident {
      assert HandleOk(enc, now, now.handles[e.h]);
      CommittedFollows(enc, now, o);
      HasName(enc, now, e.h);
      FollowsTwice(enc, w.handles[e.h].observed.value, o, now.manifest);
    }
  }

  function ObservedBy(w: World, h: nat): Option<Manifest> {
    if h < |w.handles| then w.handles[h].observed else None
  }

  /** A rewrite by another handle refuses this one everywhere, and nothing it does changes the store. */
  lemma DivergedStaysOut(enc: Encoding, w: World, e: Entry)
    requires !e.OpenWriter? && !e.OpenReader? && e.h < |w.handles|
    requires Injective(enc) && Invariant(enc, w)
    requires w.handles[e.h].observed.Some? && w.handles[e.h].observed.value.ident != w.manifest.ident
    ensures Served(enc, w, e).None?
    ensures EntryStep(enc, w, e) == w.(handles := EntryStep(enc, w, e).handles)
    ensures ObservedBy(EntryStep(enc, w, e), e.h) == ObservedBy(w, e.h)
  {
    hide Enter, EnterCompletely, Replay, Sound, Observed, Names;
    ServesCommitted(enc, w, e);
  }
}
