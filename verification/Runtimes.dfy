/** `FileEventStore::transaction` as it runs: the handle's slots are taken and replaced, the open
    transaction is updated in place, and the commit moves the store (`lib.rs`). It is proved to be the
    step of `Handles`. */
module Runtimes {
  import opened Prelude
  import opened Serde
  import opened Codec
  import opened State
  import opened Rewrites
  import opened Requests
  import opened Receipts
  import opened Stores
  import opened Transactions
  import opened Handles

  /** What is committed. */
  class Volume {
    var manifest: Manifest
    var history: seq<Transaction>

    constructor (m: Manifest)
      ensures manifest == m && history == []
    {
      manifest, history := m, [];
    }
  }

  /** Record until the list ends or one is refused. */
  method RecordAll(tx: OpenTransaction, ops: seq<Op>) returns (ok: bool)
    requires tx.Valid()
    modifies tx`pending, tx`state
    ensures ok == Fold(old(tx.state), ops).Some?
    ensures ok ==> tx.Valid() && tx.pending == old(tx.pending) + ops && Fold(old(tx.state), ops) == Some(tx.state)
    ensures ops != [] ==> tx.pending != []
    ensures ops == [] ==> tx.pending == old(tx.pending) && tx.state == old(tx.state)
  {
    hide Fold, Apply, Index.Agreed;
    ghost var start := tx.state;
    FoldNothing(start);
    assert ops[..0] == [];
    for i := 0 to |ops|
      invariant tx.Valid() && tx.pending == old(tx.pending) + ops[..i] && Fold(start, ops[..i]) == Some(tx.state)
    {
      assert ops[..i + 1] == ops[..i] + [ops[i]];
      FoldSnoc(start, ops[..i], ops[i]);
      var recorded := tx.Record(ops[i]);
      if !recorded {
        FoldFail(start, ops, i + 1);
        return false;
      }
    }
    assert ops[..|ops|] == ops;
    return true;
  }

  /** What committing the open transaction now would leave. */
  function CommittedStore(history: seq<Transaction>, state: State, pending: seq<Op>): Store {
    if pending == [] then Store(history, state) else Store(history + [Committed(pending, state.next)], state)
  }

  /** A refusal that may keep its view, or what is about to be committed. */
  ghost predicate Worked(tx: OpenTransaction, st: Store, job: Job, refused: bool, wrote: bool)
    reads tx
  {
    match WorkOn(st, job)
    case Refused(clean, left) =>
      && refused && (clean <==> tx.pending == [] && !wrote && !tx.privacy)
      && (clean ==> Store(tx.history, tx.state) == left)
    case Done(store, rewritten) =>
      && !refused && tx.privacy == rewritten && (!rewritten ==> tx.history == st.history)
      && tx.Valid() && Replay(tx.history) == Some(tx.base)
      && CommittedStore(tx.history, tx.state, tx.pending) == store
  }

  ghost predicate Entered(tx: OpenTransaction, st: Store)
    reads tx
  {
    tx.Valid() && tx.pending == [] && !tx.privacy && !tx.staged && tx.base == tx.state && st == Store(tx.history, tx.state) && Sound(st)
  }

  /** The closure given to a transaction. */
  method RunJob(tx: OpenTransaction, job: Job, ghost st: Store) returns (refused: bool, wrote: bool)
    requires Entered(tx, st) && (job.Do? ==> ValidChange(st, job.change))
    modifies tx
    ensures Worked(tx, st, job, refused, wrote)
  {
    hide Sound, ValidChange, Fold, Replay, WorkOn, Index.Agreed, Step;
    match job
    case Refuse(recorded, w) =>
      var _ := RecordAll(tx, recorded);
      refused, wrote := true, w;
      WorkRefuses(st, recorded, w);
    case Do(Serve(r)) =>
      refused := WorkServe(tx, r, st);
      wrote := tx.staged;
    case Do(Note(ops)) =>
      refused := WorkNote(tx, ops, st);
      wrote := false;
    case Do(Forget(t)) =>
      refused := WorkForget(tx, t, st);
      wrote := false;
    case Do(RedactEvent(stream, version, tombstone, generation, views)) =>
      refused := WorkRedact(tx, job.change, st);
      wrote := false;
  }

  lemma WorkRefuses(st: Store, recorded: seq<Op>, wrote: bool)
    ensures WorkOn(st, Refuse(recorded, wrote)) == Refused(recorded == [] && !wrote, st)
  {
  }

  method WorkServe(tx: OpenTransaction, r: Request, ghost st: Store) returns (refused: bool)
    requires Entered(tx, st) && ValidChange(st, Serve(r))
    modifies tx
    ensures Worked(tx, st, Do(Serve(r)), refused, tx.staged)
  {
    hide Sound, Fold, Replay, Index.Agreed, Perform, NewIds, AllTagged, Bind;
    SoundReplays(st);
    var out: Result<Requests.Answer, Error>;
    if r.Append? {
      out := tx.AppendGuarded(r);
    } else {
      out := tx.AppendGroup(r);
    }
    assert tx.pending == Perform(st.state, r).pending;
    FoldNothing(st.state);
    refused := out.Err?;
  }

  method WorkNote(tx: OpenTransaction, ops: seq<Op>, ghost st: Store) returns (refused: bool)
    requires Entered(tx, st)
    modifies tx
    ensures Worked(tx, st, Do(Note(ops)), refused, false)
  {
    hide Sound, Fold, Replay, Index.Agreed;
    SoundReplays(st);
    FoldNothing(st.state);
    var ok := RecordAll(tx, ops);
    assert [] + ops == ops;
    refused := !ok;
  }

  method WorkForget(tx: OpenTransaction, t: Tenant, ghost st: Store) returns (refused: bool)
    requires Entered(tx, st)
    modifies tx
    ensures Worked(tx, st, Do(Forget(t)), refused, false)
  {
    hide Sound, Fold, Replay, Index.Agreed, Step, Erased;
    ForgetReplays(st, t);
    ForgetSound(st, t);
    SoundReplays(Step(st, Forget(t)));
    var ok := tx.Forget(t);
    FoldNothing(tx.base);
    refused := !ok;
  }

  method WorkRedact(tx: OpenTransaction, c: Change, ghost st: Store) returns (refused: bool)
    requires Entered(tx, st) && c.RedactEvent?
    modifies tx
    ensures Worked(tx, st, Do(c), refused, false)
  {
    hide Sound, Fold, Replay, Index.Agreed, Redacted, Index.OfStream, RedactedState;
    RedactReplays(st, c);
    SoundReplays(st);
    RedactStep(st, c);
    var r := tx.Redact(c.stream, c.version, c.tombstone, c.generation, c.views);
    refused := r.None?;
  }

  /** What `redact` leaves open is what the step commits. */
  lemma RedactStep(st: Store, c: Change)
    requires Sound(st) && c.RedactEvent?
    ensures var found := Index.OfStream(st.state.events, c.stream, c.version, Some(c.version));
      found != [] ==>
        var x := Tombstone(found[0], c.tombstone);
        var s := RedactedState(st.state, x, c.generation, c.views);
        && Replay(RedactAll(st.history, x)) == Some(Redacted(st.state, x))
        && Fold(Redacted(st.state, x), AfterRedaction(c.stream, c.generation, c.views)) == Some(s)
        && Step(st, c) == CommittedStore(RedactAll(st.history, x), s, AfterRedaction(c.stream, c.generation, c.views))
  {
    hide Receipts.Partition, Disciplined, Replay, Redacted, Index.OfStream, OnlyEvent, Fold, DirtyPairs;
    var found := Index.OfStream(st.state.events, c.stream, c.version, Some(c.version));
    if found != [] {
      Index.ReplayAgreed(st.history);
      FoundLogged(st.state, c.stream, c.version);
      var x := Tombstone(found[0], c.tombstone);
      OnlyOne(st, found[0], x);
      RedactionCommutes(st.history, x);
      AfterRedactionFolds(Redacted(st.state, x), c.stream, c.generation, c.views);
    }
  }

  /** The frames past a resumed view. */
  method FoldFrames(start: State, frames: seq<Transaction>) returns (r: Option<State>)
    ensures r == FoldAll(start, frames)
  {
    hide Fold;
    var s := start;
    for i := 0 to |frames|
      invariant FoldAll(start, frames[..i]) == Some(s)
    {
      assert frames[..i + 1][..i] == frames[..i];
      var next := FoldLoop(s, frames[i]);
      if next.None? {
        FoldAllFail(start, frames, i + 1);
        return None;
      }
      s := next.value;
    }
    assert frames[..|frames|] == frames;
    return Some(s);
  }

  /** What a handle enters depends only on what is committed. */
  lemma SameEnter(enc: Encoding, w: World, w': World, observed: Option<Manifest>, view: Option<View>, resumed: bool)
    requires w.manifest == w'.manifest && w.history == w'.history
    ensures Enter(enc, w, observed, view, resumed) == Enter(enc, w', observed, view, resumed)
  {
    hide Replay, FoldAll, End;
  }

  /** A transaction that enters works on the committed history and its replay. */
  lemma EnteredSound(enc: Encoding, w: World, e: Entry)
    requires Injective(enc) && Invariant(enc, w) && ValidEntry(w, e) && e.Transact?
    requires Enter(enc, w, w.handles[e.h].observed, w.handles[e.h].verified, e.resumed).Some?
    ensures var st := Enter(enc, w, w.handles[e.h].observed, w.handles[e.h].verified, e.resumed).value;
      && Sound(st) && Index.Agreed(st.state) && (e.job.Do? ==> ValidChange(st, e.job.change))
  {
    hide Sound, ValidChange, Enter, Replay, Names, Index.Agreed;
    assert HandleOk(enc, w, w.handles[e.h]);
    EnterExact(enc, w, w.handles[e.h].observed, w.handles[e.h].verified, e.resumed);
    SoundAgreed(Store(w.history, Replay(w.history).value));
  }

  // ---- The runtime of one handle ----

  class Runtime {
    var observed: Option<Manifest>
    var verified: Option<View>
    var captured: Option<View>

    ghost function Slots(): Handle
      reads this
    {
      Handle(observed, verified, captured)
    }

    /** This handle alone on a volume. */
    ghost function Alone(volume: Volume): World
      reads this, volume
    {
      World(volume.manifest, volume.history, [Slots()])
    }

    constructor (m: Manifest)
      ensures Slots() == Handle(Some(m), None, None)
    {
      observed, verified, captured := Some(m), None, None;
    }

    /** `enter`: the view taken from the slot, or everything again. */
    method EnterWith(enc: Encoding, volume: Volume, view: Option<View>, resumed: bool) returns (r: Option<Store>)
      ensures r == Enter(enc, World(volume.manifest, volume.history, []), observed, view, resumed)
    {
      hide Fold, End;
      ghost var w := World(volume.manifest, volume.history, []);
      if resumed && Reusable(view, observed).Some? && Chains(enc, World(volume.manifest, volume.history, []), observed.value) {
        var added := volume.history[observed.value.sequence..];
        var folded := FoldFrames(view.value.state, added);
        return if folded.None? then None else Some(Store(view.value.transactions + added, folded.value));
      }
      if observed.Some? {
        var continued := ExtendsObserved(volume.manifest, Encoded(enc, volume.history), observed.value);
        if !continued {
          return None;
        }
      }
      var replayed := ReplayLoop(volume.history);
      return if replayed.None? then None else Some(Store(volume.history, replayed.value));
    }

    /** After the work: what is committed, and what the slots hold. */
    method Finish(enc: Encoding, volume: Volume, tx: OpenTransaction, refused: bool, wrote: bool, shape: Manifest, ending: Ending,
                  ghost st: Store, ghost job: Job)
      requires Worked(tx, st, job, refused, wrote) && verified == None
      modifies this, volume, tx
      ensures Alone(volume) == Conclude(enc, old(Alone(volume)), 0, old(Slots()), st, WorkOn(st, job), shape, ending)
    {
      hide WorkOn, Replay, Fold, End, Index.Agreed;
      ghost var w, inside, ended := Alone(volume), Slots(), WorkOn(st, job);
      if refused {
        if tx.pending == [] && !wrote && !tx.privacy {
          observed := Some(volume.manifest);
          verified := Some(View(volume.manifest, tx.history, tx.state));
        }
        return;
      }
      var quiet := !tx.privacy && tx.pending == [];
      tx.Commit();
      assert Store(tx.history, tx.state) == ended.store;
      var m := Published(enc, World(volume.manifest, volume.history, []), tx.history, tx.privacy, shape);
      if quiet {
        observed := Some(volume.manifest);
        verified := Some(View(volume.manifest, tx.history, tx.state));
      } else if ending == Clean {
        volume.manifest, volume.history := m, tx.history;
        observed := Some(m);
        if !tx.privacy {
          verified := Some(View(m, tx.history, tx.state));
        }
      } else if ending.landed {
        volume.manifest, volume.history := m, tx.history;
      }
    }

    /** `transaction`. */
    method Transact(enc: Encoding, volume: Volume, resumed: bool, job: Job, shape: Manifest, ending: Ending, shares: bool)
      requires Injective(enc) && Invariant(enc, Alone(volume))
      requires ValidEntry(Alone(volume), Entry.Transact(0, resumed, job, shape, ending, shares))
      modifies this, volume
      ensures Alone(volume) == EntryStep(enc, old(Alone(volume)), Entry.Transact(0, resumed, job, shape, ending, shares))
      ensures Invariant(enc, Alone(volume))
    {
      hide Invariant, Enter, WorkOn, Injective, ValidChange, Sound, Fold, Index.Agreed, Conclude, Worked;
      ghost var w, e := Alone(volume), Entry.Transact(0, resumed, job, shape, ending, shares);
      EntryKeeps(enc, w, e);
      var taken := verified;
      verified := None;
      var entered := EnterWith(enc, volume, taken, resumed);
      SameEnter(enc, World(w.manifest, w.history, []), w, w.handles[0].observed, w.handles[0].verified, resumed);
      if entered.None? {
        return;
      }
      if !shares {
        captured := None;
      }
      EnteredSound(enc, w, e);
      var tx := new OpenTransaction(entered.value);
      var refused, wrote := RunJob(tx, job, entered.value);
      ghost var mid := Alone(volume);
      Finish(enc, volume, tx, refused, wrote, shape, ending, entered.value, job);
      assert mid == Put(w, 0, mid.handles[0]);
      ConcludeAnywhere(enc, w, mid, 0, mid.handles[0], entered.value, WorkOn(entered.value, job), shape, ending);
    }
  }

  /** Concluding overwrites the handle's slots, whatever they held. */
  lemma ConcludeAnywhere(enc: Encoding, w: World, w': World, h: nat, inside: Handle, st: Store, ended: Ended,
                         shape: Manifest, ending: Ending)
    requires h < |w.handles| && w' == Put(w, h, inside)
    ensures Conclude(enc, w', h, inside, st, ended, shape, ending) == Conclude(enc, w, h, inside, st, ended, shape, ending)
  {
    hide End;
  }
}
