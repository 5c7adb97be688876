/** Every disk a crash can leave opens to one history (`journal.rs`).

    `Stable(f, o)` lists the disks from which the next opener must answer `o`. The opener answers
    `o` from each of them, and each of its own steps is one of them again, so it may crash as often
    as it likes. Every step of an append or of a privacy rewrite is stable for the old history or
    for the new one, and one step, the commit point, separates the two. */
module CrashSafety {
  import opened Prelude
  import opened Serde
  import opened Codec
  import opened Disk
  import opened Recovery

  // ---- The two ways a history changes ----

  function Appended(o: Opened, t: Value): Opened {
    Opened(NextManifest(o.manifest, t), o.transactions + [t], o.bytes + AppendedLine(o.manifest, t))
  }

  function Rewritten(o: Opened, txs: seq<Value>): Opened {
    Opened(RewrittenManifest(o.manifest, txs), txs, RewrittenBytes(o.manifest, txs))
  }

  /** A manifest and bytes that a reader accepts together, wherever the bytes are. */
  ghost predicate Sound(o: Opened) {
    && o.manifest.Known() && Decode(o.bytes, o.manifest) == Some(o.transactions)
    && |o.bytes| == o.manifest.length && Sum(o.manifest.Sealed()) <= |o.bytes|
  }

  lemma AppendedSound(o: Opened, t: Value)
    requires Sound(o)
    ensures Sound(Appended(o, t)) && Appended(o, t).manifest != o.manifest
  {
    hide Walk, Lines, Line, FrameDigest, End;
    var m, next := o.manifest, NextManifest(o.manifest, t);
    WalkEnd(m.ident, Lines(o.bytes), 0, ZERO);
    LineAppended(m.ident, 0, ZERO, o.bytes, o.transactions, m.digest, t);
    if SealDue(m) {
      SumAppend(m.Sealed(), m.ActiveLength());
    }
  }

  lemma SumAppend(a: seq<nat>, x: nat)
    ensures Sum(a + [x]) == Sum(a) + x
  {
    assert (a + [x])[..|a|] == a;
  }

  lemma RewrittenSound(o: Opened, txs: seq<Value>)
    requires o.manifest.Known()
    ensures Sound(Rewritten(o, txs)) && Rewritten(o, txs).manifest != o.manifest
  {
    DecodeWritten(RewrittenManifest(o.manifest, txs), txs);
  }

  // ---- The disks an interrupted append leaves ----

  /** The intent is durable and the manifest has not moved. The active segment may carry part of
      the frame, or may already be under its sealed name with part of the frame after it. */
  ghost predicate Interrupted(f: Files, o: Opened, t: Value) {
    var m, next := o.manifest, NextManifest(o.manifest, t);
    && Sound(o)
    && f.manifest == Document(m) && f.privacy.Absent? && f.append == Document(Intent(m, t))
    && (Holds(f, o) || Torn(f, o, t) || Moved(f, o, t))
  }

  ghost predicate Torn(f: Files, o: Opened, t: Value) {
    && !SealDue(o.manifest) && Disk.Sealed(f, o.manifest, o.bytes)
    && Sum(o.manifest.Sealed()) <= |o.bytes|
    && var active := o.bytes[Sum(o.manifest.Sealed())..];
       && f.events.Some? && active <= f.events.value
       && f.events.value[|active|..] <= AppendedLine(o.manifest, t)
  }

  ghost predicate Moved(f: Files, o: Opened, t: Value) {
    && SealDue(o.manifest) && f.segments.Some?
    && Segmented(f.segments.value, NextManifest(o.manifest, t).Sealed(), o.bytes)
  }

  /** The manifest has moved and the intent is still there. */
  ghost predicate Published(f: Files, o: Opened, t: Value) {
    && Sound(o)
    && f.manifest == Document(NextManifest(o.manifest, t)) && f.privacy.Absent?
    && f.append == Document(Intent(o.manifest, t)) && Holds(f, Appended(o, t))
  }

  // ---- The disks an interrupted rewrite leaves ----

  /** The intent is durable. Either the old files are intact beside the replacement, or the
      replacement is the active segment and only old sealed segments remain to be removed. */
  ghost predicate RollingForward(f: Files, o: Opened, txs: seq<Value>) {
    var after := Rewritten(o, txs);
    && Sound(o) && o.manifest.ident.epoch + 1 <= U64_MAX
    && f.append.Absent? && f.privacy == Document(Rewrite(o.manifest, txs))
    && if f.events == Some(after.bytes)
       then (f.manifest == Document(o.manifest) || f.manifest == Document(after.manifest)) && Residual(f, o.manifest)
       else f.manifest == Document(o.manifest) && Holds(f, o) && f.replacement == Some(after.bytes)
  }

  ghost predicate Residual(f: Files, m: Manifest) {
    && (m.Sealed() != [] ==> f.segments.Some?)
    && (m.segments.Some? && f.segments.Some? ==> forall i :: i in f.segments.value ==> i < |m.Sealed()|)
  }

  /** Every disk whose next completed open must answer `o`. */
  ghost predicate Stable(f: Files, o: Opened) {
    || Settled(f, o)
    || (exists t :: Interrupted(f, o, t))
    || (exists b, t :: o == Appended(b, t) && Published(f, b, t))
    || (exists b, txs :: o == Rewritten(b, txs) && RollingForward(f, b, txs))
  }

  // ---- Recovery from each of them ----

  /** A recovery that lands on a store at rest, through steps that are all stable. */
  ghost predicate Lands(f: Files, r: Recovered, o: Opened) {
    r.ok && r.trail != [] && Settled(Last(f, r.trail), o) && forall e :: e in r.trail ==> Stable(e, o)
  }

  lemma IntentPlausible(o: Opened, t: Value)
    requires Sound(o)
    ensures Plausible(Intent(o.manifest, t)) && Sealing(Intent(o.manifest, t)) == SealDue(o.manifest)
    ensures Plans(Intent(o.manifest, t), o.bytes)
  {
    AppendedSound(o, t);
  }

  lemma PrefixAndActive(o: Opened)
    requires Sound(o)
    ensures var s := Sum(o.manifest.Sealed());
      o.bytes[..s] + o.bytes[s..] == o.bytes && |o.bytes[s..]| == o.manifest.ActiveLength()
  {
  }

  /** The sealed prefix reads back whatever became of the active segment. */
  lemma ReadsPrefix(f: Files, o: Opened)
    requires Sound(o) && Disk.Sealed(f, o.manifest, o.bytes)
    ensures ReadSealed(f, o.manifest) == Some(o.bytes[..Sum(o.manifest.Sealed())])
  {
    ReadsSealed(f.(events := Some(o.bytes[Sum(o.manifest.Sealed())..])), o);
  }

  /** A torn or complete frame is cut off. */
  lemma RecoverTorn(f: Files, o: Opened, t: Value)
    requires Interrupted(f, o, t) && Torn(f, o, t)
    ensures Lands(f, RecoverAppend(f, o.manifest), o)
  {
    hide Decode;
    IntentPlausible(o, t);
    PrefixAndActive(o);
    ReadsPrefix(f, o);
    AppendedSound(o, t);
    var active := o.bytes[Sum(o.manifest.Sealed())..];
    assert f.events.value[..|active|] == active;
    var cut := f.(events := Some(active));
    assert RecoverAppend(f, o.manifest) == Recovered([cut, cut.(append := Absent)], true);
    assert Holds(cut, o);
    CutStable(cut, o, t);
  }

  lemma CutStable(cut: Files, o: Opened, t: Value)
    requires Sound(o) && Holds(cut, o) && cut.manifest == Document(o.manifest) && cut.privacy.Absent?
    requires cut.append == Document(Intent(o.manifest, t))
    ensures Stable(cut, o) && Settled(cut.(append := Absent), o)
  {
    assert Interrupted(cut, o, t);
  }

  /** A seal that had not moved the active segment leaves nothing to undo. */
  lemma RecoverUnmoved(f: Files, o: Opened, t: Value)
    requires Interrupted(f, o, t) && Holds(f, o) && SealDue(o.manifest)
    ensures Lands(f, RecoverAppend(f, o.manifest), o)
  {
    hide Decode;
    IntentPlausible(o, t);
    PrefixAndActive(o);
    ReadsPrefix(f, o);
    assert f.segments.Some? ==> |o.manifest.Sealed()| !in f.segments.value;
    assert RecoverAppend(f, o.manifest) == Recovered([f.(append := Absent)], true);
    CutStable(f, o, t);
  }

  /** The files of a moved seal with the segment back in place. */
  ghost function Undone(f: Files, held: nat): Files
    requires f.segments.Some? && held in f.segments.value
  {
    f.(events := Some(f.segments.value[held]), segments := Some(f.segments.value - {held}))
  }

  lemma MovedTrail(f: Files, o: Opened, t: Value)
    requires Interrupted(f, o, t) && Moved(f, o, t)
    ensures var held := |o.manifest.Sealed()|;
      && held in f.segments.value
      && RecoverAppend(f, o.manifest) == Recovered([Undone(f, held), Undone(f, held).(append := Absent)], true)
  {
    hide Decode, Sound;
    var m, dir := o.manifest, f.segments.value;
    var held := |m.Sealed()|;
    MovedIsHeld(f, o, t);
    IntentPlausible(o, t);
    PrefixAndActive(o);
    ReadsPrefix(Undone(f, held), o);
    SealedBytesIgnores(dir, held, m.Sealed());
  }

  /** A seal that had moved it is undone: the segment goes back over whatever was written. */
  lemma RecoverMoved(f: Files, o: Opened, t: Value)
    requires Interrupted(f, o, t) && Moved(f, o, t)
    ensures Lands(f, RecoverAppend(f, o.manifest), o)
  {
    hide Decode, RecoverAppend, Sound, Settled, Holds, Segmented, RollingForward, Published;
    MovedIsHeld(f, o, t);
    MovedTrail(f, o, t);
    CutStable(Undone(f, |o.manifest.Sealed()|), o, t);
  }

  lemma {:induction false} SealedBytesIgnores(dir: map<nat, Bytes>, held: nat, sealed: seq<nat>)
    requires |sealed| <= held
    ensures SealedBytes(dir - {held}, sealed) == SealedBytes(dir, sealed)
  {
    if sealed != [] {
      SealedBytesIgnores(dir, held, sealed[..|sealed| - 1]);
    }
  }

  lemma MovedIsHeld(f: Files, o: Opened, t: Value)
    requires Sound(o) && Moved(f, o, t)
    ensures var held := |o.manifest.Sealed()|;
      && held in f.segments.value
      && f.segments.value[held] == o.bytes[Sum(o.manifest.Sealed())..]
      && Holds(f.(events := Some(f.segments.value[held]), segments := Some(f.segments.value - {held})), o)
  {
    hide Decode, SegmentAt, NextManifest, Sum;
    var dir, sealed := f.segments.value, o.manifest.Sealed();
    NextSealed(o.manifest, t);
    LastMoved(dir, sealed, o.manifest.ActiveLength(), o.bytes);
    forall i | 0 <= i < |sealed| ensures SegmentAt(dir - {|sealed|}, sealed, o.bytes, i) {
      assert SegmentAt(dir, NextManifest(o.manifest, t).Sealed(), o.bytes, i);
      SegmentAmong(dir, dir - {|sealed|}, NextManifest(o.manifest, t).Sealed(), sealed, o.bytes, i);
    }
  }

  lemma NextSealed(m: Manifest, t: Value)
    requires SealDue(m)
    ensures NextManifest(m, t).Sealed() == m.Sealed() + [m.ActiveLength()] && m.ActiveLength() > 0
  {
    hide Line, FrameDigest;
  }

  /** A segment does not depend on what is sealed after it. */
  lemma SegmentAmong(dir: map<nat, Bytes>, dir': map<nat, Bytes>, sealed: seq<nat>, next: seq<nat>, bytes: Bytes, i: nat)
    requires i < |sealed| && i < |next| && sealed[..i + 1] == next[..i + 1] && SegmentAt(dir, sealed, bytes, i)
    requires i in dir ==> i in dir' && dir'[i] == dir[i]
    ensures SegmentAt(dir', next, bytes, i)
  {
    hide Sum;
    assert next[..i] == next[..i + 1][..i] == sealed[..i + 1][..i] == sealed[..i];
  }

  lemma LastMoved(dir: map<nat, Bytes>, sealed: seq<nat>, length: nat, bytes: Bytes)
    requires Sum(sealed) + length == |bytes| && SegmentAt(dir, sealed + [length], bytes, |sealed|)
    ensures |sealed| in dir && dir[|sealed|] == bytes[Sum(sealed)..]
  {
    hide Sum;
    var next := sealed + [length];
    SumAppend(sealed, length);
    CutWhole(next);
    assert next[..|sealed|] == sealed;
  }


  /** Past the commit point only the intent has to go. */
  lemma RecoverPublished(f: Files, o: Opened, t: Value)
    requires Published(f, o, t)
    ensures Lands(f, RecoverAppend(f, NextManifest(o.manifest, t)), Appended(o, t))
  {
    if SealDue(o.manifest) {
      RecoverPublishedSealed(f, o, t);
    } else {
      RecoverPublishedGrown(f, o, t);
    }
    assert Settled(f.(append := Absent), Appended(o, t));
  }

  lemma RecoverPublishedSealed(f: Files, o: Opened, t: Value)
    requires Published(f, o, t) && SealDue(o.manifest)
    ensures RecoverAppend(f, NextManifest(o.manifest, t)) == Recovered([f.(append := Absent)], true)
  {
    hide Decode;
    var after := Appended(o, t);
    IntentPlausible(o, t);
    AppendedSound(o, t);
    PrefixAndActive(after);
    ReadsPrefix(f, after);
    PublishedSealed(f, o, t);
  }

  lemma RecoverPublishedGrown(f: Files, o: Opened, t: Value)
    requires Published(f, o, t) && !SealDue(o.manifest)
    ensures RecoverAppend(f, NextManifest(o.manifest, t)) == Recovered([f.(append := Absent)], true)
  {
    hide Decode, Sum, Line, FrameDigest, Disk.Sealed, RecoverGrowth, Plans;
    var i, after := Intent(o.manifest, t), Appended(o, t);
    IntentPlausible(o, t);
    AppendedSound(o, t);
    PrefixAndActive(o);
    PublishedGrown(f, o, t);
    ReadsPrefix(f, o);
    var prefix := o.bytes[..Sum(o.manifest.Sealed())];
    var active, line := o.bytes[Sum(o.manifest.Sealed())..], AppendedLine(o.manifest, t);
    assert prefix + active + line == after.bytes;
    GrowthAccepted(f, i, prefix, active);
  }

  lemma GrowthAccepted(f: Files, i: AppendIntent, prefix: Bytes, active: Bytes)
    requires f.append == Document(i) && f.events == Some(active + i.frame)
    requires |active| == i.before.ActiveLength() && Plans(i, prefix + active)
    ensures RecoverGrowth(f, i.after, i, prefix) == Recovered([f.(append := Absent)], true)
  {
    hide Decode, Sum;
    var bytes := f.events.value;
    assert bytes[..|active|] == active && bytes[|active|..] == i.frame;
    assert prefix + bytes == prefix + active + i.frame;
  }

  lemma PublishedSealed(f: Files, o: Opened, t: Value)
    requires Published(f, o, t) && SealDue(o.manifest)
    ensures var held := |o.manifest.Sealed()|;
      f.segments.Some? && held in f.segments.value && ReadSealed(f, o.manifest).Some?
  {
    var m, after := o.manifest, Appended(o, t);
    var next := after.manifest.Sealed();
    var held := |m.Sealed()|;
    assert next == m.Sealed() + [m.ActiveLength()];
    assert SegmentAt(f.segments.value, next, after.bytes, held);
    SealedBytesOfSlices(f.segments.value, next, after.bytes, held);
    assert next[..held] == m.Sealed();
  }

  lemma PublishedGrown(f: Files, o: Opened, t: Value)
    requires Published(f, o, t) && !SealDue(o.manifest)
    ensures Disk.Sealed(f, o.manifest, o.bytes)
    ensures var active := o.bytes[Sum(o.manifest.Sealed())..];
      Sound(o) && f.events == Some(active + AppendedLine(o.manifest, t))
  {
    hide Decode;
    var m, after := o.manifest, Appended(o, t);
    var s := Sum(m.Sealed());
    assert after.bytes[s..] == o.bytes[s..] + AppendedLine(m, t);
    if m.segments.Some? && f.segments.Some? {
      SegmentedShorter(f.segments.value, m.Sealed(), o.bytes, AppendedLine(m, t));
    }
  }

  /** Sealed segments do not depend on what follows them. */
  lemma SegmentedShorter(dir: map<nat, Bytes>, sealed: seq<nat>, bytes: Bytes, more: Bytes)
    requires Segmented(dir, sealed, bytes + more) && Sum(sealed) <= |bytes|
    ensures Segmented(dir, sealed, bytes)
  {
    hide Sum, Cut;
    CutWhole(sealed);
    forall i | 0 <= i < |sealed| ensures SegmentAt(dir, sealed, bytes, i) {
      assert SegmentAt(dir, sealed, bytes + more, i);
      CutsGrow(sealed, i + 1, |sealed|);
      assert Slice(bytes + more, sealed, i) == Slice(bytes, sealed, i);
    }
  }

  // ---- Rolling a rewrite forward ----

  /** Once the replacement is the active segment, the rest removes the old epoch and nothing else. */
  lemma FinishLands(f: Files, o: Opened, txs: seq<Value>)
    requires RollingForward(f, o, txs) && f.events == Some(Rewritten(o, txs).bytes)
    ensures Lands(f, FinishTrail(f, Rewrite(o.manifest, txs)), Rewritten(o, txs))
    ensures Last(f, FinishTrail(f, Rewrite(o.manifest, txs)).trail).replacement.None?
  {
    hide Decode, Written, End;
    var i, after := Rewrite(o.manifest, txs), Rewritten(o, txs);
    var n := |o.manifest.Sealed()|;
    var switched := f.(manifest := Document(after.manifest));
    var removed := RemoveTrail(switched, n);
    var bare := Last(switched, removed);
    var swept := bare.(replacement := None);
    var done := swept.(privacy := Absent);
    RewrittenSound(o, txs);
    assert RollingForward(switched, o, txs);
    forall k | 0 <= k < n ensures RollingForward(removed[k], o, txs) {}
    assert RollingForward(bare, o, txs) && RollingForward(swept, o, txs);
    var r := FinishTrail(f, i);
    assert r.trail[|r.trail| - 1] == done;
    assert after.manifest.segments.Some? && bare.segments.Some? ==>
      forall j :: j !in bare.segments.value;
    assert Settled(done, after);
    forall e | e in r.trail ensures Stable(e, after) {
      if e != done {
        assert RollingForward(e, o, txs);
      }
    }
  }

  lemma RollsForward(f: Files, o: Opened, txs: seq<Value>)
    requires RollingForward(f, o, txs)
    requires f.manifest == Document(o.manifest) || f.manifest == Document(RewrittenManifest(o.manifest, txs))
    ensures Lands(f, RecoverPrivacy(f, f.manifest.value), Rewritten(o, txs))
    ensures Last(f, RecoverPrivacy(f, f.manifest.value).trail).replacement.None?
  {
    hide Decode, Written, End, FinishTrail;
    var i, after := Rewrite(o.manifest, txs), Rewritten(o, txs);
    RewrittenSound(o, txs);
    if f.events == Some(after.bytes) {
      FinishLands(f, o, txs);
    } else {
      if SERDE.sha(f.events.value) == i.replacement {
        NoCollision(f.events.value, after.bytes);
      }
      PrefixAndActive(o);
      ReadsPrefix(f, o);
      var renamed := f.(events := f.replacement, replacement := None);
      assert RollingForward(renamed, o, txs);
      FinishLands(renamed, o, txs);
      var finish := FinishTrail(renamed, i);
      assert RecoverPrivacy(f, f.manifest.value) == Recovered([renamed] + finish.trail, true);
      assert Stable(renamed, after);
    }
  }

  // ---- The opener ----

  /** The opener answers `o` through steps that are stable for `o`, and leaves a store at rest. */
  ghost predicate Answers(f: Files, o: Opened) {
    var run := Open(f);
    && run.result == Some(o)
    && (forall e :: e in run.trail ==> Stable(e, o))
    && Settled(Last(f, run.trail), o) && Last(f, run.trail).replacement.None?
  }

  /** From every stable disk the opener answers the one history that the disk stands for. */
  lemma OpenStable(f: Files, o: Opened)
    requires Stable(f, o)
    ensures Answers(f, o)
  {
    hide Answers, Settled, Interrupted, Published, RollingForward;
    if Settled(f, o) {
      OpenSettled(f, o);
    } else if exists t :: Interrupted(f, o, t) {
      var t :| Interrupted(f, o, t);
      OpenInterrupted(f, o, t);
    } else if exists b, t :: o == Appended(b, t) && Published(f, b, t) {
      var b, t :| o == Appended(b, t) && Published(f, b, t);
      OpenPublished(f, b, t);
    } else {
      var b, txs :| o == Rewritten(b, txs) && RollingForward(f, b, txs);
      OpenRolling(f, b, txs);
    }
  }

  lemma OpenSettled(f: Files, o: Opened)
    requires Settled(f, o)
    ensures Answers(f, o)
  {
    hide Decode, Accept, Stable;
    OpensSettled(f, f, Recovered([], true), o);
  }

  lemma OpenInterrupted(f: Files, o: Opened, t: Value)
    requires Interrupted(f, o, t)
    ensures Answers(f, o)
  {
    hide Decode, RecoverAppend, Accept, Stable, Holds;
    RecoverInterrupted(f, o, t);
    OpensSettled(f, Last(f, RecoverAppend(f, o.manifest).trail), RecoverAppend(f, o.manifest), o);
  }

  lemma OpenPublished(f: Files, b: Opened, t: Value)
    requires Published(f, b, t)
    ensures Answers(f, Appended(b, t))
  {
    hide Decode, RecoverAppend, Accept, Stable, Holds;
    var o := Appended(b, t);
    AppendedSound(b, t);
    RecoverPublished(f, b, t);
    OpensSettled(f, Last(f, RecoverAppend(f, o.manifest).trail), RecoverAppend(f, o.manifest), o);
  }

  lemma OpenRolling(f: Files, b: Opened, txs: seq<Value>)
    requires RollingForward(f, b, txs)
    ensures Answers(f, Rewritten(b, txs))
  {
    hide Decode, RecoverPrivacy, Accept, Stable, Holds;
    RewrittenSound(b, txs);
    RollsForward(f, b, txs);
    var m := f.manifest.value;
    OpensSettled(f, Last(f, RecoverPrivacy(f, m).trail), RecoverPrivacy(f, m), Rewritten(b, txs));
  }

  lemma RecoverInterrupted(f: Files, o: Opened, t: Value)
    requires Interrupted(f, o, t)
    ensures Lands(f, RecoverAppend(f, o.manifest), o)
  {
    hide RecoverAppend, Lands, Decode;
    if Moved(f, o, t) {
      RecoverMoved(f, o, t);
    } else if SealDue(o.manifest) {
      RecoverUnmoved(f, o, t);
    } else {
      assert Torn(f, o, t);
      RecoverTorn(f, o, t);
    }
  }

  /** The tail of the opener, after whichever recovery ran. */
  lemma OpensSettled(f: Files, g: Files, r: Recovered, o: Opened)
    requires r.ok && g == Last(f, r.trail) && Settled(g, o)
    requires forall e :: e in r.trail ==> Stable(e, o)
    ensures Accept(g, o.manifest) == Some(o)
    ensures var trail := r.trail + (if g.replacement.Some? then [g.(replacement := None)] else []);
      && (forall e :: e in trail ==> Stable(e, o))
      && Settled(Last(f, trail), o) && Last(f, trail).replacement.None?
  {
    hide Decode;
    SettledIsAccepted(g, o);
    assert Settled(g.(replacement := None), o);
  }
}
