/** Resuming onto committed history (`journal.rs`, `resumed_committed`).

    A handle that verified a history keeps its bytes. To resume it compares those bytes with the
    files, or trusts a file whose inode stamp it kept, and chains only what is past them. The walk
    succeeds exactly when the strict reader, which reads and chains everything, would accept the
    same files as a continuation of what the handle verified, and then it answers the same. */
module Resume {
  import opened Prelude
  import opened Serde
  import opened Codec
  import opened Disk
  import opened Recovery
  import opened CrashSafety

  datatype Stamp = Stamp(dev: int, ino: int, len: int, mtime: int, ctime: int)

  const UNTRUSTED_NS: int := 2_000_000_000

  /** `trusted`: a stamp is kept only if the file held still for the read and the window before it. */
  function Trusted(before: Option<Stamp>, after: Option<Stamp>, started: int): Option<Stamp> {
    if before.Some? && after == before && before.value.ctime < started - UNTRUSTED_NS then before else None
  }

  /** The committed bytes that a handle verified, with the stamps it kept for the files they are in. */
  datatype View = View(bytes: Bytes, stamp: Option<Stamp>, sealed: seq<Option<Stamp>>)

  /** The stamps the files carry during the walk, which holds the writers' lock. */
  datatype Stamps = Stamps(events: Option<Stamp>, segments: map<nat, Stamp>)

  function SegmentStamp(stamps: Stamps, i: nat): Option<Stamp> {
    if i in stamps.segments then Some(stamps.segments[i]) else None
  }

  /** `Refuse` is an error; `Reread` hands the decision to the complete opener. */
  datatype Outcome = Refuse | Reread | Resumed(manifest: Manifest, added: seq<Value>, view: View)

  /** What the handle knows: it accepted `seen` under `observed`, from the bytes it kept. */
  ghost predicate Verified(observed: Manifest, seen: seq<Value>, view: View) {
    && Sound(Opened(observed, seen, view.bytes))
    && forall i :: 0 <= i < |observed.Sealed()| ==> Boundary(observed, view.bytes, i)
  }

  ghost predicate Boundary(m: Manifest, bytes: Bytes, i: nat) {
    && i < |m.Sealed()| && Cut(m.Sealed(), i) < Cut(m.Sealed(), i + 1) <= |bytes|
    && bytes[Cut(m.Sealed(), i + 1) - 1] == NEWLINE
  }

  /** The bytes that the view verified of file `i` of the history: a sealed segment, or what was active. */
  function Part(observed: Manifest, bytes: Bytes, i: nat): Bytes
    requires |bytes| == observed.length && Sum(observed.Sealed()) <= |bytes|
  {
    if i < |observed.Sealed()| then
      CutsGrow(observed.Sealed(), i, |observed.Sealed()|);
      CutsGrow(observed.Sealed(), i + 1, |observed.Sealed()|);
      CutWhole(observed.Sealed());
      Slice(bytes, observed.Sealed(), i)
    else if i == |observed.Sealed()| then bytes[Sum(observed.Sealed())..]
    else []
  }

  function Kept(observed: Manifest, view: View, i: nat): Option<Stamp> {
    if i < |observed.Sealed()| then (if i < |view.sealed| then view.sealed[i] else None)
    else if i == |observed.Sealed()| then view.stamp
    else None
  }

  /** The assumption about the filesystem: a file that still carries a kept stamp still holds the
      bytes that were read under it. */
  ghost predicate StampsHonest(f: Files, stamps: Stamps, observed: Manifest, view: View)
    requires |view.bytes| == observed.length && Sum(observed.Sealed()) <= |view.bytes|
  {
    && (forall i :: f.segments.Some? && i in f.segments.value && Kept(observed, view, i).Some?
                    && SegmentStamp(stamps, i) == Kept(observed, view, i)
                    ==> f.segments.value[i] == Part(observed, view.bytes, i))
    && (forall i :: f.events.Some? && Kept(observed, view, i).Some? && stamps.events == Kept(observed, view, i)
                    ==> f.events.value == Part(observed, view.bytes, i))
  }

  /** The files still hold the verified history, grown at its end. */
  ghost predicate Continues(o: Opened, observed: Manifest, view: View) {
    && o.manifest.ident == observed.ident && o.manifest.SealAt() == observed.SealAt()
    && observed.Sealed() <= o.manifest.Sealed()
    && (|observed.Sealed()| < |o.manifest.Sealed()| ==>
          o.manifest.Sealed()[|observed.Sealed()|] >= observed.ActiveLength())
    && view.bytes <= o.bytes
  }

  /** The manifest checks before any file is read. */
  predicate Comparable(m: Manifest, observed: Manifest) {
    && m.ident == observed.ident && m.sequence >= observed.sequence && m.length >= observed.length
    && m.SealAt() == observed.SealAt() && observed.Sealed() <= m.Sealed()
    && (|observed.Sealed()| < |m.Sealed()| ==> m.Sealed()[|observed.Sealed()|] >= observed.ActiveLength())
  }

  /** What the walk makes of one file: the bytes past the verified ones, or a reason to stop. */
  datatype Step = Stop | Pass(added: Bytes, stamp: Option<Stamp>)

  /** One turn of the walk: trust the stamp, or compare the verified bytes and read the rest. */
  function ReadFile(file: Bytes, stamp: Option<Stamp>, kept: Option<Stamp>, now: int, verified: Bytes,
                    committed: nat, sealed: bool): Step
  {
    if kept.Some? && kept == stamp && |verified| == committed then Pass([], kept)
    else if !(verified <= file) then Stop
    else
      var rest := file[|verified|..];
      if |rest| != committed - |verified| then Stop
      else if sealed && |rest| > 0 && rest[|rest| - 1] != NEWLINE then Stop
      else Pass(rest, Trusted(stamp, stamp, now))
  }

  /** A turn passes exactly when the file holds the verified bytes, then only what is committed. */
  lemma ReadFileMeans(file: Bytes, stamp: Option<Stamp>, kept: Option<Stamp>, now: int, verified: Bytes,
                      committed: nat, sealed: bool)
    requires kept.Some? && kept == stamp ==> file == verified
    requires sealed ==> Closed(verified) && committed > 0
    ensures var step := ReadFile(file, stamp, kept, now, verified, committed, sealed);
      && (step.Pass? <==> verified <= file && |file| == committed && (sealed ==> file[committed - 1] == NEWLINE))
      && (step.Pass? ==> file == verified + step.added)
      && (step.Pass? && step.stamp.Some? ==> step.stamp == stamp)
  {
  }

  // ---- The files read so far, and the bytes they add up to ----

  /** After `i` files: the verified bytes up to there, or all of them and the tail. */
  ghost predicate Walking(dir: map<nat, Bytes>, sealed: seq<nat>, observed: Manifest, bytes: Bytes, tail: Bytes, i: nat)
    requires i <= |sealed|
  {
    && SealedBytes(dir, sealed[..i]).Some?
    && var prefix, held := SealedBytes(dir, sealed[..i]).value, |observed.Sealed()|;
       if i <= held then tail == [] && Cut(observed.Sealed(), i) <= |bytes| && prefix == bytes[..Cut(observed.Sealed(), i)]
       else prefix == bytes + tail
  }

  /** A new view keeps, for each file, at most the stamp that the file carries now. */
  ghost predicate KeepsCurrent(view: View, m: Manifest, stamps: Stamps) {
    && (view.stamp.Some? ==> view.stamp == stamps.events)
    && |view.sealed| == |m.Sealed()|
    && forall i :: 0 <= i < |view.sealed| ==> view.sealed[i].None? || view.sealed[i] == SegmentStamp(stamps, i)
  }

  lemma PartClosed(observed: Manifest, seen: seq<Value>, view: View, i: nat)
    requires Verified(observed, seen, view)
    ensures Closed(Part(observed, view.bytes, i))
  {
    hide Walk, Lines;
    if i < |observed.Sealed()| {
      assert Boundary(observed, view.bytes, i);
    }
  }

  lemma WalkStart(dir: map<nat, Bytes>, sealed: seq<nat>, observed: Manifest, bytes: Bytes)
    ensures Walking(dir, sealed, observed, bytes, [], 0)
  {
  }

  /** A file that passes carries the walk one file on. */
  /** Reading one more sealed segment. */
  lemma SealedNext(dir: map<nat, Bytes>, sealed: seq<nat>, i: nat)
    requires i < |sealed| && SealedBytes(dir, sealed[..i]).Some? && HoldsSegment(dir, i, sealed[i])
    ensures SealedBytes(dir, sealed[..i + 1]) == Some(SealedBytes(dir, sealed[..i]).value + dir[i])
  {
    assert sealed[..i + 1][..i] == sealed[..i];
  }

  lemma WalkOn(dir: map<nat, Bytes>, sealed: seq<nat>, observed: Manifest, seen: seq<Value>, view: View,
               tail: Bytes, i: nat, added: Bytes)
    requires Verified(observed, seen, view) && observed.Sealed() <= sealed
    requires i < |sealed| && Walking(dir, sealed, observed, view.bytes, tail, i)
    requires HoldsSegment(dir, i, sealed[i]) && dir[i] == Part(observed, view.bytes, i) + added
    ensures Walking(dir, sealed, observed, view.bytes, tail + added, i + 1)
  {
    hide Decode, Sum, SealedBytes;
    var known, bytes := observed.Sealed(), view.bytes;
    SealedNext(dir, sealed, i);
    CutWhole(known);
    if i < |known| {
      assert Boundary(observed, bytes, i);
      CutsGrow(known, i, i + 1);
      assert bytes[..Cut(known, i + 1)] == bytes[..Cut(known, i)] + Slice(bytes, known, i);
    } else if i == |known| {
      assert bytes[..Cut(known, i)] + (bytes[Cut(known, i)..] + added) == bytes + added;
    } else {
      assert bytes + tail + ([] + added) == bytes + (tail + added);
    }
  }

  /** Files that continue the verified history pass every turn. */
  lemma ContinuedSegmentPasses(f: Files, o: Opened, observed: Manifest, seen: seq<Value>, view: View, i: nat)
    requires Verified(observed, seen, view) && Settled(f, o) && Continues(o, observed, view) && i < |o.manifest.Sealed()|
    ensures f.segments.Some? && HoldsSegment(f.segments.value, i, o.manifest.Sealed()[i])
    ensures Part(observed, view.bytes, i) <= f.segments.value[i]
  {
    hide Decode, Sum;
    var known, sealed := observed.Sealed(), o.manifest.Sealed();
    CutWhole(known);
    assert SegmentAt(f.segments.value, sealed, o.bytes, i);
    CutsGrow(sealed, i, i + 1);
    if i < |known| {
      assert sealed[..i] == known[..i] && sealed[..i + 1] == known[..i + 1];
      assert Boundary(observed, view.bytes, i);
      assert Slice(view.bytes, known, i) == Slice(o.bytes, sealed, i);
    } else if i == |known| {
      assert sealed[..i] == known;
      assert view.bytes[Sum(known)..] <= Slice(o.bytes, sealed, i);
    }
  }

  lemma ContinuedActivePasses(f: Files, o: Opened, observed: Manifest, seen: seq<Value>, view: View)
    requires Verified(observed, seen, view) && Settled(f, o) && Continues(o, observed, view)
    ensures Part(observed, view.bytes, |o.manifest.Sealed()|) <= f.events.value
  {
    hide Decode, Sum;
    if o.manifest.Sealed() == observed.Sealed() {
      assert view.bytes[Sum(observed.Sealed())..] <= o.bytes[Sum(observed.Sealed())..];
    }
  }

  lemma ComparableIfContinued(f: Files, o: Opened, observed: Manifest, seen: seq<Value>, view: View)
    requires Verified(observed, seen, view) && Settled(f, o) && Continues(o, observed, view)
    ensures Comparable(o.manifest, observed)
  {
    hide Walk, Lines, End;
    var tail := o.bytes[|view.bytes|..];
    assert o.bytes == view.bytes + tail;
    DecodeSplit(view.bytes, tail, observed, o.manifest, seen);
    DecodeNames(view.bytes, observed, 0, ZERO);
    DecodeNames(o.bytes, o.manifest, 0, ZERO);
  }

  /** The whole walk passed: the strict reader decodes the verified transactions and the tail's. */
  lemma WalkedAll(f: Files, observed: Manifest, seen: seq<Value>, view: View, tail: Bytes, added: Bytes)
    requires Verified(observed, seen, view) && f.manifest.Document? && f.append.Absent? && f.privacy.Absent?
    requires var m := f.manifest.value;
      && m.Known() && Comparable(m, observed) && !Unexplained(f, m)
      && (m.Sealed() != [] ==> f.segments.Some?)
      && f.events.Some? && |f.events.value| == m.ActiveLength()
      && Walking(if f.segments.None? then map[] else f.segments.value, m.Sealed(), observed, view.bytes, tail, |m.Sealed()|)
      && f.events.value == Part(observed, view.bytes, |m.Sealed()|) + added
    ensures var m := f.manifest.value;
      OpenStrict(f) ==
        match DecodeChain(tail + added, m, observed.sequence, observed.digest)
        case None => None
        case Some(more) => Some(Opened(m, seen + more, view.bytes + (tail + added)))
  {
    hide DecodeChain, Sum;
    var m, bytes, known := f.manifest.value, view.bytes, observed.Sealed();
    var sealed := m.Sealed();
    assert sealed[..|sealed|] == sealed;
    CutWhole(known);
    var dir := if f.segments.None? then map[] else f.segments.value;
    var prefix := SealedBytes(dir, sealed).value;
    assert ReadSealed(f, m) == Some(prefix);
    assert prefix + f.events.value == bytes + (tail + added);
    if SealedBytes(dir, sealed).Some? {
      SealedBytesLength(dir, sealed);
    }
    assert |prefix| + |f.events.value| == m.length;
    DecodeSplit(bytes, tail + added, observed, m, seen);
  }

  lemma ComparableContinues(o: Opened, observed: Manifest, view: View)
    requires Comparable(o.manifest, observed) && view.bytes <= o.bytes
    ensures Continues(o, observed, view)
  {
  }

  /** What the strict reader accepts, a handle may resume from. */
  lemma StrictVerifies(f: Files, o: Opened, view: View)
    requires OpenStrict(f) == Some(o) && view.bytes == o.bytes
    ensures Verified(o.manifest, o.transactions, view)
  {
    hide Decode, Sum;
    StrictAcceptsSettled(f, o);
    forall i | 0 <= i < |o.manifest.Sealed()| ensures Boundary(o.manifest, view.bytes, i) {
      assert SegmentAt(f.segments.value, o.manifest.Sealed(), o.bytes, i);
    }
  }

  /** With no intent pending, the complete opener and the strict reader answer alike. */
  lemma OpenerAgrees(f: Files)
    requires f.append.Absent? && f.privacy.Absent?
    ensures Open(f).result == OpenStrict(f)
  {
    hide Accept;
  }

  /** The walk of `resumed_committed` over the sealed segments and then the active one. It resumes
      exactly when the strict reader accepts the same files as a continuation of the verified bytes,
      and then with the transactions and bytes that the strict reader gets. */
  method ResumeCommitted(f: Files, stamps: Stamps, now: int, observed: Manifest, view: View, ghost seen: seq<Value>)
    returns (r: Outcome)
    requires Verified(observed, seen, view) && StampsHonest(f, stamps, observed, view)
    ensures r.Resumed? <==> OpenStrict(f).Some? && Continues(OpenStrict(f).value, observed, view)
    ensures r.Resumed? ==> OpenStrict(f) == Open(f).result == Some(Opened(r.manifest, seen + r.added, r.view.bytes))
    ensures r.Resumed? ==> KeepsCurrent(r.view, r.manifest, stamps) && Verified(r.manifest, seen + r.added, r.view)
  {
    hide Open, Decode, DecodeChain, Sum, ReadFile, Settled, Continues, Walking, Part, Kept, SealedBytes, Boundary;
    ghost var strict := OpenStrict(f);
    ghost var continued := strict.Some? && Continues(strict.value, observed, view);
    if continued {
      StrictAcceptsSettled(f, strict.value);
      ComparableIfContinued(f, strict.value, observed, seen, view);
    }
    if !f.append.Absent? || !f.privacy.Absent? || f.manifest.Absent? {
      return Reread;
    }
    if f.manifest.Garbled? || !f.manifest.value.Known() {
      return Refuse;
    }
    var m := f.manifest.value;
    if !Comparable(m, observed) || |view.bytes| != observed.length {
      return Reread;
    }
    var sealed, held := m.Sealed(), |observed.Sealed()|;
    if sealed != [] && f.segments.None? {
      return Refuse;
    }
    if Unexplained(f, m) {
      return Reread;
    }
    if f.events.None? {
      return Refuse;
    }
    if |f.events.value| != m.ActiveLength() {
      return Reread;
    }
    var dir := if f.segments.None? then map[] else f.segments.value;
    var tail: Bytes := [];
    var earned: seq<Option<Stamp>> := [];
    WalkStart(dir, sealed, observed, view.bytes);
    for i := 0 to |sealed|
      invariant |earned| == i
      invariant forall j :: 0 <= j < i ==> earned[j].None? || earned[j] == SegmentStamp(stamps, j)
      invariant Walking(dir, sealed, observed, view.bytes, tail, i)
    {
      if continued {
        ContinuedSegmentPasses(f, strict.value, observed, seen, view, i);
      }
      if i !in dir {
        return Refuse;
      }
      var part, kept := Part(observed, view.bytes, i), Kept(observed, view, i);
      var step := ReadFile(dir[i], SegmentStamp(stamps, i), kept, now, part, sealed[i], true);
      PartClosed(observed, seen, view, i);
      ReadFileMeans(dir[i], SegmentStamp(stamps, i), kept, now, part, sealed[i], true);
      if step.Stop? {
        return Reread;
      }
      WalkOn(dir, sealed, observed, seen, view, tail, i, step.added);
      tail := tail + step.added;
      earned := earned + [step.stamp];
    }
    if continued {
      ContinuedActivePasses(f, strict.value, observed, seen, view);
    }
    var part, kept := Part(observed, view.bytes, |sealed|), Kept(observed, view, |sealed|);
    var step := ReadFile(f.events.value, stamps.events, kept, now, part, m.ActiveLength(), false);
    ReadFileMeans(f.events.value, stamps.events, kept, now, part, m.ActiveLength(), false);
    if step.Stop? {
      return Reread;
    }
    WalkedAll(f, observed, seen, view, tail, step.added);
    OpenerAgrees(f);
    tail := tail + step.added;
    var added := DecodeChainLoop(tail, m, observed.sequence, observed.digest);
    if added.None? {
      return Reread;
    }
    ComparableContinues(strict.value, observed, view);
    r := Resumed(m, added.value, View(view.bytes + tail, step.stamp, earned));
    StrictVerifies(f, strict.value, r.view);
  }
}
