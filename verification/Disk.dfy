/** The files of one store as a value, and what its readers accept (`journal.rs`).

    One store directory is a `Files` value. A file operation that the filesystem makes atomic (a
    create, a rename, an unlink, one appended byte) is one new value. `atomic_json` is one step: its
    staging name is not modelled. */
module Disk {
  import opened Prelude
  import opened Serde
  import opened Codec

  /** A JSON document at a reserved name: absent, unreadable as its type, or a value. */
  datatype Document<+T> = Absent | Garbled | Document(value: T)

  datatype AppendIntent = AppendIntent(before: Manifest, after: Manifest, frame: Bytes)
  datatype PrivacyIntent = PrivacyIntent(before: Manifest, after: Manifest, replacement: Digest)

  /** `segments` is the directory of sealed segments, by index; a foreign entry is an index that
      no manifest names. `replacement` is `privacy.next`. */
  datatype Files = Files(
    manifest: Document<Manifest>,
    events: Option<Bytes>,
    segments: Option<map<nat, Bytes>>,
    append: Document<AppendIntent>,
    privacy: Document<PrivacyIntent>,
    replacement: Option<Bytes>)

  /** What a reader that accepted a store holds. */
  datatype Opened = Opened(manifest: Manifest, transactions: seq<Value>, bytes: Bytes)

  // ---- Reading sealed segments ----

  predicate HoldsSegment(dir: map<nat, Bytes>, i: nat, length: nat) {
    i in dir && |dir[i]| == length && length > 0 && dir[i][length - 1] == NEWLINE
  }

  function SealedBytes(dir: map<nat, Bytes>, sealed: seq<nat>): Option<Bytes> {
    if sealed == [] then Some([])
    else
      var n := |sealed| - 1;
      match SealedBytes(dir, sealed[..n])
      case None => None
      case Some(prefix) => if HoldsSegment(dir, n, sealed[n]) then Some(prefix + dir[n]) else None
  }

  /** `read_sealed`: every sealed segment, exactly as long as the manifest says. */
  function ReadSealed(f: Files, m: Manifest): Option<Bytes> {
    if m.Sealed() == [] then Some([])
    else if f.segments.None? then None
    else SealedBytes(f.segments.value, m.Sealed())
  }

  /** The loop of `read_sealed`. */
  method ReadSealedLoop(f: Files, m: Manifest) returns (r: Option<Bytes>)
    ensures r == ReadSealed(f, m)
  {
    var sealed := m.Sealed();
    if sealed == [] {
      return Some([]);
    }
    if f.segments.None? {
      return None;
    }
    var dir := f.segments.value;
    var into: Bytes := [];
    for i := 0 to |sealed|
      invariant SealedBytes(dir, sealed[..i]) == Some(into)
    {
      assert sealed[..i + 1][..i] == sealed[..i];
      if !HoldsSegment(dir, i, sealed[i]) {
        SealedBytesFail(dir, sealed, i + 1);
        return None;
      }
      into := into + dir[i];
    }
    assert sealed[..|sealed|] == sealed;
    return Some(into);
  }

  lemma {:induction false} SealedBytesFail(dir: map<nat, Bytes>, sealed: seq<nat>, i: nat)
    requires i <= |sealed| && SealedBytes(dir, sealed[..i]).None?
    ensures SealedBytes(dir, sealed).None?
    decreases |sealed| - i
  {
    if i == |sealed| {
      assert sealed[..i] == sealed;
    } else {
      assert sealed[..i + 1][..i] == sealed[..i];
      SealedBytesFail(dir, sealed, i + 1);
    }
  }

  /** `unexplained_segments`: an entry under `segments/` that the manifest does not name. */
  predicate Unexplained(f: Files, m: Manifest) {
    m.segments.Some? &&
    match f.segments
    case None => m.Sealed() != []
    case Some(dir) => exists i :: i in dir.Keys && i >= |m.Sealed()|
  }

  // ---- The readers that repair nothing ----

  /** Everything the complete opener checks once no intent is pending, and all that `open_strict`
      checks. Bytes missing from the active segment and bytes past it are both refused. */
  function Accept(f: Files, m: Manifest): Option<Opened> {
    if f.events.None? || |f.events.value| != m.ActiveLength() then None
    else match ReadSealed(f, m)
      case None => None
      case Some(prefix) =>
        if Unexplained(f, m) then None
        else match Decode(prefix + f.events.value, m)
          case None => None
          case Some(txs) => Some(Opened(m, txs, prefix + f.events.value))
  }

  function OpenStrict(f: Files): Option<Opened> {
    if !f.append.Absent? || !f.privacy.Absent? || !f.manifest.Document? || !f.manifest.value.Known() then None
    else Accept(f, f.manifest.value)
  }

  // ---- What an accepted store looks like ----

  /** Where sealed segment `i` ends. */
  function Cut(sealed: seq<nat>, i: nat): nat
    requires i <= |sealed|
  {
    Sum(sealed[..i])
  }

  /** Sealed segment `i` of committed bytes. */
  function Slice(bytes: Bytes, sealed: seq<nat>, i: nat): Bytes
    requires i < |sealed| && Cut(sealed, i) <= Cut(sealed, i + 1) <= |bytes|
  {
    bytes[Cut(sealed, i)..Cut(sealed, i + 1)]
  }

  lemma {:induction false} CutsGrow(sealed: seq<nat>, i: nat, j: nat)
    requires i <= j <= |sealed|
    ensures Cut(sealed, i) <= Cut(sealed, j)
    ensures i < |sealed| ==> Cut(sealed, i + 1) == Cut(sealed, i) + sealed[i]
    decreases j - i
  {
    if i < |sealed| {
      assert sealed[..i + 1][..i] == sealed[..i];
    }
    if i < j {
      CutsGrow(sealed, i + 1, j);
    }
  }

  lemma CutWhole(sealed: seq<nat>)
    ensures Cut(sealed, |sealed|) == Sum(sealed)
  {
    assert sealed[..|sealed|] == sealed;
  }

  /** `dir` holds the sealed part of `bytes`, one whole-frame segment per entry. */
  ghost predicate Segmented(dir: map<nat, Bytes>, sealed: seq<nat>, bytes: Bytes) {
    && (forall i :: i in dir ==> i < |sealed|)
    && (forall i :: 0 <= i < |sealed| ==> SegmentAt(dir, sealed, bytes, i))
  }

  ghost predicate SegmentAt(dir: map<nat, Bytes>, sealed: seq<nat>, bytes: Bytes, i: nat) {
    && i < |sealed| && Cut(sealed, i) < Cut(sealed, i + 1) <= |bytes|
    && i in dir && dir[i] == Slice(bytes, sealed, i)
    && bytes[Cut(sealed, i + 1) - 1] == NEWLINE
  }

  /** The directory under `segments/`, which the single layout never looks at. */
  ghost predicate Sealed(f: Files, m: Manifest, bytes: Bytes) {
    m.segments.Some? ==>
      if f.segments.None? then m.Sealed() == [] else Segmented(f.segments.value, m.Sealed(), bytes)
  }

  /** The committed files of `o`, whatever else is there. */
  ghost predicate Holds(f: Files, o: Opened) {
    && o.manifest.Known() && Decode(o.bytes, o.manifest) == Some(o.transactions)
    && |o.bytes| == o.manifest.length && Sum(o.manifest.Sealed()) <= |o.bytes|
    && Sealed(f, o.manifest, o.bytes)
    && f.events == Some(o.bytes[Sum(o.manifest.Sealed())..])
  }

  /** A store at rest: the committed files of `o` and no intent. */
  ghost predicate Settled(f: Files, o: Opened) {
    f.manifest == Document(o.manifest) && f.append.Absent? && f.privacy.Absent? && Holds(f, o)
  }

  lemma {:induction false} SealedBytesOfSlices(dir: map<nat, Bytes>, sealed: seq<nat>, bytes: Bytes, n: nat)
    requires Segmented(dir, sealed, bytes) && n <= |sealed|
    ensures Cut(sealed, n) <= |bytes| && SealedBytes(dir, sealed[..n]) == Some(bytes[..Cut(sealed, n)])
  {
    if n > 0 {
      SealedBytesOfSlices(dir, sealed, bytes, n - 1);
      assert SegmentAt(dir, sealed, bytes, n - 1);
      CutsGrow(sealed, n - 1, n);
      assert sealed[..n][..n - 1] == sealed[..n - 1];
      assert bytes[..Cut(sealed, n)] == bytes[..Cut(sealed, n - 1)] + Slice(bytes, sealed, n - 1);
    }
  }

  lemma ReadsSealed(f: Files, o: Opened)
    requires Holds(f, o)
    ensures ReadSealed(f, o.manifest) == Some(o.bytes[..Sum(o.manifest.Sealed())])
  {
    var sealed := o.manifest.Sealed();
    if sealed != [] {
      SealedBytesOfSlices(f.segments.value, sealed, o.bytes, |sealed|);
      CutWhole(sealed);
      assert sealed[..|sealed|] == sealed;
    }
  }

  lemma {:induction false} SlicesOfSealedBytes(dir: map<nat, Bytes>, sealed: seq<nat>, n: nat)
    requires n <= |sealed| && SealedBytes(dir, sealed).Some?
    ensures SealedBytes(dir, sealed[..n]).Some?
    ensures Cut(sealed, n) == |SealedBytes(dir, sealed[..n]).value|
    ensures SealedBytes(dir, sealed[..n]).value <= SealedBytes(dir, sealed).value
    ensures n < |sealed| ==>
      && HoldsSegment(dir, n, sealed[n])
      && SealedBytes(dir, sealed[..n + 1]) == Some(SealedBytes(dir, sealed[..n]).value + dir[n])
    decreases |sealed| - n
  {
    if n == |sealed| {
      assert sealed[..n] == sealed;
      SealedBytesLength(dir, sealed);
    } else {
      assert sealed[..n + 1][..n] == sealed[..n];
      SlicesOfSealedBytes(dir, sealed, n + 1);
      CutsGrow(sealed, n, n + 1);
    }
  }

  lemma {:induction false} SealedBytesLength(dir: map<nat, Bytes>, sealed: seq<nat>)
    requires SealedBytes(dir, sealed).Some?
    ensures |SealedBytes(dir, sealed).value| == Sum(sealed)
  {
    if sealed != [] {
      SealedBytesLength(dir, sealed[..|sealed| - 1]);
    }
  }

  lemma SegmentsAccepted(dir: map<nat, Bytes>, sealed: seq<nat>, prefix: Bytes, active: Bytes)
    requires SealedBytes(dir, sealed) == Some(prefix)
    requires forall i :: i in dir ==> i < |sealed|
    ensures |prefix| == Sum(sealed) && Segmented(dir, sealed, prefix + active)
  {
    var bytes := prefix + active;
    SealedBytesLength(dir, sealed);
    forall i | 0 <= i < |sealed|
      ensures SegmentAt(dir, sealed, bytes, i)
    {
      SlicesOfSealedBytes(dir, sealed, i);
      SlicesOfSealedBytes(dir, sealed, i + 1);
      var before, after := SealedBytes(dir, sealed[..i]).value, SealedBytes(dir, sealed[..i + 1]).value;
      assert after == before + dir[i] && after <= prefix <= bytes;
      assert dir[i] == after[|before|..] == bytes[|before|..|after|];
    }
  }

  /** The strict reader accepts a store exactly when it is at rest. */
  lemma StrictAcceptsSettled(f: Files, o: Opened)
    ensures OpenStrict(f) == Some(o) <==> Settled(f, o)
  {
    if Settled(f, o) {
      SettledIsAccepted(f, o);
    } else if OpenStrict(f) == Some(o) {
      AcceptedIsSettled(f, o);
    }
  }

  lemma SettledIsAccepted(f: Files, o: Opened)
    requires o.manifest.Known() && Holds(f, o)
    ensures Accept(f, o.manifest) == Some(o)
  {
    var sealed := o.manifest.Sealed();
    ReadsSealed(f, o);
    assert o.bytes == o.bytes[..Sum(sealed)] + o.bytes[Sum(sealed)..];
  }

  lemma AcceptedIsSettled(f: Files, o: Opened)
    requires OpenStrict(f) == Some(o)
    ensures Settled(f, o)
  {
    var sealed := o.manifest.Sealed();
    var prefix, active := ReadSealed(f, o.manifest).value, f.events.value;
    if f.segments.Some? && (sealed != [] || o.manifest.segments.Some?) {
      var dir := f.segments.value;
      assert SealedBytes(dir, sealed) == Some(prefix);
      assert forall i :: i in dir ==> i < |sealed|;
      SegmentsAccepted(dir, sealed, prefix, active);
    }
    assert o.bytes == prefix + active;
    assert o.bytes[Sum(sealed)..] == active;
  }
}
