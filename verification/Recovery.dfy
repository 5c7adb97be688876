/** The commit, crash and recovery protocol of the journal (`journal.rs`), as the sequence of disks
    each operation passes through.

    A run of an operation is a trail: the store after each of its file operations, in order. A crash
    leaves any one of them. The opener is an operation like any other, so it can crash too. */
module Recovery {
  import opened Prelude
  import opened Serde
  import opened Codec
  import opened Disk

  function Last(f: Files, trail: seq<Files>): Files {
    if trail == [] then f else trail[|trail| - 1]
  }

  // ---- Append ----

  function AppendedLine(m: Manifest, t: Value): Bytes {
    Line(m.ident, m.sequence + 1, m.digest, t)
  }

  /** An append finds the active segment at its seal size, and seals it first. */
  predicate SealDue(m: Manifest) {
    m.segments.Some? && m.ActiveLength() > 0 && m.ActiveLength() >= m.segments.value.sealAt
  }

  function NextManifest(m: Manifest, t: Value): Manifest {
    m.(sequence := m.sequence + 1,
       length := m.length + |AppendedLine(m, t)|,
       digest := FrameDigest(m.ident, m.sequence + 1, m.digest, t),
       segments := if SealDue(m)
                   then Some(m.segments.value.(sealed := m.Sealed() + [m.ActiveLength()]))
                   else m.segments)
  }

  /** The checked additions of `append`: the only refusal of a store at rest. */
  predicate AppendOverflows(m: Manifest, t: Value) {
    m.sequence + 1 > U64_MAX || m.length + |AppendedLine(m, t)| > U64_MAX
  }

  function Intent(m: Manifest, t: Value): AppendIntent {
    AppendIntent(m, NextManifest(m, t), AppendedLine(m, t))
  }

  /** A frame reaches the disk byte by byte. */
  function FrameTrail(f: Files, base: Bytes, line: Bytes): (trail: seq<Files>)
    ensures |trail| == |line|
    ensures forall k :: 0 <= k < |line| ==> trail[k] == f.(events := Some(base + line[..k + 1]))
  {
    seq(|line|, k requires 0 <= k < |line| => f.(events := Some(base + line[..k + 1])))
  }

  /** The active segment ends where the manifest says, and the next sealed name is free. */
  predicate Appendable(f: Files, m: Manifest) {
    && f.events.Some? && |f.events.value| == m.ActiveLength()
    && (SealDue(m) ==> f.segments.None? || |m.Sealed()| !in f.segments.value)
  }

  /** `seal_active`: make the directory, move the active segment, create the new one. */
  function SealTrail(f: Files, m: Manifest): seq<Files>
    requires Appendable(f, m)
  {
    var dir := if f.segments.None? then map[] else f.segments.value;
    var made := if f.segments.None? then [f.(segments := Some(dir))] else [];
    var moved := f.(segments := Some(dir[|m.Sealed()| := f.events.value]), events := None);
    made + [moved, moved.(events := Some([]))]
  }

  /** The steps before the commit point: the intent, the seal, the frame. */
  function PrepareTrail(f: Files, m: Manifest, t: Value): seq<Files>
    requires Appendable(f, m)
  {
    var prepared := f.(append := Document(Intent(m, t)));
    var seal := if SealDue(m) then SealTrail(prepared, m) else [];
    var base := if SealDue(m) then [] else f.events.value;
    [prepared] + seal + FrameTrail(Last(prepared, seal), base, AppendedLine(m, t))
  }

  /** `append`: everything above, then the manifest, then the intent goes. */
  function AppendTrail(f: Files, m: Manifest, t: Value): seq<Files>
    requires Appendable(f, m)
  {
    var prepare := PrepareTrail(f, m, t);
    var committed := Last(f, prepare).(manifest := Document(NextManifest(m, t)));
    prepare + [committed, committed.(append := Absent)]
  }

  // ---- Append recovery ----

  /** What a recovery did: its steps, and whether it accepted the store. */
  datatype Recovered = Recovered(trail: seq<Files>, ok: bool)

  predicate Sealing(i: AppendIntent) {
    |i.after.Sealed()| == |i.before.Sealed()| + 1
  }

  /** An append leaves the sealed segments alone, or seals exactly the active one it found. */
  predicate Plausible(i: AppendIntent) {
    && i.before.Known() && i.after.Known()
    && i.after.ident.format == i.before.ident.format && i.after.SealAt() == i.before.SealAt()
    && i.before.Sealed() <= i.after.Sealed()
    && (if Sealing(i) then i.after.Sealed()[|i.before.Sealed()|] == i.before.ActiveLength()
        else |i.after.Sealed()| == |i.before.Sealed()|)
  }

  predicate Plans(i: AppendIntent, committed: Bytes) {
    Decode(committed, i.before).Some? && Decode(committed + i.frame, i.after).Some?
  }

  /** `recover_append` over an intent that names one more sealed segment. */
  function RecoverSeal(f: Files, current: Manifest, i: AppendIntent, prefix: Bytes): Recovered
    requires f.append == Document(i)
  {
    var held := |i.before.Sealed()|;
    var renamed := f.segments.Some? && held in f.segments.value;
    if current == i.before then
      if renamed then
        var moved := f.segments.value[held];
        if |moved| != i.before.ActiveLength() || Decode(prefix + moved, i.before).None? then Recovered([], false)
        else
          var undone := f.(events := Some(moved), segments := Some(f.segments.value - {held}));
          if Plans(i, prefix + moved) then Recovered([undone, undone.(append := Absent)], true)
          else Recovered([undone], false)
      else if f.events.Some? && Plans(i, prefix + f.events.value) then Recovered([f.(append := Absent)], true)
      else Recovered([], false)
    else if !renamed || f.events.None? || ReadSealed(f, i.after).None?
            || Decode(ReadSealed(f, i.after).value + f.events.value, i.after).None? then Recovered([], false)
    else Recovered([f.(append := Absent)], true)
  }

  /** `recover_append` over an intent that only grows the active segment. */
  function RecoverGrowth(f: Files, current: Manifest, i: AppendIntent, prefix: Bytes): Recovered
    requires f.append == Document(i)
  {
    var boundary := i.before.ActiveLength();
    if f.events.None? || |f.events.value| < boundary then Recovered([], false)
    else
      var bytes := f.events.value;
      var committed := prefix + bytes[..boundary];
      if !(bytes[boundary..] <= i.frame) || !Plans(i, committed) then Recovered([], false)
      else if current == i.after then
        if Decode(prefix + bytes, current).Some? then Recovered([f.(append := Absent)], true) else Recovered([], false)
      else
        var cut := f.(events := Some(bytes[..boundary]));
        Recovered([cut, cut.(append := Absent)], true)
  }

  /** `recover_append`. */
  function RecoverAppend(f: Files, current: Manifest): Recovered {
    if !f.append.Document? then Recovered([], false)
    else
      var i := f.append.value;
      if (current != i.before && current != i.after) || !Plausible(i) then Recovered([], false)
      else match ReadSealed(f, i.before)
        case None => Recovered([], false)
        case Some(prefix) =>
          if Sealing(i) then RecoverSeal(f, current, i, prefix) else RecoverGrowth(f, current, i, prefix)
  }

  // ---- Privacy ----

  /** The manifest of a rewritten history: the next epoch, one active segment. */
  function RewrittenManifest(m: Manifest, txs: seq<Value>): Manifest {
    var id := m.ident.(epoch := m.ident.epoch + 1);
    Manifest(id, |txs|, |Written(id, 0, ZERO, txs)|, End(id, 0, ZERO, txs),
             if m.segments.None? then None else Some(m.segments.value.(sealed := [])))
  }

  function RewrittenBytes(m: Manifest, txs: seq<Value>): Bytes {
    Written(m.ident.(epoch := m.ident.epoch + 1), 0, ZERO, txs)
  }

  function Rewrite(m: Manifest, txs: seq<Value>): PrivacyIntent {
    PrivacyIntent(m, RewrittenManifest(m, txs), SERDE.sha(RewrittenBytes(m, txs)))
  }

  predicate Rewrites(i: PrivacyIntent, current: Manifest) {
    && (current == i.before || current == i.after)
    && i.before.ident.store == i.after.ident.store
    && i.before.ident.epoch + 1 <= U64_MAX && i.after.ident.epoch == i.before.ident.epoch + 1
    && i.before.Known() && i.after.Known()
    && i.after.ident.format == i.before.ident.format && i.after.SealAt() == i.before.SealAt()
    && i.after.Sealed() == []
  }

  function Without(dir: map<nat, Bytes>, n: nat): map<nat, Bytes> {
    map i | i in dir && i >= n :: dir[i]
  }

  /** `remove_sealed`: one segment after another. */
  function RemoveTrail(f: Files, n: nat): (trail: seq<Files>)
    requires n == 0 || f.segments.Some?
    ensures |trail| == n
    ensures forall k :: 0 <= k < n ==> trail[k] == f.(segments := Some(Without(f.segments.value, k + 1)))
  {
    seq(n, k requires 0 <= k < n => f.(segments := Some(Without(f.segments.value, k + 1))))
  }

  /** The rest of `recover_privacy` once the active segment is the replacement. */
  function FinishTrail(f: Files, i: PrivacyIntent): (r: Recovered) {
    var switched := f.(manifest := Document(i.after));
    var n := |i.before.Sealed()|;
    if n > 0 && f.segments.None? then Recovered([switched], false)
    else
      var removed := RemoveTrail(switched, n);
      var bare := Last(switched, removed);
      var swept := bare.(replacement := None);
      Recovered([switched] + removed + (if bare.replacement.Some? then [swept] else [])
                + [swept.(privacy := Absent)], true)
  }

  /** `recover_privacy`. */
  function RecoverPrivacy(f: Files, current: Manifest): Recovered {
    if !f.privacy.Document? || !Rewrites(f.privacy.value, current) || f.events.None? then Recovered([], false)
    else
      var i := f.privacy.value;
      if SERDE.sha(f.events.value) == i.replacement then
        if Decode(f.events.value, i.after).None? then Recovered([], false) else FinishTrail(f, i)
      else if ReadSealed(f, i.before).None?
              || Decode(ReadSealed(f, i.before).value + f.events.value, i.before).None?
              || f.replacement.None? || SERDE.sha(f.replacement.value) != i.replacement
              || Decode(f.replacement.value, i.after).None? then Recovered([], false)
      else
        var renamed := f.(events := f.replacement, replacement := None);
        var finish := FinishTrail(renamed, i);
        Recovered([renamed] + finish.trail, finish.ok)
  }

  function StagedTrail(f: Files, bytes: Bytes): (trail: seq<Files>)
    ensures |trail| == |bytes| + 1
    ensures forall k :: 0 <= k <= |bytes| ==> trail[k] == f.(replacement := Some(bytes[..k]))
  {
    seq(|bytes| + 1, k requires 0 <= k <= |bytes| => f.(replacement := Some(bytes[..k])))
  }

  /** The steps of `privacy` before its intent: drop an abandoned replacement, stage this one. */
  function StageTrail(f: Files, m: Manifest, txs: seq<Value>): seq<Files> {
    (if f.replacement.Some? then [f.(replacement := None)] else []) + StagedTrail(f, RewrittenBytes(m, txs))
  }

  /** `privacy`: stage, publish the intent, roll forward. */
  function PrivacyTrail(f: Files, m: Manifest, txs: seq<Value>): seq<Files> {
    var stage := StageTrail(f, m, txs);
    var prepared := Last(f, stage).(privacy := Document(Rewrite(m, txs)));
    stage + [prepared] + RecoverPrivacy(prepared, m).trail
  }

  // ---- The complete opener ----

  datatype OpenRun = OpenRun(trail: seq<Files>, result: Option<Opened>)

  /** No serialized writer publishes both intents. */
  predicate Openable(f: Files) {
    f.manifest.Document? && f.manifest.value.Known() && (f.append.Absent? || f.privacy.Absent?)
  }

  /** Finish or undo whatever intent is pending. */
  function Recover(f: Files): Recovered
    requires Openable(f)
  {
    if !f.privacy.Absent? then RecoverPrivacy(f, f.manifest.value)
    else if !f.append.Absent? then RecoverAppend(f, f.manifest.value)
    else Recovered([], true)
  }

  /** The manifest in force after a recovery that succeeds. */
  function Decided(f: Files): Manifest
    requires Openable(f)
  {
    if f.privacy.Document? then f.privacy.value.after else f.manifest.value
  }

  /** `open_with_creation` on a store that has a manifest. */
  function Open(f: Files): OpenRun {
    if !Openable(f) then OpenRun([], None)
    else
      var recovered := Recover(f);
      if !recovered.ok then OpenRun(recovered.trail, None)
      else
        var g := Last(f, recovered.trail);
        match Accept(g, Decided(f))
        case None => OpenRun(recovered.trail, None)
        case Some(o) =>
          OpenRun(recovered.trail + (if g.replacement.Some? then [g.(replacement := None)] else []), Some(o))
  }

  /** Creating a store: an empty active segment, then the manifest that commits it. */
  function CreateTrail(f: Files, m: Manifest): seq<Files> {
    var empty := f.(events := Some([]));
    [empty, empty.(manifest := Document(m))]
  }

  predicate Creatable(f: Files) {
    f.manifest.Absent? && f.events.None? && f.privacy.Absent?
  }

  /** A new store in the single layout (`None`) or sealing at the given size. */
  function FreshManifest(store: string, layout: Option<nat>): Manifest {
    Manifest(Ident(if layout.None? then FORMAT else SEGMENTED_FORMAT, store, 0), 0, 0, ZERO,
             if layout.None? then None else Some(Segments(layout.value, [])))
  }
}
