/** The journal as the source runs it: one file operation after another on one store directory
    (`journal.rs`). Each method is proved against the trail that `Recovery` gives for it, so every
    theorem about trails, crashes and runs is a theorem about these bodies. */
module Journal {
  import opened Prelude
  import opened Serde
  import opened Codec
  import opened Disk
  import opened Recovery
  import opened CrashSafety
  import opened CrashRuns

  /** A store directory, and every state it has passed through. */
  class Volume {
    var files: Files
    ghost var trail: seq<Files>

    constructor (f: Files)
      ensures files == f && trail == []
    {
      files, trail := f, [];
    }

    /** One file operation. */
    method Become(f: Files)
      modifies this
      ensures files == f && trail == old(trail) + [f]
    {
      files, trail := f, trail + [f];
    }

    /** Write a frame after `base`; each byte is a state a crash can leave. */
    method WriteFrame(base: Bytes, line: Bytes)
      requires files.events == Some(base) && line != []
      modifies this
      ensures trail == old(trail) + FrameTrail(old(files), base, line)
      ensures files == old(files).(events := Some(base + line))
    {
      ghost var whole := FrameTrail(files, base, line);
      var k := 0;
      assert base + line[..0] == base;
      while k < |line|
        invariant 0 <= k <= |line|
        invariant files == old(files).(events := Some(base + line[..k]))
        invariant trail == old(trail) + whole[..k]
      {
        assert base + line[..k] + [line[k]] == base + line[..k + 1];
        Become(files.(events := Some(files.events.value + [line[k]])));
        k := k + 1;
      }
      assert line[..k] == line && whole[..k] == whole;
    }

    /** `seal_active`. */
    method SealActive(m: Manifest)
      requires Appendable(files, m) && SealDue(m)
      modifies this
      ensures trail == old(trail) + SealTrail(old(files), m)
      ensures files == Last(old(files), SealTrail(old(files), m)) && files.events == Some([])
    {
      if files.segments.None? {
        Become(files.(segments := Some(map[])));
      }
      Become(files.(segments := Some(files.segments.value[|m.Sealed()| := files.events.value]), events := None));
      Become(files.(events := Some([])));
    }

    /** `remove_sealed`. */
    method RemoveSealed(n: nat)
      requires n == 0 || files.segments.Some?
      modifies this
      ensures trail == old(trail) + RemoveTrail(old(files), n)
      ensures files == Last(old(files), RemoveTrail(old(files), n))
    {
      ghost var whole := RemoveTrail(files, n);
      for k := 0 to n
        invariant trail == old(trail) + whole[..k]
        invariant files == if k == 0 then old(files) else whole[k - 1]
      {
        var dir := files.segments.value;
        assert dir - {k} == Without(old(files).segments.value, k + 1) by {
          if k > 0 { assert dir == Without(old(files).segments.value, k); }
          RemoveNext(old(files).segments.value, k, dir);
        }
        Become(files.(segments := Some(dir - {k})));
      }
      assert whole[..n] == whole;
    }

    /** `recover_append`: cut a torn frame off or move a sealed segment back, then drop the intent. */
    method UndoOrKeepAppend(current: Manifest) returns (ok: bool)
      modifies this
      ensures var r := RecoverAppend(old(files), current);
        ok == r.ok && trail == old(trail) + r.trail && files == Last(old(files), r.trail)
    {
      hide Decode, Plausible, SealedBytes;
      if !files.append.Document? {
        return false;
      }
      var i := files.append.value;
      if (current != i.before && current != i.after) || !Plausible(i) {
        return false;
      }
      var read := ReadSealedLoop(files, i.before);
      if read.None? {
        return false;
      }
      var prefix, held := read.value, |i.before.Sealed()|;
      if Sealing(i) {
        var renamed := files.segments.Some? && held in files.segments.value;
        if current == i.before {
          if renamed {
            var moved := files.segments.value[held];
            if |moved| != i.before.ActiveLength() || Decode(prefix + moved, i.before).None? {
              return false;
            }
            Become(files.(events := Some(moved), segments := Some(files.segments.value - {held})));
          }
          if files.events.None? || !Plans(i, prefix + files.events.value) {
            return false;
          }
        } else {
          var whole := ReadSealedLoop(files, i.after);
          if !renamed || files.events.None? || whole.None? || Decode(whole.value + files.events.value, i.after).None? {
            return false;
          }
        }
      } else {
        var boundary := i.before.ActiveLength();
        if files.events.None? || |files.events.value| < boundary {
          return false;
        }
        var bytes := files.events.value;
        if !(bytes[boundary..] <= i.frame) || !Plans(i, prefix + bytes[..boundary]) {
          return false;
        }
        if current == i.after {
          if Decode(prefix + bytes, current).None? {
            return false;
          }
        } else {
          Become(files.(events := Some(bytes[..boundary])));
        }
      }
      Become(files.(append := Absent));
      return true;
    }

    /** The end of `recover_privacy`: switch the manifest, remove the old epoch, drop the intent. */
    method FinishPrivacy(i: PrivacyIntent) returns (ok: bool)
      modifies this
      ensures var r := FinishTrail(old(files), i);
        ok == r.ok && trail == old(trail) + r.trail && files == Last(old(files), r.trail)
    {
      Become(files.(manifest := Document(i.after)));
      var n := |i.before.Sealed()|;
      if n > 0 && files.segments.None? {
        return false;
      }
      RemoveSealed(n);
      if files.replacement.Some? {
        Become(files.(replacement := None));
      }
      Become(files.(privacy := Absent));
      return true;
    }

    /** `recover_privacy`. */
    method RollPrivacyForward(current: Manifest) returns (ok: bool)
      modifies this
      ensures var r := RecoverPrivacy(old(files), current);
        ok == r.ok && trail == old(trail) + r.trail && files == Last(old(files), r.trail)
    {
      hide Decode, Rewrites, SealedBytes, FinishTrail;
      if !files.privacy.Document? || !Rewrites(files.privacy.value, current) || files.events.None? {
        return false;
      }
      var i := files.privacy.value;
      if SERDE.sha(files.events.value) == i.replacement {
        if Decode(files.events.value, i.after).None? {
          return false;
        }
      } else {
        var read := ReadSealedLoop(files, i.before);
        if read.None? || Decode(read.value + files.events.value, i.before).None?
           || files.replacement.None? || SERDE.sha(files.replacement.value) != i.replacement
           || Decode(files.replacement.value, i.after).None? {
          return false;
        }
        Become(files.(events := files.replacement, replacement := None));
      }
      FinishNotEmpty(files, i);
      ok := FinishPrivacy(i);
    }
  }

  lemma FinishNotEmpty(f: Files, i: PrivacyIntent)
    ensures FinishTrail(f, i).trail != []
  {
  }

  lemma RemoveNext(all: map<nat, Bytes>, k: nat, dir: map<nat, Bytes>)
    requires if k == 0 then dir == all else dir == Without(all, k)
    ensures dir - {k} == Without(all, k + 1)
  {
  }

  /** An open journal: the directory, and what the opener verified of it. */
  class Journal {
    const volume: Volume
    var manifest: Manifest
    var transactions: seq<Value>
    var bytes: Bytes

    ghost function State(): Opened
      reads this
    {
      Opened(manifest, transactions, bytes)
    }

    /** The files hold exactly what the journal holds, and no intent. */
    ghost predicate Valid()
      reads this, volume
    {
      Settled(volume.files, State())
    }

    constructor (v: Volume, o: Opened)
      requires Settled(v.files, o)
      ensures volume == v && State() == o && Valid()
    {
      volume := v;
      manifest, transactions, bytes := o.manifest, o.transactions, o.bytes;
    }

    /** The steps of `append` before its commit point. */
    method Prepare(t: Value)
      requires Appendable(volume.files, manifest)
      modifies volume
      ensures var steps := PrepareTrail(old(volume.files), manifest, t);
        volume.trail == old(volume.trail) + steps && volume.files == Last(old(volume.files), steps)
    {
      hide Line, FrameDigest, NextManifest;
      LineNotEmpty(manifest, t);
      var line, seal := AppendedLine(manifest, t), SealDue(manifest);
      var base := if seal then [] else volume.files.events.value;
      volume.Become(volume.files.(append := Document(AppendIntent(manifest, NextManifest(manifest, t), line))));
      ghost var prepared := volume.files;
      if seal {
        volume.SealActive(manifest);
      }
      ghost var unwritten := volume.files;
      volume.WriteFrame(base, line);
      assert line[..|line|] == line;
      assert Last(unwritten, FrameTrail(unwritten, base, line)) == volume.files;
    }

    /** `append`. It refuses only an overflow, before it touches a file. Otherwise the store passes
        through the steps of the append trail and ends at rest with one more transaction. */
    method Append(t: Value) returns (ok: bool)
      requires Valid()
      modifies this, volume
      ensures Valid()
      ensures ok <==> !AppendOverflows(old(manifest), t)
      ensures ok ==> old(Appendable(volume.files, manifest)) && State() == Appended(old(State()), t)
      ensures ok ==> volume.trail == old(volume.trail) + AppendTrail(old(volume.files), old(manifest), t)
      ensures !ok ==> State() == old(State()) && volume.files == old(volume.files) && volume.trail == old(volume.trail)
    {
      hide Decode, Line, FrameDigest, Holds, PrepareTrail;
      if AppendOverflows(manifest, t) {
        return false;
      }
      ghost var start, o := volume.files, State();
      Ready(start, o);
      AppendLong(start, o, t);
      AppendSteps(start, o, t, 0);
      Prepare(t);
      var line, next := AppendedLine(manifest, t), NextManifest(manifest, t);
      volume.Become(volume.files.(manifest := Document(next)));
      volume.Become(volume.files.(append := Absent));
      ghost var trail := AppendTrail(start, manifest, t);
      assert volume.trail == old(volume.trail) + trail;
      assert volume.files == trail[|trail| - 1];
      manifest, transactions, bytes := next, transactions + [t], bytes + line;
      return true;
    }

    /** `privacy`. It stages the next epoch, publishes its intent and rolls forward. */
    method Privacy(txs: seq<Value>) returns (ok: bool)
      requires Valid()
      modifies this, volume
      ensures Valid()
      ensures ok <==> old(manifest).ident.epoch + 1 <= U64_MAX
      ensures ok ==> State() == Rewritten(old(State()), txs)
      ensures ok ==> volume.trail == old(volume.trail) + PrivacyTrail(old(volume.files), old(manifest), txs)
      ensures !ok ==> State() == old(State()) && volume.files == old(volume.files) && volume.trail == old(volume.trail)
    {
      hide Decode, Holds, RecoverPrivacy, Written, End, Lands, StagedTrail;
      if manifest.ident.epoch + 1 > U64_MAX {
        return false;
      }
      ghost var start, o := volume.files, State();
      var id := manifest.ident.(epoch := manifest.ident.epoch + 1);
      var replacement, digest := EncodeAll(id, txs);
      var next := Manifest(id, |txs|, |replacement|, digest,
                           if manifest.segments.None? then None else Some(manifest.segments.value.(sealed := [])));
      Stage(replacement);
      volume.Become(volume.files.(privacy := Document(PrivacyIntent(manifest, next, SERDE.sha(replacement)))));
      ghost var prepared := volume.files;
      PreparedRolls(start, prepared, o, txs);
      StagedLast(start, o, txs);
      ok := volume.RollPrivacyForward(manifest);
      manifest, transactions, bytes := next, txs, replacement;
    }

    /** `privacy.next`: drop an abandoned one, then write this one byte by byte. */
    method Stage(replacement: Bytes)
      modifies volume
      ensures volume.files == old(volume.files).(replacement := Some(replacement))
      ensures volume.trail == old(volume.trail)
        + (if old(volume.files).replacement.Some? then [old(volume.files).(replacement := None)] else [])
        + StagedTrail(old(volume.files), replacement)
    {
      ghost var whole := StagedTrail(volume.files, replacement);
      if volume.files.replacement.Some? {
        volume.Become(volume.files.(replacement := None));
      }
      ghost var before := volume.trail;
      volume.Become(volume.files.(replacement := Some([])));
      assert replacement[..0] == [];
      for k := 0 to |replacement|
        invariant volume.files == old(volume.files).(replacement := Some(replacement[..k]))
        invariant volume.trail == before + whole[..k + 1]
      {
        assert replacement[..k] + [replacement[k]] == replacement[..k + 1];
        volume.Become(volume.files.(replacement := Some(volume.files.replacement.value + [replacement[k]])));
      }
      assert replacement[..|replacement|] == replacement && whole[..|replacement| + 1] == whole;
    }
  }

  lemma PreparedRolls(start: Files, prepared: Files, o: Opened, txs: seq<Value>)
    requires Settled(start, o) && o.manifest.ident.epoch + 1 <= U64_MAX
    requires prepared == start.(replacement := Some(RewrittenBytes(o.manifest, txs)),
                                privacy := Document(Rewrite(o.manifest, txs)))
    ensures Lands(prepared, RecoverPrivacy(prepared, o.manifest), Rewritten(o, txs))
    ensures RecoverPrivacy(prepared, o.manifest).ok
    ensures Settled(Last(prepared, RecoverPrivacy(prepared, o.manifest).trail), Rewritten(o, txs))
  {
    hide Decode, Written, End, RecoverPrivacy;
    HoldsIgnores(start, prepared, o);
    HeldIsResidual(prepared, o);
    assert RollingForward(prepared, o, txs);
    RollsForward(prepared, o, txs);
  }

  lemma StagedLast(start: Files, o: Opened, txs: seq<Value>)
    ensures Last(start, StageTrail(start, o.manifest, txs)) == start.(replacement := Some(RewrittenBytes(o.manifest, txs)))
  {
    hide Written, End;
    var bytes := RewrittenBytes(o.manifest, txs);
    assert bytes[..|bytes|] == bytes;
  }

  /** Encode a history from its first frame, as `privacy` does for the next epoch. */
  method EncodeAll(id: Ident, txs: seq<Value>) returns (bytes: Bytes, digest: Digest)
    ensures bytes == Written(id, 0, ZERO, txs) && digest == End(id, 0, ZERO, txs)
  {
    hide Line, FrameDigest;
    digest, bytes := ZERO, [];
    for n := 0 to |txs|
      invariant digest == End(id, 0, ZERO, txs[..n]) && bytes == Written(id, 0, ZERO, txs[..n])
    {
      assert txs[..n + 1][..n] == txs[..n];
      bytes := bytes + Line(id, n + 1, digest, txs[n]);
      digest := FrameDigest(id, n + 1, digest, txs[n]);
    }
    assert txs[..|txs|] == txs;
  }

  /** Read and chain everything that `m` commits. */
  method Verify(f: Files, m: Manifest) returns (r: Option<Opened>)
    ensures r == Accept(f, m)
  {
    hide DecodeChain, SealedBytes, Sum;
    var active := m.ActiveLength();
    if f.events.None? || |f.events.value| < active {
      return None;
    }
    var read := ReadSealedLoop(f, m);
    if read.None? || Unexplained(f, m) {
      return None;
    }
    var bytes := read.value + f.events.value[..active];
    assert |f.events.value| == active ==> f.events.value[..active] == f.events.value;
    if |bytes| != m.length {
      return None;
    }
    var txs := DecodeChainLoop(bytes, m, 0, ZERO);
    if txs.None? || |f.events.value| > active {
      return None;
    }
    return Some(Opened(m, txs.value, bytes));
  }

  /** `open_existing`: recover whatever a crash left, verify everything, sweep what nothing selected. */
  method OpenVolume(v: Volume) returns (r: Option<Journal>)
    modifies v
    ensures var run := Recovery.Open(old(v.files));
      && v.trail == old(v.trail) + run.trail && v.files == Last(old(v.files), run.trail)
      && (r.Some? <==> run.result.Some?)
      && (r.Some? ==> r.value.volume == v && fresh(r.value) && r.value.State() == run.result.value && r.value.Valid())
  {
    hide Accept, RecoverAppend, RecoverPrivacy, Holds;
    var f := v.files;
    if !Openable(f) {
      return None;
    }
    RecoveredQuiet(f, f.manifest.value);
    var ok := true;
    if !f.privacy.Absent? {
      ok := v.RollPrivacyForward(f.manifest.value);
    } else if !f.append.Absent? {
      ok := v.UndoOrKeepAppend(f.manifest.value);
    }
    if !ok {
      return None;
    }
    var o := Verify(v.files, Decided(f));
    if o.None? {
      return None;
    }
    AcceptedQuiet(v.files, Decided(f), o.value);
    if v.files.replacement.Some? {
      v.Become(v.files.(replacement := None));
    }
    var j := new Journal(v, o.value);
    return Some(j);
  }

  lemma AcceptedQuiet(f: Files, m: Manifest, o: Opened)
    requires f.manifest == Document(m) && f.append.Absent? && f.privacy.Absent? && m.Known() && Accept(f, m) == Some(o)
    ensures Settled(f, o) && Settled(f.(replacement := None), o)
  {
    hide Decode, SealedBytes;
    AcceptedIsSettled(f, o);
  }

  /** A recovery that succeeds leaves no intent, under the manifest that it decided for. */
  lemma RecoveredQuiet(f: Files, m: Manifest)
    requires f.manifest == Document(m)
    ensures f.append.Document? && RecoverAppend(f, m).ok ==>
      var g := Last(f, RecoverAppend(f, m).trail); g.append.Absent? && g.privacy == f.privacy && g.manifest == f.manifest
    ensures f.privacy.Document? && RecoverPrivacy(f, m).ok ==>
      var g, next := Last(f, RecoverPrivacy(f, m).trail), f.privacy.value.after;
      g.append == f.append && g.privacy.Absent? && g.manifest == Document(next) && next.Known()
    ensures !f.append.Document? ==> !RecoverAppend(f, m).ok
    ensures !f.privacy.Document? ==> !RecoverPrivacy(f, m).ok
  {
    hide Decode, Plausible, SealedBytes;
  }
}
