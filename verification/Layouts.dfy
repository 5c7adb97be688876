/** The segmented layout holds what the single layout holds (`journal.rs`).

    Over every run from a new store, with any crashes, the sealed segments followed by the active
    one are the encoding of the transaction list, each sealed segment is a whole number of frames of
    at least the seal size, and no later append touches it. */
module Layouts {
  import opened Prelude
  import opened Serde
  import opened Codec
  import opened Disk
  import opened Recovery
  import opened CrashSafety
  import opened CrashRuns

  /** The bytes are the encoding of the transactions, and segment `i` ends after transaction
      `ends[i]`, having reached the seal size. */
  ghost predicate Framed(o: Opened, ends: seq<nat>) {
    var m, sealed := o.manifest, o.manifest.Sealed();
    && o.bytes == Written(m.ident, 0, ZERO, o.transactions)
    && m.sequence == |o.transactions| && m.digest == End(m.ident, 0, ZERO, o.transactions)
    && m.length == |o.bytes|
    && |ends| == |sealed|
    && forall i :: 0 <= i < |sealed| ==> EndsAt(o, ends, i)
  }

  ghost predicate EndsAt(o: Opened, ends: seq<nat>, i: nat) {
    var m, sealed := o.manifest, o.manifest.Sealed();
    && i < |ends| && i < |sealed| && ends[i] <= |o.transactions|
    && Cut(sealed, i + 1) == |Written(m.ident, 0, ZERO, o.transactions[..ends[i]])|
    && sealed[i] >= m.segments.value.sealAt && sealed[i] > 0
  }

  /** What every history of a run satisfies. */
  ghost predicate Canonical(o: Opened) {
    o.manifest.Known() && exists ends :: Framed(o, ends)
  }

  lemma WrittenSnoc(id: Ident, txs: seq<Value>, t: Value)
    ensures Written(id, 0, ZERO, txs + [t]) == Written(id, 0, ZERO, txs) + Line(id, |txs| + 1, End(id, 0, ZERO, txs), t)
    ensures End(id, 0, ZERO, txs + [t]) == FrameDigest(id, |txs| + 1, End(id, 0, ZERO, txs), t)
  {
    hide Line, FrameDigest;
    assert (txs + [t])[..|txs|] == txs;
  }

  lemma EndKept(o: Opened, t: Value, ends: seq<nat>, ends': seq<nat>, i: nat)
    requires EndsAt(o, ends, i) && ends <= ends'
    ensures EndsAt(Appended(o, t), ends', i)
  {
    hide Line, FrameDigest, Written, End, Sum;
    var sealed, sealed' := o.manifest.Sealed(), Appended(o, t).manifest.Sealed();
    assert sealed'[..i + 1] == sealed[..i + 1];
    assert (o.transactions + [t])[..ends[i]] == o.transactions[..ends[i]];
  }

  /** The segment an append seals ends after the transactions there were. */
  lemma EndAdded(o: Opened, t: Value, ends: seq<nat>)
    requires SealDue(o.manifest) && Framed(o, ends) && Sum(o.manifest.Sealed()) <= |o.bytes|
    ensures EndsAt(Appended(o, t), ends + [|o.transactions|], |ends|)
  {
    hide Line, FrameDigest, Written, End;
    var sealed' := Appended(o, t).manifest.Sealed();
    SumAppend(o.manifest.Sealed(), o.manifest.ActiveLength());
    CutWhole(sealed');
    assert (o.transactions + [t])[..|o.transactions|] == o.transactions;
  }

  lemma AppendedCanonical(o: Opened, t: Value)
    requires Canonical(o) && Sum(o.manifest.Sealed()) <= |o.bytes|
    ensures Canonical(Appended(o, t)) && Sum(Appended(o, t).manifest.Sealed()) <= |Appended(o, t).bytes|
  {
    hide Appended, Framed;
    var ends: seq<nat> :| Framed(o, ends);
    KnownAfter(o, t, ends);
    if SealDue(o.manifest) {
      FramedSealed(o, t, ends);
      assert Framed(Appended(o, t), ends + [|o.transactions|]);
    } else {
      FramedGrown(o, t, ends);
      assert Framed(Appended(o, t), ends);
    }
  }

  /** The next manifest is a layout of its own kind, sealed or not. */
  lemma KnownAfter(o: Opened, t: Value, ends: seq<nat>)
    requires o.manifest.Known() && Framed(o, ends) && Sum(o.manifest.Sealed()) <= |o.bytes|
    ensures Appended(o, t).manifest.Known() && Sum(Appended(o, t).manifest.Sealed()) <= |Appended(o, t).bytes|
  {
    hide Line, FrameDigest, Written, End, EndsAt, Sum;
    if SealDue(o.manifest) {
      SumAppend(o.manifest.Sealed(), o.manifest.ActiveLength());
    }
  }

  /** The bytes, the count and the digest of the longer history. */
  lemma EncodedAfter(o: Opened, t: Value, ends: seq<nat>)
    requires Framed(o, ends)
    ensures var after := Appended(o, t);
      && after.bytes == Written(after.manifest.ident, 0, ZERO, after.transactions)
      && after.manifest.sequence == |after.transactions|
      && after.manifest.digest == End(after.manifest.ident, 0, ZERO, after.transactions)
      && after.manifest.length == |after.bytes|
  {
    hide Line, FrameDigest, Written, End, EndsAt;
    WrittenSnoc(o.manifest.ident, o.transactions, t);
  }

  lemma FramedSealed(o: Opened, t: Value, ends: seq<nat>)
    requires Framed(o, ends) && SealDue(o.manifest) && Sum(o.manifest.Sealed()) <= |o.bytes|
    ensures Framed(Appended(o, t), ends + [|o.transactions|])
  {
    EncodedAfter(o, t, ends);
    EndAdded(o, t, ends);
    forall i | 0 <= i < |ends| ensures EndsAt(Appended(o, t), ends + [|o.transactions|], i) {
      EndKept(o, t, ends, ends + [|o.transactions|], i);
    }
    hide Line, FrameDigest, Written, End, EndsAt;
  }

  lemma FramedGrown(o: Opened, t: Value, ends: seq<nat>)
    requires Framed(o, ends) && !SealDue(o.manifest)
    ensures Framed(Appended(o, t), ends)
  {
    EncodedAfter(o, t, ends);
    forall i | 0 <= i < |ends| ensures EndsAt(Appended(o, t), ends, i) {
      EndKept(o, t, ends, ends, i);
    }
    hide Line, FrameDigest, Written, End, EndsAt;
  }

  lemma RewrittenCanonical(o: Opened, txs: seq<Value>)
    requires o.manifest.Known()
    ensures Canonical(Rewritten(o, txs)) && Sum(Rewritten(o, txs).manifest.Sealed()) <= |Rewritten(o, txs).bytes|
  {
    assert Framed(Rewritten(o, txs), []);
  }

  /** Every run of a new store keeps its history in canonical form. */
  lemma {:induction false} HistoryCanonical(f: Files, o: Opened, ps: seq<Process>)
    requires Canonical(o) && Sum(o.manifest.Sealed()) <= |o.bytes|
    ensures var h := History(f, o, ps); Canonical(h) && Sum(h.manifest.Sealed()) <= |h.bytes|
  {
    hide Canonical, Run, Appended, Rewritten, CommitPoint, Refused;
    if ps != [] {
      var n := |ps| - 1;
      HistoryCanonical(f, o, ps[..n]);
      var h := History(f, o, ps[..n]);
      match ps[n].action {
        case Reopen =>
        case Append(t) => AppendedCanonical(h, t);
        case Privacy(txs) => CanonicalKnown(h); RewrittenCanonical(h, txs);
      }
    }
  }

  lemma CanonicalKnown(o: Opened)
    requires Canonical(o)
    ensures o.manifest.Known()
  {
  }

  lemma FreshCanonical(store: string, layout: Option<nat>)
    requires layout.Some? ==> layout.value >= 1
    ensures Canonical(Opened(FreshManifest(store, layout), [], []))
  {
    assert Framed(Opened(FreshManifest(store, layout), [], []), []);
  }

  lemma {:induction false} WrittenConcat(id: Ident, s: nat, p: Digest, a: seq<Value>, b: seq<Value>)
    ensures Written(id, s, p, a + b) == Written(id, s, p, a) + Written(id, s + |a|, End(id, s, p, a), b)
  {
    hide Line, FrameDigest;
    if b == [] {
      assert a + b == a;
    } else {
      var n := |b| - 1;
      WrittenConcat(id, s, p, a, b[..n]);
      EndConcat(id, s, p, a, b[..n]);
      assert (a + b)[..|a| + n] == a + b[..n];
    }
  }

  /** Sealed segment `i` is exactly the frames of the transactions between two boundaries. */
  lemma SegmentIsFrames(f: Files, o: Opened, ends: seq<nat>, i: nat)
    requires Settled(f, o) && Framed(o, ends) && i < |o.manifest.Sealed()|
    ensures var from := if i == 0 then 0 else ends[i - 1];
      var head := o.transactions[..if from <= |o.transactions| then from else 0];
      && from < ends[i] <= |o.transactions|
      && f.segments.Some? && i in f.segments.value
      && f.segments.value[i] == Written(o.manifest.ident, from, End(o.manifest.ident, 0, ZERO, head),
                                        o.transactions[from..ends[i]])
      && |f.segments.value[i]| >= o.manifest.segments.value.sealAt
  {
    hide Line, FrameDigest, Decode, Written, End;
    var id, sealed, txs := o.manifest.ident, o.manifest.Sealed(), o.transactions;
    var from := if i == 0 then 0 else ends[i - 1];
    assert EndsAt(o, ends, i);
    if i > 0 { assert EndsAt(o, ends, i - 1); }
    WrittenNothing(id, txs);
    assert Cut(sealed, i) == |Written(id, 0, ZERO, txs[..from])|;
    CutsGrow(sealed, i, i + 1);
    if ends[i] <= from {
      WrittenPrefix(id, txs, ends[i], from);
    }
    WrittenPrefix(id, txs, from, ends[i]);
    var whole := Written(id, 0, ZERO, txs[..ends[i]]);
    assert SegmentAt(f.segments.value, sealed, o.bytes, i);
    assert Slice(o.bytes, sealed, i) == whole[Cut(sealed, i)..];
  }

  lemma WrittenNothing(id: Ident, txs: seq<Value>)
    ensures Written(id, 0, ZERO, txs[..0]) == []
  {
  }

  lemma WrittenPrefix(id: Ident, txs: seq<Value>, a: nat, b: nat)
    requires a <= b <= |txs|
    ensures Written(id, 0, ZERO, txs[..b])
         == Written(id, 0, ZERO, txs[..a]) + Written(id, a, End(id, 0, ZERO, txs[..a]), txs[a..b])
    ensures Written(id, 0, ZERO, txs[..b]) <= Written(id, 0, ZERO, txs)
  {
    hide Line, FrameDigest, Written, End;
    WrittenConcat(id, 0, ZERO, txs[..a], txs[a..b]);
    assert txs[..b] == txs[..a] + txs[a..b];
    WrittenConcat(id, 0, ZERO, txs[..b], txs[b..]);
    assert txs == txs[..b] + txs[b..];
  }

  /** Sealed segments followed by the active one are the encoding the single layout keeps in one file. */
  lemma SegmentedHoldsTheSameBytes(f: Files, o: Opened)
    requires Settled(f, o) && Canonical(o)
    ensures ReadSealed(f, o.manifest).Some? && f.events.Some?
    ensures ReadSealed(f, o.manifest).value + f.events.value == Written(o.manifest.ident, 0, ZERO, o.transactions)
  {
    hide Decode, Written, End;
    ReadsSealed(f, o);
    var s := Sum(o.manifest.Sealed());
    assert o.bytes[..s] + o.bytes[s..] == o.bytes;
  }

  /** No step of an append changes a sealed segment. */
  lemma AppendKeepsSealed(f: Files, o: Opened, t: Value, e: Files, i: nat)
    requires Settled(f, o) && Appendable(f, o.manifest) && i < |o.manifest.Sealed()|
    requires e in AppendTrail(f, o.manifest, t)
    ensures f.segments.Some? && i in f.segments.value
    ensures e.segments.Some? && i in e.segments.value && e.segments.value[i] == f.segments.value[i]
  {
    hide Decode, Line, FrameDigest, Intent, NextManifest;
    assert SegmentAt(f.segments.value, o.manifest.Sealed(), o.bytes, i);
  }
}
