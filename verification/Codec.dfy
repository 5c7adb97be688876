/** Frames, manifests and the hash chain between them (`journal.rs`).

    A manifest names a history by its length and the digest of its last frame. Each frame carries
    the digest of the one before it, so with a hash that does not collide the manifest determines
    the list of transactions. It does not determine the bytes: a reader parses each line and hashes
    what it re-serialises, so a line that parses to the same frame is accepted. */
module Codec {
  import opened Prelude
  import opened Serde

  const FORMAT := "eventlog-file/1"
  const SEGMENTED_FORMAT := "eventlog-file/2"
  const ZERO: Digest := "0000000000000000000000000000000000000000000000000000000000000000"
  const U64_MAX: nat := 0xFFFF_FFFF_FFFF_FFFF

  datatype Segments = Segments(sealAt: nat, sealed: seq<nat>)

  /** What a frame repeats of the manifest it was written under. */
  datatype Ident = Ident(format: string, store: string, epoch: nat)

  datatype Manifest = Manifest(ident: Ident, sequence: nat, length: nat, digest: Digest,
                               segments: Option<Segments>)
  {
    /** The manifest names a layout that this release reads, consistently. */
    predicate Known() {
      match segments
      case None => ident.format == FORMAT
      case Some(s) =>
        && ident.format == SEGMENTED_FORMAT
        && s.sealAt >= 1
        && (forall i :: 0 <= i < |s.sealed| ==> s.sealed[i] > 0)
        && Sum(s.sealed) <= length
    }

    function Sealed(): seq<nat> {
      if segments.None? then [] else segments.value.sealed
    }

    function ActiveLength(): nat {
      if Sum(Sealed()) <= length then length - Sum(Sealed()) else 0
    }

    function SealAt(): Option<nat> {
      if segments.None? then None else Some(segments.value.sealAt)
    }
  }

  function Sum(lengths: seq<nat>): nat {
    if lengths == [] then 0 else Sum(lengths[..|lengths| - 1]) + lengths[|lengths| - 1]
  }

  // ---- One frame ----

  function Body(id: Ident, sequence: nat, previous: Digest, transaction: Value): Frame {
    Frame(id.format, id.store, id.epoch, sequence, previous, transaction, "")
  }

  function FrameDigest(id: Ident, sequence: nat, previous: Digest, transaction: Value): Digest {
    SERDE.sha(SERDE.write(Body(id, sequence, previous, transaction)))
  }

  /** `encode`: the line a writer appends. */
  function Line(id: Ident, sequence: nat, previous: Digest, transaction: Value): Bytes {
    SERDE.write(Body(id, sequence, previous, transaction)
                .(digest := FrameDigest(id, sequence, previous, transaction))) + [NEWLINE]
  }

  lemma FrameDigestInjective(id: Ident, s: nat, p: Digest, t: Value, id': Ident, s': nat, p': Digest, t': Value)
    requires FrameDigest(id, s, p, t) == FrameDigest(id', s', p', t')
    ensures id == id' && s == s' && p == p' && t == t'
  {
    var f, g := Body(id, s, p, t), Body(id', s', p', t');
    NoCollision(SERDE.write(f), SERDE.write(g));
    ReadsBack(f);
    ReadsBack(g);
  }

  // ---- A run of frames, as a writer produces it ----

  /** The digest after `transactions`, written from `sequence` and `previous`. */
  function End(id: Ident, sequence: nat, previous: Digest, transactions: seq<Value>): Digest {
    if transactions == [] then previous
    else
      var n := |transactions| - 1;
      FrameDigest(id, sequence + n + 1, End(id, sequence, previous, transactions[..n]), transactions[n])
  }

  /** The bytes of `transactions`, written from `sequence` and `previous`. */
  function Written(id: Ident, sequence: nat, previous: Digest, transactions: seq<Value>): Bytes {
    if transactions == [] then []
    else
      var n := |transactions| - 1;
      Written(id, sequence, previous, transactions[..n])
      + Line(id, sequence + n + 1, End(id, sequence, previous, transactions[..n]), transactions[n])
  }

  lemma {:induction false} EndConcat(id: Ident, s: nat, p: Digest, a: seq<Value>, b: seq<Value>)
    ensures End(id, s, p, a + b) == End(id, s + |a|, End(id, s, p, a), b)
  {
    hide FrameDigest;
    if b == [] {
      assert a + b == a;
    } else {
      var n := |b| - 1;
      EndConcat(id, s, p, a, b[..n]);
      assert (a + b)[..|a| + n] == a + b[..n];
    }
  }

  /** With no hash collision, a head of known length determines every transaction behind it. */
  lemma {:induction false} EndInjective(id: Ident, s: nat, p: Digest, a: seq<Value>, b: seq<Value>)
    requires |a| == |b| && End(id, s, p, a) == End(id, s, p, b)
    ensures a == b
  {
    if a != [] {
      var n := |a| - 1;
      FrameDigestInjective(id, s + n + 1, End(id, s, p, a[..n]), a[n], id, s + n + 1, End(id, s, p, b[..n]), b[n]);
      EndInjective(id, s, p, a[..n], b[..n]);
      assert a == a[..n] + [a[n]] && b == b[..n] + [b[n]];
    }
  }

  // ---- Lines, as `split_inclusive` yields them ----

  predicate Closed(b: Bytes) {
    b == [] || b[|b| - 1] == NEWLINE
  }

  /** The position of the first newline, or the length. */
  function FirstNewline(b: Bytes): (i: nat)
    ensures i <= |b|
    ensures forall j :: 0 <= j < i ==> b[j] != NEWLINE
    ensures i < |b| ==> b[i] == NEWLINE
  {
    if b == [] || b[0] == NEWLINE then 0 else 1 + FirstNewline(b[1..])
  }

  function Lines(b: Bytes): seq<Bytes> {
    if b == [] then []
    else
      var i := FirstNewline(b);
      if i == |b| then [b] else [b[..i + 1]] + Lines(b[i + 1..])
  }

  lemma FirstNewlineAt(b: Bytes, i: nat)
    requires i < |b| && b[i] == NEWLINE && forall j :: 0 <= j < i ==> b[j] != NEWLINE
    ensures FirstNewline(b) == i
  {
  }

  lemma {:induction false} LinesConcat(a: Bytes, b: Bytes)
    requires Closed(a)
    ensures Lines(a + b) == Lines(a) + Lines(b)
    decreases |a|
  {
    if a == [] {
      assert a + b == b;
    } else {
      var i := FirstNewline(a);
      assert a[|a| - 1] == NEWLINE;
      FirstNewlineAt(a + b, i);
      assert (a + b)[i + 1..] == a[i + 1..] + b && (a + b)[..i + 1] == a[..i + 1];
      LinesConcat(a[i + 1..], b);
      assert Lines(a + b) == [a[..i + 1]] + Lines(a[i + 1..] + b);
    }
  }

  // ---- Decoding ----

  datatype Walked = Walked(transactions: seq<Value>, digest: Digest)

  /** The frame that continues the chain at `sequence + 1`, if `line` holds it. */
  function ReadLine(id: Ident, line: Bytes, sequence: nat, previous: Digest): Option<Frame> {
    match SERDE.read(line)
    case None => None
    case Some(frame) =>
      if frame.format != id.format || frame.store != id.store || frame.epoch != id.epoch
         || frame.sequence != sequence + 1 || frame.previous != previous then None
      else if SERDE.sha(SERDE.write(frame.(digest := ""))) != frame.digest then None
      else Some(frame)
  }

  function Walk(id: Ident, lines: seq<Bytes>, sequence: nat, previous: Digest): Option<Walked> {
    if lines == [] then Some(Walked([], previous))
    else
      var n := |lines| - 1;
      match Walk(id, lines[..n], sequence, previous)
      case None => None
      case Some(w) =>
        match ReadLine(id, lines[n], sequence + n, w.digest)
        case None => None
        case Some(frame) => Some(Walked(w.transactions + [frame.transaction], frame.digest))
  }

  function DecodeChain(bytes: Bytes, m: Manifest, sequence: nat, previous: Digest): Option<seq<Value>> {
    if !Closed(bytes) then None
    else match Walk(m.ident, Lines(bytes), sequence, previous)
      case None => None
      case Some(w) =>
        if sequence + |Lines(bytes)| != m.sequence || w.digest != m.digest then None
        else Some(w.transactions)
  }

  function Decode(bytes: Bytes, m: Manifest): Option<seq<Value>> {
    if |bytes| != m.length then None else DecodeChain(bytes, m, 0, ZERO)
  }

  /** The loop of `decode_chain`. */
  method DecodeChainLoop(bytes: Bytes, m: Manifest, sequence: nat, previous: Digest)
    returns (r: Option<seq<Value>>)
    ensures r == DecodeChain(bytes, m, sequence, previous)
  {
    if bytes != [] && bytes[|bytes| - 1] != NEWLINE {
      return None;
    }
    var at, last := sequence, previous;
    var transactions := [];
    var lines := Lines(bytes);
    for i := 0 to |lines|
      invariant at == sequence + i
      invariant Walk(m.ident, lines[..i], sequence, previous) == Some(Walked(transactions, last))
    {
      var frame := ReadLine(m.ident, lines[i], at, last);
      assert lines[..i + 1][..i] == lines[..i];
      if frame.None? {
        WalkConcat(m.ident, lines[..i + 1], lines[i + 1..], sequence, previous);
        assert lines == lines[..i + 1] + lines[i + 1..];
        return None;
      }
      at, last := at + 1, frame.value.digest;
      transactions := transactions + [frame.value.transaction];
    }
    assert lines[..|lines|] == lines;
    if at != m.sequence || last != m.digest {
      return None;
    }
    return Some(transactions);
  }

  // ---- What decoding means ----

  /** A walk that succeeds ends at the digest a writer of the same transactions would reach. */
  lemma {:induction false} WalkEnd(id: Ident, lines: seq<Bytes>, s: nat, p: Digest)
    requires Walk(id, lines, s, p).Some?
    ensures var w := Walk(id, lines, s, p).value;
      |w.transactions| == |lines| && w.digest == End(id, s, p, w.transactions)
  {
    if lines != [] {
      var n := |lines| - 1;
      WalkEnd(id, lines[..n], s, p);
      var w := Walk(id, lines[..n], s, p).value;
      var frame := ReadLine(id, lines[n], s + n, w.digest).value;
      assert frame.(digest := "") == Body(id, s + n + 1, w.digest, frame.transaction);
      assert (w.transactions + [frame.transaction])[..n] == w.transactions;
    }
  }

  lemma {:induction false} WalkConcat(id: Ident, a: seq<Bytes>, b: seq<Bytes>, s: nat, p: Digest)
    ensures Walk(id, a + b, s, p) ==
      match Walk(id, a, s, p)
      case None => None
      case Some(w) =>
        match Walk(id, b, s + |a|, w.digest)
        case None => None
        case Some(v) => Some(Walked(w.transactions + v.transactions, v.digest))
  {
    hide ReadLine;
    if b == [] {
      assert a + b == a;
      if Walk(id, a, s, p).Some? {
        var w := Walk(id, a, s, p).value;
        assert w.transactions + [] == w.transactions;
      }
    } else {
      var n := |b| - 1;
      WalkConcat(id, a, b[..n], s, p);
      assert (a + b)[..|a| + n] == a + b[..n];
      if Walk(id, a, s, p).Some? {
        var w := Walk(id, a, s, p).value;
        var v := Walk(id, b[..n], s + |a|, w.digest);
        if v.Some? {
          var frame := ReadLine(id, b[n], s + |a| + n, v.value.digest);
          if frame.Some? {
            assert w.transactions + v.value.transactions + [frame.value.transaction]
              == w.transactions + (v.value.transactions + [frame.value.transaction]);
          }
        }
      }
    }
  }

  /** Whatever bytes a manifest accepts, it accepts one transaction list: the one its digest names. */
  lemma DecodeNames(bytes: Bytes, m: Manifest, s: nat, p: Digest)
    requires DecodeChain(bytes, m, s, p).Some?
    ensures var txs := DecodeChain(bytes, m, s, p).value;
      s + |txs| == m.sequence && m.digest == End(m.ident, s, p, txs)
  {
    WalkEnd(m.ident, Lines(bytes), s, p);
  }

  lemma ManifestDeterminesTransactions(a: Bytes, b: Bytes, m: Manifest)
    requires Decode(a, m).Some? && Decode(b, m).Some?
    ensures Decode(a, m) == Decode(b, m)
  {
    DecodeNames(a, m, 0, ZERO);
    DecodeNames(b, m, 0, ZERO);
    EndInjective(m.ident, 0, ZERO, Decode(a, m).value, Decode(b, m).value);
  }

  /** Decoding a prefix under its own head and the rest from that head is decoding the whole. */
  lemma DecodeSplit(a: Bytes, tail: Bytes, m: Manifest, next: Manifest, txs: seq<Value>)
    requires Decode(a, m) == Some(txs) && next.ident == m.ident && next.length == |a| + |tail|
    ensures Decode(a + tail, next) ==
      match DecodeChain(tail, next, m.sequence, m.digest)
      case None => None
      case Some(more) => Some(txs + more)
  {
    hide ReadLine;
    var whole, rest := Lines(a + tail), Lines(tail);
    assert whole == Lines(a) + rest by { LinesConcat(a, tail); }
    assert |Lines(a)| == m.sequence && Walk(m.ident, Lines(a), 0, ZERO) == Some(Walked(txs, m.digest)) by {
      WalkEnd(m.ident, Lines(a), 0, ZERO);
    }
    WalkConcat(m.ident, Lines(a), rest, 0, ZERO);
    assert Closed(a + tail) == Closed(tail) by {
      if tail == [] { assert a + tail == a; }
    }
  }

  /** What a writer appends is what a reader chains. */
  lemma LineReads(id: Ident, s: nat, p: Digest, t: Value)
    ensures var line := Line(id, s + 1, p, t);
      && Closed(line) && |line| > 0 && Lines(line) == [line]
      && Walk(id, [line], s, p) == Some(Walked([t], FrameDigest(id, s + 1, p, t)))
  {
    var line := Line(id, s + 1, p, t);
    var frame := Body(id, s + 1, p, t).(digest := FrameDigest(id, s + 1, p, t));
    ReadsBack(frame);
    FirstNewlineAt(line, |line| - 1);
    assert line[..|line|] == line && line[|line|..] == [];
    assert frame.(digest := "") == Body(id, s + 1, p, t);
    assert ReadLine(id, line, s, p) == Some(frame);
    assert [line][..0] == [] && [] + [t] == [t];
  }

  predicate Reads(id: Ident, s: nat, p: Digest, b: Bytes, txs: seq<Value>, digest: Digest) {
    Closed(b) && |Lines(b)| == |txs| && Walk(id, Lines(b), s, p) == Some(Walked(txs, digest))
  }

  lemma LineAppended(id: Ident, s: nat, p: Digest, b: Bytes, txs: seq<Value>, digest: Digest, t: Value)
    requires Reads(id, s, p, b, txs, digest)
    ensures Reads(id, s, p, b + Line(id, s + |txs| + 1, digest, t), txs + [t],
                  FrameDigest(id, s + |txs| + 1, digest, t))
  {
    hide Walk, Lines, Line, FrameDigest;
    var line := Line(id, s + |txs| + 1, digest, t);
    LineReads(id, s + |txs|, digest, t);
    LinesConcat(b, line);
    WalkConcat(id, Lines(b), [line], s, p);
  }

  /** The round trip: a written history decodes, from any head it was written after. */
  lemma {:induction false} WrittenReads(id: Ident, s: nat, p: Digest, txs: seq<Value>)
    ensures Reads(id, s, p, Written(id, s, p, txs), txs, End(id, s, p, txs))
  {
    if txs != [] {
      hide Walk, Lines, Line, FrameDigest;
      var n := |txs| - 1;
      WrittenReads(id, s, p, txs[..n]);
      LineAppended(id, s, p, Written(id, s, p, txs[..n]), txs[..n], End(id, s, p, txs[..n]), txs[n]);
      assert txs[..n] + [txs[n]] == txs;
    }
  }

  lemma DecodeWritten(m: Manifest, txs: seq<Value>)
    requires m.sequence == |txs| && m.digest == End(m.ident, 0, ZERO, txs)
    requires m.length == |Written(m.ident, 0, ZERO, txs)|
    ensures Decode(Written(m.ident, 0, ZERO, txs), m) == Some(txs)
  {
    WrittenReads(m.ident, 0, ZERO, txs);
  }

  // ---- The per-handle guard ----

  /** The loop of `extends_observed`: re-encode as many transactions as the handle had observed. */
  method ExtendsObserved(m: Manifest, transactions: seq<Value>, observed: Manifest) returns (r: bool)
    ensures r == Extends(m, transactions, observed)
  {
    if observed.ident.store != m.ident.store || observed.ident.epoch != m.ident.epoch
       || observed.sequence > m.sequence {
      return false;
    }
    var previous := ZERO;
    var n := if observed.sequence <= |transactions| then observed.sequence else |transactions|;
    for i := 0 to n
      invariant previous == End(m.ident, 0, ZERO, transactions[..i])
    {
      assert transactions[..i + 1][..i] == transactions[..i];
      previous := FrameDigest(m.ident, i + 1, previous, transactions[i]);
    }
    return previous == observed.digest;
  }

  predicate Extends(m: Manifest, transactions: seq<Value>, observed: Manifest) {
    && observed.ident.store == m.ident.store && observed.ident.epoch == m.ident.epoch
    && observed.sequence <= m.sequence
    && var n := if observed.sequence <= |transactions| then observed.sequence else |transactions|;
       End(m.ident, 0, ZERO, transactions[..n]) == observed.digest
  }

  /** The guard holds exactly when the observed transactions are a prefix of the committed ones. */
  lemma ExtendsIffPrefix(m: Manifest, txs: seq<Value>, observed: Manifest, seen: seq<Value>)
    requires m.sequence == |txs| && m.digest == End(m.ident, 0, ZERO, txs)
    requires observed.sequence == |seen| && observed.digest == End(observed.ident, 0, ZERO, seen)
    requires observed.ident == m.ident
    ensures Extends(m, txs, observed) <==> seen <= txs
  {
    if seen <= txs {
      assert txs[..|seen|] == seen;
    } else if Extends(m, txs, observed) {
      EndInjective(m.ident, 0, ZERO, txs[..|seen|], seen);
    }
  }
}
