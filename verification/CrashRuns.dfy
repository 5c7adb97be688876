/** Whole runs of a store: appends, privacy rewrites and reopens, each crashing anywhere or not at
    all (`journal.rs`). */
module CrashRuns {
  import opened Prelude
  import opened Serde
  import opened Codec
  import opened Disk
  import opened Recovery
  import opened CrashSafety

  // ---- Every step of an append ----

  lemma Ready(f: Files, o: Opened)
    requires Settled(f, o)
    ensures Appendable(f, o.manifest)
  {
  }

  /** Until the manifest moves, each step of the append still stands for the old history. */
  lemma PreparedStable(f: Files, o: Opened, t: Value, e: Files)
    requires Settled(f, o) && Appendable(f, o.manifest) && e in PrepareTrail(f, o.manifest, t)
    ensures Interrupted(e, o, t)
  {
    hide Decode, Line, FrameDigest;
    var m, line := o.manifest, AppendedLine(o.manifest, t);
    var prepared := f.(append := Document(Intent(m, t)));
    if e == prepared {
      assert Holds(e, o);
    } else if SealDue(m) {
      SealStable(f, o, t, e);
    } else {
      var frames := FrameTrail(prepared, f.events.value, line);
      assert e in frames;
      var k :| 0 <= k < |frames| && e == frames[k];
      assert e.events.value[|f.events.value|..] == line[..k + 1];
      assert Torn(e, o, t);
    }
  }

  lemma SealStable(f: Files, o: Opened, t: Value, e: Files)
    requires Settled(f, o) && Appendable(f, o.manifest) && SealDue(o.manifest)
    requires e in PrepareTrail(f, o.manifest, t) && e != f.(append := Document(Intent(o.manifest, t)))
    ensures Interrupted(e, o, t)
  {
    hide Decode, Line, FrameDigest;
    var m := o.manifest;
    var prepared := f.(append := Document(Intent(m, t)));
    var dir := if f.segments.None? then map[] else f.segments.value;
    if e == prepared.(segments := Some(dir)) {
      assert Holds(e, o);
    } else {
      var seal := SealTrail(prepared, m);
      assert e.segments == Some(dir[|m.Sealed()| := f.events.value]) && e.manifest == f.manifest;
      assert e.append == prepared.append && e.privacy == f.privacy;
      SealedIsMoved(f, o, t, e);
    }
  }

  lemma SealedIsMoved(f: Files, o: Opened, t: Value, e: Files)
    requires Settled(f, o) && SealDue(o.manifest)
    requires var dir := if f.segments.None? then map[] else f.segments.value;
      e.segments == Some(dir[|o.manifest.Sealed()| := f.events.value])
    ensures Moved(e, o, t)
  {
    hide Decode, SegmentAt, NextManifest, Sum, Closed;
    var m := o.manifest;
    var sealed, dir := m.Sealed(), e.segments.value;
    NextSealed(m, t);
    var next := NextManifest(m, t).Sealed();
    HeldSound(f, o);
    ClosedHistory(o);
    forall i | 0 <= i < |sealed| ensures SegmentAt(dir, next, o.bytes, i) {
      assert SegmentAt(f.segments.value, sealed, o.bytes, i) && sealed[..i + 1] == next[..i + 1];
      SegmentAmong(f.segments.value, dir, sealed, next, o.bytes, i);
    }
    LastSegment(dir, sealed, m.ActiveLength(), o.bytes);
  }

  /** What follows the sealed segments is the next one, once it is moved among them. */
  lemma LastSegment(dir: map<nat, Bytes>, sealed: seq<nat>, length: nat, bytes: Bytes)
    requires length > 0 && Sum(sealed) + length == |bytes| && Closed(bytes)
    requires |sealed| in dir && dir[|sealed|] == bytes[Sum(sealed)..]
    ensures SegmentAt(dir, sealed + [length], bytes, |sealed|)
  {
    hide Sum;
    var next := sealed + [length];
    SumAppend(sealed, length);
    CutWhole(next);
    assert next[..|sealed|] == sealed;
  }

  lemma ClosedHistory(o: Opened)
    requires Sound(o)
    ensures Closed(o.bytes)
  {
  }

  /** At the commit point the committed files are already those of the new history. */
  lemma CommitHolds(f: Files, o: Opened, t: Value)
    requires Settled(f, o) && Appendable(f, o.manifest)
    ensures var trail := PrepareTrail(f, o.manifest, t);
      && trail != [] && Holds(Last(f, trail), Appended(o, t))
      && Last(f, trail).append == Document(Intent(o.manifest, t)) && Last(f, trail).privacy.Absent?
  {
    hide Decode, FrameDigest, Line, Holds;
    var m, line := o.manifest, AppendedLine(o.manifest, t);
    var prepared := f.(append := Document(Intent(m, t)));
    var e := Last(f, PrepareTrail(f, m, t));
    LineNotEmpty(m, t);
    assert line[..|line|] == line;
    if SealDue(m) {
      assert e == Last(prepared, SealTrail(prepared, m)).(events := Some([] + line));
      CommitHoldsSealed(f, o, t, e);
    } else {
      assert e == prepared.(events := Some(f.events.value + line));
      CommitHoldsGrown(f, o, t, e);
    }
  }

  lemma LineNotEmpty(m: Manifest, t: Value)
    ensures |AppendedLine(m, t)| > 0
  {
  }

  lemma CommitHoldsSealed(f: Files, o: Opened, t: Value, e: Files)
    requires Settled(f, o) && SealDue(o.manifest)
    requires var dir := if f.segments.None? then map[] else f.segments.value;
      e.segments == Some(dir[|o.manifest.Sealed()| := f.events.value])
    requires e.events == Some([] + AppendedLine(o.manifest, t))
    ensures Holds(e, Appended(o, t))
  {
    hide Decode, FrameDigest, Line;
    var m, line, after := o.manifest, AppendedLine(o.manifest, t), Appended(o, t);
    AppendedSound(o, t);
    SealedIsMoved(f, o, t, e);
    SumAppend(m.Sealed(), m.ActiveLength());
    SegmentedExtends(e.segments.value, after.manifest.Sealed(), o.bytes, line);
    assert Sum(after.manifest.Sealed()) == |o.bytes|;
    assert after.bytes[|o.bytes|..] == [] + line;
  }

  lemma CommitHoldsGrown(f: Files, o: Opened, t: Value, e: Files)
    requires Settled(f, o) && !SealDue(o.manifest) && e.segments == f.segments
    requires e.events == Some(f.events.value + AppendedLine(o.manifest, t))
    ensures Holds(e, Appended(o, t))
  {
    hide Decode, FrameDigest, Line;
    var m, line, after := o.manifest, AppendedLine(o.manifest, t), Appended(o, t);
    AppendedSound(o, t);
    assert after.bytes[Sum(m.Sealed())..] == f.events.value + line;
    if m.segments.Some? && f.segments.Some? {
      SegmentedExtends(f.segments.value, m.Sealed(), o.bytes, line);
    }
  }

  lemma SegmentedExtends(dir: map<nat, Bytes>, sealed: seq<nat>, bytes: Bytes, more: Bytes)
    requires Segmented(dir, sealed, bytes)
    ensures Segmented(dir, sealed, bytes + more)
  {
    forall i | 0 <= i < |sealed| ensures SegmentAt(dir, sealed, bytes + more, i) {
      assert SegmentAt(dir, sealed, bytes, i);
      assert Slice(bytes + more, sealed, i) == Slice(bytes, sealed, i);
    }
  }

  /** Every step of an append stands for the old history before the manifest moves and for the new
      one from then on; the last step is a store at rest. */
  lemma AppendSteps(f: Files, o: Opened, t: Value, k: nat)
    requires Settled(f, o) && Appendable(f, o.manifest) && k < |AppendTrail(f, o.manifest, t)|
    ensures var trail := AppendTrail(f, o.manifest, t);
      && |trail| >= 2
      && (k < |trail| - 2 ==> Stable(trail[k], o) && trail[k].manifest == Document(o.manifest))
      && (k >= |trail| - 2 ==> Stable(trail[k], Appended(o, t)) && trail[k].manifest == Document(NextManifest(o.manifest, t)))
      && Settled(trail[|trail| - 1], Appended(o, t))
  {
    hide Decode, Line, FrameDigest, PrepareTrail, Holds, Intent;
    var prepare := PrepareTrail(f, o.manifest, t);
    var trail := AppendTrail(f, o.manifest, t);
    CommitHolds(f, o, t);
    HeldSound(f, o);
    var committed := trail[|trail| - 2];
    HoldsIgnores(Last(f, prepare), committed, Appended(o, t));
    HoldsIgnores(committed, trail[|trail| - 1], Appended(o, t));
    assert Published(committed, o, t);
    if k < |trail| - 2 {
      PreparedStable(f, o, t, prepare[k]);
    }
  }

  lemma HeldSound(f: Files, o: Opened)
    requires Holds(f, o)
    ensures Sound(o)
  {
  }

  lemma HoldsIgnores(f: Files, g: Files, o: Opened)
    requires Holds(f, o) && g.events == f.events && g.segments == f.segments
    ensures Holds(g, o)
  {
    hide Decode;
  }

  // ---- Every step of a rewrite ----

  lemma PrivacySteps(f: Files, o: Opened, txs: seq<Value>, k: nat)
    requires Settled(f, o) && o.manifest.ident.epoch + 1 <= U64_MAX && k < |PrivacyTrail(f, o.manifest, txs)|
    ensures var trail, staged := PrivacyTrail(f, o.manifest, txs), |StageTrail(f, o.manifest, txs)|;
      && staged < |trail|
      && (k < staged ==> Stable(trail[k], o))
      && (k >= staged ==> Stable(trail[k], Rewritten(o, txs)))
      && Settled(trail[|trail| - 1], Rewritten(o, txs)) && trail[|trail| - 1].replacement.None?
  {
    hide Decode, Written, End, RecoverPrivacy, StageTrail, RollingForward, Holds, Rewrite, Rewritten;
    var m := o.manifest;
    var stage := StageTrail(f, m, txs);
    var prepared := Last(f, stage).(privacy := Document(Rewrite(m, txs)));
    StagedShape(f, m, txs);
    PreparedRolling(f, o, txs);
    RollsForward(prepared, o, txs);
    var trail, rest := PrivacyTrail(f, m, txs), RecoverPrivacy(prepared, m).trail;
    assert trail == stage + [prepared] + rest;
    assert trail[|trail| - 1] == rest[|rest| - 1];
    if k < |stage| {
      assert trail[k] in stage;
      HoldsIgnores(f, trail[k], o);
    } else if k > |stage| {
      assert trail[k] in rest;
    }
  }

  /** Staging a replacement touches nothing else, and ends with all of it. */
  lemma StagedShape(f: Files, m: Manifest, txs: seq<Value>)
    ensures var stage := StageTrail(f, m, txs);
      && (forall e :: e in stage ==> e == f.(replacement := e.replacement))
      && Last(f, stage) == f.(replacement := Some(RewrittenBytes(m, txs)))
  {
    hide Written, End;
    var bytes := RewrittenBytes(m, txs);
    assert bytes[..|bytes|] == bytes;
  }

  lemma PreparedRolling(f: Files, o: Opened, txs: seq<Value>)
    requires Settled(f, o) && o.manifest.ident.epoch + 1 <= U64_MAX
    ensures RollingForward(Last(f, StageTrail(f, o.manifest, txs)).(privacy := Document(Rewrite(o.manifest, txs))), o, txs)
  {
    hide Decode, Written, End, StageTrail;
    StagedShape(f, o.manifest, txs);
    var prepared := Last(f, StageTrail(f, o.manifest, txs)).(privacy := Document(Rewrite(o.manifest, txs)));
    HoldsIgnores(f, prepared, o);
    if prepared.events == Some(RewrittenBytes(o.manifest, txs)) {
      HeldIsResidual(prepared, o);
    }
  }

  lemma HeldIsResidual(f: Files, o: Opened)
    requires Holds(f, o)
    ensures Residual(f, o.manifest)
  {
    hide Decode;
  }

  // ---- Runs ----

  datatype Action = Reopen | Append(transaction: Value) | Privacy(transactions: seq<Value>)

  /** The operation refuses a store at rest: a counter would overflow. */
  predicate Refused(o: Opened, a: Action) {
    match a
    case Reopen => true
    case Append(t) => AppendOverflows(o.manifest, t)
    case Privacy(_) => o.manifest.ident.epoch + 1 > U64_MAX
  }

  /** One process: open the store, then do one thing to it. */
  function Trail(f: Files, a: Action): seq<Files> {
    var run := Open(f);
    if run.result.None? || Refused(run.result.value, a) then run.trail
    else
      var g, m := Last(f, run.trail), run.result.value.manifest;
      match a
      case Reopen => run.trail
      case Append(t) => if Appendable(g, m) then run.trail + AppendTrail(g, m, t) else run.trail
      case Privacy(txs) => run.trail + PrivacyTrail(g, m, txs)
  }

  /** The disk left by a process that died after `k` file operations, or finished. */
  function Crash(f: Files, trail: seq<Files>, k: nat): Files {
    if k == 0 || trail == [] then f else if k <= |trail| then trail[k - 1] else trail[|trail| - 1]
  }

  /** How many file operations make the action durable: for an append the manifest, which is the
      last step but one; for a rewrite its intent. */
  function CommitPoint(f: Files, a: Action): nat {
    var run := Open(f);
    match a
    case Reopen => |run.trail|
    case Append(_) => if |Trail(f, a)| == 0 then 0 else |Trail(f, a)| - 1
    case Privacy(txs) =>
      if run.result.None? then 0
      else |run.trail| + |StageTrail(Last(f, run.trail), run.result.value.manifest, txs)| + 1
  }

  function Effect(o: Opened, a: Action): Opened {
    match a
    case Reopen => o
    case Append(t) => Appended(o, t)
    case Privacy(txs) => Rewritten(o, txs)
  }

  /** The history after an action that died after `k` file operations. */
  function Story(f: Files, o: Opened, a: Action, k: nat): Opened {
    if Refused(o, a) || k < CommitPoint(f, a) then o else Effect(o, a)
  }

  /** Whatever the disk was left like by the past, one more process that may die anywhere leaves a
      disk that stands for the old history or, from the commit point on, for the new one. */
  lemma StepStable(f: Files, o: Opened, a: Action, k: nat)
    requires Stable(f, o)
    ensures Stable(Crash(f, Trail(f, a), k), Story(f, o, a, k))
  {
    hide Stable, Open, Settled, AppendTrail, PrivacyTrail, StageTrail, Appendable, AppendOverflows, Appended, Rewritten;
    OpenStable(f, o);
    var run := Open(f);
    var g := Last(f, run.trail);
    var e := Crash(f, Trail(f, a), k);
    if k <= |run.trail| || Trail(f, a) == run.trail {
      assert e == f || e in run.trail;
      if !Refused(o, a) {
        Ready(g, o);
        LongerThanOpen(f, o, a);
      }
    } else {
      var at := (if k <= |Trail(f, a)| then k else |Trail(f, a)|) - 1 - |run.trail|;
      match a {
        case Append(t) => AppendSteps(g, o, t, at);
        case Privacy(txs) => PrivacySteps(g, o, txs, at);
      }
    }
  }

  lemma LongerThanOpen(f: Files, o: Opened, a: Action)
    requires Stable(f, o) && !Refused(o, a)
    ensures |Open(f).trail| < CommitPoint(f, a) <= |Trail(f, a)|
  {
    hide Stable, Open, Decode, AppendTrail, PrivacyTrail, StageTrail, AppendOverflows;
    OpenStable(f, o);
    var g := Last(f, Open(f).trail);
    Ready(g, o);
    match a {
      case Append(t) => AppendLong(g, o, t);
      case Privacy(txs) => PrivacyLong(g, o, txs);
    }
  }

  lemma AppendLong(g: Files, o: Opened, t: Value)
    requires Appendable(g, o.manifest)
    ensures |AppendTrail(g, o.manifest, t)| > 2
  {
  }

  lemma PrivacyLong(g: Files, o: Opened, txs: seq<Value>)
    ensures |PrivacyTrail(g, o.manifest, txs)| > |StageTrail(g, o.manifest, txs)|
  {
  }

  /** A process and the number of file operations after which it dies. */
  datatype Process = Process(action: Action, dies: nat)

  function Run(f: Files, ps: seq<Process>): Files {
    if ps == [] then f
    else
      var n := |ps| - 1;
      var g := Run(f, ps[..n]);
      Crash(g, Trail(g, ps[n].action), ps[n].dies)
  }

  /** The history those processes leave: each action counts exactly when it reached its commit point. */
  function History(f: Files, o: Opened, ps: seq<Process>): Opened {
    if ps == [] then o
    else
      var n := |ps| - 1;
      Story(Run(f, ps[..n]), History(f, o, ps[..n]), ps[n].action, ps[n].dies)
  }

  /** Over every run, the next opener answers exactly the history the run committed, and leaves a
      store at rest. */
  lemma {:induction false} RunStable(f: Files, o: Opened, ps: seq<Process>)
    requires Stable(f, o)
    ensures Stable(Run(f, ps), History(f, o, ps)) && Answers(Run(f, ps), History(f, o, ps))
  {
    hide Stable, Answers, Trail, Story, Crash;
    if ps != [] {
      var n := |ps| - 1;
      RunStable(f, o, ps[..n]);
      StepStable(Run(f, ps[..n]), History(f, o, ps[..n]), ps[n].action, ps[n].dies);
    }
    OpenStable(Run(f, ps), History(f, o, ps));
  }

  function Reopens(crashes: seq<nat>): (ps: seq<Process>)
    ensures |ps| == |crashes| && forall i :: 0 <= i < |ps| ==> ps[i] == Process(Reopen, crashes[i])
  {
    seq(|crashes|, i requires 0 <= i < |crashes| => Process(Reopen, crashes[i]))
  }

  lemma {:induction false} ReopensKeepHistory(f: Files, o: Opened, ps: seq<Process>)
    requires forall p :: p in ps ==> p.action == Reopen
    ensures History(f, o, ps) == o
  {
    if ps != [] {
      ReopensKeepHistory(f, o, ps[..|ps| - 1]);
    }
  }

  /** Append atomicity. An append dies after `k` of its file operations, any number of reopens die
      after it, and the next completed open has the old history or the new one. It has the new one
      exactly when the manifest was swapped, it leaves no intent, and the store appends again. */
  lemma AppendAtomic(f: Files, o: Opened, t: Value, k: nat, crashes: seq<nat>)
    requires Settled(f, o)
    ensures Appendable(f, o.manifest)
    ensures var trail := AppendTrail(f, o.manifest, t);
      var left := Crash(f, trail, k);
      var swapped := left.manifest == Document(NextManifest(o.manifest, t));
      var seen := if swapped then Appended(o, t) else o;
      var run := Open(Run(left, Reopens(crashes)));
      var rest := Last(Run(left, Reopens(crashes)), run.trail);
      && (swapped <==> k >= |trail| - 1)
      && run.result == Some(seen)
      && Settled(rest, seen) && rest.replacement.None? && Appendable(rest, seen.manifest)
  {
    hide Stable, Open, AppendTrail, Appended, Decode, Holds;
    Ready(f, o);
    HeldSound(f, o);
    AppendedSound(o, t);
    AppendLong(f, o, t);
    var trail := AppendTrail(f, o.manifest, t);
    var left := Crash(f, trail, k);
    var seen := if k >= |trail| - 1 then Appended(o, t) else o;
    AppendSteps(f, o, t, if k == 0 then 0 else if k <= |trail| then k - 1 else |trail| - 1);
    SettledStable(f, o);
    assert Stable(left, seen);
    RunStable(left, seen, Reopens(crashes));
    ReopensKeepHistory(left, seen, Reopens(crashes));
    Ready(Last(Run(left, Reopens(crashes)), Open(Run(left, Reopens(crashes))).trail), seen);
  }

  lemma SettledStable(f: Files, o: Opened)
    requires Settled(f, o)
    ensures Stable(f, o)
  {
  }

  /** Privacy rolls forward and erases. Once the intent is durable, whatever dies next, a completed
      open has the rewritten history and the files hold that and nothing else: no replacement, no
      intent and no sealed segment of the old epoch. Before that the old history is intact. */
  lemma PrivacyErases(f: Files, o: Opened, txs: seq<Value>, k: nat, crashes: seq<nat>)
    requires Settled(f, o) && o.manifest.ident.epoch + 1 <= U64_MAX
    ensures var trail := PrivacyTrail(f, o.manifest, txs);
      var left := Crash(f, trail, k);
      var durable := k > |StageTrail(f, o.manifest, txs)|;
      var seen := if durable then Rewritten(o, txs) else o;
      var run := Open(Run(left, Reopens(crashes)));
      var rest := Last(Run(left, Reopens(crashes)), run.trail);
      && run.result == Some(seen) && Settled(rest, seen)
      && (durable ==> rest == Files(Document(seen.manifest), Some(RewrittenBytes(o.manifest, txs)), rest.segments,
                                    Absent, Absent, None))
      && (durable && o.manifest.segments.Some? && rest.segments.Some? ==> rest.segments.value == map[])
  {
    hide Stable, Open, PrivacyTrail, StageTrail, Decode, Written, End, RewrittenBytes;
    var trail := PrivacyTrail(f, o.manifest, txs);
    var left := Crash(f, trail, k);
    var seen := if k > |StageTrail(f, o.manifest, txs)| then Rewritten(o, txs) else o;
    PrivacyLong(f, o, txs);
    PrivacySteps(f, o, txs, if k == 0 then 0 else if k <= |trail| then k - 1 else |trail| - 1);
    SettledStable(f, o);
    assert Stable(left, seen);
    RunStable(left, seen, Reopens(crashes));
    ReopensKeepHistory(left, seen, Reopens(crashes));
    OnlyRewritten(Last(Run(left, Reopens(crashes)), Open(Run(left, Reopens(crashes))).trail), o, txs);
  }

  lemma OnlyRewritten(rest: Files, o: Opened, txs: seq<Value>)
    ensures Settled(rest, Rewritten(o, txs)) ==>
      && rest.events == Some(RewrittenBytes(o.manifest, txs))
      && (o.manifest.segments.Some? && rest.segments.Some? ==> rest.segments.value == map[])
  {
    hide Decode, Written, End;
    var bytes := RewrittenBytes(o.manifest, txs);
    assert bytes[0..] == bytes;
  }

  // ---- Creation ----

  /** A created store is at rest with no history. A crash between the two steps of its creation
      leaves files that no opener takes for a store, new or old. */
  lemma Created(f: Files, store: string, layout: Option<nat>)
    requires Creatable(f) && f.append.Absent? && (f.segments.None? || f.segments.value == map[])
    requires layout.Some? ==> layout.value >= 1
    ensures var m := FreshManifest(store, layout);
      var trail := CreateTrail(f, m);
      && Settled(trail[1], Opened(m, [], []))
      && !Creatable(trail[0]) && Open(trail[0]).result.None?
  {
    var m := FreshManifest(store, layout);
    assert Decode([], m) == Some([]);
  }
}
