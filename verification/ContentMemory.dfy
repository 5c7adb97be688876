/** What one handle remembers of the blob content it has verified (`verified_content.rs`), against the
    full check that it saves (`blob_integrity.rs`).

    Reads and writes hold the memory only one step at a time, so a check that looked up may find,
    when it settles, that anything has happened in between. */
module ContentMemory {
  import opened Prelude
  import opened Serde

  const BUDGET: nat := 32 * 1024 * 1024

  // ---- The full check ----

  predicate Hex64(hash: string) {
    |hash| == 64 && forall i :: 0 <= i < 64 ==> '0' <= hash[i] <= '9' || 'a' <= hash[i] <= 'f'
  }

  const ZEROS := seq(64, _ => '0')

  /** Any hash whose output is sixty-four lower-case hexadecimal digits. */
  type HexHash = f: Bytes -> string | forall b :: Hex64(f(b)) witness _ => ZEROS
  const SHA: HexHash

  /** One read's question: a stored SQL row, or a file object against its recorded hash. */
  datatype Check =
    | Stored(bytes: Bytes, count: int, hash: Option<string>, edition: int)
    | Recorded(bytes: Bytes, recorded: string)
  {
    function Hash(): Option<string> {
      if Stored? then hash else Some(recorded)
    }
  }

  /** `validate_legacy_blob_count`. */
  predicate CountIs(bytes: Bytes, count: int) {
    count >= 0 && count == |bytes|
  }

  /** `validate_stored_blob`, and the provider's own complete check of a recorded object. */
  predicate FullCheck(c: Check) {
    match c
    case Stored(bytes, count, hash, edition) =>
      CountIs(bytes, count) && hash.Some? && edition == 1 && Hex64(hash.value) && SHA(bytes) == hash.value
    case Recorded(bytes, recorded) => SHA(bytes) == recorded
  }

  // ---- The memory, one locked step at a time ----

  datatype Memory = Memory(byHash: map<string, Bytes>, held: nat, hashed: nat, generation: nat)
  datatype Lookup = Lookup(remembered: Option<Bytes>, generation: nat)

  const BLANK := Memory(map[], 0, 0, 0)

  /** `State::insert`: past the budget the memory is cleared, not grown. */
  function Insert(m: Memory, hash: string, bytes: Bytes): Memory {
    if |bytes| > BUDGET || hash in m.byHash then m
    else if m.held + |bytes| > BUDGET then m.(byHash := map[hash := bytes], held := |bytes|)
    else m.(byHash := m.byHash[hash := bytes], held := m.held + |bytes|)
  }

  function LookUp(m: Memory, hash: Option<string>): Lookup {
    Lookup(if hash.Some? && hash.value in m.byHash then Some(m.byHash[hash.value]) else None, m.generation)
  }

  predicate Hit(l: Lookup, bytes: Bytes) {
    l.remembered == Some(bytes)
  }

  /** Whether the memory alone answers, without a hash. */
  predicate Saved(c: Check, l: Lookup) {
    Hit(l, c.bytes) && (c.Stored? ==> c.edition == 1)
  }

  /** The answer of `check_stored` and `check_recorded` after a lookup. */
  predicate Answer(c: Check, l: Lookup) {
    if !Saved(c, l) then FullCheck(c) else c.Stored? ==> CountIs(c.bytes, c.count)
  }

  /** The rest of a check after its lookup: what a full check accepts is remembered only if nothing
      was forgotten since. */
  function Settle(m: Memory, c: Check, l: Lookup): Memory {
    if Saved(c, l) then m
    else
      var counted := m.(hashed := m.hashed + 1);
      if FullCheck(c) && counted.generation == l.generation then Insert(counted, c.Hash().value, c.bytes) else counted
  }

  function Forget(m: Memory): Memory {
    m.(byHash := map[], held := 0, generation := m.generation + 1)
  }

  // ---- Held bytes ----

  ghost function Total(m: map<string, Bytes>): nat {
    if m == map[] then 0 else var k :| k in m; |m[k]| + Total(m - {k})
  }

  lemma {:induction false} TotalWithout(m: map<string, Bytes>, k: string)
    requires k in m
    ensures Total(m) == |m[k]| + Total(m - {k})
  {
    var j :| j in m && Total(m) == |m[j]| + Total(m - {j});
    if j != k {
      TotalWithout(m - {j}, k);
      TotalWithout(m - {k}, j);
      assert m - {j} - {k} == m - {k} - {j};
    }
  }

  lemma TotalPut(m: map<string, Bytes>, k: string, v: Bytes)
    requires k !in m
    ensures Total(m[k := v]) == Total(m) + |v|
  {
    TotalWithout(m[k := v], k);
    assert m[k := v] - {k} == m;
  }

  // ---- The invariant ----

  /** Everything remembered under a hash has that hash. */
  ghost predicate Authentic(m: map<string, Bytes>) {
    forall h :: h in m ==> SHA(m[h]) == h
  }

  ghost predicate Sound(m: Memory) {
    m.held == Total(m.byHash) <= BUDGET && Authentic(m.byHash)
  }

  lemma InsertSound(m: Memory, bytes: Bytes)
    requires Sound(m)
    ensures Sound(Insert(m, SHA(bytes), bytes))
  {
    if SHA(bytes) !in m.byHash {
      TotalPut(m.byHash, SHA(bytes), bytes);
      TotalPut(map[], SHA(bytes), bytes);
      var none: map<string, Bytes> := map[];
      assert none[SHA(bytes) := bytes] == map[SHA(bytes) := bytes];
    }
  }

  lemma SettleSound(m: Memory, c: Check, l: Lookup)
    requires Sound(m)
    ensures Sound(Settle(m, c, l))
  {
    hide Insert;
    var counted := m.(hashed := m.hashed + 1);
    if FullCheck(c) {
      InsertSound(counted, c.bytes);
    }
  }

  /** A lookup saw nothing, or content with the hash it looked for. */
  ghost predicate Honest(c: Check, l: Lookup) {
    l.remembered.Some? ==> c.Hash().Some? && SHA(l.remembered.value) == c.Hash().value
  }

  /** The saved answer is the full check's answer. */
  lemma AnswerIsFullCheck(c: Check, l: Lookup)
    requires Honest(c, l)
    ensures Answer(c, l) <==> FullCheck(c)
  {
    assert Hex64(SHA(c.bytes));
  }

  // ---- The handle's memory, updated in place ----

  class VerifiedContent {
    var byHash: map<string, Bytes>
    var held: nat
    var hashed: nat
    var generation: nat

    ghost function Value(): Memory
      reads this
    {
      Memory(byHash, held, hashed, generation)
    }

    ghost predicate Valid()
      reads this
    {
      Sound(Value())
    }

    constructor ()
      ensures Valid() && Value() == BLANK
    {
      byHash, held, hashed, generation := map[], 0, 0, 0;
    }

    method Put(hash: string, bytes: Bytes)
      requires Valid() && hash == SHA(bytes)
      modifies this`byHash, this`held
      ensures Valid() && Value() == Insert(old(Value()), hash, bytes)
    {
      ghost var before := Value();
      InsertSound(before, bytes);
      if |bytes| > BUDGET || hash in byHash {
        return;
      }
      if held + |bytes| > BUDGET {
        byHash, held := map[], 0;
      }
      held := held + |bytes|;
      byHash := byHash[hash := bytes];
      assert byHash == Insert(before, hash, bytes).byHash;
    }

    /** The first locked step of a check. */
    method Begin(c: Check) returns (l: Lookup)
      ensures l == LookUp(Value(), c.Hash()) && (Valid() ==> Honest(c, l))
    {
      if c.Hash().Some? && c.Hash().value in byHash {
        return Lookup(Some(byHash[c.Hash().value]), generation);
      }
      return Lookup(None, generation);
    }

    /** The rest of a check, whatever happened since its lookup. */
    method End(c: Check, l: Lookup) returns (ok: bool)
      requires Valid() && Honest(c, l)
      modifies this
      ensures Valid() && ok == FullCheck(c) && Value() == Settle(old(Value()), c, l)
    {
      hide Insert, Total;
      AnswerIsFullCheck(c, l);
      if l.remembered == Some(c.bytes) && (c.Stored? ==> c.edition == 1) {
        return c.Stored? ==> CountIs(c.bytes, c.count);
      }
      hashed := hashed + 1;
      ok := FullCheck(c);
      if ok && generation == l.generation {
        Put(c.Hash().value, c.bytes);
      }
    }

    /** `check_stored` and `check_recorded`, with nothing in between their steps. */
    method Decide(c: Check) returns (ok: bool)
      requires Valid()
      modifies this
      ensures Valid() && ok == FullCheck(c)
      ensures Value() == Settle(old(Value()), c, LookUp(old(Value()), c.Hash()))
    {
      hide Settle, FullCheck, Total;
      var l := Begin(c);
      ok := End(c, l);
    }

    method Remember(bytes: Bytes)
      requires Valid()
      modifies this
      ensures Valid() && Value() == Insert(old(Value()), SHA(bytes), bytes)
    {
      Put(SHA(bytes), bytes);
    }

    method ForgetAll()
      modifies this
      ensures Valid() && Value() == Forget(old(Value()))
    {
      byHash, held, generation := map[], 0, generation + 1;
    }
  }

  // ---- Interleavings ----

  /** One step of some thread. A check looks up once, and settles later or never. */
  datatype Step =
    | Look(task: nat, check: Check)
    | Finish(task: nat)
    | Wrote(bytes: Bytes)
    | Cleared

  /** A check between its lookup and its end. */
  datatype Task = Task(check: Check, lookup: Lookup)

  datatype System = System(memory: Memory, tasks: map<nat, Task>)

  const START := System(BLANK, map[])

  function Take(s: System, step: Step): System {
    match step
    case Look(task, check) =>
      if task in s.tasks then s else s.(tasks := s.tasks[task := Task(check, LookUp(s.memory, check.Hash()))])
    case Finish(task) =>
      if task !in s.tasks then s
      else s.(memory := Settle(s.memory, s.tasks[task].check, s.tasks[task].lookup), tasks := s.tasks - {task})
    case Wrote(bytes) => s.(memory := Insert(s.memory, SHA(bytes), bytes))
    case Cleared => s.(memory := Forget(s.memory))
  }

  function Run(steps: seq<Step>): System {
    if steps == [] then START else Take(Run(steps[..|steps| - 1]), steps[|steps| - 1])
  }

  ghost predicate SystemOk(s: System) {
    && Sound(s.memory)
    && forall t :: t in s.tasks ==> Honest(s.tasks[t].check, s.tasks[t].lookup)
  }

  /** In every interleaving the memory is within its budget and authentic, and every check that has
      looked up will answer exactly as the full check would. */
  lemma {:induction false} RunOk(steps: seq<Step>)
    ensures SystemOk(Run(steps))
    ensures forall t :: t in Run(steps).tasks ==>
      (Answer(Run(steps).tasks[t].check, Run(steps).tasks[t].lookup) <==> FullCheck(Run(steps).tasks[t].check))
  {
    hide Insert, Settle, FullCheck, Answer;
    if steps != [] {
      var n := |steps| - 1;
      RunOk(steps[..n]);
      TakeOk(Run(steps[..n]), steps[n]);
    }
    forall t | t in Run(steps).tasks
      ensures Answer(Run(steps).tasks[t].check, Run(steps).tasks[t].lookup) <==> FullCheck(Run(steps).tasks[t].check)
    {
      AnswerIsFullCheck(Run(steps).tasks[t].check, Run(steps).tasks[t].lookup);
    }
  }

  /** One memory, driven by any interleaving of its locked steps, is the memory of that run. */
  method Interleave(steps: seq<Step>) returns (content: VerifiedContent, tasks: map<nat, Task>)
    ensures fresh(content) && content.Valid() && System(content.Value(), tasks) == Run(steps)
  {
    hide FullCheck, Settle, Insert, Total, LookUp, Forget;
    content := new VerifiedContent();
    tasks := map[];
    assert steps[..0] == [];
    for i := 0 to |steps|
      invariant content.Valid() && System(content.Value(), tasks) == Run(steps[..i])
    {
      assert steps[..i + 1][..i] == steps[..i];
      RunOk(steps[..i]);
      if steps[i].Look? {
        if steps[i].task !in tasks {
          var l := content.Begin(steps[i].check);
          tasks := tasks[steps[i].task := Task(steps[i].check, l)];
        }
      } else if steps[i].Finish? {
        if steps[i].task in tasks {
          var task := tasks[steps[i].task];
          var _ := content.End(task.check, task.lookup);
          tasks := tasks - {steps[i].task};
        }
      } else if steps[i].Wrote? {
        content.Remember(steps[i].bytes);
      } else {
        content.ForgetAll();
      }
    }
    assert steps[..|steps|] == steps;
  }

  lemma TakeOk(s: System, step: Step)
    requires SystemOk(s)
    ensures SystemOk(Take(s, step))
  {
    hide Insert, Settle, FullCheck;
    match step
    case Look(task, check) =>
    case Finish(task) =>
      if task in s.tasks {
        SettleSound(s.memory, s.tasks[task].check, s.tasks[task].lookup);
      }
    case Wrote(bytes) => InsertSound(s.memory, bytes);
    case Cleared =>
  }

  // ---- Nothing looked up before a forget is left after it ----

  /** The lookup at step `i` is the one that task `t` holds just before step `j`. */
  ghost predicate LookedAt(steps: seq<Step>, i: int, j: nat, t: nat) {
    && 0 <= i < j <= |steps| && steps[i].Look? && steps[i].task == t && t !in Run(steps[..i]).tasks
    && forall k :: i < k < j ==> steps[k] != Finish(t)
  }

  ghost predicate LookedSince(steps: seq<Step>, from: nat, j: nat, t: nat) {
    exists i :: from <= i && LookedAt(steps, i, j, t)
  }

  /** Step `j` may leave these bytes: a write of them, or the end of a check of them that looked up at
      `from` or later. */
  ghost predicate Leaves(steps: seq<Step>, from: nat, j: int, bytes: Bytes) {
    && from <= j < |steps|
    && (steps[j] == Wrote(bytes)
        || (steps[j].Finish?
            && var t := steps[j].task;
               && t in Run(steps[..j]).tasks && Run(steps[..j]).tasks[t].check.bytes == bytes
               && LookedSince(steps, from, j, t)))
  }

  ghost predicate Left(steps: seq<Step>, from: nat, bytes: Bytes) {
    exists j :: Leaves(steps, from, j, bytes)
  }

  /** Everything remembered now was left by a write or a check that began at `from` or later, and only
      such checks can still settle. */
  ghost predicate Recent(steps: seq<Step>, from: nat) {
    && from <= |steps|
    && var s := Run(steps);
       && (forall h :: h in s.memory.byHash ==> Left(steps, from, s.memory.byHash[h]))
       && (forall t :: t in s.tasks && s.tasks[t].lookup.generation == s.memory.generation ==>
             LookedSince(steps, from, |steps|, t))
       && (forall t :: t in s.tasks ==> s.tasks[t].lookup.generation <= s.memory.generation)
  }

  lemma LookedLonger(steps: seq<Step>, step: Step, from: nat, j: nat, t: nat)
    requires LookedSince(steps, from, j, t)
    ensures LookedSince(steps + [step], from, j, t)
    ensures j == |steps| && step != Finish(t) ==> LookedSince(steps + [step], from, j + 1, t)
  {
    var i :| from <= i && LookedAt(steps, i, j, t);
    var all := steps + [step];
    assert all[..i] == steps[..i];
    assert LookedAt(all, i, j, t);
    if j == |steps| && step != Finish(t) {
      assert LookedAt(all, i, j + 1, t);
    }
  }

  lemma LeftLonger(steps: seq<Step>, step: Step, from: nat, bytes: Bytes)
    requires Left(steps, from, bytes)
    ensures Left(steps + [step], from, bytes)
  {
    var j :| Leaves(steps, from, j, bytes);
    assert (steps + [step])[..j] == steps[..j];
    if steps[j].Finish? {
      LookedLonger(steps, step, from, j, steps[j].task);
    }
    assert Leaves(steps + [step], from, j, bytes);
  }

  lemma LooksNow(steps: seq<Step>, step: Step, from: nat)
    requires from <= |steps| && step.Look? && step.task !in Run(steps).tasks
    ensures LookedSince(steps + [step], from, |steps| + 1, step.task)
  {
    var all := steps + [step];
    assert all[..|steps|] == steps;
    assert LookedAt(all, |steps|, |steps| + 1, step.task);
  }

  lemma LeavesNow(steps: seq<Step>, step: Step, from: nat, bytes: Bytes)
    requires from <= |steps|
    requires step == Wrote(bytes)
      || (step.Finish? && step.task in Run(steps).tasks && Run(steps).tasks[step.task].check.bytes == bytes
          && LookedSince(steps, from, |steps|, step.task))
    ensures Left(steps + [step], from, bytes)
  {
    var all := steps + [step];
    assert all[..|steps|] == steps;
    if step.Finish? {
      LookedLonger(steps, step, from, |steps|, step.task);
    }
    assert Leaves(all, from, |steps|, bytes);
  }

  /** What a settling check or a write may add. */
  lemma InsertAdds(m: Memory, hash: string, bytes: Bytes)
    ensures var m' := Insert(m, hash, bytes);
      && m'.generation == m.generation
      && forall h :: h in m'.byHash ==> (h in m.byHash && m'.byHash[h] == m.byHash[h]) || m'.byHash[h] == bytes
  {
  }

  lemma SettleAdds(m: Memory, c: Check, l: Lookup)
    ensures var m' := Settle(m, c, l);
      && m'.generation == m.generation
      && forall h :: h in m'.byHash ==>
           (h in m.byHash && m'.byHash[h] == m.byHash[h]) || (m'.byHash[h] == c.bytes && l.generation == m.generation)
  {
    hide Insert;
    if FullCheck(c) {
      InsertAdds(m.(hashed := m.hashed + 1), c.Hash().value, c.bytes);
    }
  }

  /** What one step adds, and what it leaves of the tasks. */
  lemma TakeAdds(s: System, step: Step)
    ensures var s' := Take(s, step);
      && (forall h :: h in s'.memory.byHash ==>
            || (h in s.memory.byHash && s.memory.byHash[h] == s'.memory.byHash[h])
            || step == Wrote(s'.memory.byHash[h])
            || (step.Finish? && step.task in s.tasks && s.tasks[step.task].check.bytes == s'.memory.byHash[h]
                && s.tasks[step.task].lookup.generation == s.memory.generation))
      && (forall t :: t in s'.tasks ==>
            || (t in s.tasks && s.tasks[t] == s'.tasks[t] && step != Finish(t) && s.memory.generation <= s'.memory.generation)
            || (t !in s.tasks && step.Look? && step.task == t && s'.tasks[t].lookup.generation == s'.memory.generation))
  {
    hide Insert, Settle;
    if step.Finish? && step.task in s.tasks {
      SettleAdds(s.memory, s.tasks[step.task].check, s.tasks[step.task].lookup);
    } else if step.Wrote? {
      InsertAdds(s.memory, SHA(step.bytes), step.bytes);
    }
  }

  lemma RecentStep(steps: seq<Step>, step: Step, from: nat)
    requires Recent(steps, from)
    ensures Recent(steps + [step], from)
  {
    hide Take, Left, LookedSince;
    var all := steps + [step];
    assert all[..|steps|] == steps;
    var s, s' := Run(steps), Run(all);
    assert s' == Take(s, step);
    hide Run;
    TakeAdds(s, step);
    forall h | h in s'.memory.byHash ensures Left(all, from, s'.memory.byHash[h]) {
      if h in s.memory.byHash && s.memory.byHash[h] == s'.memory.byHash[h] {
        LeftLonger(steps, step, from, s'.memory.byHash[h]);
      } else {
        LeavesNow(steps, step, from, s'.memory.byHash[h]);
      }
    }
    forall t | t in s'.tasks && s'.tasks[t].lookup.generation == s'.memory.generation
      ensures LookedSince(all, from, |all|, t)
    {
      if t in s.tasks {
        LookedLonger(steps, step, from, |steps|, t);
      } else {
        LooksNow(steps, step, from);
      }
    }
  }

  lemma {:induction false} Generations(steps: seq<Step>)
    ensures forall t :: t in Run(steps).tasks ==> Run(steps).tasks[t].lookup.generation <= Run(steps).memory.generation
  {
    hide Insert, Settle;
    if steps != [] {
      var n := |steps| - 1;
      Generations(steps[..n]);
      var s := Run(steps[..n]);
      if steps[n].Finish? && steps[n].task in s.tasks {
        SettleAdds(s.memory, s.tasks[steps[n].task].check, s.tasks[steps[n].task].lookup);
      } else if steps[n].Wrote? {
        InsertAdds(s.memory, SHA(steps[n].bytes), steps[n].bytes);
      }
    }
  }

  /** After a forget, in every interleaving, whatever is remembered was left by a write after it, or by
      a check that itself looked up after it. */
  lemma {:induction false} ForgottenStaysForgotten(steps: seq<Step>, f: nat)
    requires f < |steps| && steps[f].Cleared?
    ensures Recent(steps, f + 1)
    decreases |steps|
  {
    hide Run, Recent;
    var n := |steps| - 1;
    assert steps == steps[..n] + [steps[n]];
    if f == n {
      JustForgotten(steps);
    } else {
      ForgottenStaysForgotten(steps[..n], f);
      RecentStep(steps[..n], steps[n], f + 1);
    }
  }

  lemma JustForgotten(steps: seq<Step>)
    requires steps != [] && steps[|steps| - 1].Cleared?
    ensures Recent(steps, |steps|)
  {
    Generations(steps[..|steps| - 1]);
  }

  /** A check that looked up before a forget stays behind it until it ends. */
  lemma {:induction false} StaysStale(steps: seq<Step>, f: nat, t: nat)
    requires f < |steps| && steps[f].Cleared? && t in Run(steps[..f]).tasks
    requires forall j :: f < j < |steps| ==> steps[j] != Finish(t)
    ensures t in Run(steps).tasks && Run(steps).tasks[t] == Run(steps[..f]).tasks[t]
    ensures Run(steps).tasks[t].lookup.generation < Run(steps).memory.generation
    decreases |steps|
  {
    hide Run, Take;
    var n := |steps| - 1;
    RunStep(steps);
    if f == n {
      Generations(steps[..f]);
      ClearedAdvances(Run(steps[..f]));
    } else {
      assert steps[..n][..f] == steps[..f];
      StaysStale(steps[..n], f, t);
      StaysBehind(Run(steps[..n]), steps[n]);
    }
  }

  lemma RunStep(steps: seq<Step>)
    requires steps != []
    ensures Run(steps) == Take(Run(steps[..|steps| - 1]), steps[|steps| - 1])
  {
    hide Take;
  }

  lemma ClearedAdvances(s: System)
    ensures Take(s, Cleared).tasks == s.tasks && Take(s, Cleared).memory.generation == s.memory.generation + 1
  {
  }

  lemma StaleSettles(s: System, t: nat)
    requires t in s.tasks && s.tasks[t].lookup.generation < s.memory.generation
    ensures Take(s, Finish(t)).memory.byHash == s.memory.byHash
  {
    hide Insert, FullCheck;
  }

  /** And leaves nothing whenever it ends: settling changes no entry. */
  lemma StaleCheckLeavesNothing(steps: seq<Step>, f: nat, t: nat)
    requires f < |steps| && steps[f].Cleared? && t in Run(steps[..f]).tasks
    requires forall j :: f < j < |steps| ==> steps[j] != Finish(t)
    ensures t in Run(steps).tasks && Run(steps).tasks[t] == Run(steps[..f]).tasks[t]
    ensures Take(Run(steps), Finish(t)).memory.byHash == Run(steps).memory.byHash
  {
    hide Run, Take;
    StaysStale(steps, f, t);
    StaleSettles(Run(steps), t);
  }

  lemma StaysBehind(s: System, step: Step)
    ensures s.memory.generation <= Take(s, step).memory.generation
    ensures forall t :: t in s.tasks && step != Finish(t) ==> t in Take(s, step).tasks && Take(s, step).tasks[t] == s.tasks[t]
  {
    hide Insert, Settle;
    if step.Finish? && step.task in s.tasks {
      SettleAdds(s.memory, s.tasks[step.task].check, s.tasks[step.task].lookup);
    } else if step.Wrote? {
      InsertAdds(s.memory, SHA(step.bytes), step.bytes);
    }
  }
}
