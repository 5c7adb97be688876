/** The fold of committed transactions into a store's state (`state.rs`).

    The keys that the source encodes as JSON arrays are tuples here. */
module State {
  import opened Prelude

  type Tenant = string
  datatype StreamId = StreamId(tenant: Tenant, kind: string, id: string)

  /** `body` and `redacted` are all that a redaction changes. */
  datatype Event = Event(position: nat, stream: StreamId, version: nat, id: string, body: string, redacted: bool)

  datatype Range = Range(stream: StreamId, first: nat, last: nat)
  datatype Receipt = Receipt(digest: string, range: Range)
  /** `blobs` are the digests of the batch, which the source keeps sorted and without repeats. */
  datatype GroupReceipt = GroupReceipt(digest: string, ranges: seq<Range>, blobs: set<string>)
  datatype BlobObject = BlobObject(id: string, hash: string)

  datatype Op =
    | Watermark(position: nat)
    | Counter(owner: Option<Tenant>, coordinate: string, value: int)
    | Recorded(event: Event)
    | Command(stream: StreamId, key: string, digest: string, first: nat, last: nat)
    | Claim(tenant: Tenant, scope: string, key: string, digest: string, range: Range)
    | Group(tenant: Tenant, key: string, digest: string, ranges: seq<Range>, blobs: set<string>)
    | Identity(tenant: Tenant, id: string)
    | Generation(stream: StreamId, id: string)
    | Projection(name: string, indexed: seq<string>)
    | DirtyView(tenant: Tenant, name: string, dirty: bool)
    | Row(tenant: Tenant, name: string, key: string, row: Option<string>)
    | ClearRows(tenant: Tenant, name: string)
    | Cursor(tenant: Tenant, name: string, position: nat)
    | Blob(tenant: Tenant, digest: string, bound: Option<BlobObject>)
  {
    /** `Op::tenant`: whose data the operation carries. */
    function Tenant(): Option<Tenant> {
      match this
      case Counter(owner, _, _) => owner
      case Recorded(event) => Some(event.stream.tenant)
      case Command(stream, _, _, _, _) => Some(stream.tenant)
      case Generation(stream, _) => Some(stream.tenant)
      case Projection(_, _) => None
      case Watermark(_) => None
      case DirtyView(t, _, _) => Some(t)
      case Claim(t, _, _, _, _) => Some(t)
      case Group(t, _, _, _, _) => Some(t)
      case Identity(t, _) => Some(t)
      case Row(t, _, _, _) => Some(t)
      case ClearRows(t, _) => Some(t)
      case Cursor(t, _, _) => Some(t)
      case Blob(t, _, _) => Some(t)
    }
  }

  /** A committed transaction, as the operations its JSON value decodes to. */
  type Transaction = seq<Op>

  /** Every committed event, by global position and by stream and version. */
  datatype Events = Events(byPosition: map<nat, Event>, byStream: map<StreamId, map<nat, nat>>)

  datatype State = State(
    events: Events,
    commands: map<(StreamId, string), Receipt>,
    claims: map<(Tenant, string, string), Receipt>,
    groups: map<(Tenant, string), GroupReceipt>,
    identities: map<Tenant, string>,
    generations: map<StreamId, string>,
    projections: map<string, seq<string>>,
    dirty: set<(Tenant, string)>,
    rows: map<(Tenant, string, string), string>,
    cursors: map<(Tenant, string), nat>,
    blobs: map<(Tenant, string), BlobObject>,
    next: nat,
    counters: map<string, int>)

  const EMPTY := State(Events(map[], map[]), map[], map[], map[], map[], map[], map[], {}, map[], map[], map[], 0, map[])

  // ---- Events ----

  lemma {:induction false} LargestExists(keys: set<nat>)
    requires keys != {}
    ensures exists k :: k in keys && forall j :: j in keys ==> j <= k
  {
    var k :| k in keys;
    if keys == {k} {
    } else {
      LargestExists(keys - {k});
      var m :| m in keys - {k} && forall j :: j in keys - {k} ==> j <= m;
      var top := if m < k then k else m;
      assert top in keys && forall j :: j in keys ==> j == k || j in keys - {k};
    }
  }

  /** The last key of an ordered map, or 0. */
  function Largest(keys: set<nat>): (k: nat)
    ensures keys == {} ==> k == 0
    ensures keys != {} ==> k in keys && forall j :: j in keys ==> j <= k
  {
    if keys == {} then 0
    else
      LargestExists(keys);
      var k :| k in keys && forall j :: j in keys ==> j <= k;
      k
  }

  function VersionsOf(e: Events, stream: StreamId): map<nat, nat> {
    if stream in e.byStream then e.byStream[stream] else map[]
  }

  /** `Events::head`: the highest version of a stream, or 0. */
  function Head(e: Events, stream: StreamId): nat {
    Largest(VersionsOf(e, stream).Keys)
  }

  /** `Events::insert`. */
  function Insert(e: Events, event: Event): Events {
    Events(e.byPosition[event.position := event],
           e.byStream[event.stream := VersionsOf(e, event.stream)[event.version := event.position]])
  }

  // ---- The fold ----

  function Cleared(rows: map<(Tenant, string, string), string>, tenant: Tenant, name: string)
    : map<(Tenant, string, string), string>
  {
    map k | k in rows && !(k.0 == tenant && k.1 == name) :: rows[k]
  }

  /** `State::apply`; `None` is a refusal. */
  function Apply(s: State, op: Op): Option<State> {
    match op
    case Watermark(position) => Some(s.(next := if s.next < position then position else s.next))
    case Counter(_, coordinate, value) => Some(s.(counters := s.counters[coordinate := value]))
    case Recorded(event) =>
      if event.position <= s.next || event.version != Head(s.events, event.stream) + 1 then None
      else Some(s.(next := event.position, events := Insert(s.events, event)))
    case Command(stream, key, digest, first, last) =>
      Some(s.(commands := s.commands[(stream, key) := Receipt(digest, Range(stream, first, last))]))
    case Claim(tenant, scope, key, digest, range) =>
      Some(s.(claims := s.claims[(tenant, scope, key) := Receipt(digest, range)]))
    case Group(tenant, key, digest, ranges, blobs) =>
      Some(s.(groups := s.groups[(tenant, key) := GroupReceipt(digest, ranges, blobs)]))
    case Identity(tenant, id) => Some(s.(identities := s.identities[tenant := id]))
    case Generation(stream, id) => Some(s.(generations := s.generations[stream := id]))
    case Projection(name, indexed) =>
      if name in s.projections && s.projections[name] != indexed then None
      else Some(s.(projections := s.projections[name := indexed]))
    case DirtyView(tenant, name, dirty) =>
      Some(s.(dirty := if dirty then s.dirty + {(tenant, name)} else s.dirty - {(tenant, name)}))
    case Row(tenant, name, key, row) =>
      Some(s.(rows := if row.Some? then s.rows[(tenant, name, key) := row.value] else s.rows - {(tenant, name, key)}))
    case ClearRows(tenant, name) =>
      Some(s.(rows := Cleared(s.rows, tenant, name)))
    case Cursor(tenant, name, position) => Some(s.(cursors := s.cursors[(tenant, name) := position]))
    case Blob(tenant, digest, bound) =>
      Some(s.(blobs := if bound.Some? then s.blobs[(tenant, digest) := bound.value] else s.blobs - {(tenant, digest)}))
  }

  /** `State::fold`: one transaction. */
  function Fold(s: State, ops: Transaction): Option<State> {
    if ops == [] then Some(s)
    else match Fold(s, ops[..|ops| - 1])
      case None => None
      case Some(s') => Apply(s', ops[|ops| - 1])
  }

  /** Fold a list of transactions onto a state. */
  function FoldAll(s: State, history: seq<Transaction>): Option<State> {
    if history == [] then Some(s)
    else match FoldAll(s, history[..|history| - 1])
      case None => None
      case Some(s') => Fold(s', history[|history| - 1])
  }

  function Replay(history: seq<Transaction>): Option<State> {
    FoldAll(EMPTY, history)
  }

  /** The loops of `replay` and `fold`. */
  method ReplayLoop(history: seq<Transaction>) returns (r: Option<State>)
    ensures r == Replay(history)
  {
    hide Apply;
    var s := EMPTY;
    for i := 0 to |history|
      invariant FoldAll(EMPTY, history[..i]) == Some(s)
    {
      assert history[..i + 1][..i] == history[..i];
      var next := FoldLoop(s, history[i]);
      if next.None? {
        FoldAllFail(EMPTY, history, i + 1);
        return None;
      }
      s := next.value;
    }
    assert history[..|history|] == history;
    return Some(s);
  }

  method FoldLoop(start: State, ops: Transaction) returns (r: Option<State>)
    ensures r == Fold(start, ops)
  {
    hide Apply;
    var s := start;
    for i := 0 to |ops|
      invariant Fold(start, ops[..i]) == Some(s)
    {
      assert ops[..i + 1][..i] == ops[..i];
      var next := Apply(s, ops[i]);
      if next.None? {
        FoldFail(start, ops, i + 1);
        return None;
      }
      s := next.value;
    }
    assert ops[..|ops|] == ops;
    return Some(s);
  }

  lemma {:induction false} FoldFail(s: State, ops: Transaction, i: nat)
    requires i <= |ops| && Fold(s, ops[..i]).None?
    ensures Fold(s, ops).None?
    decreases |ops| - i
  {
    hide Apply;
    if i == |ops| {
      assert ops[..i] == ops;
    } else {
      assert ops[..i + 1][..i] == ops[..i];
      FoldFail(s, ops, i + 1);
    }
  }

  lemma {:induction false} FoldAllFail(s: State, history: seq<Transaction>, i: nat)
    requires i <= |history| && FoldAll(s, history[..i]).None?
    ensures FoldAll(s, history).None?
    decreases |history| - i
  {
    hide Fold;
    if i == |history| {
      assert history[..i] == history;
    } else {
      assert history[..i + 1][..i] == history[..i];
      FoldAllFail(s, history, i + 1);
    }
  }

  lemma FoldSnoc(s: State, ops: Transaction, op: Op)
    ensures Fold(s, ops + [op]) == match Fold(s, ops) case None => None case Some(s') => Apply(s', op)
  {
    hide Apply;
    assert (ops + [op])[..|ops|] == ops;
  }

  lemma {:induction false} FoldConcat(s: State, a: Transaction, b: Transaction)
    ensures Fold(s, a + b) == match Fold(s, a) case None => None case Some(s') => Fold(s', b)
  {
    hide Apply;
    if b == [] {
      assert a + b == a;
    } else {
      var n := |b| - 1;
      FoldConcat(s, a, b[..n]);
      assert (a + b)[..|a| + n] == a + b[..n];
    }
  }

  /** Folding the frames past a prefix onto the prefix's state is folding everything. */
  lemma {:induction false} FoldAllConcat(s: State, a: seq<Transaction>, b: seq<Transaction>)
    ensures FoldAll(s, a + b) == match FoldAll(s, a) case None => None case Some(s') => FoldAll(s', b)
  {
    hide Fold;
    if b == [] {
      assert a + b == a;
    } else {
      var n := |b| - 1;
      FoldAllConcat(s, a, b[..n]);
      assert (a + b)[..|a| + n] == a + b[..n];
    }
  }
}
