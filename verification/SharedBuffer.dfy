/** Views of one append-only buffer of committed bytes (`journal.rs`, `Content` and `Retained`).

    Any number of views may share a buffer that grows in place. Whatever they do, in whatever order
    and however they alias, each view keeps exactly the bytes it was built from plus those it
    absorbed. */
module SharedBuffer {
  import opened Prelude
  import opened Serde
  import opened Resume

  class Retained {
    var bytes: Bytes

    constructor (b: Bytes)
      ensures bytes == b
    {
      bytes := b;
    }
  }

  /** Two runs of bytes agree as far as the shorter goes. */
  predicate Agree(a: Bytes, b: Bytes) {
    var n := if |a| <= |b| then |a| else |b|;
    a[..n] == b[..n]
  }

  class Content {
    var retained: Retained
    var length: nat
    var stamp: Option<Stamp>
    var sealed: seq<Option<Stamp>>

    ghost predicate Valid()
      reads this, retained
    {
      length <= |retained.bytes|
    }

    ghost function View(): Bytes
      requires Valid()
      reads this, retained
    {
      retained.bytes[..length]
    }

    /** `Content::of`: a view of all of `b`, in a buffer of its own. */
    constructor Of(b: Bytes)
      ensures Valid() && View() == b && fresh(retained) && stamp.None? && sealed == []
    {
      length, stamp, sealed := |b|, None, [];
      retained := new Retained(b);
    }

    /** A clone: the same bytes in the same buffer. */
    constructor Clone(other: Content)
      requires other.Valid()
      ensures Valid() && View() == other.View() && retained == other.retained
      ensures stamp == other.stamp && sealed == other.sealed
    {
      retained, length, stamp, sealed := other.retained, other.length, other.stamp, other.sealed;
    }

    /** `absorb`. The view grows by `b`. A buffer is only ever extended, and it is left alone when it
        already continues differently; the view then has a new one. */
    method Absorb(b: Bytes)
      requires Valid()
      modifies this, retained
      ensures Valid() && View() == old(View()) + b
      ensures stamp.None? && sealed == old(sealed)
      ensures old(retained.bytes) <= old(retained).bytes
      ensures if Agree(old(View()) + b, old(retained.bytes)) then retained == old(retained)
              else fresh(retained) && old(retained).bytes == old(retained.bytes)
    {
      stamp := None;
      var end := length + |b|;
      var past := |retained.bytes| - length;
      var ahead := if past <= |b| then past else |b|;
      ghost var buffer, whole := retained.bytes, View() + b;
      assert buffer[..length + ahead] == buffer[..length] + buffer[length..length + ahead];
      assert whole[..length + ahead] == buffer[..length] + b[..ahead];
      if retained.bytes[length..length + ahead] == b[..ahead] {
        retained.bytes := retained.bytes + b[ahead..];
        assert b == b[..ahead] + b[ahead..];
        assert retained.bytes[..end] == whole;
      } else {
        assert whole[length..length + ahead] == b[..ahead];
        retained := new Retained(retained.bytes[..length] + b);
      }
      length := end;
    }

    /** `adopt`. Only storage moves: both views keep their bytes. It answers whether the two now
        share a buffer, and a `false` changed nothing. */
    method Adopt(other: Content) returns (shared: bool)
      requires Valid() && other.Valid() && other != this
      modifies this, other.retained
      ensures Valid() && other.Valid() && View() == old(View()) && other.View() == old(other.View())
      ensures other.retained == old(other.retained) && stamp == old(stamp) && sealed == old(sealed)
      ensures shared <==> retained == other.retained
      ensures shared <==> old(retained) == other.retained
                          || (length > 0 && other.length > 0 && Agree(old(View()), old(other.retained.bytes)))
      ensures old(other.retained.bytes) <= other.retained.bytes
      ensures !shared ==> retained == old(retained) && other.retained.bytes == old(other.retained.bytes)
    {
      if retained == other.retained {
        return true;
      }
      var common := if length <= other.length then length else other.length;
      if common == 0 {
        return false;
      }
      ghost var mine, theirs := View(), other.retained.bytes;
      if retained.bytes[..common] != other.retained.bytes[..common] {
        ghost var n := if |mine| <= |theirs| then |mine| else |theirs|;
        assert mine[..n][..common] == mine[..common] && theirs[..n][..common] == theirs[..common];
        return false;
      }
      var rest := retained.bytes[common..length];
      var adopted := new Content.Clone(other);
      adopted.length := common;
      assert adopted.View() + rest == mine;
      adopted.Absorb(rest);
      if adopted.retained != other.retained {
        return false;
      }
      retained, length := adopted.retained, adopted.length;
      return true;
    }
  }

  // ---- Any sequence of moves over any aliasing of views ----

  datatype Move =
    | Starts(bytes: Bytes)
    | Clones(view: nat)
    | Absorbs(view: nat, bytes: Bytes)
    | Adopts(view: nat, other: nat)

  /** What each view should hold after a move: its own bytes, whatever the buffers do. */
  function Expect(views: seq<Bytes>, move: Move): seq<Bytes> {
    match move
    case Starts(b) => views + [b]
    case Clones(i) => if i < |views| then views + [views[i]] else views
    case Absorbs(i, b) => if i < |views| then views[i := views[i] + b] else views
    case Adopts(_, _) => views
  }

  function Expected(views: seq<Bytes>, moves: seq<Move>): seq<Bytes> {
    if moves == [] then views
    else Expect(Expected(views, moves[..|moves| - 1]), moves[|moves| - 1])
  }

  ghost predicate Distinct(views: seq<Content>) {
    forall i, j :: 0 <= i < j < |views| ==> views[i] != views[j]
  }

  ghost function Buffers(views: seq<Content>): set<object>
    reads views
  {
    set i | 0 <= i < |views| :: views[i].retained
  }

  ghost predicate AllHold(views: seq<Content>, expected: seq<Bytes>)
    reads views, Buffers(views)
  {
    |views| == |expected| && forall i :: 0 <= i < |views| ==> views[i].Valid() && views[i].View() == expected[i]
  }

  /** The views after a move: those there were, at most one new one, and no buffer but theirs and new ones. */
  twostate predicate Grown(views: seq<Content>, new after: seq<Content>)
    reads after
  {
    && views <= after && Distinct(after)
    && (forall i :: |views| <= i < |after| ==> fresh(after[i]))
    && forall i :: 0 <= i < |after| ==> fresh(after[i].retained) || after[i].retained in old(Buffers(views))
  }

  /** One more view, of `b` in a buffer of its own. */
  method ApplyStart(views: seq<Content>, b: Bytes, ghost held: seq<Bytes>) returns (after: seq<Content>)
    requires Distinct(views) && AllHold(views, held)
    ensures AllHold(after, held + [b]) && Grown(views, after)
  {
    var c := new Content.Of(b);
    after := views + [c];
  }

  /** One more view, in the buffer of `views[i]`. */
  method ApplyClone(views: seq<Content>, i: nat, ghost held: seq<Bytes>) returns (after: seq<Content>)
    requires Distinct(views) && AllHold(views, held) && i < |views|
    ensures AllHold(after, held + [held[i]]) && Grown(views, after)
  {
    var c := new Content.Clone(views[i]);
    after := views + [c];
  }

  /** `views[i]` absorbs `b`, among views that may share its buffer. */
  method ApplyAbsorb(views: seq<Content>, i: nat, b: Bytes, ghost held: seq<Bytes>)
    requires Distinct(views) && AllHold(views, held) && i < |views|
    modifies views, Buffers(views)
    ensures AllHold(views, held[i := held[i] + b]) && Grown(views, views)
  {
    ghost var buffer := views[i].retained;
    views[i].Absorb(b);
    forall k | 0 <= k < |views| && k != i
      ensures views[k].retained == old(views[k].retained) && views[k].Valid() && views[k].View() == held[k]
    {
      assert views[k] != views[i];
      assert views[k].retained == buffer ==> old(buffer.bytes) <= buffer.bytes;
    }
  }

  /** `views[i]` moves into the buffer of `views[j]` if it can. */
  method ApplyAdopt(views: seq<Content>, i: nat, j: nat, ghost held: seq<Bytes>)
    requires Distinct(views) && AllHold(views, held) && i < |views| && j < |views| && i != j
    modifies views, Buffers(views)
    ensures AllHold(views, held) && Grown(views, views)
  {
    ghost var buffer := views[j].retained;
    assert views[i] != views[j];
    var _ := views[i].Adopt(views[j]);
    forall k | 0 <= k < |views| && k != i
      ensures views[k].retained == old(views[k].retained) && views[k].Valid() && views[k].View() == held[k]
    {
      assert views[k] != views[i];
      assert views[k].retained == buffer ==> old(buffer.bytes) <= buffer.bytes;
    }
  }

  /** One move. */
  method Apply(views: seq<Content>, move: Move, ghost held: seq<Bytes>) returns (after: seq<Content>)
    requires Distinct(views) && AllHold(views, held)
    modifies views, Buffers(views)
    ensures AllHold(after, Expect(held, move)) && Grown(views, after)
  {
    after := views;
    match move {
      case Starts(b) =>
        after := ApplyStart(views, b, held);
      case Clones(i) =>
        if i < |views| {
          after := ApplyClone(views, i, held);
        }
      case Absorbs(i, b) =>
        if i < |views| {
          ApplyAbsorb(views, i, b, held);
        }
      case Adopts(i, j) =>
        if i < |views| && j < |views| && i != j {
          ApplyAdopt(views, i, j, held);
        }
    }
  }

  /** Run the moves. Every view ends with its own expected bytes: no move of one view reaches another. */
  method Play(views: seq<Content>, moves: seq<Move>, ghost start: seq<Bytes>) returns (after: seq<Content>)
    requires Distinct(views) && AllHold(views, start)
    modifies views, Buffers(views)
    ensures views <= after && AllHold(after, Expected(start, moves))
  {
    after := views;
    ghost var buffers := Buffers(views);
    for n := 0 to |moves|
      invariant views <= after && Distinct(after) && AllHold(after, Expected(start, moves[..n]))
      invariant forall i :: |views| <= i < |after| ==> fresh(after[i])
      invariant forall i :: 0 <= i < |after| ==> fresh(after[i].retained) || after[i].retained in buffers
    {
      hide AllHold, Distinct, Expect;
      assert moves[..n + 1][..n] == moves[..n];
      after := Apply(after, moves[n], Expected(start, moves[..n]));
    }
    assert moves[..|moves|] == moves;
  }
}
