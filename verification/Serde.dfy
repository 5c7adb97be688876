/** The two external functions the journal depends on, and a proof that what it assumes of them
    can be met at once: `serde_json` over frames, and a hash without collisions.

    Nothing else in the project looks inside the concrete functions below. They only witness that
    `Serde.LawfulSerde` is inhabited, so the assumptions every theorem rests on are consistent. */
module Serde {
  import opened Prelude

  type Byte = b: int | 0 <= b < 256
  type Bytes = seq<Byte>
  type Digest = string

  /** One committed transaction: a JSON value, opaque to the journal. */
  datatype Value = Json(text: string)

  /** One line of the journal. */
  datatype Frame = Frame(format: string, store: string, epoch: nat, sequence: nat,
                         previous: Digest, transaction: Value, digest: Digest)

  const NEWLINE: Byte := 10

  datatype Serde = Serde(
    write: Frame -> Bytes,
    read: Bytes -> Option<Frame>,
    sha: Bytes -> Digest)

  /** JSON text holds no raw newline, a written line reads back, and digests do not collide.
      `Case` only says which frames and bytes a proof means to use the laws for. */
  ghost predicate Lawful(c: Serde) {
    && (forall f: Frame {:trigger Case(f)} :: Case(f) ==>
          NEWLINE !in c.write(f) && c.read(c.write(f) + [NEWLINE]) == Some(f))
    && (forall a: Bytes, b: Bytes {:trigger Case(a), Case(b)} :: Case(a) && Case(b) ==>
          c.sha(a) == c.sha(b) ==> a == b)
  }

  predicate Case<T>(x: T) { true }

  // ---- The witness: every character as three printable bytes, every field closed by a tab. ----

  const TAB: Byte := 9

  function WriteChar(x: char): (r: Bytes)
    ensures |r| == 3 && NEWLINE !in r && r[0] != TAB && ReadChar(r[0], r[1], r[2]) == x as int
  {
    var c := x as int;
    [c / 16384 + 100, c / 128 % 128 + 100, c % 128 + 100]
  }

  function ReadChar(high: int, middle: int, low: int): int {
    (high - 100) * 16384 + (middle - 100) * 128 + (low - 100)
  }

  function WriteText(s: string): (r: Bytes)
    ensures NEWLINE !in r
  {
    if s == "" then [TAB]
    else WriteChar(s[0]) + WriteText(s[1..])
  }

  function ReadText(b: Bytes): Option<(string, Bytes)> {
    if b == [] then None
    else if b[0] == TAB then Some(("", b[1..]))
    else if |b| < 3 then None
    else
      var c := ReadChar(b[0], b[1], b[2]);
      if !(0 <= c < 0xD800 || 0xE000 <= c < 0x11_0000) then None
      else match ReadText(b[3..])
        case None => None
        case Some((s, rest)) => Some(([c as char] + s, rest))
  }

  lemma {:induction false} ReadsBackText(s: string, rest: Bytes)
    ensures ReadText(WriteText(s) + rest) == Some((s, rest))
  {
    hide ReadChar, WriteChar;
    var b := WriteText(s) + rest;
    if s == "" {
      assert b[1..] == rest;
    } else {
      ReadsBackText(s[1..], rest);
      assert b[3..] == WriteText(s[1..]) + rest;
      assert [s[0]] + s[1..] == s;
    }
  }

  function WriteTexts(ss: seq<string>): (r: Bytes)
    ensures NEWLINE !in r
  {
    if ss == [] then [] else WriteText(ss[0]) + WriteTexts(ss[1..])
  }

  function ReadTexts(n: nat, b: Bytes): (r: Option<seq<string>>)
    ensures r.Some? ==> |r.value| == n
  {
    if n == 0 then Some([])
    else match ReadText(b)
      case None => None
      case Some((s, rest)) =>
        match ReadTexts(n - 1, rest)
        case None => None
        case Some(ss) => Some([s] + ss)
  }

  lemma {:induction false} ReadsBackTexts(ss: seq<string>, rest: Bytes)
    ensures ReadTexts(|ss|, WriteTexts(ss) + rest) == Some(ss)
  {
    hide ReadText, WriteText;
    if ss != [] {
      ReadsBackText(ss[0], WriteTexts(ss[1..]) + rest);
      ReadsBackTexts(ss[1..], rest);
      assert [ss[0]] + ss[1..] == ss;
      assert WriteTexts(ss) + rest == WriteText(ss[0]) + (WriteTexts(ss[1..]) + rest);
    }
  }

  function Unary(n: nat): string { seq(n, _ => '1') }

  function Fields(f: Frame): seq<string> {
    [f.format, f.store, Unary(f.epoch), Unary(f.sequence), f.previous, f.transaction.text, f.digest]
  }

  function WriteFrame(f: Frame): (r: Bytes)
    ensures NEWLINE !in r
  {
    WriteTexts(Fields(f))
  }

  function ReadFrame(b: Bytes): Option<Frame> {
    match ReadTexts(7, b)
    case None => None
    case Some(s) => Some(Frame(s[0], s[1], |s[2]|, |s[3]|, s[4], Json(s[5]), s[6]))
  }

  lemma ReadsBackFrame(f: Frame)
    ensures ReadFrame(WriteFrame(f) + [NEWLINE]) == Some(f)
  {
    ReadsBackTexts(Fields(f), [NEWLINE]);
  }

  function Spell(b: Bytes): (r: Digest)
    ensures |r| == |b| && forall i :: 0 <= i < |b| ==> r[i] as int == b[i]
  {
    seq(|b|, i requires 0 <= i < |b| => b[i] as char)
  }

  lemma SpellsApart(a: Bytes, b: Bytes)
    requires Spell(a) == Spell(b)
    ensures a == b
  {
    forall i | 0 <= i < |a| ensures a[i] == b[i] { assert Spell(a)[i] == Spell(b)[i]; }
  }

  function Witness(): (c: Serde)
    ensures Lawful(c)
  {
    var c := Serde(WriteFrame, ReadFrame, Spell);
    assert Lawful(c) by {
      forall f: Frame ensures NEWLINE !in c.write(f) && c.read(c.write(f) + [NEWLINE]) == Some(f) {
        ReadsBackFrame(f);
      }
      forall a, b | c.sha(a) == c.sha(b) ensures a == b { SpellsApart(a, b); }
    }
    c
  }

  type LawfulSerde = c: Serde | Lawful(c) witness Witness()

  /** Any functions that obey the laws. Only the laws are known of them. */
  const SERDE: LawfulSerde

  lemma ReadsBack(f: Frame)
    ensures NEWLINE !in SERDE.write(f) && SERDE.read(SERDE.write(f) + [NEWLINE]) == Some(f)
  {
    assert Case(f);
  }

  lemma NoCollision(a: Bytes, b: Bytes)
    requires SERDE.sha(a) == SERDE.sha(b)
    ensures a == b
  {
    assert Case(a) && Case(b);
  }
}
