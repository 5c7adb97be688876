/** The byte order of strings, by which ordered maps list their keys. */
module Order {
  /** Byte order of strings. */
  predicate AtMost(a: string, b: string) {
    a == "" || (b != "" && (a[0] < b[0] || (a[0] == b[0] && AtMost(a[1..], b[1..]))))
  }

  lemma {:induction false} AtMostTotal(a: string, b: string)
    ensures AtMost(a, b) || AtMost(b, a)
    ensures AtMost(a, b) && AtMost(b, a) ==> a == b
  {
    if a != "" && b != "" {
      AtMostTotal(a[1..], b[1..]);
      assert a == [a[0]] + a[1..] && b == [b[0]] + b[1..];
    }
  }

  lemma {:induction false} AtMostChains(a: string, b: string, c: string)
    requires AtMost(a, b) && AtMost(b, c)
    ensures AtMost(a, c)
  {
    if a != "" && a[0] == b[0] == c[0] {
      AtMostChains(a[1..], b[1..], c[1..]);
    }
  }

  predicate Less(a: string, b: string) {
    AtMost(a, b) && a != b
  }

  lemma LessChains(a: string, b: string, c: string)
    requires (Less(a, b) && AtMost(b, c)) || (AtMost(a, b) && Less(b, c))
    ensures Less(a, c)
  {
    AtMostChains(a, b, c);
    AtMostTotal(a, b);
    AtMostTotal(b, c);
  }

  lemma {:induction false} AtMostSelf(a: string)
    ensures AtMost(a, a)
  {
    if a != "" {
      AtMostSelf(a[1..]);
    }
  }

  /** `str::starts_with`. */
  predicate StartsWith(s: string, prefix: string) {
    prefix <= s
  }

  /** Everything that starts with a prefix is at or past it. */
  lemma {:induction false} PrefixAtMost(prefix: string, s: string)
    requires StartsWith(s, prefix)
    ensures AtMost(prefix, s)
  {
    if prefix != "" {
      PrefixAtMost(prefix[1..], s[1..]);
    }
  }

  /** The strings that start with a prefix are one run of the order, beginning at the prefix. */
  lemma {:induction false} PrefixRun(prefix: string, a: string, b: string)
    requires AtMost(prefix, a) && AtMost(a, b) && StartsWith(b, prefix)
    ensures StartsWith(a, prefix)
  {
    if prefix != "" {
      assert a[0] == b[0] == prefix[0];
      PrefixRun(prefix[1..], a[1..], b[1..]);
      assert a == [a[0]] + a[1..] && prefix == [prefix[0]] + prefix[1..];
    }
  }
}
