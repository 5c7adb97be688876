/** Pages of a projection's rows (`projection_page` over `projection_list`). */
module Paging {
  import opened Prelude
  import opened Order
  import opened State
  import opened Index

  datatype Entry = Entry(key: string, body: string)
  datatype Page = Page(rows: seq<Entry>, next: Option<string>)

  /** Keys rise strictly: the order in which an ordered map lists them. */
  predicate Ascending(rows: seq<Entry>) {
    forall i, j :: 0 <= i < j < |rows| ==> Less(rows[i].key, rows[j].key)
  }

  /** The listing of one tenant's rows of one projection. */
  ghost predicate Lists(s: State, tenant: Tenant, name: string, listing: seq<Entry>) {
    && Ascending(listing)
    && (forall i :: 0 <= i < |listing| ==>
          (tenant, name, listing[i].key) in s.rows && s.rows[(tenant, name, listing[i].key)] == listing[i].body)
    && (forall k :: k in s.rows && k.0 == tenant && k.1 == name ==> Entry(k.2, s.rows[k]) in listing)
  }

  // ---- One page ----

  function Above(listing: seq<Entry>, after: string): seq<Entry> {
    if listing == [] then []
    else
      var n := |listing| - 1;
      Above(listing[..n], after) + (if Less(after, listing[n].key) then [listing[n]] else [])
  }

  function Truncated<T>(s: seq<T>, n: nat): (r: seq<T>)
    ensures r <= s && |r| == if |s| <= n then |s| else n
  {
    if |s| <= n then s else s[..n]
  }

  /** `projection_list` of the file provider, which clamps whatever limit it is given. */
  function ProjectionList(listing: seq<Entry>, after: string, limit: nat): seq<Entry> {
    Truncated(Above(listing, after), BoundedLimit(limit))
  }

  function Start(prefix: Option<string>, cursor: Option<string>): string {
    if cursor.Some? then cursor.value else if prefix.Some? then prefix.value else ""
  }

  function PrefixOf(prefix: Option<string>): string {
    if prefix.Some? then prefix.value else ""
  }

  /** The rows under a prefix and past a key: what the pages are to deliver. */
  function Rest(listing: seq<Entry>, prefix: string, after: string): seq<Entry> {
    if listing == [] then []
    else
      var n := |listing| - 1;
      Rest(listing[..n], prefix, after)
      + (if Less(after, listing[n].key) && StartsWith(listing[n].key, prefix) then [listing[n]] else [])
  }

  /** The leading rows under the prefix, up to the first that is not. */
  ghost predicate Splits(above: seq<Entry>, lead: seq<Entry>, prefix: string) {
    && lead <= above && (forall i :: 0 <= i < |lead| ==> StartsWith(above[i].key, prefix))
    && (|lead| == |above| || !StartsWith(above[|lead|].key, prefix))
  }

  function Leading(above: seq<Entry>, prefix: string): seq<Entry> {
    if above == [] then []
    else
      var n := |above| - 1;
      var lead := Leading(above[..n], prefix);
      if |lead| == n && StartsWith(above[n].key, prefix) then above else lead
  }

  lemma {:induction false} LeadingSplits(above: seq<Entry>, prefix: string)
    ensures Splits(above, Leading(above, prefix), prefix)
  {
    hide StartsWith;
    if above != [] {
      LeadingSplits(above[..|above| - 1], prefix);
    }
  }

  lemma SplitsOnce(above: seq<Entry>, a: seq<Entry>, b: seq<Entry>, prefix: string)
    requires Splits(above, a, prefix) && Splits(above, b, prefix)
    ensures a == b
  {
    hide StartsWith;
  }

  lemma {:induction false} AboveMembers(listing: seq<Entry>, after: string)
    ensures forall r :: r in Above(listing, after) <==> r in listing && Less(after, r.key)
  {
    if listing != [] {
      AboveMembers(listing[..|listing| - 1], after);
    }
  }

  lemma {:induction false} RestMembers(listing: seq<Entry>, prefix: string, after: string)
    ensures forall r :: r in Rest(listing, prefix, after) <==> r in listing && Less(after, r.key) && StartsWith(r.key, prefix)
  {
    if listing != [] {
      RestMembers(listing[..|listing| - 1], prefix, after);
    }
  }

  lemma AllUnder(above: seq<Entry>, rest: seq<Entry>, prefix: string)
    requires Splits(above, rest, prefix) && forall i :: 0 <= i < |above| ==> StartsWith(above[i].key, prefix)
    ensures above == rest
  {
  }

  /** Past the start, the rows under the prefix come first and without interruption. */
  lemma {:induction false} AboveSplits(listing: seq<Entry>, prefix: string, after: string)
    requires Ascending(listing) && AtMost(prefix, after)
    ensures Splits(Above(listing, after), Rest(listing, prefix, after), prefix)
  {
    hide AtMost, StartsWith;
    if listing != [] {
      var n := |listing| - 1;
      AboveSplits(listing[..n], prefix, after);
      var x, above, rest := listing[n], Above(listing[..n], after), Rest(listing[..n], prefix, after);
      if Less(after, x.key) && StartsWith(x.key, prefix) {
        AboveMembers(listing[..n], after);
        forall i | 0 <= i < |above| ensures StartsWith(above[i].key, prefix) {
          assert above[i] in listing[..n];
          AtMostChains(prefix, after, above[i].key);
          PrefixRun(prefix, above[i].key, x.key);
        }
        AllUnder(above, rest, prefix);
      }
    }
  }

  /** From any start at or past the prefix, the leading rows are all the rows under it that remain. */
  lemma LeadingIsRest(listing: seq<Entry>, prefix: string, after: string)
    requires Ascending(listing) && AtMost(prefix, after)
    ensures Leading(Above(listing, after), prefix) == Rest(listing, prefix, after)
  {
    hide Above, Rest, Splits;
    AboveSplits(listing, prefix, after);
    LeadingSplits(Above(listing, after), prefix);
    SplitsOnce(Above(listing, after), Leading(Above(listing, after), prefix), Rest(listing, prefix, after), prefix);
  }

  /** `projection_page`: one row more than asked for decides whether there is a next page. */
  method ProjectionPage(listing: seq<Entry>, prefix: Option<string>, cursor: Option<string>, limit: nat) returns (page: Page)
    ensures page == PageOf(Leading(Above(listing, Start(prefix, cursor)), PrefixOf(prefix)), limit)
  {
    hide AtMost, StartsWith, Above, Leading;
    var n, p := BoundedLimit(limit), PrefixOf(prefix);
    var fetched := ProjectionList(listing, Start(prefix, cursor), n + 1);
    ghost var lead := Leading(Above(listing, Start(prefix, cursor)), p);
    LeadingSplits(Above(listing, Start(prefix, cursor)), p);
    var rows, more, i := [], false, 0;
    while i < |fetched|
      invariant 0 <= i <= |fetched| && i <= |lead| && !more && rows == lead[..i] && i <= n
      decreases |fetched| - i
    {
      if !StartsWith(fetched[i].key, p) {
        assert i == |lead|;
        break;
      }
      if |rows| == n {
        more := true;
        break;
      }
      rows := rows + [fetched[i]];
      i := i + 1;
    }
    assert rows == Truncated(lead, n);
    page := Page(rows, if more && rows != [] then Some(rows[|rows| - 1].key) else None);
  }

  /** A page of the remaining rows. The look-ahead row is lost at the largest limit. */
  function PageOf(rest: seq<Entry>, limit: nat): Page {
    var n := BoundedLimit(limit);
    var rows := Truncated(rest, n);
    Page(rows, if |rest| > n && n < MAX_READ_LIMIT then Some(rows[n - 1].key) else None)
  }

  // ---- Following the cursor ----

  /** What a caller has after following the cursor through some listings, one per call. */
  datatype Trip = Trip(rows: seq<Entry>, cursor: Option<string>, done: bool)

  /** The listing may be another one at every call. */
  function Walk(listings: seq<seq<Entry>>, prefix: Option<string>, limit: nat): Trip {
    if listings == [] then Trip([], None, false)
    else
      var n := |listings| - 1;
      var t := Walk(listings[..n], prefix, limit);
      if t.done then t
      else
        var page := PageOf(Rest(listings[n], PrefixOf(prefix), Start(prefix, t.cursor)), limit);
        Trip(t.rows + page.rows, page.next, page.next.None?)
  }

  predicate UnderPrefix(key: string, prefix: Option<string>) {
    Less(PrefixOf(prefix), key) && StartsWith(key, PrefixOf(prefix))
  }

  /** Returned rows rise strictly and lie under the prefix; the cursor is the last of them. */
  ghost predicate Ordered(t: Trip, prefix: Option<string>) {
    && Ascending(t.rows) && (forall i :: 0 <= i < |t.rows| ==> UnderPrefix(t.rows[i].key, prefix))
    && (t.cursor.Some? ==> t.rows != [] && t.cursor.value == t.rows[|t.rows| - 1].key)
    && (t.done ==> t.cursor.None?) && (!t.done && t.cursor.None? ==> t.rows == [])
  }

  lemma {:induction false} RestAscending(listing: seq<Entry>, prefix: string, after: string)
    requires Ascending(listing)
    ensures Ascending(Rest(listing, prefix, after))
  {
    hide AtMost, StartsWith;
    if listing != [] {
      var n := |listing| - 1;
      RestAscending(listing[..n], prefix, after);
      RestMembers(listing[..n], prefix, after);
      var rest := Rest(listing[..n], prefix, after);
      forall i | 0 <= i < |rest| ensures Less(rest[i].key, listing[n].key) {
        assert rest[i] in listing[..n];
      }
    }
  }

  lemma AscendingConcat(a: seq<Entry>, b: seq<Entry>)
    requires Ascending(a) && Ascending(b)
    requires a != [] ==> forall i :: 0 <= i < |b| ==> Less(a[|a| - 1].key, b[i].key)
    ensures Ascending(a + b)
  {
    hide AtMost;
    forall i, j | 0 <= i < j < |a + b| ensures Less((a + b)[i].key, (a + b)[j].key) {
      if i < |a| - 1 && j >= |a| {
        LessChains(a[i].key, a[|a| - 1].key, b[j - |a|].key);
      }
    }
  }

  lemma StartOk(t: Trip, prefix: Option<string>)
    requires Ordered(t, prefix)
    ensures AtMost(PrefixOf(prefix), Start(prefix, t.cursor))
  {
    AtMostSelf(PrefixOf(prefix));
    if t.cursor.Some? {
      PrefixAtMost(PrefixOf(prefix), t.cursor.value);
    }
  }

  lemma {:induction false} WalkOrdered(listings: seq<seq<Entry>>, prefix: Option<string>, limit: nat)
    requires forall i :: 0 <= i < |listings| ==> Ascending(listings[i])
    ensures Ordered(Walk(listings, prefix, limit), prefix)
  {
    hide AtMost, StartsWith, Rest;
    if listings != [] {
      var n := |listings| - 1;
      WalkOrdered(listings[..n], prefix, limit);
      var t := Walk(listings[..n], prefix, limit);
      if !t.done {
        OrderedOn(listings[n], t, prefix, limit);
      }
    }
  }

  /** The rows of a page rise, past the start and under the prefix. */
  lemma PageRows(listing: seq<Entry>, prefix: string, after: string, limit: nat)
    requires Ascending(listing)
    ensures var rows := PageOf(Rest(listing, prefix, after), limit).rows;
      Ascending(rows) && forall i :: 0 <= i < |rows| ==> Less(after, rows[i].key) && StartsWith(rows[i].key, prefix)
  {
    hide AtMost, StartsWith, Less;
    RestAscending(listing, prefix, after);
    RestMembers(listing, prefix, after);
    var rest := Rest(listing, prefix, after);
    forall i | 0 <= i < |rest| ensures Less(after, rest[i].key) && StartsWith(rest[i].key, prefix) {
      assert rest[i] in rest;
    }
  }

  lemma OrderedOn(listing: seq<Entry>, t: Trip, prefix: Option<string>, limit: nat)
    requires Ascending(listing) && Ordered(t, prefix) && !t.done
    ensures var page := PageOf(Rest(listing, PrefixOf(prefix), Start(prefix, t.cursor)), limit);
      Ordered(Trip(t.rows + page.rows, page.next, page.next.None?), prefix)
  {
    hide AtMost, StartsWith, Rest, Less, PageOf, PrefixOf;
    var p, after := PrefixOf(prefix), Start(prefix, t.cursor);
    var page := PageOf(Rest(listing, p, after), limit);
    StartOk(t, prefix);
    PageRows(listing, p, after, limit);
    PageEnds(Rest(listing, p, after), limit);
    forall i | 0 <= i < |page.rows| ensures UnderPrefix(page.rows[i].key, prefix) {
      LessChains(p, after, page.rows[i].key);
    }
    AscendingConcat(t.rows, page.rows);
    hide Ascending, UnderPrefix, Start;
    var all := t.rows + page.rows;
    forall i | 0 <= i < |all| ensures UnderPrefix(all[i].key, prefix) {
      assert all[i] == if i < |t.rows| then t.rows[i] else page.rows[i - |t.rows|];
    }
  }

  lemma PageEnds(rest: seq<Entry>, limit: nat)
    ensures var page := PageOf(rest, limit);
      page.next.Some? ==> page.rows != [] && page.next.value == page.rows[|page.rows| - 1].key
  {
  }

  /** Every row under the prefix that was listed at every call is returned, or still ahead. */
  ghost predicate Covers(t: Trip, key: string, prefix: Option<string>) {
    (exists i :: 0 <= i < |t.rows| && t.rows[i].key == key) || (!t.done && Less(Start(prefix, t.cursor), key))
  }

  predicate Listed(listing: seq<Entry>, key: string) {
    exists i :: 0 <= i < |listing| && listing[i].key == key
  }

  lemma {:induction false} WalkCovers(listings: seq<seq<Entry>>, prefix: Option<string>, limit: nat, key: string)
    requires (forall i :: 0 <= i < |listings| ==> Ascending(listings[i]) && Listed(listings[i], key))
    requires UnderPrefix(key, prefix) && BoundedLimit(limit) < MAX_READ_LIMIT
    ensures Covers(Walk(listings, prefix, limit), key, prefix)
  {
    hide AtMost, StartsWith, Rest, Listed;
    if listings != [] {
      var n := |listings| - 1;
      WalkCovers(listings[..n], prefix, limit, key);
      WalkOrdered(listings[..n], prefix, limit);
      var t := Walk(listings[..n], prefix, limit);
      if !t.done {
        CoversOn(listings[n], t, prefix, limit, key);
      }
    }
  }

  lemma CoversOn(listing: seq<Entry>, t: Trip, prefix: Option<string>, limit: nat, key: string)
    requires Ascending(listing) && Listed(listing, key) && Ordered(t, prefix) && !t.done && Covers(t, key, prefix)
    requires UnderPrefix(key, prefix) && BoundedLimit(limit) < MAX_READ_LIMIT
    ensures var page := PageOf(Rest(listing, PrefixOf(prefix), Start(prefix, t.cursor)), limit);
      Covers(Trip(t.rows + page.rows, page.next, page.next.None?), key, prefix)
  {
    hide AtMost, StartsWith, Rest;
    var p, after, n := PrefixOf(prefix), Start(prefix, t.cursor), BoundedLimit(limit);
    var rest := Rest(listing, p, after);
    var page := PageOf(rest, limit);
    var all := t.rows + page.rows;
    if exists i :: 0 <= i < |t.rows| && t.rows[i].key == key {
      var i :| 0 <= i < |t.rows| && t.rows[i].key == key;
      assert all[i].key == key;
    } else {
      var j :| 0 <= j < |listing| && listing[j].key == key;
      RestMembers(listing, p, after);
      RestAscending(listing, p, after);
      assert listing[j] in rest;
      var k :| 0 <= k < |rest| && rest[k] == listing[j];
      if k < |page.rows| {
        assert all[|t.rows| + k].key == key;
      } else {
        assert Less(rest[n - 1].key, rest[k].key);
      }
    }
  }

  /** Calling `projection_page` with the cursor of the page before, over whatever is listed then. */
  method FollowCalls(listings: seq<seq<Entry>>, prefix: Option<string>, limit: nat) returns (t: Trip)
    requires forall i :: 0 <= i < |listings| ==> Ascending(listings[i])
    ensures t == Walk(listings, prefix, limit)
  {
    hide AtMost, StartsWith, Rest, Leading, Above, PageOf, Ascending, Ordered;
    t := Trip([], None, false);
    assert listings[..0] == [];
    for i := 0 to |listings|
      invariant t == Walk(listings[..i], prefix, limit)
    {
      assert listings[..i + 1][..i] == listings[..i];
      if !t.done {
        WalkOrdered(listings[..i], prefix, limit);
        StartOk(t, prefix);
        LeadingIsRest(listings[i], PrefixOf(prefix), Start(prefix, t.cursor));
        var page := ProjectionPage(listings[i], prefix, t.cursor, limit);
        t := Trip(t.rows + page.rows, page.next, page.next.None?);
      }
    }
    assert listings[..|listings|] == listings;
  }

  /** The rows that call `i` returned were listed then. */
  lemma {:induction false} WalkListed(listings: seq<seq<Entry>>, prefix: Option<string>, limit: nat, i: nat, j: nat)
    requires i < |listings| && |Walk(listings[..i], prefix, limit).rows| <= j < |Walk(listings[..i + 1], prefix, limit).rows|
    ensures j < |Walk(listings, prefix, limit).rows| && Walk(listings, prefix, limit).rows[j] in listings[i]
    decreases |listings|
  {
    hide Rest;
    var n := |listings| - 1;
    if i == n {
      assert listings[..i] == listings[..n] && listings[..i + 1] == listings;
      var t := Walk(listings[..n], prefix, limit);
      RestMembers(listings[n], PrefixOf(prefix), Start(prefix, t.cursor));
      var rest := Rest(listings[n], PrefixOf(prefix), Start(prefix, t.cursor));
      assert rest[j - |t.rows|] in rest;
    } else {
      assert listings[..n][..i] == listings[..i] && listings[..n][..i + 1] == listings[..i + 1];
      WalkListed(listings[..n], prefix, limit, i, j);
    }
  }

  /** Whatever is inserted or removed between the calls, and at any limit, rows come in key order, each
      once, and under the prefix. */
  lemma PagesOrdered(listings: seq<seq<Entry>>, prefix: Option<string>, limit: nat)
    requires forall i :: 0 <= i < |listings| ==> Ascending(listings[i])
    ensures var rows := Walk(listings, prefix, limit).rows;
      Ascending(rows) && forall i :: 0 <= i < |rows| ==> UnderPrefix(rows[i].key, prefix)
  {
    hide Walk, Ascending, UnderPrefix;
    WalkOrdered(listings, prefix, limit);
  }

  /** With a limit below the largest, when the last page says so, no row that was there at every call is
      missing. */
  lemma PagesComplete(listings: seq<seq<Entry>>, prefix: Option<string>, limit: nat, key: string)
    requires forall i :: 0 <= i < |listings| ==> Ascending(listings[i]) && Listed(listings[i], key)
    requires UnderPrefix(key, prefix) && BoundedLimit(limit) < MAX_READ_LIMIT
    requires Walk(listings, prefix, limit).done
    ensures exists i :: 0 <= i < |Walk(listings, prefix, limit).rows| && Walk(listings, prefix, limit).rows[i].key == key
  {
    hide Walk, Listed;
    WalkCovers(listings, prefix, limit, key);
  }

  /** Under a prefix, a listing holds exactly the tenant's rows whose keys lie under it. */
  lemma RestIsRows(s: State, tenant: Tenant, name: string, listing: seq<Entry>, prefix: Option<string>, row: Entry)
    requires Lists(s, tenant, name, listing)
    ensures row in Rest(listing, PrefixOf(prefix), PrefixOf(prefix)) <==>
      && (tenant, name, row.key) in s.rows && s.rows[(tenant, name, row.key)] == row.body
      && UnderPrefix(row.key, prefix)
  {
    hide Less, StartsWith, Rest;
    RestMembers(listing, PrefixOf(prefix), PrefixOf(prefix));
    if row in listing {
      var i :| 0 <= i < |listing| && listing[i] == row;
    }
  }

  // ---- One listing, all pages ----

  lemma {:induction false} RestRest(listing: seq<Entry>, prefix: string, after: string, k: nat)
    requires Ascending(listing) && k < |Rest(listing, prefix, after)|
    ensures Rest(listing, prefix, Rest(listing, prefix, after)[k].key) == Rest(listing, prefix, after)[k + 1..]
  {
    hide AtMost, StartsWith;
    var n := |listing| - 1;
    var x, rest, before := listing[n], Rest(listing, prefix, after), Rest(listing[..n], prefix, after);
    RestMembers(listing[..n], prefix, after);
    RestAscending(listing, prefix, after);
    if k < |before| {
      RestRest(listing[..n], prefix, after, k);
      assert rest[k] == before[k] && before[k] in listing[..n];
      assert Less(after, before[k].key) && Less(before[k].key, x.key);
      LessChains(after, before[k].key, x.key);
    } else {
      NothingPast(listing, prefix, n);
      assert rest[k] == x && rest[k + 1..] == [];
    }
  }

  lemma NothingPast(listing: seq<Entry>, prefix: string, n: nat)
    requires Ascending(listing) && n == |listing| - 1
    ensures Rest(listing, prefix, listing[n].key) == []
  {
    hide AtMost, StartsWith;
    forall i | 0 <= i < |listing| ensures !Less(listing[n].key, listing[i].key) {
      AtMostTotal(listing[i].key, listing[n].key);
    }
    RestNone(listing, prefix, listing[n].key);
  }

  lemma {:induction false} RestNone(listing: seq<Entry>, prefix: string, after: string)
    requires forall i :: 0 <= i < |listing| ==> !Less(after, listing[i].key)
    ensures Rest(listing, prefix, after) == []
  {
    if listing != [] {
      RestNone(listing[..|listing| - 1], prefix, after);
    }
  }

  /** Follow the cursor to the end of one listing. */
  method Follow(listing: seq<Entry>, prefix: Option<string>, limit: nat) returns (rows: seq<Entry>)
    requires Ascending(listing)
    ensures var under := Rest(listing, PrefixOf(prefix), PrefixOf(prefix));
      && rows == (if BoundedLimit(limit) < MAX_READ_LIMIT then under else Truncated(under, MAX_READ_LIMIT))
      && (rows == under <==> BoundedLimit(limit) < MAX_READ_LIMIT || |under| <= MAX_READ_LIMIT)
  {
    hide AtMost, StartsWith, Rest, Less, Ascending, PageOf, Leading, Above;
    var p := PrefixOf(prefix);
    ghost var under := Rest(listing, p, p);
    ghost var rest := under;
    AtMostSelf(p);
    rows := [];
    var cursor: Option<string> := None;
    var more := true;
    while more
      invariant more ==> rows + rest == under && rest == Rest(listing, p, Start(prefix, cursor)) && AtMost(p, Start(prefix, cursor))
      invariant more && BoundedLimit(limit) == MAX_READ_LIMIT ==> rows == []
      invariant !more ==> rows == if BoundedLimit(limit) < MAX_READ_LIMIT then under else Truncated(under, MAX_READ_LIMIT)
      decreases more, |rest|
    {
      var page := ProjectionPage(listing, prefix, cursor, limit);
      LeadingIsRest(listing, p, Start(prefix, cursor));
      PageContinues(listing, p, Start(prefix, cursor), limit);
      if page.next.Some? {
        rest := rest[|page.rows|..];
        assert rows + page.rows + rest == under;
      } else {
        assert BoundedLimit(limit) < MAX_READ_LIMIT ==> rows + page.rows == under;
        assert BoundedLimit(limit) == MAX_READ_LIMIT ==> rows + page.rows == page.rows;
      }
      rows := rows + page.rows;
      cursor, more := page.next, page.next.Some?;
    }
  }

  /** A page with a cursor is full, and its cursor continues with exactly the rows after it. One
      without is the rest, or the first thousand of it. */
  lemma PageContinues(listing: seq<Entry>, prefix: string, after: string, limit: nat)
    requires Ascending(listing)
    ensures var rest := Rest(listing, prefix, after);
      var page := PageOf(rest, limit);
      if page.next.Some? then
        && 0 < |page.rows| <= |rest| && rest == page.rows + rest[|page.rows|..] && BoundedLimit(limit) < MAX_READ_LIMIT
        && Rest(listing, prefix, page.next.value) == rest[|page.rows|..] && AtMost(prefix, page.next.value)
      else page.rows == if BoundedLimit(limit) < MAX_READ_LIMIT then rest else Truncated(rest, MAX_READ_LIMIT)
  {
    hide AtMost, StartsWith, Rest, Less, Ascending;
    var rest, n := Rest(listing, prefix, after), BoundedLimit(limit);
    if |rest| > n && n < MAX_READ_LIMIT {
      RestRest(listing, prefix, after, n - 1);
      RestMembers(listing, prefix, after);
      assert rest[n - 1] in rest;
      PrefixAtMost(prefix, rest[n - 1].key);
    }
  }

  /** Keys of one character, two, three and so on. */
  function Many(n: nat): (rows: seq<Entry>)
    ensures |rows| == n && forall i :: 0 <= i < n ==> rows[i].key == seq(i + 1, _ => 'k')
  {
    seq(n, i requires 0 <= i < n => Entry(seq(i + 1, _ => 'k'), ""))
  }

  lemma {:induction false} LongerIsLater(a: nat, b: nat)
    requires a < b
    ensures Less(seq(a, _ => 'k'), seq(b, _ => 'k'))
  {
    var s, t := seq(a, _ => 'k'), seq(b, _ => 'k');
    if a > 0 {
      LongerIsLater(a - 1, b - 1);
      assert s[1..] == seq(a - 1, _ => 'k') && t[1..] == seq(b - 1, _ => 'k');
    }
  }

  lemma ManyAscending(n: nat)
    ensures Ascending(Many(n))
  {
    hide Less, Many;
    forall i, j | 0 <= i < j < n ensures Less(Many(n)[i].key, Many(n)[j].key) {
      LongerIsLater(i + 1, j + 1);
    }
  }

  lemma {:induction false} ManyRest(n: nat)
    ensures Rest(Many(n), "", "") == Many(n)
  {
    hide Less, Many;
    if n > 0 {
      ManyRest(n - 1);
      ManyPrefix(n);
      LongerIsLater(0, n);
      assert seq(0, _ => 'k') == "";
    }
  }

  lemma ManyPrefix(n: nat)
    requires n > 0
    ensures Many(n)[..n - 1] == Many(n - 1) && Many(n) == Many(n - 1) + [Many(n)[n - 1]]
  {
  }

  /** The look-ahead row is clamped away at the largest limit: of a thousand and one rows, the page of
      a thousand says that nothing follows. */
  lemma LargestLimitLosesRow()
    ensures var page := PageOf(Leading(Above(Many(MAX_READ_LIMIT + 1), ""), ""), MAX_READ_LIMIT);
      |page.rows| == MAX_READ_LIMIT && page.next.None?
    ensures |Rest(Many(MAX_READ_LIMIT + 1), "", "")| == MAX_READ_LIMIT + 1
  {
    hide Rest, Above, Leading, Many;
    ManyRest(MAX_READ_LIMIT + 1);
    ManyAscending(MAX_READ_LIMIT + 1);
    LeadingIsRest(Many(MAX_READ_LIMIT + 1), "", "");
  }
}
