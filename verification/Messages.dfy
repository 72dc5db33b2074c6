/**
 Message tables: keyset pagination while the table changes, and read markers
 that follow the same order.

 A scope is a channel or a thread; both keep their messages the same way.
 */
module Messages {
  import opened Base

  // ----------------------------------------------------------------- order

  // The sort key (created_at, id).
  datatype Key = Key(at: int, id: Id)

  // Row comparison: (a.at, a.id) < (b.at, b.id).
  predicate Below(a: Key, b: Key) {
    a.at < b.at || (a.at == b.at && a.id < b.id)
  }

  predicate IsGreatest(m: Key, ks: set<Key>) {
    m in ks && forall k :: k in ks && k != m ==> Below(k, m)
  }

  lemma GreatestExists(ks: set<Key>)
    requires ks != {}
    ensures exists m :: IsGreatest(m, ks)
  {
    var x :| x in ks;
    if ks == {x} {
      assert IsGreatest(x, ks);
    } else {
      GreatestExists(ks - {x});
      var y :| IsGreatest(y, ks - {x});
      var z := if Below(x, y) then y else x;
      assert forall k :: k in ks ==> k == x || k in ks - {x};
      assert IsGreatest(z, ks);
    }
  }

  ghost predicate Descends(s: seq<Key>) {
    forall i, j :: 0 <= i < j < |s| ==> Below(s[j], s[i])
  }

  // ORDER BY created_at DESC, id DESC.
  function Descending(ks: set<Key>): seq<Key> {
    if ks == {} then []
    else
      GreatestExists(ks);
      var m :| IsGreatest(m, ks);
      [m] + Descending(ks - {m})
  }

  lemma DescendingStep(ks: set<Key>) returns (m: Key)
    requires ks != {}
    ensures IsGreatest(m, ks) && Descending(ks) == [m] + Descending(ks - {m})
  {
    GreatestExists(ks);
    m :| IsGreatest(m, ks);
  }

  lemma {:induction false} DescendingSorts(ks: set<Key>)
    ensures var s := Descending(ks); Descends(s) && |s| == |ks| && forall k :: k in s <==> k in ks
  {
    if ks == {} {
    } else {
      var m := DescendingStep(ks);
      DescendingSorts(ks - {m});
      assert |ks - {m}| == |ks| - 1;
    }
  }

  lemma NonEmptyHasElement(s: seq<Key>)
    ensures s != [] ==> exists k :: k in s
  {
    if s != [] {
      assert s[0] in s;
    }
  }

  // A descending sequence is determined by its elements.
  lemma {:induction false} DescendsUnique(a: seq<Key>, b: seq<Key>)
    requires Descends(a) && Descends(b) && forall k :: k in a <==> k in b
    ensures a == b
  {
    NonEmptyHasElement(a);
    NonEmptyHasElement(b);
    if a == [] {
    } else {
      assert a[0] in b && b[0] in a;
      assert a[0] == b[0];
      assert forall k :: k in a[1..] <==> k in a && k != a[0];
      assert forall k :: k in b[1..] <==> k in b && k != b[0];
      DescendsUnique(a[1..], b[1..]);
    }
  }

  // ----------------------------------------------------------------- table

  datatype Message = Message(
    scope: Id, author: Id, content: string, createdAt: int, editedAt: Option<int>, deletedAt: Option<int>)

  type Table = map<Id, Message>

  predicate Live(t: Table, scope: Id, id: Id) {
    id in t && t[id].scope == scope && t[id].deletedAt.None?
  }

  function KeyOf(t: Table, id: Id): Key
    requires id in t
  {
    Key(t[id].createdAt, id)
  }

  // The live messages of a scope, below an anchor if there is one.
  function Visible(t: Table, scope: Id, anchor: Option<Key>): (ks: set<Key>)
    ensures forall k :: k in ks <==>
              Live(t, scope, k.id) && k == KeyOf(t, k.id) && (anchor.Some? ==> Below(k, anchor.value))
  {
    set id | id in t && Live(t, scope, id) && (anchor.None? || Below(KeyOf(t, id), anchor.value)) :: KeyOf(t, id)
  }

  datatype ListError = InvalidCursor | LimitNotPositive

  // The anchor row may be deleted, but it must be a row of the scope.
  function FindAnchor(t: Table, scope: Id, before: Option<Id>): Result<Option<Key>, ListError> {
    if before.None? then Ok(None)
    else if before.value in t && t[before.value].scope == scope then Ok(Some(KeyOf(t, before.value)))
    else Err(InvalidCursor)
  }

  const DEFAULT_PAGE_LIMIT := 50
  const MAX_PAGE_LIMIT := 100

  type Limit = n: int | n > 0 witness 1

  function NormalizeLimit(limit: Option<int>): Result<Limit, ListError> {
    var l := if limit.Some? then limit.value else DEFAULT_PAGE_LIMIT;
    if l <= 0 then Err(LimitNotPositive)
    else if l > MAX_PAGE_LIMIT then Ok(MAX_PAGE_LIMIT)
    else Ok(l)
  }

  // -------------------------------------------------------------- one page

  datatype Page = Page(keys: seq<Key>, next: Option<Id>)

  // The page that starts a listing: all of it, or `limit` keys and a cursor.
  function FirstPageOf(all: seq<Key>, limit: Limit): Page {
    if |all| <= limit then Page(all, None) else Page(all[..limit], Some(all[limit - 1].id))
  }

  // A page in terms of the whole descending listing below the cursor.
  function PageOf(t: Table, scope: Id, before: Option<Id>, limit: Limit): Result<Page, ListError> {
    var anchor := FindAnchor(t, scope, before);
    if anchor.Err? then Err(anchor.error)
    else Ok(FirstPageOf(Descending(Visible(t, scope, anchor.value)), limit))
  }

  // What a page promises: the greatest visible keys in order, and a cursor at
  // the last of them exactly when something visible lies below it.
  ghost predicate TopOf(page: Page, t: Table, scope: Id, ks: set<Key>, limit: Limit) {
    && Descends(page.keys)
    && (forall k :: k in page.keys ==> k in ks)
    && (page.next.None? ==> |ks| <= limit && forall k :: k in ks ==> k in page.keys)
    && (page.next.Some? ==>
          && |page.keys| == limit && Live(t, scope, page.next.value)
          && KeyOf(t, page.next.value) == page.keys[limit - 1]
          && (forall k :: k in ks ==> k in page.keys || Below(k, page.keys[limit - 1]))
          && exists k :: k in ks && k !in page.keys)
  }

  lemma PrefixIsTop(all: seq<Key>, n: nat)
    requires Descends(all) && 0 < n < |all|
    ensures Descends(all[..n]) && all[n] !in all[..n]
    ensures forall k :: k in all ==> k in all[..n] || Below(k, all[n - 1])
  {
    forall k | k in all
      ensures k in all[..n] || Below(k, all[n - 1])
    {
      var i :| 0 <= i < |all| && all[i] == k;
      assert i < n ==> all[..n][i] == k;
    }
  }

  lemma PageIsTop(t: Table, scope: Id, before: Option<Id>, limit: Limit)
    requires FindAnchor(t, scope, before).Ok?
    ensures var ks := Visible(t, scope, FindAnchor(t, scope, before).value);
            TopOf(PageOf(t, scope, before, limit).value, t, scope, ks, limit)
  {
    var ks := Visible(t, scope, FindAnchor(t, scope, before).value);
    var all := Descending(ks);
    DescendingSorts(ks);
    if |all| > limit {
      PrefixIsTop(all, limit);
      assert all[limit - 1] in ks && all[limit] in ks;
    }
  }

  // --------------------------------------------------------- table changes

  datatype Change =
    | Create(id: Id, message: Message)
    | Edit(id: Id, content: string, now: int)
    | SoftDelete(id: Id, now: int)

  // Ids are generated; edits and deletes only touch rows not yet deleted.
  function Changed(t: Table, c: Change): Table {
    match c
    case Create(id, m) => if id in t then t else t[id := m]
    case Edit(id, content, now) =>
      if id in t && t[id].deletedAt.None? then t[id := t[id].(content := content, editedAt := Some(now))] else t
    case SoftDelete(id, now) =>
      if id in t && t[id].deletedAt.None? then t[id := t[id].(deletedAt := Some(now))] else t
  }

  function ChangedBy(t: Table, cs: seq<Change>): Table
    decreases |cs|
  {
    if cs == [] then t else ChangedBy(Changed(t, cs[0]), cs[1..])
  }

  // Rows stay, keep scope and key, and never come back from deletion.
  ghost predicate Evolves(t: Table, u: Table) {
    forall id :: id in t ==>
      && id in u && u[id].scope == t[id].scope && u[id].createdAt == t[id].createdAt && u[id].author == t[id].author
      && (t[id].deletedAt.Some? ==> u[id].deletedAt == t[id].deletedAt)
  }

  lemma {:induction false} ChangesEvolve(t: Table, cs: seq<Change>)
    ensures Evolves(t, ChangedBy(t, cs))
    decreases |cs|
  {
    if cs == [] {
    } else {
      assert Evolves(t, Changed(t, cs[0]));
      ChangesEvolve(Changed(t, cs[0]), cs[1..]);
    }
  }

  // ------------------------------------------------------------------ walk

  // One visit of a walk: the changes made since the last one, and the limit.
  datatype Visit = Visit(changes: seq<Change>, limit: Limit)

  datatype Walked = Walked(keys: seq<Key>, pages: nat, finished: bool)

  // A client follows next_cursor, one page per visit, until there is none.
  function Walk(t: Table, scope: Id, before: Option<Id>, visits: seq<Visit>): Walked
    decreases |visits|
  {
    if visits == [] then Walked([], 0, false)
    else
      var u := ChangedBy(t, visits[0].changes);
      var page := PageOf(u, scope, before, visits[0].limit);
      if page.Err? then Walked([], 0, false)
      else if page.value.next.None? then Walked(page.value.keys, 1, true)
      else
        var rest := Walk(u, scope, page.value.next, visits[1..]);
        Walked(page.value.keys + rest.keys, 1 + rest.pages, rest.finished)
  }

  // The table as it is when page n of the walk is read.
  function TableAt(t: Table, visits: seq<Visit>, n: nat): Table
    requires n < |visits|
    decreases n
  {
    var u := ChangedBy(t, visits[0].changes);
    if n == 0 then u else TableAt(u, visits[1..], n - 1)
  }

  ghost predicate ValidCursor(t: Table, scope: Id, before: Option<Id>) {
    before.Some? ==> before.value in t && t[before.value].scope == scope
  }

  lemma CursorStaysValid(t: Table, cs: seq<Change>, scope: Id, before: Option<Id>)
    requires ValidCursor(t, scope, before)
    ensures var u := ChangedBy(t, cs);
            && ValidCursor(u, scope, before)
            && FindAnchor(u, scope, before) == FindAnchor(t, scope, before)
  {
    ChangesEvolve(t, cs);
  }

  // Pages below one another stay in order when joined.
  lemma DescendsConcat(a: seq<Key>, b: seq<Key>)
    requires Descends(a) && Descends(b)
    requires a != [] && forall k :: k in b ==> Below(k, a[|a| - 1])
    ensures Descends(a + b)
  {
    forall i, j | 0 <= i < j < |a + b|
      ensures Below((a + b)[j], (a + b)[i])
    {
      if i < |a| <= j {
        assert b[j - |a|] in b;
      }
    }
  }

  // The first page of a walk, read from the table as changed so far.
  lemma FirstPage(t: Table, scope: Id, before: Option<Id>, visit: Visit) returns (u: Table, page: Page)
    requires ValidCursor(t, scope, before)
    ensures u == ChangedBy(t, visit.changes)
    ensures FindAnchor(u, scope, before) == FindAnchor(t, scope, before) && FindAnchor(t, scope, before).Ok?
    ensures PageOf(u, scope, before, visit.limit) == Ok(page)
    ensures TopOf(page, u, scope, Visible(u, scope, FindAnchor(u, scope, before).value), visit.limit)
    ensures page.next.Some? ==>
              && ValidCursor(u, scope, page.next)
              && FindAnchor(u, scope, page.next).value == Some(KeyOf(u, page.next.value))
  {
    u := ChangedBy(t, visit.changes);
    CursorStaysValid(t, visit.changes, scope, before);
    PageIsTop(u, scope, before, visit.limit);
    page := PageOf(u, scope, before, visit.limit).value;
  }

  // IN ORDER, NO REPEATS. Whatever changes between pages and whatever the
  // limits, the cursor never becomes invalid and the joined pages descend
  // strictly below the first cursor.
  lemma {:induction false} WalkDescends(t: Table, scope: Id, before: Option<Id>, visits: seq<Visit>)
    requires ValidCursor(t, scope, before)
    ensures var w := Walk(t, scope, before, visits);
            && Descends(w.keys)
            && (before.Some? ==> forall k :: k in w.keys ==> Below(k, KeyOf(t, before.value)))
            && w.pages <= |visits| && (!w.finished ==> w.pages == |visits|)
    decreases |visits|
  {
    if visits == [] {
    } else {
      var u, page := FirstPage(t, scope, before, visits[0]);
      if page.next.Some? {
        WalkDescends(u, scope, page.next, visits[1..]);
        DescendsConcat(page.keys, Walk(u, scope, page.next, visits[1..]).keys);
      }
    }
  }

  // NOTHING MISSED. Once there is no next cursor, every message that was live
  // at each page read is in some page.
  lemma {:induction false} WalkMissesNothing(t: Table, scope: Id, before: Option<Id>, visits: seq<Visit>, k: Key)
    requires ValidCursor(t, scope, before) && Walk(t, scope, before, visits).finished
    requires Walk(t, scope, before, visits).pages <= |visits|
    requires forall n :: 0 <= n < Walk(t, scope, before, visits).pages ==>
               k in Visible(TableAt(t, visits, n), scope, FindAnchor(t, scope, before).value)
    ensures k in Walk(t, scope, before, visits).keys
    decreases |visits|
  {
    var u, page := FirstPage(t, scope, before, visits[0]);
    assert k in Visible(TableAt(t, visits, 0), scope, FindAnchor(t, scope, before).value);
    if k !in page.keys {
      var rest := Walk(u, scope, page.next, visits[1..]);
      forall n | 0 <= n < rest.pages
        ensures k in Visible(TableAt(u, visits[1..], n), scope, FindAnchor(u, scope, page.next).value)
      {
        assert TableAt(t, visits, n + 1) == TableAt(u, visits[1..], n);
      }
      WalkMissesNothing(u, scope, page.next, visits[1..], k);
    }
  }

  lemma {:induction false} WalkInventsNothing(t: Table, scope: Id, before: Option<Id>, visits: seq<Visit>, k: Key)
    requires ValidCursor(t, scope, before) && Walk(t, scope, before, visits).pages <= |visits|
    requires k in Walk(t, scope, before, visits).keys
    ensures exists n ::
              0 <= n < Walk(t, scope, before, visits).pages && k in Visible(TableAt(t, visits, n), scope, None)
    decreases |visits|
  {
    var u, page := FirstPage(t, scope, before, visits[0]);
    if k in page.keys {
      assert k in Visible(TableAt(t, visits, 0), scope, None);
    } else {
      WalkInventsNothing(u, scope, page.next, visits[1..], k);
      var rest := Walk(u, scope, page.next, visits[1..]);
      var n :| 0 <= n < rest.pages && k in Visible(TableAt(u, visits[1..], n), scope, None);
      assert TableAt(t, visits, n + 1) == TableAt(u, visits[1..], n);
    }
  }

  // EXACTLY ONCE, and nothing that was not live at some page read.
  lemma WalkExactlyOnce(t: Table, scope: Id, before: Option<Id>, visits: seq<Visit>, k: Key)
    requires ValidCursor(t, scope, before) && Walk(t, scope, before, visits).finished
    ensures var w := Walk(t, scope, before, visits);
            var anchor := FindAnchor(t, scope, before).value;
            && w.pages <= |visits|
            && ((forall n :: 0 <= n < w.pages ==> k in Visible(TableAt(t, visits, n), scope, anchor)) ==>
                  exists i :: 0 <= i < |w.keys| && w.keys[i] == k &&
                    forall j :: 0 <= j < |w.keys| && w.keys[j] == k ==> j == i)
            && (k in w.keys ==> exists n :: 0 <= n < w.pages && k in Visible(TableAt(t, visits, n), scope, None))
  {
    WalkDescends(t, scope, before, visits);
    var w := Walk(t, scope, before, visits);
    if forall n :: 0 <= n < w.pages ==> k in Visible(TableAt(t, visits, n), scope, FindAnchor(t, scope, before).value) {
      WalkMissesNothing(t, scope, before, visits, k);
      var i :| 0 <= i < |w.keys| && w.keys[i] == k;
      assert forall j :: 0 <= j < |w.keys| && w.keys[j] == k ==> j == i;
    }
    if k in w.keys {
      WalkInventsNothing(t, scope, before, visits, k);
    }
  }

  // ---------------------------------------------------------------- deletes

  lemma {:induction false} ChangedByConcat(t: Table, a: seq<Change>, b: seq<Change>)
    ensures ChangedBy(t, a + b) == ChangedBy(ChangedBy(t, a), b)
    decreases |a|
  {
    if a == [] {
      assert a + b == b;
    } else {
      assert (a + b)[1..] == a[1..] + b;
      ChangedByConcat(Changed(t, a[0]), a[1..], b);
    }
  }

  ghost predicate Deleted(t: Table, id: Id) {
    id in t && t[id].deletedAt != None
  }

  // A soft delete deletes a row that is there, whatever came before it and
  // whatever follows.
  lemma DeleteDeletes(t: Table, earlier: seq<Change>, id: Id, now: int, later: seq<Change>)
    requires id in ChangedBy(t, earlier)
    ensures Deleted(ChangedBy(t, earlier + [SoftDelete(id, now)] + later), id)
  {
    var u := ChangedBy(t, earlier);
    var one := [SoftDelete(id, now)];
    var v := Changed(u, one[0]);
    assert one[1..] == [] && ChangedBy(v, []) == v;
    ChangedByConcat(t, earlier, one);
    ChangedByConcat(t, earlier + one, later);
    ChangesEvolve(v, later);
  }

  lemma {:induction false} DeletedNeverListed(t: Table, scope: Id, before: Option<Id>, visits: seq<Visit>, id: Id)
    requires ValidCursor(t, scope, before) && Deleted(t, id)
    ensures forall k :: k in Walk(t, scope, before, visits).keys ==> k.id != id
    decreases |visits|
  {
    if visits == [] {
    } else {
      var u, page := FirstPage(t, scope, before, visits[0]);
      ChangesEvolve(t, visits[0].changes);
      if page.next.Some? {
        DeletedNeverListed(u, scope, page.next, visits[1..], id);
      }
    }
  }

  // GONE. A message that is soft-deleted before a page is read is in no page
  // of the walk from there on, whatever changes follow.
  lemma DeletedBeforePageIsGone(
    t: Table, scope: Id, before: Option<Id>, visits: seq<Visit>,
    earlier: seq<Change>, id: Id, now: int, later: seq<Change>)
    requires ValidCursor(t, scope, before) && visits != []
    requires visits[0].changes == earlier + [SoftDelete(id, now)] + later && id in ChangedBy(t, earlier)
    ensures forall k :: k in Walk(t, scope, before, visits).keys ==> k.id != id
  {
    DeleteDeletes(t, earlier, id, now, later);
    var u, page := FirstPage(t, scope, before, visits[0]);
    if page.next.Some? {
      DeletedNeverListed(u, scope, page.next, visits[1..], id);
    }
  }

  // ---------------------------------------------------------- static paging

  lemma SuffixIsBelow(all: seq<Key>, n: nat)
    requires Descends(all) && 0 < n < |all|
    ensures forall k :: k in all[n..] <==> k in all && Below(k, all[n - 1])
  {
    forall k
      ensures k in all && Below(k, all[n - 1]) ==> k in all[n..]
    {
      if k in all && Below(k, all[n - 1]) {
        var i :| 0 <= i < |all| && all[i] == k;
        assert i >= n && all[n..][i - n] == k;
      }
    }
  }

  lemma VisibleBelow(t: Table, scope: Id, anchor: Option<Key>, last: Key)
    requires last in Visible(t, scope, anchor)
    ensures forall k :: k in Visible(t, scope, Some(last)) <==> k in Visible(t, scope, anchor) && Below(k, last)
  {
  }

  // Below the n-th key of a listing lies the rest of the listing.
  lemma RestOfListing(t: Table, scope: Id, anchor: Option<Key>, n: nat)
    requires 0 < n < |Descending(Visible(t, scope, anchor))|
    ensures var all := Descending(Visible(t, scope, anchor));
            Descending(Visible(t, scope, Some(all[n - 1]))) == all[n..]
  {
    var all := Descending(Visible(t, scope, anchor));
    DescendingSorts(Visible(t, scope, anchor));
    DescendingSorts(Visible(t, scope, Some(all[n - 1])));
    SuffixIsBelow(all, n);
    VisibleBelow(t, scope, anchor, all[n - 1]);
    DescendsUnique(all[n..], Descending(Visible(t, scope, Some(all[n - 1]))));
  }

  function PagesNeeded(live: nat, limit: Limit): nat {
    if live <= limit then 1 else 1 + PagesNeeded(live - limit, limit)
  }

  lemma DivIs(x: int, d: int, q: int, r: int)
    requires d > 0 && 0 <= r < d && x == d * q + r
    ensures x / d == q
  {
    var e := x / d - q;
    assert d * (x / d) + x % d == x;
    assert d * e == r - x % d;
    assert e >= 1 ==> d * e >= d;
    assert e <= -1 ==> d * e <= -d;
  }

  lemma DivPlusOne(a: nat, d: int)
    requires d > 0
    ensures (a + d) / d == a / d + 1
  {
    var q, r := a / d, a % d;
    assert a + d == d * (q + 1) + r;
    DivIs(a + d, d, q + 1, r);
  }

  // The number of pages is max(1, ceil(live / limit)).
  lemma {:induction false} PagesNeededIsCeiling(live: nat, limit: Limit)
    ensures PagesNeeded(live, limit) == if live == 0 then 1 else (live + limit - 1) / limit
  {
    if 0 < live <= limit {
      DivIs(live + limit - 1, limit, 1, live - 1);
    } else if live > limit {
      PagesNeededIsCeiling(live - limit, limit);
      DivPlusOne(live - 1, limit);
    }
  }

  function Listing(t: Table, scope: Id, before: Option<Id>): seq<Key>
    requires ValidCursor(t, scope, before)
  {
    Descending(Visible(t, scope, FindAnchor(t, scope, before).value))
  }

  // The page of an unchanged listing, and what is left for the next one.
  lemma StaticPage(t: Table, scope: Id, before: Option<Id>, limit: Limit)
    requires ValidCursor(t, scope, before)
    ensures var all := Listing(t, scope, before);
            && PageOf(t, scope, before, limit) == Ok(FirstPageOf(all, limit))
            && (|all| > limit ==>
                  var next := Some(all[limit - 1].id);
                  ValidCursor(t, scope, next) && Listing(t, scope, next) == all[limit..])
  {
    var anchor := FindAnchor(t, scope, before).value;
    var all := Listing(t, scope, before);
    if |all| > limit {
      DescendingSorts(Visible(t, scope, anchor));
      assert all[limit - 1] in Visible(t, scope, anchor);
      RestOfListing(t, scope, anchor, limit);
    }
  }

  // On a scope nobody changes, following the cursors ends after the pages its
  // live messages need, which joined are the whole listing.
  lemma {:induction false} StaticPaging(
    t: Table, scope: Id, before: Option<Id>, limit: Limit, visits: seq<Visit>, all: seq<Key>)
    requires ValidCursor(t, scope, before) && all == Listing(t, scope, before)
    requires forall i :: 0 <= i < |visits| ==> visits[i] == Visit([], limit)
    requires |visits| >= PagesNeeded(|all|, limit)
    ensures Walk(t, scope, before, visits) == Walked(all, PagesNeeded(|all|, limit), true)
    decreases |visits|
  {
    StaticPage(t, scope, before, limit);
    assert ChangedBy(t, visits[0].changes) == t;
    if |all| > limit {
      StaticPaging(t, scope, Some(all[limit - 1].id), limit, visits[1..], all[limit..]);
      assert all[..limit] + all[limit..] == all;
    }
  }

  // ----------------------------------------------------------------- unread

  // Whether the listings show a scope as unread for a marker. A marker whose
  // row is gone counts as minus infinity.
  predicate HasUnread(t: Table, scope: Id, marker: Option<Id>) {
    exists id :: id in t && Live(t, scope, id) &&
      (marker.None? || marker.value !in t || Below(KeyOf(t, marker.value), KeyOf(t, id)))
  }

  lemma FirstIsGreatest(t: Table, scope: Id)
    ensures var all := Descending(Visible(t, scope, None));
            && (all == [] <==> forall id :: !Live(t, scope, id))
            && (all != [] ==>
                  && Live(t, scope, all[0].id) && KeyOf(t, all[0].id) == all[0]
                  && forall k :: k in all ==> k == all[0] || Below(k, all[0]))
  {
    var ks := Visible(t, scope, None);
    DescendingSorts(ks);
    NonEmptyHasElement(Descending(ks));
    if id :| Live(t, scope, id) {
      assert KeyOf(t, id) in ks;
    }
    if Descending(ks) != [] {
      assert Descending(ks)[0] in ks;
    }
  }

  // Unread is what the newest message of the first page says.
  lemma UnreadAgreesWithListing(t: Table, scope: Id, marker: Option<Id>, limit: Limit)
    ensures var page := PageOf(t, scope, None, limit).value;
            HasUnread(t, scope, marker) <==>
              page.keys != [] && (marker.None? || marker.value !in t || Below(KeyOf(t, marker.value), page.keys[0]))
  {
    var all := Descending(Visible(t, scope, None));
    DescendingSorts(Visible(t, scope, None));
    assert all != [] ==> PageOf(t, scope, None, limit).value.keys[0] == all[0];
    FirstIsGreatest(t, scope);
    if HasUnread(t, scope, marker) {
      var id :| id in t && Live(t, scope, id) &&
        (marker.None? || marker.value !in t || Below(KeyOf(t, marker.value), KeyOf(t, id)));
      assert KeyOf(t, id) in all;
    }
  }

  datatype MarkError = NothingToMark | InvalidMessage

  // The message a mark request resolves to: the newest live one by default.
  function ResolveMarker(t: Table, scope: Id, requested: Option<Id>): Result<Id, MarkError> {
    if requested.Some? then
      if Live(t, scope, requested.value) then Ok(requested.value) else Err(InvalidMessage)
    else
      var all := Descending(Visible(t, scope, None));
      if all == [] then Err(NothingToMark) else Ok(all[0].id)
  }

  // Marking without naming a message succeeds exactly on a scope with a live
  // message, and leaves nothing unread.
  lemma MarkingNewestClears(t: Table, scope: Id)
    ensures var r := ResolveMarker(t, scope, None);
            && (r.Ok? <==> exists id :: Live(t, scope, id))
            && (r.Ok? ==> Live(t, scope, r.value) && !HasUnread(t, scope, Some(r.value)))
  {
    FirstIsGreatest(t, scope);
    var r := ResolveMarker(t, scope, None);
    if r.Ok? {
      UnreadAgreesWithListing(t, scope, Some(r.value), 1);
    }
  }

  // A scope that was read stays read whatever is edited or deleted, the
  // marker's own message included, until a message with a greater key arrives.
  lemma StaysReadUntilNewer(t: Table, scope: Id, marker: Id, cs: seq<Change>)
    requires marker in t && !HasUnread(t, scope, Some(marker))
    ensures var u := ChangedBy(t, cs);
            && marker in u
            && (HasUnread(u, scope, Some(marker)) <==>
                  exists id :: id in u && id !in t && Live(u, scope, id) && Below(KeyOf(t, marker), KeyOf(u, id)))
  {
    var u := ChangedBy(t, cs);
    ChangesEvolve(t, cs);
    assert KeyOf(u, marker) == KeyOf(t, marker);
    assert forall id :: id in t && Live(u, scope, id) ==> Live(t, scope, id) && KeyOf(t, id) == KeyOf(u, id);
  }

  // Resolving a marker and storing it are two statements. The marker resolved
  // from t clears a scope that has changed by the time it is stored, exactly
  // unless a live message with a greater key was created in between.
  lemma LateMarkerClears(t: Table, scope: Id, cs: seq<Change>)
    requires ResolveMarker(t, scope, None).Ok?
    ensures var marker := ResolveMarker(t, scope, None).value;
            var u := ChangedBy(t, cs);
            && marker in t
            && (HasUnread(u, scope, Some(marker)) <==>
                  exists id :: id in u && id !in t && Live(u, scope, id) && Below(KeyOf(t, marker), KeyOf(u, id)))
  {
    MarkingNewestClears(t, scope);
    StaysReadUntilNewer(t, scope, ResolveMarker(t, scope, None).value, cs);
  }

  // ---------------------------------------------------------- message store

  datatype Row = Row(id: Id, message: Message)

  datatype MessagePage = MessagePage(rows: seq<Row>, nextCursor: Option<Id>)

  function RowsOf(t: Table, ks: seq<Key>): seq<Row>
    requires forall k :: k in ks ==> k.id in t
  {
    seq(|ks|, i requires 0 <= i < |ks| => Row(ks[i].id, t[ks[i].id]))
  }

  // LIMIT n.
  function FirstOf(ks: seq<Key>, n: nat): seq<Key> {
    if |ks| <= n then ks else ks[..n]
  }

  // The page that truncating limit + 1 fetched rows to limit rows makes.
  function Truncated(rows: seq<Row>, limit: Limit): MessagePage {
    if |rows| > limit then MessagePage(rows[..limit], Some(rows[limit - 1].id)) else MessagePage(rows, None)
  }

  lemma TruncatedIsFirstPage(t: Table, all: seq<Key>, limit: Limit)
    requires forall k :: k in all ==> k.id in t
    ensures var page := FirstPageOf(all, limit);
            && (forall k :: k in page.keys ==> k.id in t)
            && Truncated(RowsOf(t, FirstOf(all, limit + 1)), limit) == MessagePage(RowsOf(t, page.keys), page.next)
  {
    if |all| > limit {
      var rows := RowsOf(t, FirstOf(all, limit + 1));
      assert FirstOf(all, limit + 1)[..limit] == all[..limit];
      assert rows[..limit] == RowsOf(t, all[..limit]);
    }
  }

  // ------------------------------------------------------- in terms of rows

  // Row a was created before row b, or at the same time with a smaller id.
  ghost predicate Older(t: Table, a: Id, b: Id)
    requires a in t && b in t
  {
    t[a].createdAt < t[b].createdAt || (t[a].createdAt == t[b].createdAt && a < b)
  }

  // A row of the scope that is not deleted and older than the cursor's.
  ghost predicate Eligible(t: Table, scope: Id, before: Option<Id>, id: Id) {
    && id in t && t[id].scope == scope && t[id].deletedAt == None
    && (before.Some? ==> before.value in t && Older(t, id, before.value))
  }

  // The n newest eligible rows as the table holds them, newest first.
  ghost predicate Newest(t: Table, scope: Id, before: Option<Id>, rows: seq<Row>, n: nat) {
    && |rows| <= n
    && (forall i :: 0 <= i < |rows| ==> Eligible(t, scope, before, rows[i].id) && rows[i].message == t[rows[i].id])
    && (forall i, j :: 0 <= i < j < |rows| ==> Older(t, rows[j].id, rows[i].id))
    && (forall id :: Eligible(t, scope, before, id) ==>
          || (exists i :: 0 <= i < |rows| && rows[i].id == id)
          || (|rows| == n && forall i :: 0 <= i < |rows| ==> Older(t, id, rows[i].id)))
  }

  lemma VisibleIsEligible(t: Table, scope: Id, before: Option<Id>, id: Id)
    requires FindAnchor(t, scope, before).Ok?
    ensures Eligible(t, scope, before, id) <==>
              id in t && KeyOf(t, id) in Visible(t, scope, FindAnchor(t, scope, before).value)
  {
  }

  // A descending sequence of the keys of exactly the eligible rows.
  ghost predicate ListsEligible(t: Table, scope: Id, before: Option<Id>, all: seq<Key>) {
    && Descends(all)
    && (forall k :: k in all ==> Eligible(t, scope, before, k.id) && k == KeyOf(t, k.id))
    && (forall id :: Eligible(t, scope, before, id) ==> KeyOf(t, id) in all)
  }

  lemma ListingIsEligible(t: Table, scope: Id, before: Option<Id>)
    requires FindAnchor(t, scope, before).Ok?
    ensures ListsEligible(t, scope, before, Descending(Visible(t, scope, FindAnchor(t, scope, before).value)))
  {
    var ks := Visible(t, scope, FindAnchor(t, scope, before).value);
    DescendingSorts(ks);
    forall id
      ensures Eligible(t, scope, before, id) <==> id in t && KeyOf(t, id) in ks
    {
      VisibleIsEligible(t, scope, before, id);
    }
  }

  // An eligible row is among the first n of the listing, or older than they.
  lemma FirstOrOlder(t: Table, scope: Id, before: Option<Id>, all: seq<Key>, n: nat, id: Id)
    requires ListsEligible(t, scope, before, all) && Eligible(t, scope, before, id)
    ensures forall k :: k in FirstOf(all, n) ==> k in all
    ensures var rows := RowsOf(t, FirstOf(all, n));
            || (exists i :: 0 <= i < |rows| && rows[i].id == id)
            || (|rows| == n && forall i :: 0 <= i < |rows| ==> Older(t, id, rows[i].id))
  {
    var rows := RowsOf(t, FirstOf(all, n));
    var j :| 0 <= j < |all| && all[j] == KeyOf(t, id);
    if j < |rows| {
      assert rows[j].id == id;
    } else {
      forall i | 0 <= i < |rows|
        ensures Older(t, id, rows[i].id)
      {
        assert all[i] in all && Below(all[j], all[i]);
      }
    }
  }

  lemma FirstAreNewest(t: Table, scope: Id, before: Option<Id>, all: seq<Key>, n: nat)
    requires ListsEligible(t, scope, before, all)
    ensures forall k :: k in FirstOf(all, n) ==> k.id in t
    ensures Newest(t, scope, before, RowsOf(t, FirstOf(all, n)), n)
  {
    var rows := RowsOf(t, FirstOf(all, n));
    forall i | 0 <= i < |rows|
      ensures Eligible(t, scope, before, rows[i].id) && KeyOf(t, rows[i].id) == all[i]
    {
      assert all[i] in all;
    }
    forall i, j | 0 <= i < j < |rows|
      ensures Older(t, rows[j].id, rows[i].id)
    {
      assert Below(all[j], all[i]);
    }
    forall id | Eligible(t, scope, before, id)
      ensures || (exists i :: 0 <= i < |rows| && rows[i].id == id)
              || (|rows| == n && forall i :: 0 <= i < |rows| ==> Older(t, id, rows[i].id))
    {
      FirstOrOlder(t, scope, before, all, n, id);
    }
  }

  ghost predicate Missing(t: Table, scope: Id, before: Option<Id>, rows: seq<Row>, id: Id) {
    Eligible(t, scope, before, id) && forall i :: 0 <= i < |rows| ==> rows[i].id != id
  }

  // Some eligible row is not among the first n exactly when there are more.
  lemma MoreThanFirst(t: Table, scope: Id, before: Option<Id>, all: seq<Key>, n: nat)
    requires ListsEligible(t, scope, before, all)
    ensures forall k :: k in FirstOf(all, n) ==> k.id in t
    ensures |all| > n <==> exists id :: Missing(t, scope, before, RowsOf(t, FirstOf(all, n)), id)
  {
    var rows := RowsOf(t, FirstOf(all, n));
    if |all| > n {
      forall i | 0 <= i < |rows|
        ensures rows[i].id != all[n].id
      {
        assert all[i] in all && all[n] in all && Below(all[n], all[i]);
      }
      assert all[n] in all;
      assert Missing(t, scope, before, rows, all[n].id);
    } else {
      forall id | Eligible(t, scope, before, id)
        ensures !Missing(t, scope, before, rows, id)
      {
        var j :| 0 <= j < |all| && all[j] == KeyOf(t, id);
        assert rows[j].id == id;
      }
    }
  }

  // The rows and the cursor of a page: the cursor names the last row, and is
  // there exactly when some eligible row is not on the page.
  lemma PageIsNewest(t: Table, scope: Id, before: Option<Id>, limit: Limit)
    requires FindAnchor(t, scope, before).Ok?
    ensures var page := PageOf(t, scope, before, limit).value;
            && (forall k :: k in page.keys ==> k.id in t)
            && var rows := RowsOf(t, page.keys);
            && Newest(t, scope, before, rows, limit)
            && (page.next.Some? <==> exists id :: Missing(t, scope, before, rows, id))
            && (page.next.Some? ==> |rows| == limit && page.next.value == rows[limit - 1].id)
  {
    var all := Descending(Visible(t, scope, FindAnchor(t, scope, before).value));
    ListingIsEligible(t, scope, before);
    FirstAreNewest(t, scope, before, all, limit);
    MoreThanFirst(t, scope, before, all, limit);
    assert FirstPageOf(all, limit).keys == FirstOf(all, limit);
  }

  lemma NewestIsMarked(t: Table, scope: Id)
    ensures var r := ResolveMarker(t, scope, None);
            && (r == Err(NothingToMark) <==> forall id :: !Eligible(t, scope, None, id))
            && (r.Err? ==> r == Err(NothingToMark))
            && (r.Ok? ==>
                  && Eligible(t, scope, None, r.value)
                  && forall id :: Eligible(t, scope, None, id) ==> id == r.value || Older(t, id, r.value))
  {
    var ks := Visible(t, scope, None);
    FirstIsGreatest(t, scope);
    DescendingSorts(ks);
    assert forall id :: Eligible(t, scope, None, id) <==> Live(t, scope, id);
    assert forall id :: Live(t, scope, id) ==> KeyOf(t, id) in ks;
  }

  // Unread, in terms of rows: some live row is newer than the marker's.
  lemma UnreadMeans(t: Table, scope: Id, marker: Option<Id>)
    ensures HasUnread(t, scope, marker) <==>
              exists id ::
                Eligible(t, scope, None, id) && (marker.None? || marker.value !in t || Older(t, marker.value, id))
  {
    if HasUnread(t, scope, marker) {
      var id :| id in t && Live(t, scope, id) &&
        (marker.None? || marker.value !in t || Below(KeyOf(t, marker.value), KeyOf(t, id)));
      assert Eligible(t, scope, None, id);
    }
    if id :| Eligible(t, scope, None, id) && (marker.None? || marker.value !in t || Older(t, marker.value, id)) {
      assert Live(t, scope, id);
    }
  }

  class MessageStore {
    var messages: Table
    // (user, scope) to last_read_message_id
    var readMarkers: map<(Id, Id), Option<Id>>

    constructor ()
      ensures messages == map[] && readMarkers == map[]
    {
      messages, readMarkers := map[], map[];
    }

    method CreateMessage(id: Id, scope: Id, author: Id, content: string, now: int) returns (row: Row)
      requires id !in messages
      modifies this`messages
      ensures row == Row(id, Message(scope, author, content, now, None, None))
      ensures messages == old(messages)[id := Message(scope, author, content, now, None, None)]
      ensures messages == Changed(old(messages), Create(id, row.message)) && Live(messages, scope, id)
      ensures Evolves(old(messages), messages)
    {
      var message := Message(scope, author, content, now, None, None);
      messages := messages[id := message];
      return Row(id, message);
    }

    method UpdateMessageContent(id: Id, content: string, now: int) returns (row: Option<Row>)
      modifies this`messages
      ensures row.Some? <==> id in old(messages) && old(messages[id]).deletedAt.None?
      ensures messages == Changed(old(messages), Edit(id, content, now)) && Evolves(old(messages), messages)
      ensures messages ==
              if row.None? then old(messages)
              else old(messages)[id := old(messages[id]).(content := content, editedAt := Some(now))]
      ensures row.Some? ==> id in messages && row.value == Row(id, messages[id])
    {
      if id !in messages || messages[id].deletedAt.Some? {
        return None;
      }
      messages := messages[id := messages[id].(content := content, editedAt := Some(now))];
      return Some(Row(id, messages[id]));
    }

    method SoftDeleteMessage(id: Id, now: int) returns (row: Option<Row>)
      modifies this`messages
      ensures row.Some? <==> id in old(messages) && old(messages[id]).deletedAt.None?
      ensures messages == Changed(old(messages), SoftDelete(id, now)) && Evolves(old(messages), messages)
      ensures messages ==
              if row.None? then old(messages) else old(messages)[id := old(messages[id]).(deletedAt := Some(now))]
      ensures forall scope :: !Live(messages, scope, id)
      ensures row.Some? ==> id in messages && row.value == Row(id, messages[id])
    {
      if id !in messages || messages[id].deletedAt.Some? {
        return None;
      }
      messages := messages[id := messages[id].(deletedAt := Some(now))];
      return Some(Row(id, messages[id]));
    }

    // The repository query: rows below the cursor, newest first, at most n.
    method FetchRows(scope: Id, before: Option<Id>, n: nat) returns (r: Result<seq<Row>, ListError>)
      ensures FindAnchor(messages, scope, before).Err? ==> r == Err(FindAnchor(messages, scope, before).error)
      ensures FindAnchor(messages, scope, before).Ok? ==>
                var all := Descending(Visible(messages, scope, FindAnchor(messages, scope, before).value));
                && (forall k :: k in all ==> k.id in messages)
                && r == Ok(RowsOf(messages, FirstOf(all, n)))
      ensures r.Err? <==> before.Some? && !(before.value in messages && messages[before.value].scope == scope)
      ensures r.Ok? ==> Newest(messages, scope, before, r.value, n)
    {
      var anchor := FindAnchor(messages, scope, before);
      if anchor.Err? {
        return Err(anchor.error);
      }
      ListingIsEligible(messages, scope, before);
      FirstAreNewest(messages, scope, before, Descending(Visible(messages, scope, anchor.value)), n);
      return Ok(RowsOf(messages, FirstOf(Descending(Visible(messages, scope, anchor.value)), n)));
    }

    // One row more than the page is fetched to learn whether there is a next.
    method ListPage(scope: Id, before: Option<Id>, limit: Limit) returns (r: Result<MessagePage, ListError>)
      ensures var page := PageOf(messages, scope, before, limit);
              && (page.Err? ==> r == Err(page.error))
              && (page.Ok? ==>
                    && (forall k :: k in page.value.keys ==> k.id in messages)
                    && r == Ok(MessagePage(RowsOf(messages, page.value.keys), page.value.next)))
    {
      var fetched := FetchRows(scope, before, limit + 1);
      if fetched.Err? {
        return Err(fetched.error);
      }
      ghost var anchor := FindAnchor(messages, scope, before).value;
      TruncatedIsFirstPage(messages, Descending(Visible(messages, scope, anchor)), limit);
      var rows := fetched.value;
      var hasMore := |rows| > limit;
      if hasMore {
        rows := rows[..limit];
      }
      var nextCursor := if hasMore then Some(rows[|rows| - 1].id) else None;
      return Ok(MessagePage(rows, nextCursor));
    }

    method ListMessages(scope: Id, before: Option<Id>, requested: Option<int>)
      returns (r: Result<MessagePage, ListError>)
      ensures NormalizeLimit(requested).Err? ==> r == Err(NormalizeLimit(requested).error)
      ensures NormalizeLimit(requested).Ok? ==>
                var page := PageOf(messages, scope, before, NormalizeLimit(requested).value);
                && (page.Err? ==> r == Err(page.error))
                && (page.Ok? ==>
                      && (forall k :: k in page.value.keys ==> k.id in messages)
                      && r == Ok(MessagePage(RowsOf(messages, page.value.keys), page.value.next)))
      ensures r == Err(LimitNotPositive) <==> requested.Some? && requested.value <= 0
      ensures r == Err(InvalidCursor) <==>
                && !(requested.Some? && requested.value <= 0)
                && before.Some? && !(before.value in messages && messages[before.value].scope == scope)
      ensures r.Ok? ==>
                var size := if requested.None? then 50 else if requested.value > 100 then 100 else requested.value;
                var rows, next := r.value.rows, r.value.nextCursor;
                && size > 0 && Newest(messages, scope, before, rows, size)
                && (next.Some? <==> exists id :: Missing(messages, scope, before, rows, id))
                && (next.Some? ==> |rows| == size && next.value == rows[size - 1].id)
    {
      var limit := NormalizeLimit(requested);
      if limit.Err? {
        return Err(limit.error);
      }
      r := ListPage(scope, before, limit.value);
      if r.Ok? {
        PageIsNewest(messages, scope, before, limit.value);
      }
    }

    // Whether a listing shows the scope as unread to the user.
    predicate Unread(user: Id, scope: Id): (unread: bool)
      reads this
      ensures var seen := (user, scope) in readMarkers && readMarkers[(user, scope)].Some?;
              unread <==>
                exists id :: Eligible(messages, scope, None, id) && (
                  seen && readMarkers[(user, scope)].value in messages ==>
                    Older(messages, readMarkers[(user, scope)].value, id))
    {
      var marker := if (user, scope) in readMarkers then readMarkers[(user, scope)] else None;
      UnreadMeans(messages, scope, marker);
      HasUnread(messages, scope, marker)
    }

    method MarkRead(user: Id, scope: Id, requested: Option<Id>) returns (r: Result<Id, MarkError>)
      modifies this`readMarkers
      ensures r == ResolveMarker(messages, scope, requested)
      ensures readMarkers == if r.Ok? then old(readMarkers)[(user, scope) := Some(r.value)] else old(readMarkers)
      ensures r.Ok? && requested.None? ==> !Unread(user, scope)
      ensures requested.Some? ==>
                r == if Eligible(messages, scope, None, requested.value)
                     then Ok(requested.value) else Err(InvalidMessage)
      ensures requested.None? ==>
                && (r == Err(NothingToMark) <==> forall id :: !Eligible(messages, scope, None, id))
                && (r.Ok? ==>
                      && Eligible(messages, scope, None, r.value)
                      && forall id :: Eligible(messages, scope, None, id) ==>
                           id == r.value || Older(messages, id, r.value))
                && (r.Err? ==> r == Err(NothingToMark))
    {
      NewestIsMarked(messages, scope);
      r := ResolveMarker(messages, scope, requested);
      if r.Ok? {
        readMarkers := readMarkers[(user, scope) := Some(r.value)];
        MarkingNewestClears(messages, scope);
      }
    }
  }
}
