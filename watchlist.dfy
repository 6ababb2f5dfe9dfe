/** The `watchlist_items` table: adding an entry for the logged-in user and listing
    that user's entries. The table has no unique constraint on (user, media type,
    item id); uniqueness rests on the check that `add_to_watchlist` makes before it
    inserts, and WellFormed states it. */
module Watchlist {
  import opened Basics
  import opened Accounts

  /** A row of `watchlist_items`. `mediaType` is whatever the form sent ("movie",
      "tv" or "anime" from the application's own pages); `posterUrl` is "" when the
      form had none. */
  datatype Item = Item(id: nat, userId: nat, mediaType: string, itemId: int, title: string, posterUrl: string)

  datatype AddOutcome = NotLoggedIn | AlreadyInWatchlist | Added

  /** What `my_watchlist` answers: a redirect to the login page, or the user's rows. */
  datatype Listing = LoginFirst | Listed(items: seq<Item>)

  /** The row is the entry (userId, mediaType, itemId). */
  predicate SameEntry(it: Item, userId: nat, mediaType: string, itemId: int) {
    it.userId == userId && it.mediaType == mediaType && it.itemId == itemId
  }

  /** No two rows record the same entry. */
  ghost predicate NoDuplicateEntries(items: seq<Item>) {
    forall i, j :: 0 <= i < j < |items| ==> !SameEntry(items[j], items[i].userId, items[i].mediaType, items[i].itemId)
  }

  /** The table as the application builds it: row i has primary key i + 1 and no
      entry is recorded twice. */
  ghost predicate WellFormed(items: seq<Item>) {
    && (forall i :: 0 <= i < |items| ==> items[i].id == i + 1)
    && NoDuplicateEntries(items)
  }

  /** The rows appear in increasing order of id. */
  ghost predicate IdsIncrease(s: seq<Item>) {
    forall i, j :: 0 <= i < j < |s| ==> s[i].id < s[j].id
  }

  /** The first row recording this entry, if any. */
  function FindEntry(items: seq<Item>, userId: nat, mediaType: string, itemId: int): Option<nat> {
    FirstIndex(items, (it: Item) => SameEntry(it, userId, mediaType, itemId))
  }

  /** The `add_to_watchlist` route: the table afterwards and the answer. Without a
      logged-in user nothing happens; an entry already present is not added again;
      otherwise one row owned by the session's user is appended. */
  function Add(items: seq<Item>, session: Option<SessionUser>, mediaType: string, itemId: int,
               title: string, posterUrl: string): (r: (seq<Item>, AddOutcome))
    ensures r.1 == NotLoggedIn <==> session.None?
    ensures r.1 == AlreadyInWatchlist <==>
      session.Some? && exists i :: 0 <= i < |items| && SameEntry(items[i], session.value.userId, mediaType, itemId)
    ensures r.1 != Added ==> r.0 == items
    ensures r.1 == Added ==>
      r.0 == items + [Item(|items| + 1, session.value.userId, mediaType, itemId, title, posterUrl)]
  {
    match session
    case None => (items, NotLoggedIn)
    case Some(who) =>
      match FindEntry(items, who.userId, mediaType, itemId)
      case Some(_) => (items, AlreadyInWatchlist)
      case None => (items + [Item(|items| + 1, who.userId, mediaType, itemId, title, posterUrl)], Added)
  }

  /** The rows owned by `userId`, in table order (the `filter_by(user_id=...)` query). */
  function ItemsOf(items: seq<Item>, userId: nat): (r: seq<Item>)
    ensures forall x :: x in r <==> x in items && x.userId == userId
    ensures |r| <= |items|
  {
    if items == [] then []
    else
      var last := items[|items| - 1];
      var prefix := items[..|items| - 1];
      assert items == prefix + [last];
      ItemsOf(prefix, userId) + (if last.userId == userId then [last] else [])
  }

  /** The `my_watchlist` route. */
  function MyWatchlist(items: seq<Item>, session: Option<SessionUser>): (r: Listing)
    ensures r.LoginFirst? <==> session.None?
    ensures r.Listed? ==> forall x :: x in r.items <==> x in items && x.userId == session.value.userId
  {
    match session
    case None => LoginFirst
    case Some(who) => Listed(ItemsOf(items, who.userId))
  }

  /** add_to_watchlist keeps the table well formed, whatever the session and form. */
  lemma {:induction false} AddPreservesWellFormed(items: seq<Item>, session: Option<SessionUser>, mediaType: string,
                               itemId: int, title: string, posterUrl: string)
    requires WellFormed(items)
    ensures WellFormed(Add(items, session, mediaType, itemId, title, posterUrl).0)
  {
    var r := Add(items, session, mediaType, itemId, title, posterUrl);
    if r.1 == Added {
      var n := |items|;
      forall i, j | 0 <= i < j < |r.0|
        ensures !SameEntry(r.0[j], r.0[i].userId, r.0[i].mediaType, r.0[i].itemId)
      {
        if j == n {
          assert r.0[i] == items[i];
          assert !SameEntry(items[i], session.value.userId, mediaType, itemId);
        }
      }
    }
  }

  /** Adding the same entry twice in a row: the second call adds nothing. */
  lemma {:induction false} AddTwiceIsRefused(items: seq<Item>, session: Option<SessionUser>, mediaType: string, itemId: int,
                          title: string, posterUrl: string, title': string, posterUrl': string)
    requires Add(items, session, mediaType, itemId, title, posterUrl).1 == Added
    ensures var after := Add(items, session, mediaType, itemId, title, posterUrl).0;
      Add(after, session, mediaType, itemId, title', posterUrl') == (after, AlreadyInWatchlist)
  {
    var after := Add(items, session, mediaType, itemId, title, posterUrl).0;
    assert SameEntry(after[|items|], session.value.userId, mediaType, itemId);
  }

  /** Filtering a table with one more row at the end. */
  lemma {:induction false} ItemsOfAppend(items: seq<Item>, x: Item, userId: nat)
    ensures ItemsOf(items + [x], userId) == ItemsOf(items, userId) + (if x.userId == userId then [x] else [])
  {
    assert (items + [x])[..|items|] == items;
  }

  /** The filter distributes over concatenation: listing a table made of two parts is
      listing the first part, then the second. */
  lemma {:induction false} ItemsOfConcat(a: seq<Item>, b: seq<Item>, userId: nat)
    ensures ItemsOf(a + b, userId) == ItemsOf(a, userId) + ItemsOf(b, userId)
    decreases |b|
  {
    if b == [] {
      assert a + b == a;
    } else {
      var front, x := b[..|b| - 1], b[|b| - 1];
      var tail := if x.userId == userId then [x] else [];
      assert b == front + [x];
      assert a + b == (a + front) + [x];
      calc {
        ItemsOf(a + b, userId);
        { ItemsOfAppend(a + front, x, userId); }
        ItemsOf(a + front, userId) + tail;
        { ItemsOfConcat(a, front, userId); }
        (ItemsOf(a, userId) + ItemsOf(front, userId)) + tail;
        ItemsOf(a, userId) + (ItemsOf(front, userId) + tail);
        { ItemsOfAppend(front, x, userId); }
        ItemsOf(a, userId) + ItemsOf(b, userId);
      }
    }
  }

  /** After a successful add, the user's listing holds the new entry exactly once: it is
      the last row of the listing and no earlier row of the listing records it. */
  lemma {:induction false} AddedOnceInListing(items: seq<Item>, who: SessionUser, mediaType: string, itemId: int,
                           title: string, posterUrl: string)
    requires Add(items, Some(who), mediaType, itemId, title, posterUrl).1 == Added
    ensures var after := Add(items, Some(who), mediaType, itemId, title, posterUrl).0;
      var before, listed := ItemsOf(items, who.userId), ItemsOf(after, who.userId);
      && listed == before + [Item(|items| + 1, who.userId, mediaType, itemId, title, posterUrl)]
      && forall k :: 0 <= k < |before| ==> !SameEntry(before[k], who.userId, mediaType, itemId)
  {
    var x := Item(|items| + 1, who.userId, mediaType, itemId, title, posterUrl);
    ItemsOfAppend(items, x, who.userId);
    var before := ItemsOf(items, who.userId);
    forall k | 0 <= k < |before| ensures !SameEntry(before[k], who.userId, mediaType, itemId) {
      assert before[k] in items;
    }
  }

  /** Adding for one user leaves every other user's listing as it was. */
  lemma {:induction false} AddLeavesOthersAlone(items: seq<Item>, who: SessionUser, mediaType: string, itemId: int,
                             title: string, posterUrl: string, other: nat)
    requires other != who.userId
    ensures var after := Add(items, Some(who), mediaType, itemId, title, posterUrl).0;
      ItemsOf(after, other) == ItemsOf(items, other)
  {
    var x := Item(|items| + 1, who.userId, mediaType, itemId, title, posterUrl);
    ItemsOfAppend(items, x, other);
  }

  /** The listing keeps table order: in a well-formed table, the ids of a user's rows
      increase along the listing. */
  lemma {:induction false} ItemsOfInTableOrder(items: seq<Item>, userId: nat)
    requires forall i :: 0 <= i < |items| ==> items[i].id == i + 1
    ensures IdsIncrease(ItemsOf(items, userId))
  {
    if items != [] {
      var last := items[|items| - 1];
      var prefix := items[..|items| - 1];
      ItemsOfInTableOrder(prefix, userId);
      var p := ItemsOf(prefix, userId);
      forall k | 0 <= k < |p| ensures p[k].id < last.id {
        assert p[k] in prefix;
        var m :| 0 <= m < |prefix| && prefix[m] == p[k];
      }
      var r := ItemsOf(items, userId);
      assert r == p + (if last.userId == userId then [last] else []);
      forall i, j | 0 <= i < j < |r| ensures r[i].id < r[j].id {
        if j < |p| {
          assert r[i] == p[i] && r[j] == p[j];
        } else {
          assert r[i] == p[i] && r[j] == last && p[i].id < last.id;
        }
      }
    }
  }
}
