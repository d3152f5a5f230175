/** Cursor pagination of the chat history against one ordered listing. */
module Pagination {
  import opened Results
  import opened Rows
  import opened Tables

  /** SQLite's BINARY order on TEXT, by code point. */
  predicate TextLess(a: string, b: string) {
    if b == [] then false
    else if a == [] then true
    else a[0] < b[0] || (a[0] == b[0] && TextLess(a[1..], b[1..]))
  }

  lemma {:induction false} TextLessTransitive(a: string, b: string, c: string)
    requires TextLess(a, b) && TextLess(b, c)
    ensures TextLess(a, c)
  {
    if a != [] && a[0] == b[0] && b[0] == c[0] {
      TextLessTransitive(a[1..], b[1..], c[1..]);
    }
  }

  lemma {:induction false} TextLessIrreflexive(a: string)
    ensures !TextLess(a, a)
  {
    if a != [] {
      TextLessIrreflexive(a[1..]);
    }
  }

  lemma {:induction false} TextLessTotal(a: string, b: string)
    requires a != b
    ensures TextLess(a, b) || TextLess(b, a)
  {
    if a != [] && b != [] && a[0] == b[0] {
      assert a == [a[0]] + a[1..] && b == [b[0]] + b[1..];
      TextLessTotal(a[1..], b[1..]);
    }
  }

  /** ORDER BY updated_at DESC, id DESC */
  predicate Newer(a: Chat, b: Chat) {
    a.updatedAt > b.updatedAt || (a.updatedAt == b.updatedAt && TextLess(b.id, a.id))
  }

  lemma NewerIsOrder()
    ensures StrictOrder(Newer)
  {
    forall a: Chat ensures !Newer(a, a) {
      TextLessIrreflexive(a.id);
    }
    forall a: Chat, b: Chat, c: Chat | Newer(a, b) && Newer(b, c) ensures Newer(a, c) {
      if a.updatedAt == b.updatedAt == c.updatedAt {
        TextLessTransitive(c.id, b.id, a.id);
      }
    }
  }

  lemma NewerSeparates(chats: seq<Chat>)
    requires ChatKeys(chats)
    ensures Separates(Newer, chats)
  {
    forall i, j | 0 <= i < j < |chats| ensures Newer(chats[i], chats[j]) || Newer(chats[j], chats[i]) {
      TextLessTotal(chats[i].id, chats[j].id);
    }
  }

  function After(c: Chat): Chat -> bool {
    (x: Chat) => Newer(c, x)
  }

  /** list_chats: `matches` stands for the search text and the message requirement.  An empty
      cursor, and a cursor whose chat is gone, are ignored. */
  function ListChats(chats: seq<Chat>, limit: int, cursor: Option<string>, matches: Chat -> bool): seq<Chat> {
    var rows := Filter(matches, chats);
    var rest := if cursor.Some? && cursor.value != "" && HasChat(chats, cursor.value)
                then Filter(After(ChatNamed(chats, cursor.value)), rows) else rows;
    Limit(Sort(Newer, rest), limit)
  }

  datatype Page = Page(rows: seq<Chat>, hasNext: bool, endCursor: Option<string>)

  /** list_threads: one row of lookahead decides whether there is a next page. */
  function ListThreads(chats: seq<Chat>, first: int, cursor: Option<string>, matches: Chat -> bool): Page {
    var limit := Max(1, first);
    var found := ListChats(chats, limit + 1, cursor, matches);
    var rows := Limit(found, limit);
    Page(rows, |found| > limit, if rows == [] then None else Some(rows[|rows| - 1].id))
  }

  /** What remains to be listed after the cursor row. */
  function Remaining(chats: seq<Chat>, after: Option<Chat>, matches: Chat -> bool): seq<Chat> {
    var rows := Filter(matches, chats);
    Sort(Newer, if after.Some? then Filter(After(after.value), rows) else rows)
  }

  /** The cursor names a row that is still in the table as it was. */
  ghost predicate CursorRow(chats: seq<Chat>, cursor: Option<string>, row: Option<Chat>) {
    match row
    case None => cursor == None
    case Some(c) => c in chats && cursor == Some(c.id) && c.id != ""
  }

  lemma {:induction false} NamedRow(chats: seq<Chat>, c: Chat)
    requires ChatKeys(chats) && c in chats
    ensures HasChat(chats, c.id) && ChatNamed(chats, c.id) == c
  {
    if chats[0] != c {
      assert chats == [chats[0]] + chats[1..];
      var i :| 0 <= i < |chats[1..]| && chats[1..][i] == c;
      assert chats[i + 1] == c && chats[0].id != c.id;
      NamedRow(chats[1..], c);
    }
  }

  lemma RemainingFacts(chats: seq<Chat>, row: Option<Chat>, matches: Chat -> bool)
    requires ChatKeys(chats)
    ensures Sorted(Newer, Remaining(chats, row, matches))
    ensures forall x :: x in Remaining(chats, row, matches) <==>
              x in chats && matches(x) && (row.Some? ==> Newer(row.value, x))
  {
    NewerIsOrder();
    NewerSeparates(chats);
    FilterSeparates(Newer, matches, chats);
    if row.Some? {
      FilterSeparates(Newer, After(row.value), Filter(matches, chats));
      SortSorts(Newer, Filter(After(row.value), Filter(matches, chats)));
    } else {
      SortSorts(Newer, Filter(matches, chats));
    }
  }

  /** A page is the front of what remains, and it says so truthfully. */
  lemma PageIsFront(chats: seq<Chat>, first: int, cursor: Option<string>, row: Option<Chat>, matches: Chat -> bool)
    requires ChatKeys(chats) && CursorRow(chats, cursor, row)
    ensures var page, rest := ListThreads(chats, first, cursor, matches), Remaining(chats, row, matches);
            var limit := Max(1, first);
            && page.rows == rest[..Min(limit, |rest|)]
            && (page.hasNext <==> |rest| > limit)
            && (page.rows != [] ==> page.endCursor == Some(page.rows[|page.rows| - 1].id))
  {
    if row.Some? {
      NamedRow(chats, row.value);
    }
    hide Sort, Filter, HasChat, ChatNamed;
    assert ListChats(chats, Max(1, first) + 1, cursor, matches)
           == Limit(Remaining(chats, row, matches), Max(1, first) + 1);
  }

  /** At k the texts differ for the first time: `a` has ended, or has the smaller character. */
  predicate DifferAt(a: string, b: string, k: nat) {
    k <= |a| && k < |b| && a[..k] == b[..k] && (k == |a| || a[k] < b[k])
  }

  lemma {:induction false} TextLessIff(a: string, b: string)
    ensures TextLess(a, b) <==> exists k: nat :: DifferAt(a, b, k)
  {
    if b == [] {
    } else if a == [] {
      assert DifferAt(a, b, 0);
    } else {
      TextLessIff(a[1..], b[1..]);
      if a[0] < b[0] {
        assert DifferAt(a, b, 0);
      } else if a[0] == b[0] {
        if k: nat :| DifferAt(a[1..], b[1..], k) {
          assert a[..k + 1] == [a[0]] + a[1..][..k] && b[..k + 1] == [b[0]] + b[1..][..k];
          assert DifferAt(a, b, k + 1);
        }
      }
      forall k: nat | DifferAt(a, b, k) ensures TextLess(a, b) {
        if k > 0 {
          assert a[..k][0] == a[0] && b[..k][0] == b[0];
          assert a[1..][..k - 1] == a[..k][1..] && b[1..][..k - 1] == b[..k][1..];
          assert DifferAt(a[1..], b[1..], k - 1);
        }
      }
    }
  }

  /** Listed first: later updated, or at the same time with the greater id. */
  ghost predicate ListedBefore(a: Chat, b: Chat) {
    a.updatedAt > b.updatedAt || (a.updatedAt == b.updatedAt && exists k: nat :: DifferAt(b.id, a.id, k))
  }

  lemma NewerIff(a: Chat, b: Chat)
    ensures Newer(a, b) <==> ListedBefore(a, b)
  {
    TextLessIff(b.id, a.id);
  }

  /** A page, chat by chat: matching chats behind the cursor's chat, in order, as many as are asked for, at least one; those
      that are not on it come later, and there is a next page exactly when there are any. */
  lemma PageSays(chats: seq<Chat>, first: int, cursor: Option<string>, row: Option<Chat>, matches: Chat -> bool)
    requires ChatKeys(chats) && CursorRow(chats, cursor, row)
    ensures var page := ListThreads(chats, first, cursor, matches);
            var limit := if first >= 1 then first else 1;
            && |page.rows| <= limit
            && (forall c :: c in page.rows ==> c in chats && matches(c) && (row.Some? ==> ListedBefore(row.value, c)))
            && (forall i, j :: 0 <= i < j < |page.rows| ==> ListedBefore(page.rows[i], page.rows[j]))
            && (forall c, d :: c in chats && matches(c) && (row.Some? ==> ListedBefore(row.value, c)) && c !in page.rows && d in page.rows ==>
                  ListedBefore(d, c))
            && (page.hasNext ==> |page.rows| == limit)
            && (page.hasNext <==> exists c :: c in chats && matches(c) && (row.Some? ==> ListedBefore(row.value, c)) && c !in page.rows)
            && page.endCursor == if page.rows == [] then None else Some(page.rows[|page.rows| - 1].id)
  {
    hide ListThreads, ListedBefore, Newer, Remaining, ChatKeys;
    forall a: Chat, b: Chat ensures Newer(a, b) <==> ListedBefore(a, b) {
      NewerIff(a, b);
    }
    var page, rest := ListThreads(chats, first, cursor, matches), Remaining(chats, row, matches);
    var n := |page.rows|;
    PageIsFront(chats, first, cursor, row, matches);
    RemainingFacts(chats, row, matches);
    NewerIsOrder();
    forall c | c in rest ensures c in page.rows || (n < |rest| && c in rest[n..]) {
      var i :| 0 <= i < |rest| && rest[i] == c;
      assert i < n ==> page.rows[i] == c;
      assert i >= n ==> rest[n..][i - n] == c;
    }
    EndOf(chats, first, cursor, matches);
    if page.hasNext {
      assert rest[n] in rest;
      forall i | 0 <= i < n ensures page.rows[i] != rest[n] {
        assert Newer(rest[i], rest[n]);
      }
    }
  }

  lemma EndOf(chats: seq<Chat>, first: int, cursor: Option<string>, matches: Chat -> bool)
    ensures var page := ListThreads(chats, first, cursor, matches);
            page.endCursor == if page.rows == [] then None else Some(page.rows[|page.rows| - 1].id)
  {
    hide ListChats;
  }

  /** A client that follows endCursor while there is a next page, the store being in states[i] when
      page i is read. */
  function Walk(states: seq<seq<Chat>>, first: int, cursor: Option<string>, matches: Chat -> bool): seq<Chat>
    decreases |states|
  {
    if states == [] then []
    else
      var page := ListThreads(states[0], first, cursor, matches);
      page.rows + if page.hasNext then Walk(states[1..], first, page.endCursor, matches) else []
  }

  /** The client got to a page without a next one. */
  predicate Finishes(states: seq<seq<Chat>>, first: int, cursor: Option<string>, matches: Chat -> bool)
    decreases |states|
  {
    && states != []
    && var page := ListThreads(states[0], first, cursor, matches);
       page.hasNext ==> Finishes(states[1..], first, page.endCursor, matches)
  }

  /** Each page's last row is untouched when the next page is read. */
  ghost predicate CursorsKept(states: seq<seq<Chat>>, first: int, cursor: Option<string>, matches: Chat -> bool)
    decreases |states|
  {
    |states| > 1 ==>
      var page := ListThreads(states[0], first, cursor, matches);
      page.hasNext ==>
        && page.rows != []
        && page.rows[|page.rows| - 1] in states[1]
        && CursorsKept(states[1..], first, page.endCursor, matches)
  }

  ghost predicate GoodStates(states: seq<seq<Chat>>) {
    forall i :: 0 <= i < |states| ==> ChatKeys(states[i]) && forall c :: c in states[i] ==> c.id != ""
  }

  lemma FrontCount(rest: seq<Chat>, x: Chat, j: nat, k: nat)
    requires Sorted(Newer, rest) && j < |rest| && rest[j] == x && k <= |rest|
    ensures multiset(rest[..k])[x] == if j < k then 1 else 0
  {
    NewerIsOrder();
    forall i | 0 <= i < |rest| && i != j ensures rest[i] != x {
      if i < j {
        assert Newer(rest[i], rest[j]);
      } else {
        assert Newer(rest[j], rest[i]);
      }
    }
    if j < k {
      var front := rest[..k];
      assert front == front[..j] + [x] + front[j + 1..];
      assert x !in front[..j] && x !in front[j + 1..];
    } else {
      assert x !in rest[..k];
    }
  }

  /** One page against the row x: either x is on it, once, and behind the next cursor, or x is still ahead. */
  lemma PageStep(chats: seq<Chat>, first: int, cursor: Option<string>, row: Option<Chat>, matches: Chat -> bool, x: Chat)
    requires ChatKeys(chats) && CursorRow(chats, cursor, row)
    requires x in chats && matches(x)
    ensures var page := ListThreads(chats, first, cursor, matches);
            var ahead := row.Some? ==> Newer(row.value, x);
            && multiset(page.rows)[x] <= 1
            && (!ahead ==> multiset(page.rows)[x] == 0)
            && (ahead && !page.hasNext ==> multiset(page.rows)[x] == 1)
            && (page.hasNext ==>
                  && page.rows != []
                  && var last := page.rows[|page.rows| - 1];
                     && page.endCursor == Some(last.id)
                     && (row.Some? ==> Newer(row.value, last))
                     && (ahead ==> (multiset(page.rows)[x] == 0 <==> Newer(last, x)))
                     && (Newer(last, x) ==> ahead))
  {
    hide ListThreads, Remaining, ChatKeys;
    var page, rest, limit := ListThreads(chats, first, cursor, matches), Remaining(chats, row, matches), Max(1, first);
    var k := Min(limit, |rest|);
    PageIsFront(chats, first, cursor, row, matches);
    RemainingFacts(chats, row, matches);
    NewerIsOrder();
    if x in rest {
      var j :| 0 <= j < |rest| && rest[j] == x;
      FrontCount(rest, x, j, k);
      if page.hasNext {
        assert rest[k - 1] in rest;
        assert j < k - 1 ==> Newer(x, rest[k - 1]);
        assert k - 1 < j ==> Newer(rest[k - 1], x);
      }
    } else {
      assert x !in rest[..k];
      if page.hasNext {
        assert rest[k - 1] in rest;
      }
    }
  }

  /** However other chats move between pages, a matching chat that nobody touches is listed exactly
      once, as long as the cursor rows are not touched either. */
  lemma {:induction false} UntouchedSeenOnce(states: seq<seq<Chat>>, first: int, cursor: Option<string>,
                                             row: Option<Chat>, matches: Chat -> bool, x: Chat)
    requires GoodStates(states) && Finishes(states, first, cursor, matches)
    requires CursorRow(states[0], cursor, row) && CursorsKept(states, first, cursor, matches)
    requires matches(x) && forall i :: 0 <= i < |states| ==> x in states[i]
    ensures multiset(Walk(states, first, cursor, matches))[x]
            == if row.Some? && !Newer(row.value, x) then 0 else 1
    decreases |states|
  {
    hide ListThreads, ChatKeys;
    var page := ListThreads(states[0], first, cursor, matches);
    PageStep(states[0], first, cursor, row, matches, x);
    if page.hasNext {
      var last := page.rows[|page.rows| - 1];
      assert Finishes(states[1..], first, page.endCursor, matches);
      assert last in states[1..][0];
      NewerIsOrder();
      UntouchedSeenOnce(states[1..], first, page.endCursor, Some(last), matches, x);
    }
  }

  function Repeat(chats: seq<Chat>, n: nat): (r: seq<seq<Chat>>)
    ensures |r| == n
  {
    if n == 0 then [] else [chats] + Repeat(chats, n - 1)
  }

  /** What remains after the last row of a front is the rest. */
  lemma RemainingAfter(chats: seq<Chat>, row: Option<Chat>, matches: Chat -> bool, k: nat)
    requires ChatKeys(chats) && 0 < k <= |Remaining(chats, row, matches)|
    ensures var rest := Remaining(chats, row, matches);
            Remaining(chats, Some(rest[k - 1]), matches) == rest[k..]
  {
    hide Remaining, ChatKeys;
    var rest := Remaining(chats, row, matches);
    var next := Remaining(chats, Some(rest[k - 1]), matches);
    RemainingFacts(chats, row, matches);
    RemainingFacts(chats, Some(rest[k - 1]), matches);
    NewerIsOrder();
    var last := rest[k - 1];
    assert last in rest;
    forall x ensures x in next <==> x in rest[k..] {
      if x in next {
        assert x in rest;
        var j :| 0 <= j < |rest| && rest[j] == x;
        assert j < k - 1 ==> Newer(x, last);
        assert rest[k..][j - k] == x;
      }
      if x in rest[k..] {
        var j :| k <= j < |rest| && rest[j] == x;
        assert Newer(rest[k - 1], rest[j]);
        assert x in rest;
      }
    }
    SortedUnique(Newer, next, rest[k..]);
  }

  /** On a store that does not change, the pages put together are the ordered listing, and the walk
      ends within as many pages as the listing needs. */
  lemma {:induction false} WalkIsListing(chats: seq<Chat>, n: nat, first: int, cursor: Option<string>,
                                         row: Option<Chat>, matches: Chat -> bool)
    requires ChatKeys(chats) && CursorRow(chats, cursor, row)
    requires forall c :: c in chats ==> c.id != ""
    requires n > 0 && n * Max(1, first) >= |Remaining(chats, row, matches)|
    ensures Finishes(Repeat(chats, n), first, cursor, matches)
    ensures Walk(Repeat(chats, n), first, cursor, matches) == Remaining(chats, row, matches)
    decreases n
  {
    hide ListThreads, Remaining, ChatKeys, HasChat, ChatNamed, Newer;
    var page, rest, limit := ListThreads(chats, first, cursor, matches), Remaining(chats, row, matches), Max(1, first);
    PageIsFront(chats, first, cursor, row, matches);
    assert Repeat(chats, n)[1..] == Repeat(chats, n - 1);
    if page.hasNext {
      var last := rest[limit - 1];
      RemainingFacts(chats, row, matches);
      assert last in rest;
      RemainingAfter(chats, row, matches, limit);
      OnePageLess(n, limit, |rest|);
      WalkIsListing(chats, n - 1, first, page.endCursor, Some(last), matches);
      assert rest == rest[..limit] + rest[limit..];
    } else {
      assert rest[..Min(limit, |rest|)] == rest;
    }
  }

  lemma OnePageLess(n: nat, limit: nat, left: nat)
    requires n * limit >= left > limit
    ensures n > 1 && (n - 1) * limit >= left - limit
  {
    assert n <= 1 ==> n * limit <= limit;
  }

  // ---------------------------------------------------------------- cursors that move

  /** When the chat a cursor names has been deleted, the cursor is ignored and the listing restarts. */
  lemma LostCursorRestarts(chats: seq<Chat>, first: int, lost: string, matches: Chat -> bool)
    requires !HasChat(chats, lost)
    ensures ListThreads(chats, first, Some(lost), matches) == ListThreads(chats, first, None, matches)
  {
    assert ListChats(chats, Max(1, first) + 1, Some(lost), matches) == ListChats(chats, Max(1, first) + 1, None, matches);
  }

  /** An empty cursor is no cursor, even if some chat has the empty id. */
  lemma EmptyCursorStarts(chats: seq<Chat>, first: int, matches: Chat -> bool)
    ensures ListThreads(chats, first, Some(""), matches) == ListThreads(chats, first, None, matches)
  {
    assert ListChats(chats, Max(1, first) + 1, Some(""), matches) == ListChats(chats, Max(1, first) + 1, None, matches);
  }

  /** The row x has not been passed: the cursor's chat is gone, or is now listed before x. */
  ghost predicate Ahead(chats: seq<Chat>, cursor: Option<string>, x: Chat) {
    cursor.Some? && HasChat(chats, cursor.value) ==> Newer(ChatNamed(chats, cursor.value), x)
  }

  /** Between two pages the cursor's chat may be deleted, renamed, ended or touched, which only makes it newer. */
  ghost predicate CursorsRise(states: seq<seq<Chat>>, first: int, cursor: Option<string>, matches: Chat -> bool)
    decreases |states|
  {
    |states| > 1 ==>
      var page := ListThreads(states[0], first, cursor, matches);
      page.hasNext && page.rows != [] ==>
        && Rises(states[1], page.rows[|page.rows| - 1])
        && CursorsRise(states[1..], first, page.endCursor, matches)
  }

  ghost predicate Rises(chats: seq<Chat>, last: Chat) {
    HasChat(chats, last.id) ==> ChatNamed(chats, last.id).updatedAt >= last.updatedAt
  }

  lemma {:induction false} NamedIsIn(chats: seq<Chat>, id: string)
    requires HasChat(chats, id)
    ensures ChatNamed(chats, id) in chats && ChatNamed(chats, id).id == id
  {
    if chats[0].id != id {
      assert chats == [chats[0]] + chats[1..];
      NamedIsIn(chats[1..], id);
    }
  }

  lemma StillAhead(chats: seq<Chat>, last: Chat, x: Chat)
    requires Rises(chats, last) && Newer(last, x)
    ensures Ahead(chats, Some(last.id), x)
  {
    hide HasChat, ChatNamed, TextLess;
    if HasChat(chats, last.id) {
      NamedIsIn(chats, last.id);
    }
  }

  /** A page whose cursor may be stale: a row ahead of it is on the page, or is ahead of the page's last row. */
  lemma StalePageStep(chats: seq<Chat>, first: int, cursor: Option<string>, matches: Chat -> bool, x: Chat)
    requires ChatKeys(chats) && Ahead(chats, cursor, x) && x in chats && matches(x)
    requires cursor != Some("") && forall c :: c in chats ==> c.id != ""
    ensures var page := ListThreads(chats, first, cursor, matches);
            x in page.rows || (page.hasNext && page.rows != [] && page.endCursor == Some(page.rows[|page.rows| - 1].id)
                               && page.endCursor != Some("") && Newer(page.rows[|page.rows| - 1], x))
  {
    hide ListThreads, ChatKeys, Newer, HasChat, ChatNamed;
    if cursor.Some? && !HasChat(chats, cursor.value) {
      LostCursorRestarts(chats, first, cursor.value, matches);
      PageStep(chats, first, None, None, matches, x);
      PageRowsAreChats(chats, first, None, None, matches);
    } else if cursor.Some? {
      NamedIsIn(chats, cursor.value);
      PageStep(chats, first, cursor, Some(ChatNamed(chats, cursor.value)), matches, x);
      PageRowsAreChats(chats, first, cursor, Some(ChatNamed(chats, cursor.value)), matches);
    } else {
      PageStep(chats, first, cursor, None, matches, x);
      PageRowsAreChats(chats, first, cursor, None, matches);
    }
  }

  lemma PageRowsAreChats(chats: seq<Chat>, first: int, cursor: Option<string>, row: Option<Chat>, matches: Chat -> bool)
    requires ChatKeys(chats) && CursorRow(chats, cursor, row)
    ensures forall c :: c in ListThreads(chats, first, cursor, matches).rows ==> c in chats
  {
    hide ListThreads, ChatKeys, Remaining, Newer;
    PageIsFront(chats, first, cursor, row, matches);
    RemainingFacts(chats, row, matches);
  }

  /** Whatever happens to the other chats, and even when the chats the cursors name are touched or deleted between
      pages, a matching chat that nobody touches is listed at least once. */
  lemma {:induction false} UntouchedIsListed(states: seq<seq<Chat>>, first: int, cursor: Option<string>,
                                             matches: Chat -> bool, x: Chat)
    requires GoodStates(states) && Finishes(states, first, cursor, matches) && CursorsRise(states, first, cursor, matches)
    requires cursor != Some("") && Ahead(states[0], cursor, x)
    requires matches(x) && forall i :: 0 <= i < |states| ==> x in states[i]
    ensures x in Walk(states, first, cursor, matches)
    decreases |states|
  {
    hide ListThreads, ChatKeys, Ahead, Rises, Newer;
    var page := ListThreads(states[0], first, cursor, matches);
    StalePageStep(states[0], first, cursor, matches, x);
    if x !in page.rows {
      var last := page.rows[|page.rows| - 1];
      assert Finishes(states[1..], first, page.endCursor, matches);
      assert states[1..][0] == states[1];
      StillAhead(states[1], last, x);
      UntouchedIsListed(states[1..], first, page.endCursor, matches, x);
    }
  }
}
