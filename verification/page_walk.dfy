// Keyset pages over (created_at, id), newest first, as the query of listProjects
// (src/projects/projects.service.ts) returns them, and walks that follow the cursor from page to page
// while rows come and go.

module PageWalk {
  import opened Prelude
  import opened UuidText

  datatype Key = Key(at: int, id: Uuid)

  predicate Less(a: Key, b: Key) {
    a.at < b.at || (a.at == b.at && a.id < b.id)
  }

  predicate Descending(s: seq<Key>) {
    forall i, j :: 0 <= i < j < |s| ==> Less(s[j], s[i])
  }

  predicate IsGreatest(k: Key, ks: set<Key>) {
    k in ks && forall x :: x in ks ==> x == k || Less(x, k)
  }

  lemma {:induction false} HasGreatest(ks: set<Key>)
    requires ks != {}
    ensures exists k :: IsGreatest(k, ks)
    decreases |ks|
  {
    var x :| x in ks;
    if ks == {x} {
      assert IsGreatest(x, ks);
    } else {
      HasGreatest(ks - {x});
      var y :| IsGreatest(y, ks - {x});
      var z := if Less(x, y) then y else x;
      assert forall v :: v in ks ==> v == x || v in ks - {x};
      assert IsGreatest(z, ks);
    }
  }

  function Greatest(ks: set<Key>): (k: Key)
    requires ks != {}
    ensures IsGreatest(k, ks)
  {
    HasGreatest(ks);
    var k :| IsGreatest(k, ks);
    k
  }

  // ORDER BY created_at DESC, id DESC
  function Sorted(ks: set<Key>): (s: seq<Key>)
    ensures Descending(s) && |s| == |ks| && (forall k :: k in s <==> k in ks)
    decreases |ks|
  {
    if ks == {} then [] else
      var k := Greatest(ks);
      var rest := Sorted(ks - {k});
      assert forall i :: 0 <= i < |rest| ==> rest[i] in ks - {k};
      assert forall x :: x in ks ==> x == k || x in rest;
      [k] + rest
  }

  // WHERE (created_at, id) < bound
  predicate Before(k: Key, bound: Option<Key>) {
    bound.Some? ==> Less(k, bound.value)
  }

  function Below(ks: set<Key>, bound: Option<Key>): set<Key> {
    set k | k in ks && Before(k, bound)
  }

  datatype Page = Page(keys: seq<Key>, next: Option<Key>)

  function PageOf(ks: set<Key>, bound: Option<Key>, limit: nat): Page
    requires limit >= 1
  {
    var s := Sorted(Below(ks, bound));
    if |s| > limit then Page(s[..limit], Some(s[limit - 1])) else Page(s, None)
  }

  // The elements before and after a place in a descending sequence, told by comparison.
  lemma Cut(s: seq<Key>, m: nat, k: Key)
    requires Descending(s) && 1 <= m <= |s| && k in s
    ensures k in s[..m] <==> !Less(k, s[m - 1])
    ensures k in s[m..] <==> Less(k, s[m - 1])
  {
    forall x | x in s[..m] ensures !Less(x, s[m - 1]) {
      var j :| 0 <= j < m && s[..m][j] == x;
      assert j < m - 1 ==> Less(s[m - 1], s[j]);
    }
    forall x | x in s[m..] ensures Less(x, s[m - 1]) {
      var j :| 0 <= j < |s| - m && s[m..][j] == x;
      assert Less(s[m + j], s[m - 1]);
    }
    var i :| 0 <= i < |s| && s[i] == k;
    assert if i < m then s[..m][i] == k else s[m..][i - m] == k;
  }

  // The page is a descending run of the rows below the bound. It holds all of them, or it is full,
  // `next` is its last row, and every row it leaves out comes after.
  lemma PageIsTop(ks: set<Key>, bound: Option<Key>, limit: nat)
    requires limit >= 1
    ensures var p := PageOf(ks, bound, limit);
            && Descending(p.keys)
            && (forall k :: k in p.keys ==> k in ks && Before(k, bound))
            && (p.next.None? ==> forall k :: k in ks && Before(k, bound) ==> k in p.keys)
            && (p.next.Some? ==> |p.keys| == limit && p.next.value == p.keys[limit - 1])
            && (p.next.Some? ==> forall k :: k in ks && Before(k, bound) ==> (k in p.keys <==> !Less(k, p.next.value)))
  {
    var s := Sorted(Below(ks, bound));
    assert forall k :: k in PageOf(ks, bound, limit).keys ==> k in s;
    if |s| > limit {
      forall k | k in s ensures k in s[..limit] <==> !Less(k, s[limit - 1]) {
        Cut(s, limit, k);
      }
    }
  }

  // ----- Following the cursor -----

  // The bound the next request reads back out of a cursor: the timestamp went through text.
  function Reread(round: int -> int, k: Key): Key {
    Key(round(k.at), k.id)
  }

  // keys: all rows listed, in order; turns: the last row of each page followed by another.
  datatype Walk = Walk(keys: seq<Key>, turns: seq<Key>, done: bool)

  // tables[i] is what the i-th request finds.
  function WalkFrom(round: int -> int, tables: seq<set<Key>>, bound: Option<Key>, limit: nat): Walk
    requires limit >= 1
    decreases |tables|
  {
    if tables == [] then Walk([], [], false)
    else
      var p := PageOf(tables[0], bound, limit);
      if p.next.None? then Walk(p.keys, [], true)
      else
        var rest := WalkFrom(round, tables[1..], Some(Reread(round, p.next.value)), limit);
        TurnPage(p, rest)
  }

  function TurnPage(p: Page, rest: Walk): Walk
    requires p.next.Some?
  {
    Walk(p.keys + rest.keys, [p.next.value] + rest.turns, rest.done)
  }

  lemma UnfoldWalk(round: int -> int, tables: seq<set<Key>>, bound: Option<Key>, limit: nat)
    requires limit >= 1 && tables != []
    ensures var p := PageOf(tables[0], bound, limit);
            WalkFrom(round, tables, bound, limit)
            == if p.next.None? then Walk(p.keys, [], true)
               else TurnPage(p, WalkFrom(round, tables[1..], Some(Reread(round, p.next.value)), limit))
  {
  }

  ghost predicate Truncates(round: int -> int) {
    forall t :: round(t) <= t
  }

  lemma DescendingAppend(a: seq<Key>, b: seq<Key>)
    requires Descending(a) && Descending(b)
    requires a != [] ==> forall k :: k in b ==> Less(k, a[|a| - 1])
    ensures Descending(a + b)
  {
    forall i, j | 0 <= i < j < |a + b| ensures Less((a + b)[j], (a + b)[i]) {
      if i < |a| <= j {
        assert b[j - |a|] in b;
        assert i < |a| - 1 ==> Less(a[|a| - 1], a[i]);
      }
    }
  }

  // Rows listed lie below the bound, and the last row of each page is listed.
  lemma {:induction false} WalkBounded(round: int -> int, tables: seq<set<Key>>, bound: Option<Key>, limit: nat)
    requires limit >= 1 && Truncates(round)
    ensures var w := WalkFrom(round, tables, bound, limit);
            && (forall k :: k in w.keys ==> Before(k, bound))
            && (forall k :: k in w.turns ==> k in w.keys)
            && (if w.done then |w.turns| < |tables| else |w.turns| == |tables|)
    decreases |tables|
  {
    hide Sorted, Below;
    if tables != [] {
      var p := PageOf(tables[0], bound, limit);
      PageIsTop(tables[0], bound, limit);
      UnfoldWalk(round, tables, bound, limit);
      hide WalkFrom, PageOf;
      if p.next.Some? {
        var turn := p.next.value;
        var rest := WalkFrom(round, tables[1..], Some(Reread(round, turn)), limit);
        WalkBounded(round, tables[1..], Some(Reread(round, turn)), limit);
        assert turn in p.keys;
        assert forall k :: k in rest.keys ==> Less(k, turn);
      }
    }
  }

  // A page that is followed by another is full.
  lemma {:induction false} PagesAreFull(round: int -> int, tables: seq<set<Key>>, bound: Option<Key>, limit: nat)
    requires limit >= 1
    ensures |WalkFrom(round, tables, bound, limit).keys| >= Room(limit, |WalkFrom(round, tables, bound, limit).turns|)
    decreases |tables|
  {
    if tables != [] {
      var p := PageOf(tables[0], bound, limit);
      PageIsTop(tables[0], bound, limit);
      UnfoldWalk(round, tables, bound, limit);
      hide WalkFrom, PageOf, Sorted, Below;
      if p.next.Some? {
        var rest := WalkFrom(round, tables[1..], Some(Reread(round, p.next.value)), limit);
        PagesAreFull(round, tables[1..], Some(Reread(round, p.next.value)), limit);
        assert |([p.next.value] + rest.turns)| == |rest.turns| + 1;
      }
    }
  }

  // The rows n full pages hold, as a sum.
  function Room(limit: nat, n: nat): nat {
    if n == 0 then 0 else Room(limit, n - 1) + limit
  }

  lemma {:induction false} RoomIsProduct(limit: nat, n: nat)
    ensures Room(limit, n) == limit * n
  {
    if n > 0 {
      RoomIsProduct(limit, n - 1);
    }
  }

  // Whatever is inserted and deleted between the pages, a walk lists rows in strictly descending order,
  // so none twice, as long as text never moves a timestamp forward.
  lemma {:induction false} WalkDescends(round: int -> int, tables: seq<set<Key>>, bound: Option<Key>, limit: nat)
    requires limit >= 1 && Truncates(round)
    ensures Descending(WalkFrom(round, tables, bound, limit).keys)
    decreases |tables|
  {
    hide Sorted, Below;
    if tables != [] {
      var p := PageOf(tables[0], bound, limit);
      PageIsTop(tables[0], bound, limit);
      UnfoldWalk(round, tables, bound, limit);
      hide WalkFrom, PageOf;
      if p.next.Some? {
        var next := Some(Reread(round, p.next.value));
        WalkDescends(round, tables[1..], next, limit);
        WalkBounded(round, tables[1..], next, limit);
        DescendingAppend(p.keys, WalkFrom(round, tables[1..], next, limit).keys);
      }
    }
  }

  lemma {:induction false} WalkListsRows(round: int -> int, tables: seq<set<Key>>, bound: Option<Key>, limit: nat, k: Key)
    requires limit >= 1
    ensures k in WalkFrom(round, tables, bound, limit).keys ==> exists i :: 0 <= i < |tables| && k in tables[i]
    decreases |tables|
  {
    hide Sorted, Below;
    if tables == [] || k !in WalkFrom(round, tables, bound, limit).keys {
      return;
    }
    PageIsTop(tables[0], bound, limit);
    UnfoldWalk(round, tables, bound, limit);
    var p := PageOf(tables[0], bound, limit);
    hide WalkFrom, PageOf;
    if k !in p.keys {
      WalkListsRows(round, tables[1..], Some(Reread(round, p.next.value)), limit, k);
      var i :| 0 <= i < |tables[1..]| && k in tables[1..][i];
      assert k in tables[i + 1];
    }
  }

  // A turn of the walk steps over the rows between the cursor as read back and the row it was made from.
  predicate Skips(round: int -> int, turn: Key, k: Key) {
    Less(k, turn) && !Less(k, Reread(round, turn))
  }

  // Exactly which of the rows that were there at every request a finished walk lists.
  lemma {:induction false} WalkListsIff(round: int -> int, tables: seq<set<Key>>, bound: Option<Key>, limit: nat, k: Key)
    requires limit >= 1 && Truncates(round)
    requires WalkFrom(round, tables, bound, limit).done && Before(k, bound)
    requires forall i :: 0 <= i <= |WalkFrom(round, tables, bound, limit).turns| && i < |tables| ==> k in tables[i]
    ensures k in WalkFrom(round, tables, bound, limit).keys
            <==> forall turn :: turn in WalkFrom(round, tables, bound, limit).turns ==> !Skips(round, turn, k)
    decreases |tables|
  {
    hide Sorted, Below;
    assert tables != [];
    var p := PageOf(tables[0], bound, limit);
    PageIsTop(tables[0], bound, limit);
    UnfoldWalk(round, tables, bound, limit);
    hide WalkFrom, PageOf;
    assert k in tables[0];
    if p.next.Some? {
      var turn := p.next.value;
      var next := Some(Reread(round, turn));
      var rest := WalkFrom(round, tables[1..], next, limit);
      WalkBounded(round, tables[1..], next, limit);
      assert forall t :: t in [turn] + rest.turns <==> t == turn || t in rest.turns;
      assert forall t :: t in rest.turns ==> Less(t, next.value);
      assert WalkFrom(round, tables, bound, limit) == Walk(p.keys + rest.keys, [turn] + rest.turns, rest.done);
      assert k in p.keys + rest.keys <==> k in p.keys || k in rest.keys;
      assert Skips(round, turn, k) <==> Less(k, turn) && !Less(k, next.value);
      if Less(k, next.value) {
        assert forall i :: 0 <= i <= |rest.turns| && i < |tables[1..]| ==> tables[1..][i] == tables[i + 1];
        WalkListsIff(round, tables[1..], next, limit, k);
      }
    }
  }

  lemma TimestampsSurvive(round: int -> int, tables: seq<set<Key>>, bound: Option<Key>, limit: nat, k: Key)
    requires limit >= 1 && forall t :: round(t) == t
    requires WalkFrom(round, tables, bound, limit).done && Before(k, bound)
    requires forall i :: 0 <= i <= |WalkFrom(round, tables, bound, limit).turns| && i < |tables| ==> k in tables[i]
    ensures k in WalkFrom(round, tables, bound, limit).keys
  {
    WalkListsIff(round, tables, bound, limit, k);
  }

  // A walk over tables drawn from a finite stock of rows ends once its pages outnumber the stock.
  lemma WalkEnds(round: int -> int, tables: seq<set<Key>>, bound: Option<Key>, limit: nat, stock: set<Key>)
    requires limit >= 1 && Truncates(round)
    requires (forall i :: 0 <= i < |tables| ==> tables[i] <= stock) && limit * |tables| > |stock|
    ensures WalkFrom(round, tables, bound, limit).done
  {
    var w := WalkFrom(round, tables, bound, limit);
    WalkDescends(round, tables, bound, limit);
    WalkBounded(round, tables, bound, limit);
    PagesAreFull(round, tables, bound, limit);
    RoomIsProduct(limit, |w.turns|);
    forall k | k in w.keys ensures k in stock {
      WalkListsRows(round, tables, bound, limit, k);
    }
    DescendingFits(w.keys, stock);
  }

  lemma {:induction false} DescendingFits(s: seq<Key>, stock: set<Key>)
    requires Descending(s) && forall k :: k in s ==> k in stock
    ensures |s| <= |stock|
    decreases |s|
  {
    if s != [] {
      assert s[0] in s;
      forall k | k in s[1..] ensures k in stock - {s[0]} {
        var i :| 0 <= i < |s[1..]| && s[1..][i] == k;
        assert Less(s[i + 1], s[0]);
      }
      DescendingFits(s[1..], stock - {s[0]});
    }
  }

  lemma {:induction false} DescendingUnique(a: seq<Key>, b: seq<Key>)
    requires Descending(a) && Descending(b) && forall k :: k in a <==> k in b
    ensures a == b
    decreases |a|
  {
    if b != [] {
      assert b[0] in a;
    }
    if a != [] {
      assert a[0] in b;
      assert a[0] == b[0];
      forall k ensures k in a[1..] <==> k in b[1..] {
        assert k in a[1..] ==> k in a && Less(k, a[0]);
        assert k in b[1..] ==> k in b && Less(k, b[0]);
        assert k in a && k != a[0] ==> k in a[1..];
        assert k in b && k != b[0] ==> k in b[1..];
      }
      DescendingUnique(a[1..], b[1..]);
    }
  }

  function Copies(table: set<Key>, n: nat): seq<set<Key>> {
    seq(n, i => table)
  }

  // On a fixed table the pages of a finished walk join to the whole list, newest first.
  lemma FixedWalkIsSorted(round: int -> int, table: set<Key>, n: nat, limit: nat)
    requires limit >= 1 && forall t :: round(t) == t
    requires WalkFrom(round, Copies(table, n), None, limit).done
    ensures WalkFrom(round, Copies(table, n), None, limit).keys == Sorted(table)
  {
    var w := WalkFrom(round, Copies(table, n), None, limit);
    WalkDescends(round, Copies(table, n), None, limit);
    forall k ensures k in w.keys <==> k in Sorted(table) {
      if k in w.keys {
        WalkListsRows(round, Copies(table, n), None, limit, k);
      }
      if k in table {
        TimestampsSurvive(round, Copies(table, n), None, limit, k);
      }
    }
    DescendingUnique(w.keys, Sorted(table));
  }

  lemma {:induction false} FixedWalkFits(round: int -> int, table: set<Key>, n: nat, bound: Option<Key>, limit: nat)
    requires limit >= 1 && forall t :: round(t) == t
    ensures FixedDone(round, table, n, bound, limit) <==> n >= 1 && Fits(table, bound, limit, n)
    decreases n
  {
    hide FixedDone, Fits, PageOf;
    if n == 0 {
      FixedDoneNever(round, table, bound, limit);
    } else {
      FixedTurn(round, table, n, bound, limit);
      var next := PageOf(table, bound, limit).next;
      if next.Some? {
        FixedWalkFits(round, table, n - 1, next, limit);
      }
    }
  }

  predicate FixedDone(round: int -> int, table: set<Key>, n: nat, bound: Option<Key>, limit: nat)
    requires limit >= 1
  {
    WalkFrom(round, Copies(table, n), bound, limit).done
  }

  predicate Fits(table: set<Key>, bound: Option<Key>, limit: nat, n: nat) {
    |Below(table, bound)| <= Room(limit, n)
  }

  lemma FixedDoneNever(round: int -> int, table: set<Key>, bound: Option<Key>, limit: nat)
    requires limit >= 1
    ensures !FixedDone(round, table, 0, bound, limit)
  {
  }

  // And it takes exactly as many pages as the rows need.
  lemma FixedWalkEndsIff(round: int -> int, table: set<Key>, n: nat, limit: nat)
    requires limit >= 1 && forall t :: round(t) == t
    ensures WalkFrom(round, Copies(table, n), None, limit).done <==> n >= 1 && |table| <= limit * n
  {
    hide WalkFrom;
    assert Below(table, None) == table;
    assert FixedDone(round, table, n, None, limit) <==> WalkFrom(round, Copies(table, n), None, limit).done;
    FixedWalkFits(round, table, n, None, limit);
    RoomIsProduct(limit, n);
  }

  lemma FixedTurn(round: int -> int, table: set<Key>, n: nat, bound: Option<Key>, limit: nat)
    requires limit >= 1 && n >= 1 && forall t :: round(t) == t
    ensures var next := PageOf(table, bound, limit).next;
            if next.None? then FixedDone(round, table, n, bound, limit) && Fits(table, bound, limit, n)
            else
              && FixedDone(round, table, n, bound, limit) == FixedDone(round, table, n - 1, next, limit)
              && (Fits(table, bound, limit, n) <==> n > 1 && Fits(table, next, limit, n - 1))
  {
    var next := PageOf(table, bound, limit).next;
    FitsTurn(table, bound, limit, n);
    UnfoldWalk(round, Copies(table, n), bound, limit);
    assert Copies(table, n)[1..] == Copies(table, n - 1);
    hide WalkFrom, PageOf, Fits, Copies;
    assert next.Some? ==> Reread(round, next.value) == next.value;
  }

  lemma FitsTurn(table: set<Key>, bound: Option<Key>, limit: nat, n: nat)
    requires limit >= 1 && n >= 1
    ensures var next := PageOf(table, bound, limit).next;
            if next.None? then Fits(table, bound, limit, n) else Fits(table, bound, limit, n) <==> n > 1 && Fits(table, next, limit, n - 1)
  {
    assert Room(limit, n) == Room(limit, n - 1) + limit;
    assert Room(limit, 0) == 0;
    hide Sorted, Room;
    if PageOf(table, bound, limit).next.Some? {
      PageCount(table, bound, limit);
    }
  }

  lemma TailCount(s: seq<Key>, m: nat, rest: set<Key>)
    requires Descending(s) && 1 <= m <= |s|
    requires forall k :: k in rest <==> k in s && Less(k, s[m - 1])
    ensures |rest| == |s| - m
  {
    hide Sorted;
    forall k ensures k in s[m..] <==> k in rest {
      if k in s {
        Cut(s, m, k);
      }
    }
    hide Less;
    DescendingUnique(s[m..], Sorted(rest));
  }

  lemma PageCount(table: set<Key>, bound: Option<Key>, limit: nat)
    requires limit >= 1 && PageOf(table, bound, limit).next.Some?
    ensures |Below(table, PageOf(table, bound, limit).next)| == |Below(table, bound)| - limit > 0
  {
    hide Sorted;
    var s := Sorted(Below(table, bound));
    var turn := s[limit - 1];
    assert turn in s;
    TailCount(s, limit, Below(table, Some(turn)));
  }

  // Text that loses part of a timestamp loses rows: of two projects created at that instant, read one to
  // a page, the walk ends without the second. So every walk is complete exactly when no timestamp changes.
  lemma LossyTextLosesARow(round: int -> int, t: int)
    requires round(t) < t
    ensures var w := WalkFrom(round, Copies({Key(t, 1), Key(t, 0)}, 2), None, 1); w.done && w.keys == [Key(t, 1)]
  {
    var table := {Key(t, 1), Key(t, 0)};
    FirstOfTwo(t);
    var next := Some(Key(round(t), 1));
    assert Below(table, next) == {};
    assert PageOf(table, next, 1) == Page([], None);
    UnfoldWalk(round, Copies(table, 2), None, 1);
    assert Copies(table, 2)[1..] == Copies(table, 1);
    UnfoldWalk(round, Copies(table, 1), next, 1);
  }

  lemma FirstOfTwo(t: int)
    ensures PageOf({Key(t, 1), Key(t, 0)}, None, 1) == Page([Key(t, 1)], Some(Key(t, 1)))
  {
    var table := {Key(t, 1), Key(t, 0)};
    assert Below(table, None) == table;
    assert IsGreatest(Key(t, 1), table);
    assert Sorted(table)[0] in table && Key(t, 1) in Sorted(table);
    assert |Sorted(table)| == 2;
    assert Sorted(table)[..1] == [Sorted(table)[0]];
  }

  ghost predicate WalksComplete(round: int -> int) {
    forall table: set<Key>, n: nat, limit: nat ::
      limit >= 1 && WalkFrom(round, Copies(table, n), None, limit).done ==> WalkFrom(round, Copies(table, n), None, limit).keys == Sorted(table)
  }

  lemma WalksCompleteIffTextIsExact(round: int -> int)
    requires Truncates(round)
    ensures WalksComplete(round) <==> forall t :: round(t) == t
  {
    hide WalkFrom;
    if WalksComplete(round) {
      forall t ensures round(t) == t {
        assert Key(t, 0) in Sorted({Key(t, 1), Key(t, 0)}) && Key(t, 0) !in [Key(t, 1)];
        if round(t) < t {
          LossyTextLosesARow(round, t);
          assert false;
        }
      }
    } else if forall t :: round(t) == t {
      forall table: set<Key>, n: nat, limit: nat | limit >= 1 && WalkFrom(round, Copies(table, n), None, limit).done
        ensures WalkFrom(round, Copies(table, n), None, limit).keys == Sorted(table)
      {
        FixedWalkIsSorted(round, table, n, limit);
      }
    }
  }

  lemma SamePage(table: set<Key>, bound: Option<Key>)
    requires forall k :: k in table ==> Before(k, bound)
    ensures PageOf(table, bound, 1) == PageOf(table, None, 1)
  {
    assert Below(table, bound) == table == Below(table, None);
  }

  lemma OneMorePage(round: int -> int, table: set<Key>, n: nat, bound: Option<Key>, turn: Key)
    requires n >= 1 && PageOf(table, bound, 1) == Page([turn], Some(turn))
    ensures WalkFrom(round, Copies(table, n), bound, 1).keys
         == [turn] + WalkFrom(round, Copies(table, n - 1), Some(Reread(round, turn)), 1).keys
  {
    UnfoldWalk(round, Copies(table, n), bound, 1);
    hide WalkFrom, PageOf;
    assert Copies(table, n)[1..] == Copies(table, n - 1);
  }

  // Text that moves a timestamp forward repeats a row: the second request finds it below its own cursor.
  lemma ForwardTextRepeatsARow(round: int -> int, t: int)
    requires round(t) > t
    ensures WalkFrom(round, Copies({Key(t, 1), Key(t, 0)}, 2), None, 1).keys == [Key(t, 1), Key(t, 1)]
  {
    var table, next := {Key(t, 1), Key(t, 0)}, Some(Key(round(t), 1));
    assert WalkFrom(round, Copies(table, 0), next, 1).keys == [];
    SamePage(table, next);
    hide WalkFrom, PageOf, Copies;
    FirstOfTwo(t);
    OneMorePage(round, table, 2, None, Key(t, 1));
    OneMorePage(round, table, 1, next, Key(t, 1));
  }

  // No walk, over whatever tables, lists a row twice.
  ghost predicate WalksDescend(round: int -> int) {
    forall tables: seq<set<Key>>, limit: nat :: limit >= 1 ==> Descending(WalkFrom(round, tables, None, limit).keys)
  }

  lemma WalksDescendIffTextNeverForward(round: int -> int)
    ensures WalksDescend(round) <==> Truncates(round)
  {
    hide WalkFrom;
    if Truncates(round) {
      forall tables: seq<set<Key>>, limit: nat | limit >= 1 ensures Descending(WalkFrom(round, tables, None, limit).keys) {
        WalkDescends(round, tables, None, limit);
      }
    } else {
      var t :| round(t) > t;
      ForwardTextRepeatsARow(round, t);
      var twice := [Key(t, 1), Key(t, 1)];
      assert !Less(twice[1], twice[0]);
    }
  }
}
