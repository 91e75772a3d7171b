// listProjects of src/projects/projects.service.ts: the cursor text, the request on a table of projects,
// and a client that follows next_cursor. The walks themselves are those of PageWalk.

module ListProjects {
  import opened Prelude
  import opened UuidText
  import opened PageWalk

  // created_at never changes; the other columns may.
  datatype Project = Project(createdAt: int, name: string, status: string)

  type Table = map<Uuid, Project>

  datatype ProjectRow = ProjectRow(id: Uuid, project: Project)

  // The foreign text conversions: of timestamps (as the template literal prints them, as Date.parse
  // accepts them, as a timestamptz cast reads them), the uuid cast, and base64url.
  datatype Codec = Codec(showTime: int -> string, dateParses: string -> bool, castTime: string -> Option<int>,
                         castId: string -> Option<Uuid>,
                         pack: string -> string, unpack: string -> string)

  // What the conversions are relied on for. A timestamp need not survive its text.
  ghost predicate Sound(c: Codec) {
    && (forall s :: c.unpack(c.pack(s)) == s)
    && (forall s :: s != "" ==> c.pack(s) != "")
    && (forall i: Uuid :: c.castId(Show(i)) == Some(i))
    && (forall t :: c.showTime(t) != "" && c.dateParses(c.showTime(t)) && c.castTime(c.showTime(t)).Some?)
  }

  // The timestamp a cursor made from `t` is read back as.
  function Round(c: Codec): int -> int {
    (t: int) => var back := c.castTime(c.showTime(t)); if back.Some? then back.value else t
  }

  // Codecs that meet this, with timestamps as tallies: kept whole, and losing what is below a unit of 1000.
  const WHOLE := Codec(Tally, (s: string) => true, ReadTally, Read, (s: string) => s, (s: string) => s)

  const COARSE := WHOLE.(showTime := (t: int) => Tally(t / 1000 * 1000))

  function Tally(t: int): (s: string)
    ensures s != "" && ReadTally(s) == Some(t)
  {
    if t < 0 then "-" + seq(-t, i => '1') else "+" + seq(t, i => '1')
  }

  function ReadTally(s: string): Option<int> {
    if s == "" then None else Some(if s[0] == '-' then 1 - |s| else |s| - 1)
  }

  // Both kinds of timestamp text occur: exact, and lossy.
  lemma SoundCodecsExist()
    ensures Sound(WHOLE) && forall t :: Round(WHOLE)(t) == t
    ensures Sound(COARSE) && Truncates(Round(COARSE)) && Round(COARSE)(1) == 0
  {
    hide Tally, ReadTally, Show, Read;
    forall i: Uuid ensures Read(Show(i)) == Some(i) {
      ShowReads(i);
    }
    forall t: int ensures Round(COARSE)(t) == t / 1000 * 1000 <= t {
    }
  }

  function LastIndexOf(s: string, c: char): (i: int)
    ensures -1 <= i < |s|
    ensures i >= 0 ==> s[i] == c
    ensures forall j :: i < j < |s| ==> s[j] != c
  {
    if s == "" then -1
    else if s[|s| - 1] == c then |s| - 1
    else LastIndexOf(s[..|s| - 1], c)
  }

  datatype Decoded = InvalidCursor | CastFails | From(bound: Option<Key>)

  function Decode(c: Codec, cursor: Option<string>): Decoded {
    if cursor.None? || cursor.value == "" then From(None)
    else
      var text := c.unpack(cursor.value);
      var sep := LastIndexOf(text, '|');
      if sep <= 0 then InvalidCursor
      else
        var createdAt, id := text[..sep], text[sep + 1..];
        if !IdShape(id) || !c.dateParses(createdAt) then InvalidCursor
        else if c.castTime(createdAt).None? || c.castId(id).None? then CastFails
        else From(Some(Key(c.castTime(createdAt).value, c.castId(id).value)))
  }

  function Encode(c: Codec, createdAt: int, id: Uuid): string {
    c.pack(c.showTime(createdAt) + "|" + Show(id))
  }

  // The text is split at its last bar: bars in the timestamp do no harm, since an id has none.
  lemma SplitAtLastBar(time: string, id: string)
    requires IdShape(id)
    ensures var text := time + "|" + id;
            LastIndexOf(text, '|') == |time| && text[..|time|] == time && text[|time| + 1..] == id
  {
    var text := time + "|" + id;
    assert text[|time|] == '|';
    assert forall j :: |time| < j < |text| ==> text[j] == id[j - |time| - 1] && IsIdChar(text[j]);
  }

  // A cursor is read back as the row it was made from, up to what its timestamp loses in text.
  lemma CursorRoundTrip(c: Codec, createdAt: int, id: Uuid)
    requires Sound(c)
    ensures Decode(c, Some(Encode(c, createdAt, id))) == From(Some(Reread(Round(c), Key(createdAt, id))))
  {
    hide LastIndexOf, IdShape, Show, Read;
    var time, show := c.showTime(createdAt), Show(id);
    ShowReads(id);
    SplitAtLastBar(time, show);
    assert time + "|" + show != "";
    assert c.unpack(c.pack(time + "|" + show)) == time + "|" + show;
  }

  function CursorText(time: string, id: string): string {
    time + "|" + id
  }

  predicate Accepted(c: Codec, time: string, id: string) {
    time != "" && IdShape(id) && c.dateParses(time)
  }

  // Cursors that get past the guards: exactly the texts <timestamp>|<id> with a parseable timestamp
  // and an id of the right shape.
  lemma RejectedIff(c: Codec, cursor: string)
    requires cursor != ""
    ensures Decode(c, Some(cursor)) != InvalidCursor
            <==> exists time, id :: c.unpack(cursor) == CursorText(time, id) && Accepted(c, time, id)
  {
    var text := c.unpack(cursor);
    var sep := LastIndexOf(text, '|');
    if sep > 0 {
      assert text == CursorText(text[..sep], text[sep + 1..]);
    }
    forall time, id | text == CursorText(time, id) && Accepted(c, time, id)
      ensures Decode(c, Some(cursor)) != InvalidCursor
    {
      SplitAtLastBar(time, id);
    }
  }

  // ----- One request -----

  function KeysOf(table: Table): set<Key> {
    set id | id in table :: Key(table[id].createdAt, id)
  }

  function RowsOf(table: Table, keys: seq<Key>): (rows: seq<ProjectRow>)
    requires forall k :: k in keys ==> k.id in table
    ensures |rows| == |keys|
    ensures forall i :: 0 <= i < |keys| ==> rows[i] == ProjectRow(keys[i].id, table[keys[i].id])
  {
    if keys == [] then [] else
      assert forall k :: k in keys[1..] ==> k in keys;
      [ProjectRow(keys[0].id, table[keys[0].id])] + RowsOf(table, keys[1..])
  }

  // WHERE (created_at, id) < bound ORDER BY created_at DESC, id DESC LIMIT n
  function KeysAsked(table: Table, bound: Option<Key>, n: nat): (keys: seq<Key>)
    ensures forall k :: k in keys ==> k in KeysOf(table)
  {
    var s := Sorted(Below(KeysOf(table), bound));
    assert forall k :: k in s ==> k in KeysOf(table);
    if |s| > n then s[..n] else s
  }

  function Query(table: Table, bound: Option<Key>, n: nat): seq<ProjectRow> {
    RowsOf(table, KeysAsked(table, bound, n))
  }

  datatype Outcome = BadRequest | QueryFails | Listed(data: seq<ProjectRow>, next: Option<string>)

  // The page the keys below the bound make, with the rows as they stand.
  function Respond(c: Codec, table: Table, bound: Option<Key>, limit: nat): Outcome
    requires limit >= 1
  {
    PageIsTop(KeysOf(table), bound, limit);
    var p := PageOf(KeysOf(table), bound, limit);
    Listed(RowsOf(table, p.keys), if p.next.None? then None else Some(Encode(c, p.next.value.at, p.next.value.id)))
  }

  method ReadCursor(c: Codec, cursor: Option<string>) returns (d: Decoded)
    ensures d == Decode(c, cursor)
    ensures cursor.None? || cursor.value == "" ==> d == From(None)
    ensures cursor.Some? && cursor.value != "" ==>
      match d
      case InvalidCursor => forall time, id :: !(c.unpack(cursor.value) == CursorText(time, id) && Accepted(c, time, id))
      case CastFails => exists time, id :: c.unpack(cursor.value) == CursorText(time, id) && Accepted(c, time, id)
                          && (c.castTime(time).None? || c.castId(id).None?)
      case From(bound) => exists time, id :: c.unpack(cursor.value) == CursorText(time, id) && Accepted(c, time, id)
                            && c.castTime(time).Some? && c.castId(id).Some?
                            && bound == Some(Key(c.castTime(time).value, c.castId(id).value))
  {
    if cursor.None? || cursor.value == "" {
      return From(None);
    }
    RejectedIff(c, cursor.value);
    var text := c.unpack(cursor.value);
    var sep := LastIndexOf(text, '|');
    if sep <= 0 {
      return InvalidCursor;
    }
    var createdAt := text[..sep];
    var id := text[sep + 1..];
    assert text == CursorText(createdAt, id);
    if !IdShape(id) || !c.dateParses(createdAt) {
      return InvalidCursor;
    }
    assert Accepted(c, createdAt, id);
    if c.castTime(createdAt).None? || c.castId(id).None? {
      return CastFails;
    }
    return From(Some(Key(c.castTime(createdAt).value, c.castId(id).value)));
  }

  method HandleList(c: Codec, table: Table, cursor: Option<string>, limit: nat) returns (r: Outcome)
    requires limit >= 1
    ensures match Decode(c, cursor)
            case InvalidCursor => r == BadRequest
            case CastFails => r == QueryFails
            case From(bound) => r == Respond(c, table, bound, limit)
  {
    hide Decode, PageOf, Query, Encode, RowsOf;
    var d := ReadCursor(c, cursor);
    if d.InvalidCursor? {
      return BadRequest;
    }
    if d.CastFails? {
      return QueryFails;
    }
    var rows := Query(table, d.bound, limit + 1);
    var next := None;
    OneMoreRow(table, d.bound, limit);
    if |rows| > limit {
      var last := rows[limit - 1];
      next := Some(Encode(c, last.project.createdAt, last.id));
      rows := rows[..limit];
    }
    return Listed(rows, next);
  }

  predicate Match(rows: seq<ProjectRow>, keys: seq<Key>) {
    |rows| == |keys| && forall i :: 0 <= i < |rows| ==> keys[i] == Key(rows[i].project.createdAt, rows[i].id)
  }

  lemma RowsMatch(table: Table, keys: seq<Key>)
    requires forall k :: k in keys ==> k in KeysOf(table)
    ensures (forall k :: k in keys ==> k.id in table) && Match(RowsOf(table, keys), keys)
  {
    hide RowsOf;
    assert forall i :: 0 <= i < |keys| ==> keys[i] in keys;
  }

  lemma RowsPrefix(table: Table, keys: seq<Key>, n: nat)
    requires n <= |keys| && forall k :: k in keys ==> k.id in table
    ensures (forall k :: k in keys[..n] ==> k in keys) && RowsOf(table, keys)[..n] == RowsOf(table, keys[..n])
  {
  }

  lemma OneMoreKey(table: Table, bound: Option<Key>, limit: nat)
    requires limit >= 1
    ensures var p := PageOf(KeysOf(table), bound, limit);
            var keys := KeysAsked(table, bound, limit + 1);
            if |keys| > limit then p == Page(keys[..limit], Some(keys[limit - 1])) else p == Page(keys, None)
  {
    var s := Sorted(Below(KeysOf(table), bound));
    hide Sorted, Below, KeysOf;
    assert |s| > limit + 1 ==> s[..limit + 1][..limit] == s[..limit];
  }

  // Asking for one row too many tells whether there is another page.
  lemma OneMoreRow(table: Table, bound: Option<Key>, limit: nat)
    requires limit >= 1
    ensures var p := PageOf(KeysOf(table), bound, limit);
            var rows := Query(table, bound, limit + 1);
            && (forall k :: k in p.keys ==> k.id in table)
            && (if |rows| > limit
                then p.next.Some? && rows[..limit] == RowsOf(table, p.keys)
                     && p.next.value == Key(rows[limit - 1].project.createdAt, rows[limit - 1].id)
                else p.next.None? && rows == RowsOf(table, p.keys))
  {
    var keys := KeysAsked(table, bound, limit + 1);
    OneMoreKey(table, bound, limit);
    RowsMatch(table, keys);
    hide PageOf, KeysAsked, RowsOf;
    if |keys| > limit {
      RowsPrefix(table, keys, limit);
    }
  }

  // ----- A client following next_cursor -----

  datatype Visit = Visit(rows: seq<ProjectRow>, done: bool, failed: bool)

  // tables[i] is what the i-th request finds.
  function Follow(c: Codec, tables: seq<Table>, cursor: Option<string>, limit: nat): Visit
    requires limit >= 1
    decreases |tables|
  {
    if tables == [] then Visit([], false, false)
    else
      match Decode(c, cursor)
      case InvalidCursor => Visit([], false, true)
      case CastFails => Visit([], false, true)
      case From(bound) =>
        var r := Respond(c, tables[0], bound, limit);
        if r.next.None? then Visit(r.data, true, false)
        else
          var rest := Follow(c, tables[1..], r.next, limit);
          Visit(r.data + rest.rows, rest.done, rest.failed)
  }

  function KeysOfAll(tables: seq<Table>): seq<set<Key>> {
    seq(|tables|, i requires 0 <= i < |tables| => KeysOf(tables[i]))
  }

  lemma RespondMatches(c: Codec, table: Table, bound: Option<Key>, limit: nat)
    requires limit >= 1
    ensures var p := PageOf(KeysOf(table), bound, limit);
            var r := Respond(c, table, bound, limit);
            && r.Listed? && Match(r.data, p.keys)
            && (r.next.None? <==> p.next.None?)
            && (p.next.Some? ==> r.next == Some(Encode(c, p.next.value.at, p.next.value.id)))
  {
    var p := PageOf(KeysOf(table), bound, limit);
    PageIsTop(KeysOf(table), bound, limit);
    hide PageOf, KeysOf, RowsOf;
    RowsMatch(table, p.keys);
  }

  lemma UnfoldFollow(c: Codec, tables: seq<Table>, cursor: Option<string>, bound: Option<Key>, limit: nat)
    requires limit >= 1 && tables != [] && Decode(c, cursor) == From(bound)
    ensures var r := Respond(c, tables[0], bound, limit);
            Follow(c, tables, cursor, limit)
            == if r.next.None? then Visit(r.data, true, false)
               else
                 var rest := Follow(c, tables[1..], r.next, limit);
                 Visit(r.data + rest.rows, rest.done, rest.failed)
  {
  }

  // The cursors carry the walk: no request of it is refused, and its rows are those of the walk on keys.
  lemma {:induction false} FollowIsWalk(c: Codec, tables: seq<Table>, cursor: Option<string>, bound: Option<Key>, limit: nat)
    requires limit >= 1 && Sound(c) && Decode(c, cursor) == From(bound)
    ensures var v := Follow(c, tables, cursor, limit);
            var w := WalkFrom(Round(c), KeysOfAll(tables), bound, limit);
            !v.failed && v.done == w.done && Match(v.rows, w.keys)
    decreases |tables|
  {
    hide Decode, Encode, Sound, PageOf, Respond, KeysOf, Round;
    if tables != [] {
      RespondMatches(c, tables[0], bound, limit);
      UnfoldFollow(c, tables, cursor, bound, limit);
      UnfoldWalk(Round(c), KeysOfAll(tables), bound, limit);
      assert KeysOfAll(tables)[1..] == KeysOfAll(tables[1..]);
      hide WalkFrom, KeysOfAll, Follow;
      var next := PageOf(KeysOf(tables[0]), bound, limit).next;
      if next.Some? {
        CursorRoundTrip(c, next.value.at, next.value.id);
        FollowIsWalk(c, tables[1..], Some(Encode(c, next.value.at, next.value.id)), Some(Reread(Round(c), next.value)), limit);
      }
    }
  }

  // A project keeps its created_at for as long as it exists, and its id is never given out again.
  ghost predicate KeepCreation(tables: seq<Table>) {
    forall i, j, id :: 0 <= i < |tables| && 0 <= j < |tables| && id in tables[i] && id in tables[j] ==>
      tables[i][id].createdAt == tables[j][id].createdAt
  }

  predicate ListedInOrder(rows: seq<ProjectRow>) {
    forall i, j :: 0 <= i < j < |rows| ==> rows[i].id != rows[j].id && rows[i].project.createdAt >= rows[j].project.createdAt
  }

  // Following the cursors while projects are created, changed and deleted never lists a project twice,
  // and lists newest first.
  lemma NothingListedTwice(c: Codec, tables: seq<Table>, limit: nat)
    requires limit >= 1 && Sound(c) && Truncates(Round(c)) && KeepCreation(tables)
    ensures ListedInOrder(Follow(c, tables, None, limit).rows)
  {
    var rows := Follow(c, tables, None, limit).rows;
    var w := WalkFrom(Round(c), KeysOfAll(tables), None, limit);
    FollowIsWalk(c, tables, None, None, limit);
    WalkDescends(Round(c), KeysOfAll(tables), None, limit);
    hide Follow, WalkFrom, KeysOfAll, Round, Sound;
    forall i, j | 0 <= i < j < |rows| ensures rows[i].id != rows[j].id && rows[i].project.createdAt >= rows[j].project.createdAt {
      assert Less(w.keys[j], w.keys[i]) && w.keys[i] in w.keys && w.keys[j] in w.keys;
      WalkedFrom(c, tables, limit, w.keys[i]);
      WalkedFrom(c, tables, limit, w.keys[j]);
    }
  }

  lemma WalkedFrom(c: Codec, tables: seq<Table>, limit: nat, k: Key)
    requires limit >= 1
    ensures k in WalkFrom(Round(c), KeysOfAll(tables), None, limit).keys ==>
              exists n :: 0 <= n < |tables| && k.id in tables[n] && tables[n][k.id].createdAt == k.at
  {
    WalkListsRows(Round(c), KeysOfAll(tables), None, limit, k);
    hide WalkFrom;
    if n :| 0 <= n < |KeysOfAll(tables)| && k in KeysOfAll(tables)[n] {
      assert k.id in tables[n];
    }
  }

  predicate ListedOnce(rows: seq<ProjectRow>, id: Uuid) {
    exists i :: 0 <= i < |rows| && rows[i].id == id && forall j :: 0 <= j < |rows| && rows[j].id == id ==> j == i
  }

  // A completed visit lists every project that was there throughout, once, if timestamps survive their text.
  lemma EveryLastingProjectListedOnce(c: Codec, tables: seq<Table>, limit: nat, id: Uuid)
    requires limit >= 1 && Sound(c) && (forall t :: Round(c)(t) == t) && KeepCreation(tables)
    ensures Follow(c, tables, None, limit).done && (forall n :: 0 <= n < |tables| ==> id in tables[n]) ==>
              ListedOnce(Follow(c, tables, None, limit).rows, id)
  {
    var rows := Follow(c, tables, None, limit).rows;
    if Follow(c, tables, None, limit).done && forall n :: 0 <= n < |tables| ==> id in tables[n] {
      assert tables != [];
      FollowIsWalk(c, tables, None, None, limit);
      NothingListedTwice(c, tables, limit);
      var w := WalkFrom(Round(c), KeysOfAll(tables), None, limit);
      hide Follow, WalkFrom;
      var k := Key(tables[0][id].createdAt, id);
      assert forall n :: 0 <= n < |tables| ==> k in KeysOf(tables[n]);
      TimestampsSurvive(Round(c), KeysOfAll(tables), None, limit, k);
      var i :| 0 <= i < |w.keys| && w.keys[i] == k;
      assert rows[i].id == id;
    }
  }

  // With rows from a finite stock a visit comes to its last page.
  lemma VisitEnds(c: Codec, tables: seq<Table>, limit: nat, stock: set<Key>)
    requires limit >= 1 && Sound(c) && Truncates(Round(c))
    requires (forall n :: 0 <= n < |tables| ==> KeysOf(tables[n]) <= stock) && limit * |tables| > |stock|
    ensures Follow(c, tables, None, limit).done && !Follow(c, tables, None, limit).failed
  {
    FollowIsWalk(c, tables, None, None, limit);
    WalkEnds(Round(c), KeysOfAll(tables), None, limit, stock);
  }

  function Unchanged(table: Table, n: nat): seq<Table> {
    seq(n, i => table)
  }

  lemma UnchangedKeys(table: Table, n: nat)
    ensures KeepCreation(Unchanged(table, n)) && KeysOfAll(Unchanged(table, n)) == Copies(KeysOf(table), n)
  {
  }

  // On a fixed table and with exact timestamps a client has seen everything after as many requests as the
  // rows need pages, and then the pages join to the whole list, newest first.
  lemma FixedTableVisit(c: Codec, table: Table, n: nat, limit: nat)
    requires limit >= 1 && Sound(c) && forall t :: Round(c)(t) == t
    ensures var v := Follow(c, Unchanged(table, n), None, limit);
            && (v.done <==> n >= 1 && |KeysOf(table)| <= limit * n)
            && (v.done ==> Match(v.rows, Sorted(KeysOf(table))))
  {
    FollowIsWalk(c, Unchanged(table, n), None, None, limit);
    UnchangedKeys(table, n);
    hide Follow, WalkFrom, Sound, KeysOf, KeysOfAll, Unchanged, Sorted;
    FixedWalkEndsIff(Round(c), KeysOf(table), n, limit);
    if WalkFrom(Round(c), Copies(KeysOf(table), n), None, limit).done {
      FixedWalkIsSorted(Round(c), KeysOf(table), n, limit);
    }
  }
}
