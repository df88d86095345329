// Keyset paging through an owner's history: the two queries of persistence.bal,
// the cursor a client takes from the last row of a page, and the walk from the
// first page to the first short one while scans go on being inserted.
module HistoryPaging {
  import opened Collections
  import opened ScanTasks
  import opened ScanRecords
  import opened DispatchProtocol
  import opened ProtocolInvariant
  import opened ProtocolSafety

  datatype Key = Key(createdAt: Time, id: Id)

  // The row comparison (created_at, id) < (created_at, id).
  predicate Below(a: Key, b: Key) {
    a.createdAt < b.createdAt || (a.createdAt == b.createdAt && a.id < b.id)
  }

  function KeysOf(db: Database, owner: Subject): set<Key> {
    set id | id in db.jobs && db.jobs[id].owner == owner :: Key(db.jobs[id].createdAt, id)
  }

  function Matching(keys: set<Key>, cursor: Option<Key>): set<Key> {
    set k | k in keys && (cursor.Some? ==> Below(k, cursor.value))
  }

  ghost predicate Descending(rows: seq<Key>) {
    forall i, j :: 0 <= i < j < |rows| ==> Below(rows[j], rows[i])
  }

  // What ORDER BY created_at DESC, id DESC LIMIT n makes of a set of rows.
  ghost predicate TopOf(rows: seq<Key>, keys: set<Key>, n: nat) {
    && Descending(rows)
    && Elements(rows) <= keys
    && |rows| == (if |keys| <= n then |keys| else n)
    && forall k, r :: k in keys && k !in rows && r in rows ==> Below(k, r)
  }

  // loadScanHistory and loadScanHistoryAfter; None is the page size error.
  ghost predicate Loaded(keys: set<Key>, cursor: Option<Key>, pageSize: int, r: Option<seq<Key>>) {
    if pageSize < 1 || pageSize > 100 then r.None?
    else r.Some? && TopOf(r.value, Matching(keys, cursor), pageSize)
  }

  lemma {:induction false} HighestExists(keys: set<Key>) returns (top: Key)
    requires keys != {}
    ensures top in keys && forall k :: k in keys && k != top ==> Below(k, top)
  {
    var x :| x in keys;
    if keys == {x} {
      top := x;
    } else {
      var rest := HighestExists(keys - {x});
      top := if Below(rest, x) then x else rest;
      forall k | k in keys && k != top ensures Below(k, top) {
        assert k == x || k in keys - {x};
      }
    }
  }

  // The query has an answer, and only one.
  lemma {:induction false} TopExists(keys: set<Key>, n: nat) returns (rows: seq<Key>)
    ensures TopOf(rows, keys, n)
    decreases n
  {
    if n == 0 || keys == {} {
      rows := [];
    } else {
      var top := HighestExists(keys);
      var rest := TopExists(keys - {top}, n - 1);
      rows := [top] + rest;
      assert Elements(rows) == {top} + Elements(rest);
      forall r | r in rest ensures Below(r, top) {
        assert r in Elements(rest);
      }
    }
  }

  lemma {:induction false} TopUnique(a: seq<Key>, b: seq<Key>, keys: set<Key>, n: nat)
    requires TopOf(a, keys, n) && TopOf(b, keys, n)
    ensures a == b
    decreases |a|
  {
    if a != [] {
      HeadIsHighest(a, keys, n);
      HeadIsHighest(b, keys, n);
      TailIsTop(a, keys, n);
      TailIsTop(b, keys, n);
      TopUnique(a[1..], b[1..], keys - {a[0]}, n - 1);
    }
  }

  lemma HeadIsHighest(rows: seq<Key>, keys: set<Key>, n: nat)
    requires TopOf(rows, keys, n) && rows != []
    ensures rows[0] in keys && forall k :: k in keys && k != rows[0] ==> Below(k, rows[0])
  {
    assert rows[0] in Elements(rows);
    forall k | k in keys && k != rows[0] ensures Below(k, rows[0]) {
      if k in rows {
        var i :| 0 <= i < |rows| && rows[i] == k;
      }
    }
  }

  lemma TailIsTop(rows: seq<Key>, keys: set<Key>, n: nat)
    requires TopOf(rows, keys, n) && rows != []
    ensures n > 0 && TopOf(rows[1..], keys - {rows[0]}, n - 1)
  {
    var tail := rows[1..];
    assert rows == [rows[0]] + tail;
    assert rows[0] in Elements(rows);
    forall k | k in tail ensures k in keys - {rows[0]} {
      assert k in Elements(rows);
    }
  }

  // A short page is all there is; a full one leaves only lower rows.
  lemma PageCovers(rows: seq<Key>, keys: set<Key>, n: nat)
    requires TopOf(rows, keys, n) && n >= 1
    ensures |rows| < n ==> Elements(rows) == keys
    ensures |rows| == n ==> forall k :: k in keys && k !in rows ==> Below(k, rows[n - 1])
  {
    if |rows| < n {
      DescendingDistinct(rows);
      DistinctIffFull(rows);
      SubsetSize(Elements(rows), keys);
    }
  }

  lemma DescendingDistinct(rows: seq<Key>)
    requires Descending(rows)
    ensures Distinct(rows)
  {}

  // -------------------------------------------------------------------- the walk

  // One request per page: the rows committed when it ran, the size asked for,
  // and the page returned.
  datatype Visit = Visit(keys: set<Key>, pageSize: int, page: seq<Key>)

  function CursorAfter(visits: seq<Visit>): Option<Key> {
    if visits == [] || visits[|visits| - 1].page == [] then None
    else Some(visits[|visits| - 1].page[|visits[|visits| - 1].page| - 1])
  }

  // Each request continues from the last row of the page before, which was
  // full; rows are never deleted while the walk goes on.
  ghost predicate Walk(visits: seq<Visit>) {
    visits != [] ==>
      var last, before := visits[|visits| - 1], visits[..|visits| - 1];
      && Walk(before)
      && (before != [] ==>
            && before[|before| - 1].keys <= last.keys
            && |before[|before| - 1].page| == before[|before| - 1].pageSize)
      && Loaded(last.keys, CursorAfter(before), last.pageSize, Some(last.page))
  }

  function AllRows(visits: seq<Visit>): seq<Key> {
    if visits == [] then [] else AllRows(visits[..|visits| - 1]) + visits[|visits| - 1].page
  }

  predicate Ended(visits: seq<Visit>) {
    visits != [] && |visits[|visits| - 1].page| < visits[|visits| - 1].pageSize
  }

  // While every page has been full, the cursor is the lowest row so far and
  // everything of the first request above it has been seen.
  lemma {:induction false} WalkSoFar(visits: seq<Visit>)
    requires Walk(visits) && visits != []
    ensures Descending(AllRows(visits))
    ensures Elements(AllRows(visits)) <= visits[|visits| - 1].keys && visits[0].keys <= visits[|visits| - 1].keys
    ensures CursorAfter(visits).Some? ==>
      forall r :: r in AllRows(visits) ==> r == CursorAfter(visits).value || Below(CursorAfter(visits).value, r)
    ensures forall k :: k in visits[0].keys && k !in AllRows(visits) ==>
      !Ended(visits) && CursorAfter(visits).Some? && Below(k, CursorAfter(visits).value)
    decreases |visits|
  {
    var n := |visits| - 1;
    var last, before := visits[n], visits[..n];
    PageCovers(last.page, Matching(last.keys, CursorAfter(before)), last.pageSize);
    if n == 0 {
      assert AllRows(visits) == last.page;
      assert Matching(last.keys, None) == last.keys;
    } else {
      WalkSoFar(before);
      WalkGoesOn(visits);
    }
  }

  lemma Join(a: seq<Key>, cursor: Key, b: seq<Key>)
    requires Descending(a) && Descending(b)
    requires forall r :: r in a ==> r == cursor || Below(cursor, r)
    requires forall r :: r in b ==> Below(r, cursor)
    ensures Descending(a + b)
  {
    var c := a + b;
    forall i, j | 0 <= i < j < |c| ensures Below(c[j], c[i]) {
      if i < |a| <= j {
        assert c[i] in a && c[j] in b;
      }
    }
  }

  lemma WalkGoesOn(visits: seq<Visit>)
    requires Walk(visits) && |visits| >= 2
    requires var before := visits[..|visits| - 1];
      && Descending(AllRows(before))
      && Elements(AllRows(before)) <= before[|before| - 1].keys && visits[0].keys <= before[|before| - 1].keys
      && (CursorAfter(before).Some? ==>
            forall r :: r in AllRows(before) ==> r == CursorAfter(before).value || Below(CursorAfter(before).value, r))
      && (forall k :: k in visits[0].keys && k !in AllRows(before) ==>
            CursorAfter(before).Some? && Below(k, CursorAfter(before).value))
    ensures Descending(AllRows(visits))
    ensures Elements(AllRows(visits)) <= visits[|visits| - 1].keys && visits[0].keys <= visits[|visits| - 1].keys
    ensures CursorAfter(visits).Some? ==>
      forall r :: r in AllRows(visits) ==> r == CursorAfter(visits).value || Below(CursorAfter(visits).value, r)
    ensures forall k :: k in visits[0].keys && k !in AllRows(visits) ==>
      !Ended(visits) && CursorAfter(visits).Some? && Below(k, CursorAfter(visits).value)
  {
    var n := |visits| - 1;
    var last, before := visits[n], visits[..n];
    var cursor := CursorAfter(before);
    var matching := Matching(last.keys, cursor);
    PageCovers(last.page, matching, last.pageSize);
    assert before[n - 1].pageSize >= 1 && cursor.Some?;
    var all := AllRows(before);
    forall r | r in last.page ensures Below(r, cursor.value) {
      assert r in Elements(last.page);
    }
    Join(all, cursor.value, last.page);
    assert AllRows(visits) == all + last.page;
    forall r | r in AllRows(visits) ensures r in last.keys {
      assert r in Elements(all) || r in Elements(last.page);
    }
    forall k | k in visits[0].keys && k !in AllRows(visits)
      ensures !Ended(visits) && CursorAfter(visits).Some? && Below(k, CursorAfter(visits).value)
    {
      assert k in matching && k !in last.page;
      assert k !in Elements(last.page);
    }
    if CursorAfter(visits).Some? {
      LowestIsLast(all, cursor.value, last.page);
    }
  }

  lemma LowestIsLast(a: seq<Key>, cursor: Key, b: seq<Key>)
    requires Descending(b) && b != []
    requires forall r :: r in a ==> r == cursor || Below(cursor, r)
    requires forall r :: r in b ==> Below(r, cursor)
    ensures forall r :: r in a + b ==> r == b[|b| - 1] || Below(b[|b| - 1], r)
  {
    assert b[|b| - 1] in b;
    forall r | r in a + b ensures r == b[|b| - 1] || Below(b[|b| - 1], r) {
      if r in b {
        var i :| 0 <= i < |b| && b[i] == r;
      }
    }
  }

  // Whatever the page sizes and whatever is inserted in between, a finished
  // walk is in strictly descending order, so repeats nothing, and holds every
  // row that was there at the start exactly once.
  lemma WalkIsComplete(visits: seq<Visit>)
    requires Walk(visits) && Ended(visits)
    ensures Descending(AllRows(visits)) && Distinct(AllRows(visits))
    ensures forall k :: k in visits[0].keys ==> multiset(AllRows(visits))[k] == 1
    ensures Elements(AllRows(visits)) <= visits[|visits| - 1].keys
  {
    WalkSoFar(visits);
    DescendingDistinct(AllRows(visits));
    DistinctMultiset(AllRows(visits));
  }

  // When nothing is inserted meanwhile, it is the one page that would hold the
  // whole history.
  lemma QuietWalkIsTheHistory(visits: seq<Visit>, keys: set<Key>)
    requires Walk(visits) && Ended(visits) && forall i :: 0 <= i < |visits| ==> visits[i].keys == keys
    ensures TopOf(AllRows(visits), keys, |keys|)
  {
    WalkIsComplete(visits);
    var all := AllRows(visits);
    assert forall k :: k in keys ==> k in multiset(all);
    assert Elements(all) == keys;
    DistinctIffFull(all);
  }

  lemma {:induction false} FullPagesAddUp(visits: seq<Visit>)
    requires Walk(visits) && !Ended(visits)
    ensures |AllRows(visits)| >= |visits|
    decreases |visits|
  {
    if visits != [] {
      FullPagesAddUp(visits[..|visits| - 1]);
    }
  }

  // And it ends: no more full pages than rows.
  lemma QuietWalkEnds(visits: seq<Visit>, keys: set<Key>)
    requires Walk(visits) && forall i :: 0 <= i < |visits| ==> visits[i].keys == keys
    requires |visits| > |keys|
    ensures exists n :: 0 < n <= |visits| && Ended(visits[..n])
  {
    if !Ended(visits) {
      WalkSoFar(visits);
      FullPagesAddUp(visits);
      DescendingDistinct(AllRows(visits));
      DistinctIffFull(AllRows(visits));
      SubsetSize(Elements(AllRows(visits)), keys);
    } else {
      assert visits[..|visits|] == visits;
    }
  }

  // ------------------------------------------------------- over the protocol

  // Rows keep their owner and creation time, and none is ever deleted, so the
  // pages may be read at any later and later moments of an execution.
  lemma KeysOnlyGrow(env: Env, states: seq<System>, actions: seq<Action>, i: nat, n: nat, owner: Subject)
    requires Execution(env, states, actions) && Init(env, states[0]) && i <= n <= |actions|
    ensures KeysOf(states[i].db, owner) <= KeysOf(states[n].db, owner)
  {
    hide Inv, Init, Enabled, Apply, RecordsGrow;
    ReachableEvolves(env, states, actions, i, n);
    forall k | k in KeysOf(states[i].db, owner) ensures k in KeysOf(states[n].db, owner) {
      assert JobEvolves(states[i].db.jobs[k.id], states[n].db.jobs[k.id]);
    }
  }

  // The walk of a client that reads page i at moment moments[i].
  ghost predicate WalkOf(states: seq<System>, owner: Subject, moments: seq<nat>, visits: seq<Visit>) {
    && |moments| == |visits|
    && (forall i :: 0 <= i < |moments| ==>
          moments[i] < |states| && visits[i].keys == KeysOf(states[moments[i]].db, owner))
    && (forall i, j :: 0 <= i < j < |moments| ==> moments[i] <= moments[j])
    && (forall i :: 0 <= i < |visits| ==>
          Loaded(visits[i].keys, CursorAfter(visits[..i]), visits[i].pageSize, Some(visits[i].page)))
    && (forall i :: 0 <= i < |visits| - 1 ==> |visits[i].page| == visits[i].pageSize)
  }

  lemma {:induction false} WalkOfIsWalk(env: Env, states: seq<System>, actions: seq<Action>, owner: Subject,
                                        moments: seq<nat>, visits: seq<Visit>, n: nat)
    requires Execution(env, states, actions) && Init(env, states[0]) && WalkOf(states, owner, moments, visits)
    requires n <= |visits|
    ensures Walk(visits[..n])
  {
    hide Init, Enabled, Apply, Loaded, KeysOf;
    if n > 0 {
      WalkOfIsWalk(env, states, actions, owner, moments, visits, n - 1);
      assert visits[..n][..n - 1] == visits[..n - 1];
      if n > 1 {
        KeysOnlyGrow(env, states, actions, moments[n - 2], moments[n - 1], owner);
      }
    }
  }

  // The pages hold the owner's rows as they are, newest first, none twice; every
  // row that was there when the walk began; and nobody else's.
  lemma HistoryIsPagedCompletely(env: Env, states: seq<System>, actions: seq<Action>, owner: Subject,
                                 moments: seq<nat>, visits: seq<Visit>)
    requires Execution(env, states, actions) && Init(env, states[0]) && WalkOf(states, owner, moments, visits)
    requires Ended(visits)
    ensures var rows := AllRows(visits);
      forall i, j :: 0 <= i < j < |rows| ==>
        rows[j].createdAt < rows[i].createdAt || (rows[j].createdAt == rows[i].createdAt && rows[j].id < rows[i].id)
    ensures forall id :: id in states[moments[0]].db.jobs && states[moments[0]].db.jobs[id].owner == owner ==>
      multiset(AllRows(visits))[Key(states[moments[0]].db.jobs[id].createdAt, id)] == 1
    ensures var jobs := states[moments[|moments| - 1]].db.jobs;
      forall k :: k in AllRows(visits) ==>
        k.id in jobs && jobs[k.id].owner == owner && jobs[k.id].createdAt == k.createdAt
    ensures forall i :: 0 <= i < |visits| ==> |visits[i].page| <= visits[i].pageSize <= 100
  {
    hide Init, Enabled, Apply, Loaded;
    WalkOfIsWalk(env, states, actions, owner, moments, visits, |visits|);
    assert visits[..|visits|] == visits;
    WalkIsComplete(visits);
    forall id | id in states[moments[0]].db.jobs && states[moments[0]].db.jobs[id].owner == owner
      ensures Key(states[moments[0]].db.jobs[id].createdAt, id) in visits[0].keys
    {}
    OwnersOnly(states[moments[|moments| - 1]].db, owner, AllRows(visits));
    forall i | 0 <= i < |visits| ensures |visits[i].page| <= visits[i].pageSize <= 100 {
      PageFits(visits[i].keys, CursorAfter(visits[..i]), visits[i].pageSize, visits[i].page);
    }
  }

  lemma OwnersOnly(db: Database, owner: Subject, rows: seq<Key>)
    requires Elements(rows) <= KeysOf(db, owner)
    ensures forall k :: k in rows ==>
      k.id in db.jobs && db.jobs[k.id].owner == owner && db.jobs[k.id].createdAt == k.createdAt
  {
    forall k | k in rows
      ensures k.id in db.jobs && db.jobs[k.id].owner == owner && db.jobs[k.id].createdAt == k.createdAt
    {
      assert k in Elements(rows) && k in KeysOf(db, owner);
    }
  }

  lemma PageFits(keys: set<Key>, cursor: Option<Key>, pageSize: int, page: seq<Key>)
    requires Loaded(keys, cursor, pageSize, Some(page))
    ensures |page| <= pageSize <= 100
  {}
}
