/** Keyset pagination: queryEvents as filter, sort and limit, the next-cursor rule, and a client
    walking the pages while rows are being inserted. Timestamps are whole milliseconds, as the
    parser produces them, so a cursor carries its row's position exactly. */
module Keyset {
  import opened QueueTypes

  datatype Row = Row(
    deviceId: int, timestamp: int, temperature: real, battery: real,
    latitude: real, longitude: real, eventType: string, id: int)

  /** A position in the total order of rows. */
  datatype Cursor = Cursor(timestamp: int, id: int)

  datatype Order = Asc | Desc

  datatype Params = Params(deviceId: int, from: Option<int>, to: Option<int>, order: Order, limit: nat)

  function KeyOf(r: Row): Cursor
  {
    Cursor(r.timestamp, r.id)
  }

  predicate Below(a: Cursor, b: Cursor)
  {
    a.timestamp < b.timestamp || (a.timestamp == b.timestamp && a.id < b.id)
  }

  /** a is delivered before b. */
  predicate Before(order: Order, a: Cursor, b: Cursor)
  {
    if order.Asc? then Below(a, b) else Below(b, a)
  }

  predicate Matches(p: Params, r: Row)
  {
    && r.deviceId == p.deviceId
    && (p.from.Some? ==> p.from.value <= r.timestamp)
    && (p.to.Some? ==> r.timestamp <= p.to.value)
  }

  predicate Past(p: Params, c: Option<Cursor>, r: Row)
  {
    c.Some? ==> Before(p.order, c.value, KeyOf(r))
  }

  // ---- the SQL text: numbered conditions mean the filter ----

  datatype Value = Num(n: int) | Time(t: int)

  datatype Condition =
    | DeviceIs(param: nat)
    | TimeAtLeast(param: nat)
    | TimeAtMost(param: nat)
    | KeyLess(timeParam: nat, idParam: nat)
    | KeyGreater(timeParam: nat, idParam: nat)

  /** `$n` is bound to a value of the column's kind; parameters are numbered from one. */
  predicate Bound(values: seq<Value>, n: nat, wantTime: bool)
  {
    1 <= n <= |values| && values[n - 1].Time? == wantTime
  }

  function Bind(values: seq<Value>, n: nat): int
    requires 1 <= n <= |values|
  {
    if values[n - 1].Time? then values[n - 1].t else values[n - 1].n
  }

  predicate WellBound(values: seq<Value>, c: Condition)
  {
    match c
    case DeviceIs(n) => Bound(values, n, false)
    case TimeAtLeast(n) => Bound(values, n, true)
    case TimeAtMost(n) => Bound(values, n, true)
    case KeyLess(t, i) => Bound(values, t, true) && Bound(values, i, false)
    case KeyGreater(t, i) => Bound(values, t, true) && Bound(values, i, false)
  }

  predicate Holds(values: seq<Value>, c: Condition, r: Row)
    requires WellBound(values, c)
  {
    match c
    case DeviceIs(n) => r.deviceId == Bind(values, n)
    case TimeAtLeast(n) => Bind(values, n) <= r.timestamp
    case TimeAtMost(n) => r.timestamp <= Bind(values, n)
    case KeyLess(t, i) => Below(KeyOf(r), Cursor(Bind(values, t), Bind(values, i)))
    case KeyGreater(t, i) => Below(Cursor(Bind(values, t), Bind(values, i)), KeyOf(r))
  }

  ghost predicate AllBound(values: seq<Value>, conditions: seq<Condition>)
  {
    forall i :: 0 <= i < |conditions| ==> WellBound(values, conditions[i])
  }

  /** The conditions joined by AND accept the row. */
  ghost predicate Accepts(values: seq<Value>, conditions: seq<Condition>, r: Row)
    requires AllBound(values, conditions)
  {
    forall i :: 0 <= i < |conditions| ==> Holds(values, conditions[i], r)
  }

  /** Pushing more values disturbs no earlier placeholder, and one more condition conjoins. */
  lemma PushCondition(values: seq<Value>, more: seq<Value>, conditions: seq<Condition>, c: Condition)
    requires AllBound(values, conditions) && WellBound(values + more, c)
    ensures AllBound(values + more, conditions + [c])
    ensures forall r :: Accepts(values + more, conditions + [c], r) <==>
            Accepts(values, conditions, r) && Holds(values + more, c, r)
  {
    var values', conditions' := values + more, conditions + [c];
    forall i | 0 <= i < |conditions|
      ensures WellBound(values', conditions[i])
      ensures forall r :: Holds(values', conditions[i], r) == Holds(values, conditions[i], r)
    {
    }
    forall r ensures Accepts(values', conditions', r) <==> Accepts(values, conditions, r) && Holds(values', c, r) {
      assert forall i :: 0 <= i < |conditions| ==> conditions'[i] == conditions[i];
      assert conditions'[|conditions|] == c;
    }
  }

  /** Builds the WHERE clause. Whatever filters are present, every placeholder is bound to a value
      of its own kind and the clause accepts exactly the matching rows past the cursor. */
  method BuildQuery(p: Params, cursor: Option<Cursor>)
    returns (conditions: seq<Condition>, values: seq<Value>, limitParam: nat)
    ensures AllBound(values, conditions)
    ensures forall r :: Accepts(values, conditions, r) <==> Matches(p, r) && Past(p, cursor, r)
    ensures forall r :: Accepts(values, conditions, r) <==>
              && r.deviceId == p.deviceId
              && (p.from.Some? ==> r.timestamp >= p.from.value) && (p.to.Some? ==> r.timestamp <= p.to.value)
              && (cursor.Some? && p.order.Asc? ==>
                    r.timestamp > cursor.value.timestamp
                    || (r.timestamp == cursor.value.timestamp && r.id > cursor.value.id))
              && (cursor.Some? && p.order.Desc? ==>
                    r.timestamp < cursor.value.timestamp
                    || (r.timestamp == cursor.value.timestamp && r.id < cursor.value.id))
    ensures limitParam == |values| && Bound(values, limitParam, false) && Bind(values, limitParam) == p.limit
  {
    conditions := [DeviceIs(1)];
    values := [Num(p.deviceId)];
    assert forall r :: Accepts(values, conditions, r) <==> Holds(values, conditions[0], r);
    if p.from.Some? {
      var value, condition := Time(p.from.value), TimeAtLeast(|values| + 1);
      PushCondition(values, [value], conditions, condition);
      values, conditions := values + [value], conditions + [condition];
    }
    if p.to.Some? {
      var value, condition := Time(p.to.value), TimeAtMost(|values| + 1);
      PushCondition(values, [value], conditions, condition);
      values, conditions := values + [value], conditions + [condition];
    }
    assert forall r :: Accepts(values, conditions, r) <==> Matches(p, r);
    if cursor.Some? {
      var more := [Time(cursor.value.timestamp), Num(cursor.value.id)];
      var condition := if p.order.Desc? then KeyLess(|values| + 1, |values| + 2)
                       else KeyGreater(|values| + 1, |values| + 2);
      PushCondition(values, more, conditions, condition);
      values, conditions := values + more, conditions + [condition];
    }
    LimitIsHarmless(values, conditions, Num(p.limit));
    values := values + [Num(p.limit)];
    limitParam := |values|;
  }

  lemma LimitIsHarmless(values: seq<Value>, conditions: seq<Condition>, limit: Value)
    requires AllBound(values, conditions)
    ensures AllBound(values + [limit], conditions)
    ensures forall r :: Accepts(values + [limit], conditions, r) <==> Accepts(values, conditions, r)
  {
    forall i | 0 <= i < |conditions|
      ensures WellBound(values + [limit], conditions[i])
      ensures forall r :: Holds(values + [limit], conditions[i], r) == Holds(values, conditions[i], r)
    {
    }
  }

  // ---- ORDER BY ----

  /** Row identifiers are unique: the primary key. */
  ghost predicate Keyed(t: set<Row>)
  {
    forall r, s :: r in t && s in t && r.id == s.id ==> r == s
  }

  ghost predicate IsFirst(order: Order, t: set<Row>, r: Row)
  {
    r in t && forall s :: s in t && s != r ==> Before(order, KeyOf(r), KeyOf(s))
  }

  lemma {:induction false} FirstExists(order: Order, t: set<Row>)
    requires Keyed(t) && t != {}
    ensures exists r :: IsFirst(order, t, r)
    decreases |t|
  {
    var x :| x in t;
    var rest := t - {x};
    if rest == {} {
      assert t == {x};
      assert IsFirst(order, t, x);
    } else {
      FirstExists(order, rest);
      var r :| IsFirst(order, rest, r);
      assert r in t && r != x;
      var first := if Before(order, KeyOf(x), KeyOf(r)) then x else r;
      forall s | s in t && s != first ensures Before(order, KeyOf(first), KeyOf(s)) {
        assert s == x || s in rest;
      }
      assert IsFirst(order, t, first);
    }
  }

  /** The rows in delivery order. */
  ghost function Listing(order: Order, t: set<Row>): seq<Row>
    requires Keyed(t)
    decreases |t|
  {
    if t == {} then []
    else
      FirstExists(order, t);
      var r :| IsFirst(order, t, r);
      [r] + Listing(order, t - {r})
  }

  ghost predicate Ordered(order: Order, s: seq<Row>)
  {
    forall i, j :: 0 <= i < j < |s| ==> Before(order, KeyOf(s[i]), KeyOf(s[j]))
  }

  /** The same on the columns: ascending, timestamps never decrease and ids increase within one timestamp;
      descending, the reverse. */
  ghost predicate Chronological(order: Order, s: seq<Row>)
  {
    forall i, j :: 0 <= i < j < |s| ==>
      if order.Asc? then s[i].timestamp <= s[j].timestamp && (s[i].timestamp == s[j].timestamp ==> s[i].id < s[j].id)
      else s[i].timestamp >= s[j].timestamp && (s[i].timestamp == s[j].timestamp ==> s[i].id > s[j].id)
  }

  lemma OrderedIsChronological(order: Order, s: seq<Row>)
    ensures Ordered(order, s) <==> Chronological(order, s)
  {
    if Chronological(order, s) {
      forall i, j | 0 <= i < j < |s| ensures Before(order, KeyOf(s[i]), KeyOf(s[j])) {
      }
    }
  }

  ghost predicate SameRows(s: seq<Row>, t: set<Row>)
  {
    forall r :: r in s <==> r in t
  }

  lemma ListingUnfolds(order: Order, t: set<Row>) returns (r: Row)
    requires Keyed(t) && t != {}
    ensures IsFirst(order, t, r) && Listing(order, t) == [r] + Listing(order, t - {r})
  {
    FirstExists(order, t);
    r :| IsFirst(order, t, r) && Listing(order, t) == [r] + Listing(order, t - {r});
  }

  lemma FirstPrepends(order: Order, t: set<Row>, r: Row, rest: seq<Row>)
    requires IsFirst(order, t, r) && Ordered(order, rest) && SameRows(rest, t - {r})
    ensures Ordered(order, [r] + rest) && SameRows([r] + rest, t)
  {
    forall j | 0 <= j < |rest| ensures Before(order, KeyOf(r), KeyOf(rest[j])) {
      assert rest[j] in rest;
    }
  }

  lemma {:induction false} ListingSorts(order: Order, t: set<Row>)
    requires Keyed(t)
    ensures Ordered(order, Listing(order, t)) && SameRows(Listing(order, t), t) && |Listing(order, t)| == |t|
    decreases |t|
  {
    if t != {} {
      var r := ListingUnfolds(order, t);
      ListingSorts(order, t - {r});
      FirstPrepends(order, t, r, Listing(order, t - {r}));
    }
  }

  lemma TailRows(order: Order, t: set<Row>, s: seq<Row>)
    requires Ordered(order, s) && SameRows(s, t) && s != []
    ensures SameRows(s[1..], t - {s[0]}) && s[0] in t
  {
    assert s[0] in s;
    forall q ensures q in s[1..] <==> q in t - {s[0]} {
      assert q in s <==> q in t;
      if q in s && q != s[0] {
        var j :| 0 <= j < |s| && s[j] == q;
        assert s[1..][j - 1] == q;
      }
    }
  }

  lemma HeadIsFirst(order: Order, t: set<Row>, s: seq<Row>, r: Row)
    requires Ordered(order, s) && SameRows(s, t) && s != [] && IsFirst(order, t, r)
    ensures s[0] == r
  {
    assert s[0] in s && r in s;
    var i :| 0 <= i < |s| && s[i] == r;
  }

  /** A strictly ordered sequence of a set's rows is its listing: there is only one. */
  lemma {:induction false} ListingUnique(order: Order, t: set<Row>, s: seq<Row>)
    requires Keyed(t) && Ordered(order, s) && SameRows(s, t)
    ensures s == Listing(order, t)
    decreases |t|
  {
    if s == [] {
      forall r ensures r !in t {
        assert r in s <==> r in t;
      }
    } else {
      TailRows(order, t, s);
      var r := ListingUnfolds(order, t);
      HeadIsFirst(order, t, s, r);
      ListingUnique(order, t - {r}, s[1..]);
      assert s == [s[0]] + s[1..];
    }
  }

  // ---- one page ----

  ghost function Candidates(t: set<Row>, p: Params, c: Option<Cursor>): (s: set<Row>)
    ensures Keyed(t) ==> Keyed(s)
  {
    set r | r in t && Matches(p, r) && Past(p, c, r)
  }

  datatype Response = Response(events: seq<Row>, nextCursor: Option<Cursor>)

  /** The answer to one request against the table as it is at that moment. */
  ghost function Query(t: set<Row>, p: Params, c: Option<Cursor>): Response
    requires Keyed(t) && p.limit >= 1
  {
    var all := Listing(p.order, Candidates(t, p, c));
    var events := if |all| <= p.limit then all else all[..p.limit];
    Response(events, if |events| == p.limit then Some(KeyOf(events[|events| - 1])) else None)
  }

  /** A row the first k leave out comes after the k-th. */
  lemma LeftOut(order: Order, all: seq<Row>, k: nat, r: Row)
    requires Ordered(order, all) && 1 <= k <= |all| && r in all && r !in all[..k]
    ensures Before(order, KeyOf(all[k - 1]), KeyOf(r))
  {
    var i :| 0 <= i < |all| && all[i] == r;
    assert forall j :: 0 <= j < k ==> all[j] == all[..k][j] && all[j] in all[..k];
  }

  /** A page is ordered, holds only candidates, and leaves out only rows past its cursor; with no
      cursor it leaves out none. */
  lemma PageFacts(t: set<Row>, p: Params, c: Option<Cursor>)
    requires Keyed(t) && p.limit >= 1
    ensures var q := Query(t, p, c);
            && Ordered(p.order, q.events)
            && (forall r :: r in q.events ==> r in Candidates(t, p, c))
            && (forall r :: r in Candidates(t, p, c) && r !in q.events ==>
                 q.nextCursor.Some? && Before(p.order, q.nextCursor.value, KeyOf(r)))
            && (q.nextCursor.Some? ==> q.events != [] && q.nextCursor.value == KeyOf(q.events[|q.events| - 1]))
  {
    var s := Candidates(t, p, c);
    ListingSorts(p.order, s);
    var all, q := Listing(p.order, s), Query(t, p, c);
    forall r | r in q.events ensures r in s {
      assert r in all;
    }
    forall r | r in s && r !in q.events
      ensures q.nextCursor.Some? && Before(p.order, q.nextCursor.value, KeyOf(r))
    {
      assert r in all;
      LeftOut(p.order, all, p.limit, r);
    }
  }

  // ---- walking the pages ----

  ghost predicate AllKeyed(tables: seq<set<Row>>)
  {
    forall i :: 0 <= i < |tables| ==> Keyed(tables[i])
  }

  /** A client that follows nextCursor until it is null; request i meets tables[i]. */
  ghost function Walk(tables: seq<set<Row>>, p: Params, c: Option<Cursor>): seq<Response>
    requires AllKeyed(tables) && p.limit >= 1
  {
    if tables == [] then []
    else
      var q := Query(tables[0], p, c);
      if q.nextCursor.None? then [q] else [q] + Walk(tables[1..], p, q.nextCursor)
  }

  ghost function Delivered(walk: seq<Response>): seq<Row>
  {
    if walk == [] then [] else walk[0].events + Delivered(walk[1..])
  }

  ghost predicate Finished(walk: seq<Response>)
  {
    walk != [] && walk[|walk| - 1].nextCursor.None?
  }

  lemma DeliveredUnfolds(q: Response, rest: seq<Response>)
    ensures Delivered([q] + rest) == q.events + Delivered(rest)
    ensures rest != [] ==> (Finished([q] + rest) <==> Finished(rest))
  {
    assert ([q] + rest)[1..] == rest;
  }

  lemma WalkUnfolds(tables: seq<set<Row>>, p: Params, c: Option<Cursor>)
    requires AllKeyed(tables) && p.limit >= 1 && tables != []
    ensures var q, walk := Query(tables[0], p, c), Walk(tables, p, c);
            if q.nextCursor.None? then walk == [q] && Delivered(walk) == q.events && Finished(walk)
            else
              var rest := Walk(tables[1..], p, q.nextCursor);
              walk == [q] + rest && Delivered(walk) == q.events + Delivered(rest)
              && (Finished(walk) <==> Finished(rest))
  {
    var q := Query(tables[0], p, c);
    DeliveredUnfolds(q, if q.nextCursor.None? then [] else Walk(tables[1..], p, q.nextCursor));
  }

  /** Whatever happens to the table between pages, the rows delivered come in strict order, so no
      row comes twice, and every one of them matches and lies past the starting cursor. */
  lemma {:induction false} WalkOrdered(tables: seq<set<Row>>, p: Params, c: Option<Cursor>)
    requires AllKeyed(tables) && p.limit >= 1
    ensures Ordered(p.order, Delivered(Walk(tables, p, c))) && Chronological(p.order, Delivered(Walk(tables, p, c)))
    ensures forall r :: r in Delivered(Walk(tables, p, c)) ==> Matches(p, r) && Past(p, c, r)
    ensures forall r :: r in Delivered(Walk(tables, p, c)) ==> exists i :: 0 <= i < |tables| && r in tables[i]
    decreases |tables|
  {
    if tables != [] {
      var q := Query(tables[0], p, c);
      PageFacts(tables[0], p, c);
      WalkUnfolds(tables, p, c);
      if q.nextCursor.Some? {
        var rest := Delivered(Walk(tables[1..], p, q.nextCursor));
        WalkOrdered(tables[1..], p, q.nextCursor);
        Concatenated(p, c, q, rest);
        forall r | r in rest ensures exists i :: 0 <= i < |tables| && r in tables[i] {
          var i :| 0 <= i < |tables[1..]| && r in tables[1..][i];
          assert r in tables[i + 1];
        }
      }
    }
    OrderedIsChronological(p.order, Delivered(Walk(tables, p, c)));
  }

  /** An ordered page followed by ordered rows past its last one is ordered. */
  lemma Concatenated(p: Params, c: Option<Cursor>, q: Response, rest: seq<Row>)
    requires Ordered(p.order, q.events) && Ordered(p.order, rest)
    requires q.events != [] && q.nextCursor == Some(KeyOf(q.events[|q.events| - 1]))
    requires forall r :: r in q.events ==> Past(p, c, r)
    requires forall r :: r in rest ==> Past(p, q.nextCursor, r)
    ensures Ordered(p.order, q.events + rest)
    ensures forall r :: r in rest ==> Past(p, c, r)
  {
    var n := |q.events|;
    forall i, j | 0 <= i < j < |q.events + rest|
      ensures Before(p.order, KeyOf((q.events + rest)[i]), KeyOf((q.events + rest)[j]))
    {
      if i < n <= j {
        assert rest[j - n] in rest;
        assert i == n - 1 || Before(p.order, KeyOf(q.events[i]), KeyOf(q.events[n - 1]));
      }
    }
    assert q.events[n - 1] in q.events;
  }

  ghost predicate Growing(tables: seq<set<Row>>)
  {
    forall i, j :: 0 <= i <= j < |tables| ==> tables[i] <= tables[j]
  }

  /** While rows are only inserted, a walk followed to its end delivers every matching row that was
      there when it started. */
  lemma {:induction false} WalkComplete(tables: seq<set<Row>>, p: Params, c: Option<Cursor>, r: Row)
    requires AllKeyed(tables) && p.limit >= 1 && Growing(tables)
    requires Finished(Walk(tables, p, c)) && r in Candidates(tables[0], p, c)
    ensures r in Delivered(Walk(tables, p, c))
    decreases |tables|
  {
    var q := Query(tables[0], p, c);
    PageFacts(tables[0], p, c);
    WalkUnfolds(tables, p, c);
    if r !in q.events {
      assert Finished(Walk(tables[1..], p, q.nextCursor));
      assert r in tables[1..][0] by { assert tables[0] <= tables[1]; }
      WalkComplete(tables[1..], p, q.nextCursor, r);
    }
  }

  /** Past a row of an ordered listing lie exactly the rows after it. */
  lemma RowsAfter(order: Order, s: set<Row>, all: seq<Row>, k: nat, r: Row)
    requires Ordered(order, all) && SameRows(all, s) && k < |all|
    ensures r in all[k + 1..] <==> r in s && Before(order, KeyOf(all[k]), KeyOf(r))
  {
    var tail := all[k + 1..];
    if r in tail {
      var i :| 0 <= i < |tail| && tail[i] == r;
      assert all[k + 1 + i] == r;
      assert r in all;
    }
    if r in s && Before(order, KeyOf(all[k]), KeyOf(r)) {
      assert r in all;
      var i :| 0 <= i < |all| && all[i] == r;
      assert i > k;
      assert tail[i - k - 1] == r;
    }
  }

  /** Candidates past a candidate: those of the old cursor that come after it. */
  lemma CandidatesPast(t: set<Row>, p: Params, c: Option<Cursor>, last: Row, r: Row)
    requires last in Candidates(t, p, c)
    ensures r in Candidates(t, p, Some(KeyOf(last))) <==>
            r in Candidates(t, p, c) && Before(p.order, KeyOf(last), KeyOf(r))
  {
    PastTransitive(p, c, last, r);
  }

  /** On a table that stays as it is, cutting off a page leaves exactly the next cursor's listing. */
  lemma NextListing(t: set<Row>, p: Params, c: Option<Cursor>, all: seq<Row>, k: nat)
    requires Keyed(t) && all == Listing(p.order, Candidates(t, p, c)) && k < |all|
    ensures Listing(p.order, Candidates(t, p, Some(KeyOf(all[k])))) == all[k + 1..]
  {
    var s, last, tail := Candidates(t, p, c), all[k], all[k + 1..];
    ListingSorts(p.order, s);
    assert last in s by { assert last in all; }
    var next := Candidates(t, p, Some(KeyOf(last)));
    forall r ensures r in tail <==> r in next {
      RowsAfter(p.order, s, all, k, r);
      CandidatesPast(t, p, c, last, r);
    }
    ListingUnique(p.order, next, tail);
  }

  lemma PastTransitive(p: Params, c: Option<Cursor>, last: Row, r: Row)
    ensures Past(p, Some(KeyOf(last)), r) && Past(p, c, last) ==> Past(p, c, r)
  {
  }

  /** The pages a walk takes over n rows: full pages, then one that is not full. */
  function Pages(n: nat, limit: nat): (pages: nat)
    requires limit >= 1
  {
    if n < limit then 1 else 1 + Pages(n - limit, limit)
  }

  lemma {:induction false} PagesAreFloor(n: nat, limit: nat)
    requires limit >= 1
    ensures Pages(n, limit) == n / limit + 1
  {
    if n >= limit {
      PagesAreFloor(n - limit, limit);
      DivUnique(n, limit, (n - limit) / limit + 1, (n - limit) % limit);
    } else {
      DivUnique(n, limit, 0, n);
    }
  }

  lemma DivUnique(n: nat, k: nat, q: int, r: nat)
    requires k >= 1 && n == k * q + r && r < k
    ensures n / k == q
  {
    var d := q - n / k;
    assert k * d == n % k - r;
    Scale(k, d);
  }

  lemma Scale(k: nat, d: int)
    ensures d > 0 ==> k * d >= k
    ensures d < 0 ==> k * d + k <= 0
  {
  }

  /** One page of a fixed table: a prefix of the listing, and the next cursor lists the rest. */
  lemma FixedPage(t: set<Row>, p: Params, c: Option<Cursor>)
    requires Keyed(t) && p.limit >= 1
    ensures var q, all := Query(t, p, c), Listing(p.order, Candidates(t, p, c));
            if |Candidates(t, p, c)| < p.limit then q.nextCursor.None? && q.events == all
            else
              var next := Candidates(t, p, q.nextCursor);
              && q.nextCursor.Some?
              && |next| == |Candidates(t, p, c)| - p.limit
              && q.events + Listing(p.order, next) == all
  {
    ListingLength(p.order, Candidates(t, p, c));
    var q, all := Query(t, p, c), Listing(p.order, Candidates(t, p, c));
    if |all| >= p.limit {
      assert q.events == all[..p.limit] && q.nextCursor == Some(KeyOf(all[p.limit - 1]));
      RestOfListing(t, p, c, all);
    }
  }

  lemma RestOfListing(t: set<Row>, p: Params, c: Option<Cursor>, all: seq<Row>)
    requires Keyed(t) && all == Listing(p.order, Candidates(t, p, c)) && 1 <= p.limit <= |all|
    ensures var next := Candidates(t, p, Some(KeyOf(all[p.limit - 1])));
            |next| == |all| - p.limit && all[..p.limit] + Listing(p.order, next) == all
  {
    NextListing(t, p, c, all, p.limit - 1);
    ListingLength(p.order, Candidates(t, p, Some(KeyOf(all[p.limit - 1]))));
  }

  lemma ListingLength(order: Order, t: set<Row>)
    requires Keyed(t)
    ensures |Listing(order, t)| == |t|
  {
    ListingSorts(order, t);
  }

  lemma {:induction false} FixedWalk(t: set<Row>, tables: seq<set<Row>>, p: Params, c: Option<Cursor>)
    requires Keyed(t) && p.limit >= 1 && (forall i :: 0 <= i < |tables| ==> tables[i] == t)
    requires |tables| >= Pages(|Candidates(t, p, c)|, p.limit)
    ensures Delivered(Walk(tables, p, c)) == Listing(p.order, Candidates(t, p, c))
    ensures Finished(Walk(tables, p, c)) && |Walk(tables, p, c)| == Pages(|Candidates(t, p, c)|, p.limit)
    decreases |tables|
  {
    assert tables[0] == t;
    FixedPage(t, p, c);
    WalkUnfolds(tables, p, c);
    var q := Query(t, p, c);
    if q.nextCursor.Some? {
      FixedWalk(t, tables[1..], p, q.nextCursor);
    }
  }

  /** On a fixed table the pages concatenate to the sorted, filtered list, and the walk ends after
      floor(n / limit) + 1 pages. */
  lemma WalkFixed(t: set<Row>, tables: seq<set<Row>>, p: Params, c: Option<Cursor>)
    requires Keyed(t) && p.limit >= 1 && (forall i :: 0 <= i < |tables| ==> tables[i] == t)
    requires |tables| > |Candidates(t, p, c)| / p.limit
    ensures Delivered(Walk(tables, p, c)) == Listing(p.order, Candidates(t, p, c))
    ensures Chronological(p.order, Delivered(Walk(tables, p, c)))
    ensures SameRows(Delivered(Walk(tables, p, c)), Candidates(t, p, c))
    ensures Finished(Walk(tables, p, c)) && |Walk(tables, p, c)| == |Candidates(t, p, c)| / p.limit + 1
  {
    ListingSorts(p.order, Candidates(t, p, c));
    OrderedIsChronological(p.order, Listing(p.order, Candidates(t, p, c)));
    PagesAreFloor(|Candidates(t, p, c)|, p.limit);
    FixedWalk(t, tables, p, c);
  }
}
