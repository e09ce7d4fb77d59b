/** Storing a batch: rows cut into chunks, each chunk one parameterised INSERT, several chunks one
    transaction. The database is a client whose statements the environment may refuse or cut off
    before or after they take effect. */
module Repository {
  import opened Batchers

  const COLUMNS_PER_ROW: nat := 7
  const MAX_ROWS_PER_STATEMENT: nat := 5000
  const MAX_PARAMETERS: nat := 65535

  datatype EventRow = EventRow(
    deviceId: int, timestamp: int, temperature: real, battery: real,
    latitude: real, longitude: real, eventType: string)

  datatype Value = Whole(i: int) | Time(t: int) | Double(d: real) | Text(s: string)

  // ---- chunks ----

  /** Cuts the items into runs of `size`: nothing lost or reordered, every chunk but the last full,
      none empty. */
  method Chunk<T>(items: seq<T>, size: nat) returns (chunks: seq<seq<T>>)
    requires size >= 1
    ensures Flatten(chunks) == items
    ensures forall i :: 0 <= i < |chunks| ==> 1 <= |chunks[i]| <= size
    ensures forall i :: 0 <= i < |chunks| - 1 ==> |chunks[i]| == size
    ensures size * |chunks| >= |items| && (chunks != [] ==> size * (|chunks| - 1) < |items|)
  {
    chunks := [];
    var i := 0;
    while i < |items|
      invariant i == size * |chunks|
      invariant Flatten(chunks) == items[..if i < |items| then i else |items|]
      invariant forall k :: 0 <= k < |chunks| ==> 1 <= |chunks[k]| <= size
      invariant forall k :: 0 <= k < |chunks| && (k < |chunks| - 1 || i <= |items|) ==> |chunks[k]| == size
      invariant chunks != [] ==> size * (|chunks| - 1) < |items|
      decreases |items| - i
    {
      var end := if i + size < |items| then i + size else |items|;
      FlattenAppend(chunks, items[i..end]);
      assert items[..i] + items[i..end] == items[..end];
      assert size * (|chunks| + 1) == i + size;
      chunks := chunks + [items[i..end]];
      i := i + size;
    }
    assert items[..|items|] == items;
  }

  // ---- one INSERT statement ----

  function ColumnsOf(r: EventRow): seq<Value>
  {
    [Whole(r.deviceId), Time(r.timestamp), Double(r.temperature), Double(r.battery),
     Double(r.latitude), Double(r.longitude), Text(r.eventType)]
  }

  /** The placeholders of one VALUES tuple. */
  function Tuple(base: nat): seq<nat>
  {
    [base + 1, base + 2, base + 3, base + 4, base + 5, base + 6, base + 7]
  }

  datatype Statement =
    | Begin
    | Insert(tuples: seq<seq<nat>>, values: seq<Value>)
    | Commit
    | Rollback

  /** What PostgreSQL needs of a tuple: seven bound placeholders, each of its column's type. */
  predicate WellTyped(tuple: seq<nat>, values: seq<Value>)
  {
    && |tuple| == COLUMNS_PER_ROW
    && (forall j :: 0 <= j < |tuple| ==> 1 <= tuple[j] <= |values|)
    && values[tuple[0] - 1].Whole? && values[tuple[1] - 1].Time?
    && values[tuple[2] - 1].Double? && values[tuple[3] - 1].Double?
    && values[tuple[4] - 1].Double? && values[tuple[5] - 1].Double?
    && values[tuple[6] - 1].Text?
  }

  ghost predicate WellFormed(s: Statement)
  {
    s.Insert? ==>
      |s.values| <= MAX_PARAMETERS && forall i :: 0 <= i < |s.tuples| ==> WellTyped(s.tuples[i], s.values)
  }

  /** The row a tuple stands for: `$n` is the n-th value. */
  function RowOf(tuple: seq<nat>, values: seq<Value>): EventRow
    requires WellTyped(tuple, values)
  {
    EventRow(values[tuple[0] - 1].i, values[tuple[1] - 1].t, values[tuple[2] - 1].d, values[tuple[3] - 1].d,
             values[tuple[4] - 1].d, values[tuple[5] - 1].d, values[tuple[6] - 1].s)
  }

  /** The rows an INSERT stands for. */
  ghost function Inserted(s: Statement): seq<EventRow>
    requires s.Insert? && WellFormed(s)
  {
    seq(|s.tuples|, i requires 0 <= i < |s.tuples| => RowOf(s.tuples[i], s.values))
  }

  /** Builds the statement for a chunk: it stands for exactly the chunk's rows in order, and its
      placeholders read 1, 2, ..., 7n, one for each bound value. */
  method InsertChunk(rows: seq<EventRow>) returns (s: Statement)
    requires 1 <= |rows| <= MAX_ROWS_PER_STATEMENT
    ensures s.Insert? && WellFormed(s) && Inserted(s) == rows
    ensures |s.values| == COLUMNS_PER_ROW * |rows| && |s.tuples| == |rows|
    ensures forall i, j :: 0 <= i < |rows| && 0 <= j < COLUMNS_PER_ROW ==>
              |s.tuples[i]| == COLUMNS_PER_ROW && s.tuples[i][j] == COLUMNS_PER_ROW * i + j + 1
    ensures forall i :: 0 <= i < |rows| ==> ValuesOf(s.values, COLUMNS_PER_ROW * i, rows[i])
  {
    var values, tuples := [], [];
    for index := 0 to |rows|
      invariant |values| == COLUMNS_PER_ROW * index && |tuples| == index
      invariant forall i :: 0 <= i < index ==> tuples[i] == Tuple(COLUMNS_PER_ROW * i)
      invariant forall i :: 0 <= i < index ==> WellTyped(tuples[i], values) && RowOf(tuples[i], values) == rows[i]
    {
      var tuple, columns := Tuple(index * COLUMNS_PER_ROW), ColumnsOf(rows[index]);
      forall i | 0 <= i < index
        ensures WellTyped(tuples[i], values + columns) && RowOf(tuples[i], values + columns) == rows[i]
      {
        EarlierValuesStay(tuples[i], values, columns);
      }
      NewTuple(values, rows[index]);
      tuples := tuples + [tuple];
      values := values + columns;
    }
    s := Insert(tuples, values);
    forall i | 0 <= i < |rows| ensures ValuesOf(values, COLUMNS_PER_ROW * i, rows[i]) {
      ValuesInOrder(values, COLUMNS_PER_ROW * i, rows[i]);
    }
  }

  /** The row's columns, in the order of the INSERT's column list. */
  ghost predicate ValuesOf(values: seq<Value>, at: nat, r: EventRow)
  {
    at + COLUMNS_PER_ROW <= |values| &&
    values[at..at + COLUMNS_PER_ROW] == [Whole(r.deviceId), Time(r.timestamp), Double(r.temperature), Double(r.battery),
                                         Double(r.latitude), Double(r.longitude), Text(r.eventType)]
  }

  lemma ValuesInOrder(values: seq<Value>, at: nat, r: EventRow)
    requires WellTyped(Tuple(at), values) && RowOf(Tuple(at), values) == r
    ensures ValuesOf(values, at, r)
  {
  }

  lemma EarlierValuesStay(tuple: seq<nat>, values: seq<Value>, more: seq<Value>)
    requires WellTyped(tuple, values)
    ensures WellTyped(tuple, values + more) && RowOf(tuple, values + more) == RowOf(tuple, values)
  {
    assert forall j :: 0 <= j < |tuple| ==> (values + more)[tuple[j] - 1] == values[tuple[j] - 1];
  }

  lemma NewTuple(values: seq<Value>, row: EventRow)
    ensures WellTyped(Tuple(|values|), values + ColumnsOf(row))
    ensures RowOf(Tuple(|values|), values + ColumnsOf(row)) == row
  {
    var all, columns, n := values + ColumnsOf(row), ColumnsOf(row), |values|;
    assert all[n] == columns[0] && all[n + 1] == columns[1] && all[n + 2] == columns[2] && all[n + 3] == columns[3];
    assert all[n + 4] == columns[4] && all[n + 5] == columns[5] && all[n + 6] == columns[6];
  }

  // ---- the transaction ----

  /** What becomes of a statement: applied and answered, refused by the server, or cut off by a
      broken connection before or after it took effect. */
  datatype Outcome = Applied | Refused | LostBefore | LostAfter

  class Client {
    var durable: seq<EventRow>
    var staged: seq<EventRow>
    var open: bool
    var aborted: bool
    var connected: bool
    var visible: seq<seq<EventRow>>   // the table as others see it, after each statement

    constructor (table: seq<EventRow>)
      ensures durable == table && Idle() && visible == []
    {
      durable, staged, open, aborted, connected, visible := table, [], false, false, true, [];
    }

    predicate Idle()
      reads this
    {
      connected && !open && !aborted && staged == []
    }

    /** The server's side of one statement: a refusal aborts an open transaction, a broken
        connection discards it, and committing an aborted one discards it while reporting success. */
    method Query(s: Statement, outcome: Outcome) returns (ok: bool)
      requires WellFormed(s)
      modifies this
      ensures ok == (old(connected) && outcome == Applied)
      ensures connected == (old(connected) && outcome in {Applied, Refused})
      ensures visible == old(visible) + [durable]
      ensures var applied := old(connected) && outcome in {Applied, LostAfter};
              durable == if applied && s.Insert? && !old(open) then old(durable) + Inserted(s)
                         else if applied && s.Commit? && old(open) && !old(aborted) then old(durable) + old(staged)
                         else old(durable)
      ensures connected && s.Insert? ==>
                && open == old(open) && aborted == (old(aborted) || (old(open) && !ok))
                && staged == if old(open) && ok then old(staged) + Inserted(s) else old(staged)
      ensures connected && s.Begin? ==>
                if ok then open && !aborted && staged == []
                else open == old(open) && aborted == (old(aborted) || old(open)) && staged == old(staged)
      ensures connected && s.Commit? ==> !open && !aborted && staged == []
      ensures connected && s.Rollback? ==>
                if ok then !open && !aborted && staged == []
                else open == old(open) && aborted == (old(aborted) || old(open)) && staged == old(staged)
      ensures !connected ==> !open && !aborted && staged == []
    {
      ok := connected && outcome == Applied;
      if connected {
        if outcome == Applied || outcome == LostAfter {
          match s
          case Begin => open, aborted, staged := true, false, [];
          case Insert(_, _) =>
            var inserted := Rows(s.tuples, s.values);
            if open { staged := staged + inserted; } else { durable := durable + inserted; }
          case Commit =>
            if open && !aborted { durable := durable + staged; }
            open, aborted, staged := false, false, [];
          case Rollback => open, aborted, staged := false, false, [];
        } else if s.Commit? {
          open, aborted, staged := false, false, [];
        } else if open {
          aborted := true;
        }
        connected := outcome == Applied || outcome == Refused;
      }
      if !connected { open, aborted, staged := false, false, []; }
      visible := visible + [durable];
    }
  }

  method Rows(tuples: seq<seq<nat>>, values: seq<Value>) returns (rows: seq<EventRow>)
    requires WellFormed(Insert(tuples, values))
    ensures rows == Inserted(Insert(tuples, values))
  {
    rows := seq(|tuples|, i requires 0 <= i < |tuples| => RowOf(tuples[i], values));
  }

  datatype Result = Stored(count: nat) | Failed

  /** How many statements come before the one that decides: none for a single INSERT, else BEGIN
      and every chunk before COMMIT. */
  function Deciding(n: nat): nat
  {
    Before((n + MAX_ROWS_PER_STATEMENT - 1) / MAX_ROWS_PER_STATEMENT)
  }

  ghost predicate AllApplied(env: nat -> Outcome, k: nat)
  {
    forall i: nat :: i < k ==> env(i) == Applied
  }

  /** Every table others saw from the given moment on is one of the two. */
  ghost predicate Only(visible: seq<seq<EventRow>>, start: nat, before: seq<EventRow>, after: seq<EventRow>)
  {
    forall i :: start <= i < |visible| ==> visible[i] == before || visible[i] == after
  }

  /** The k-th statement issued was the first to fail. */
  ghost predicate FailedFirst(env: nat -> Outcome, k: nat)
  {
    k >= 1 && AllApplied(env, k - 1) && env(k - 1) != Applied
  }

  /** What a failed attempt leaves of the connection: it broke, or a transaction is still open because
      one of the INSERTs inside it was refused, or it is idle. */
  ghost predicate LeftOpen(client: Client, env: nat -> Outcome, k: nat, deciding: nat)
    requires k >= 1
    reads client
  {
    && client.connected == (env(k - 1) == Refused)
    && (client.connected ==> if 1 <= k - 1 < deciding then client.open else client.Idle())
  }

  /** Inside the transaction that statement 0 opened: every chunk, stopping at the first failure; `k`
      statements were issued. */
  method InsertAll(client: Client, groups: seq<seq<EventRow>>, env: nat -> Outcome, ghost start: nat)
    returns (ok: bool, k: nat)
    requires client.connected && client.open && !client.aborted && client.staged == [] && env(0) == Applied
    requires forall i :: 0 <= i < |groups| ==> 1 <= |groups[i]| <= MAX_ROWS_PER_STATEMENT
    requires Only(client.visible, start, client.durable, client.durable)
    modifies client
    ensures client.durable == old(client.durable)
    ensures Only(client.visible, start, client.durable, client.durable)
    ensures 1 <= k <= |groups| + 1
    ensures if ok then k == |groups| + 1 && AllApplied(env, k) && client.connected
                       && client.open && !client.aborted && client.staged == Flatten(groups)
            else FailedFirst(env, k) && LeftOpen(client, env, k, |groups| + 1)
  {
    ok, k := true, 1;
    var i := 0;
    while ok && i < |groups|
      invariant 0 <= i <= |groups| && 1 <= k <= |groups| + 1
      invariant client.durable == old(client.durable) && Only(client.visible, start, client.durable, client.durable)
      invariant if ok then k == i + 1 && AllApplied(env, k) && client.connected
                           && client.open && !client.aborted && client.staged == Flatten(groups[..i])
                else FailedFirst(env, k) && LeftOpen(client, env, k, |groups| + 1)
      decreases |groups| - i
    {
      var s := InsertChunk(groups[i]);
      FlattenAppend(groups[..i], groups[i]);
      assert groups[..i] + [groups[i]] == groups[..i + 1];
      ok := client.Query(s, env(k));
      k, i := k + 1, i + 1;
    }
    assert groups[..|groups|] == groups;
  }

  /** BEGIN, every chunk, COMMIT, stopping at the first failure; `k` statements were issued. */
  method Transaction(client: Client, groups: seq<seq<EventRow>>, env: nat -> Outcome) returns (ok: bool, k: nat)
    requires client.Idle()
    requires forall i :: 0 <= i < |groups| ==> 1 <= |groups[i]| <= MAX_ROWS_PER_STATEMENT
    modifies client
    ensures Only(client.visible, |old(client.visible)|, old(client.durable), old(client.durable) + Flatten(groups))
    ensures ok == AllApplied(env, |groups| + 2)
    ensures client.durable ==
              if AllApplied(env, |groups| + 1) && env(|groups| + 1) in {Applied, LostAfter}
              then old(client.durable) + Flatten(groups) else old(client.durable)
    ensures if ok then client.Idle() else FailedFirst(env, k) && LeftOpen(client, env, k, |groups| + 1)
  {
    ok := client.Query(Begin, env(0));
    k := 1;
    if ok {
      ok, k := InsertAll(client, groups, env, |old(client.visible)|);
    }
    if ok {
      ok := client.Query(Commit, env(k));
      k := k + 1;
    }
  }

  /** The statements before the one that decides, by chunks. */
  function Before(chunks: nat): nat
  {
    if chunks == 1 then 0 else chunks + 1
  }

  /** One chunk is one INSERT on its own; several are a transaction. */
  method InsertGroups(client: Client, groups: seq<seq<EventRow>>, env: nat -> Outcome) returns (ok: bool, k: nat)
    requires client.Idle()
    requires forall i :: 0 <= i < |groups| ==> 1 <= |groups[i]| <= MAX_ROWS_PER_STATEMENT
    modifies client
    ensures Only(client.visible, |old(client.visible)|, old(client.durable), old(client.durable) + Flatten(groups))
    ensures ok == AllApplied(env, Before(|groups|) + 1)
    ensures client.durable ==
              if AllApplied(env, Before(|groups|)) && env(Before(|groups|)) in {Applied, LostAfter}
              then old(client.durable) + Flatten(groups) else old(client.durable)
    ensures if ok then client.Idle() else FailedFirst(env, k) && LeftOpen(client, env, k, Before(|groups|))
  {
    if |groups| == 1 {
      assert Flatten(groups) == groups[0] by { assert groups[1..] == []; }
      var s := InsertChunk(groups[0]);
      ok := client.Query(s, env(0));
      k := 1;
    } else {
      ok, k := Transaction(client, groups, env);
    }
  }

  /** The server refused an INSERT inside the transaction and then the ROLLBACK. */
  ghost predicate RollbackRefused(env: nat -> Outcome, deciding: nat)
  {
    exists k: nat :: 1 <= k < deciding && AllApplied(env, k) && env(k) == Refused && env(k + 1) == Refused
  }

  lemma RollbackAt(env: nat -> Outcome, k: nat, deciding: nat)
    requires FailedFirst(env, k)
    ensures RollbackRefused(env, deciding) <==> 1 <= k - 1 < deciding && env(k - 1) == Refused && env(k) == Refused
  {
    if RollbackRefused(env, deciding) {
      var j: nat :| 1 <= j < deciding && AllApplied(env, j) && env(j) == Refused && env(j + 1) == Refused;
      assert j == k - 1;
    }
  }

  lemma NoRollback(env: nat -> Outcome, deciding: nat)
    requires AllApplied(env, deciding + 1)
    ensures !RollbackRefused(env, deciding)
  {
  }

  /** Stores a batch, or nothing. `env(i)` is the fate of the i-th statement and `connects` says
      whether a connection could be had. At every moment others see the whole batch or none of it;
      success is reported exactly when every statement was answered; and the batch is stored
      exactly when the deciding statement was reached and took effect. A broken connection is destroyed;
      one that goes back to the pool is clean, except exactly when the server refused an INSERT inside
      the transaction and then the ROLLBACK. */
  method InsertEvents(client: Client, rows: seq<EventRow>, connects: bool, env: nat -> Outcome)
    returns (r: Result, destroyed: bool)
    requires client.Idle()
    modifies client
    ensures Only(client.visible, |old(client.visible)|, old(client.durable), old(client.durable) + rows)
    ensures rows == [] ==> r == Stored(0) && client.durable == old(client.durable)
    ensures rows != [] ==> r == if connects && AllApplied(env, Deciding(|rows|) + 1) then Stored(|rows|) else Failed
    ensures rows != [] ==>
              client.durable ==
                if connects && AllApplied(env, Deciding(|rows|)) && env(Deciding(|rows|)) in {Applied, LostAfter}
                then old(client.durable) + rows else old(client.durable)
    ensures destroyed == !client.connected
    ensures !destroyed && !client.Idle() <==> rows != [] && connects && RollbackRefused(env, Deciding(|rows|))
  {
    r, destroyed := Failed, false;
    if rows == [] { return Stored(0), false; }
    if !connects { return; }
    var groups := Chunk(rows, MAX_ROWS_PER_STATEMENT);
    assert Before(|groups|) == Deciding(|rows|);
    var ok, k := InsertGroups(client, groups, env);
    if ok {
      r := Stored(|rows|);
      NoRollback(env, Deciding(|rows|));
    } else {
      RollbackAt(env, k, Deciding(|rows|));
      var _ := client.Query(Rollback, env(k));
    }
    destroyed := !client.connected;
  }
}
