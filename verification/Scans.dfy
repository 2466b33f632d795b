/** The batched cursor scans over the queue, against the plain scan they stand for. */
module Scans {
  import opened Domain

  /** Queue position first, stage order second; a task alone has order zero. */
  datatype Key = Key(sequence: int, order: int)
  datatype Row = Row(key: Key, id: string)

  const LIMIT: nat := 100

  predicate Less(a: Key, b: Key) {
    a.sequence < b.sequence || (a.sequence == b.sequence && a.order < b.order)
  }

  predicate Sorted(rows: seq<Row>) {
    forall i, j | 0 <= i < j < |rows| :: Less(rows[i].key, rows[j].key)
  }

  /** The query: rows after the cursor, in order, at most `n`. */
  function Page(rows: seq<Row>, cursor: Key, n: nat): seq<Row> {
    if rows == [] || n == 0 then []
    else if Less(cursor, rows[0].key) then [rows[0]] + Page(rows[1..], cursor, n - 1)
    else Page(rows[1..], cursor, n)
  }

  /** The simple scan: the first row that is eligible. */
  function First(rows: seq<Row>, eligible: Row -> bool): Option<Row> {
    if rows == [] then None
    else if eligible(rows[0]) then Some(rows[0])
    else First(rows[1..], eligible)
  }

  /** On sorted rows it is the eligible row with the least key, and none if and only if there is none. */
  lemma {:induction false} FirstIsLeast(rows: seq<Row>, eligible: Row -> bool)
    requires Sorted(rows)
    ensures First(rows, eligible).None? <==> forall r | r in rows :: !eligible(r)
    ensures First(rows, eligible).Some? ==>
              var f := First(rows, eligible).value;
              f in rows && eligible(f) && forall r | r in rows && eligible(r) :: r == f || Less(f.key, r.key)
  {
    if rows != [] {
      FirstIsLeast(rows[1..], eligible);
      assert rows == [rows[0]] + rows[1..];
    }
  }

  lemma {:induction false} FirstSplits(rows: seq<Row>, k: nat, eligible: Row -> bool)
    requires k <= |rows| && forall i | 0 <= i < k :: !eligible(rows[i])
    ensures First(rows, eligible) == First(rows[k..], eligible)
  {
    if k > 0 {
      FirstSplits(rows[1..], k - 1, eligible);
      assert rows[1..][k - 1..] == rows[k..];
    }
  }

  /** A page after the cursor is the next stretch of the rows. */
  lemma {:induction false} PageIsSlice(rows: seq<Row>, cursor: Key, k: nat, n: nat)
    requires Sorted(rows) && k <= |rows|
    requires forall i | 0 <= i < |rows| :: Less(cursor, rows[i].key) <==> k <= i
    ensures Page(rows, cursor, n) == rows[k..Min(k + n, |rows|)]
    decreases |rows|, n
  {
    if rows != [] && n > 0 {
      if k == 0 {
        PageIsSlice(rows[1..], cursor, 0, n - 1);
      } else {
        PageIsSlice(rows[1..], cursor, k - 1, n);
      }
    }
  }

  /** Where a cursor stands after `k` rows. */
  predicate CursorAt(rows: seq<Row>, cursor: Key, k: nat) {
    k <= |rows| && if k == 0 then forall i | 0 <= i < |rows| :: Less(cursor, rows[i].key) else cursor == rows[k - 1].key
  }

  lemma CursorSplits(rows: seq<Row>, cursor: Key, k: nat)
    requires Sorted(rows) && CursorAt(rows, cursor, k)
    ensures forall i | 0 <= i < |rows| :: Less(cursor, rows[i].key) <==> k <= i
  {
  }

  /**
   The scan for a stage: read a page, look at each row and move the cursor with it, and stop when
   a page is not full.  It finds what the simple scan finds, for queues of any length.
   */
  method NextStage(rows: seq<Row>, eligible: Row -> bool) returns (found: Option<Row>)
    requires Sorted(rows) && forall r | r in rows :: r.key.sequence >= 1 && r.key.order >= 0
    ensures found == First(rows, eligible)
  {
    var cursor := Key(0, -1);
    ghost var k := 0;
    while true
      invariant CursorAt(rows, cursor, k) && forall i | 0 <= i < k :: !eligible(rows[i])
      decreases |rows| - k
    {
      var batch := Page(rows, cursor, LIMIT);
      CursorSplits(rows, cursor, k);
      PageIsSlice(rows, cursor, k, LIMIT);
      var j := 0;
      while j < |batch|
        invariant j <= |batch| && CursorAt(rows, cursor, k + j) && forall i | 0 <= i < k + j :: !eligible(rows[i])
      {
        cursor := batch[j].key;
        if eligible(batch[j]) {
          FirstSplits(rows, k + j, eligible);
          return Some(batch[j]);
        }
        j := j + 1;
      }
      k := k + |batch|;
      if |batch| < LIMIT {
        FirstSplits(rows, |rows|, eligible);
        return None;
      }
    }
  }

  /** The scan for a task: the same with the queue position alone as cursor. */
  method NextTask(rows: seq<Row>, eligible: Row -> bool) returns (found: Option<Row>)
    requires Sorted(rows) && forall r | r in rows :: r.key.sequence >= 1 && r.key.order == 0
    ensures found == First(rows, eligible)
  {
    var after := 0;
    ghost var k := 0;
    while true
      invariant CursorAt(rows, Key(after, 0), k) && forall i | 0 <= i < k :: !eligible(rows[i])
      decreases |rows| - k
    {
      var tasks := Page(rows, Key(after, 0), LIMIT);
      CursorSplits(rows, Key(after, 0), k);
      PageIsSlice(rows, Key(after, 0), k, LIMIT);
      var j := 0;
      while j < |tasks|
        invariant j <= |tasks| && CursorAt(rows, Key(after, 0), k + j)
                  && forall i | 0 <= i < k + j :: !eligible(rows[i])
      {
        assert tasks[j] == rows[k + j] && rows[k + j] in rows;
        after := tasks[j].key.sequence;
        if eligible(tasks[j]) {
          FirstSplits(rows, k + j, eligible);
          return Some(tasks[j]);
        }
        j := j + 1;
      }
      k := k + |tasks|;
      if |tasks| < LIMIT {
        FirstSplits(rows, |rows|, eligible);
        return None;
      }
    }
  }
}
