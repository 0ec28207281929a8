/** The event stream: a cursor loop over an audit table that grows while it is read. */
module EventFeed {
  import opened AuditChain

  predicate Increasing(rows: seq<Row>) {
    forall i, k | 0 <= i < k < |rows| :: rows[i].sequence < rows[k].sequence
  }

  /** The rows with a sequence beyond `after`, in table order. */
  function Newer(rows: seq<Row>, after: nat): seq<Row> {
    if rows == [] then []
    else
      var n := |rows| - 1;
      Newer(rows[..n], after) + if rows[n].sequence > after then [rows[n]] else []
  }

  /** `SELECT * FROM audit_events WHERE sequence > ? ORDER BY sequence LIMIT ?` */
  function ListEvents(rows: seq<Row>, after: nat, limit: nat): seq<Row> {
    var newer, bound := Newer(rows, after), if limit < 1000 then limit else 1000;
    if |newer| <= bound then newer else newer[..bound]
  }

  /** Row `k` is the first one beyond `after`. */
  predicate Splits(rows: seq<Row>, after: nat, k: nat) {
    k <= |rows| && forall i | 0 <= i < |rows| :: i >= k <==> rows[i].sequence > after
  }

  /** Rows appended later only extend what is to be sent. */
  lemma {:induction false} NewerGrows(rows: seq<Row>, more: seq<Row>, after: nat)
    ensures Newer(rows + more, after) == Newer(rows, after) + Newer(more, after)
  {
    if more == [] {
      assert rows + more == rows;
    } else {
      var n := |more| - 1;
      assert (rows + more)[..|rows| + n] == rows + more[..n];
      NewerGrows(rows, more[..n], after);
    }
  }

  lemma {:induction false} NoneNewer(rows: seq<Row>, after: nat)
    requires forall i | 0 <= i < |rows| :: rows[i].sequence <= after
    ensures Newer(rows, after) == []
  {
    if rows != [] { NoneNewer(rows[..|rows| - 1], after); }
  }

  lemma {:induction false} AllNewer(rows: seq<Row>, after: nat)
    requires forall i | 0 <= i < |rows| :: rows[i].sequence > after
    ensures Newer(rows, after) == rows
  {
    if rows != [] {
      AllNewer(rows[..|rows| - 1], after);
      assert rows == rows[..|rows| - 1] + [rows[|rows| - 1]];
    }
  }

  lemma SplitIsSuffix(rows: seq<Row>, after: nat, k: nat)
    requires Splits(rows, after, k)
    ensures Newer(rows, after) == rows[k..]
  {
    NoneNewer(rows[..k], after);
    AllNewer(rows[k..], after);
    NewerGrows(rows[..k], rows[k..], after);
    assert rows == rows[..k] + rows[k..];
  }

  function FirstNewer(rows: seq<Row>, after: nat): nat {
    if rows == [] || rows[|rows| - 1].sequence <= after then |rows| else FirstNewer(rows[..|rows| - 1], after)
  }

  lemma {:induction false} FirstNewerSplits(rows: seq<Row>, after: nat)
    requires Increasing(rows)
    ensures Splits(rows, after, FirstNewer(rows, after))
  {
    if rows != [] && rows[|rows| - 1].sequence > after {
      var front := rows[..|rows| - 1];
      assert forall i | 0 <= i < |front| :: front[i] == rows[i];
      FirstNewerSplits(front, after);
    }
  }

  /** In an increasing table the newer rows are a suffix of it. */
  lemma NewerIsSuffix(rows: seq<Row>, after: nat) returns (k: nat)
    requires Increasing(rows)
    ensures Splits(rows, after, k) && Newer(rows, after) == rows[k..]
  {
    k := FirstNewer(rows, after);
    FirstNewerSplits(rows, after);
    SplitIsSuffix(rows, after, k);
  }

  /** Moving the cursor to the k-th sent event drops exactly the first k. */
  lemma CursorDropsSent(rows: seq<Row>, after: nat, k: nat)
    requires Increasing(rows) && 1 <= k <= |Newer(rows, after)|
    ensures Newer(rows, Newer(rows, after)[k - 1].sequence) == Newer(rows, after)[k..]
  {
    var a := NewerIsSuffix(rows, after);
    var b := NewerIsSuffix(rows, rows[a + k - 1].sequence);
    assert a + k - 1 < b;
    assert a + k < |rows| ==> rows[a + k - 1].sequence < rows[a + k].sequence;
    assert rows[a..][k..] == rows[a + k..];
  }

  /** A page is the oldest rows beyond the cursor, as many as there are up to the limit and up to a thousand. */
  lemma PageIsExact(rows: seq<Row>, after: nat, limit: nat)
    requires Increasing(rows)
    ensures ListEvents(rows, after, limit) <= Newer(rows, after)
    ensures forall r | r in ListEvents(rows, after, limit) :: r in rows && r.sequence > after
    ensures |ListEvents(rows, after, limit)| <= 1000 && |ListEvents(rows, after, limit)| <= limit
    ensures |ListEvents(rows, after, limit)| < 1000 && |ListEvents(rows, after, limit)| < limit ==>
              forall r | r in rows && r.sequence > after :: r in ListEvents(rows, after, limit)
  {
    var k := NewerIsSuffix(rows, after);
    forall r | r in Newer(rows, after) ensures r in rows && r.sequence > after {
      var i :| 0 <= i < |rows[k..]| && rows[k..][i] == r;
      assert rows[k + i] == r;
    }
    forall r | r in rows && r.sequence > after ensures r in Newer(rows, after) {
      var i :| 0 <= i < |rows| && rows[i] == r;
      assert rows[k..][i - k] == r;
    }
  }

  // ---------- the stream and the writers, interleaved ----------

  datatype Feed = Feed(rows: seq<Row>, cursor: nat, batch: seq<Row>, sent: seq<Row>)

  datatype Move = Append(more: seq<Row>) | Poll(limit: nat) | Send

  predicate Init(after: nat, f: Feed) {
    Increasing(f.rows) && f.cursor == after && f.batch == [] && f.sent == []
  }

  predicate Step(f: Feed, m: Move, f': Feed) {
    match m
    case Append(more) => Increasing(f.rows + more) && f' == f.(rows := f.rows + more)
    case Poll(limit) => f.batch == [] && limit >= 1 && f' == f.(batch := ListEvents(f.rows, f.cursor, limit))
    case Send =>
      && f.batch != []
      && f' == Feed(f.rows, f.batch[0].sequence, f.batch[1..], f.sent + [f.batch[0]])
  }

  predicate FeedOk(after: nat, f: Feed) {
    && Increasing(f.rows)
    && f.sent + f.batch <= Newer(f.rows, after)
    && f.cursor == if f.sent == [] then after else f.sent[|f.sent| - 1].sequence
  }

  /** What is still unsent is what a poll from the cursor would list. */
  lemma CursorIsExact(after: nat, f: Feed)
    requires FeedOk(after, f)
    ensures Newer(f.rows, f.cursor) == Newer(f.rows, after)[|f.sent|..]
  {
    var all := Newer(f.rows, after);
    if f.sent != [] {
      assert f.sent[|f.sent| - 1] == all[|f.sent| - 1];
      CursorDropsSent(f.rows, after, |f.sent|);
    }
  }

  lemma StepOk(after: nat, f: Feed, m: Move, f': Feed)
    requires FeedOk(after, f) && Step(f, m, f')
    ensures FeedOk(after, f')
  {
    match m
    case Append(more) => NewerGrows(f.rows, more, after);
    case Poll(limit) =>
      CursorIsExact(after, f);
      var all := Newer(f.rows, after);
      assert all == all[..|f.sent|] + all[|f.sent|..];
      assert f.sent == all[..|f.sent|];
    case Send =>
      assert f'.sent + f'.batch == f.sent + f.batch;
  }

  ghost predicate IsRun(after: nat, feeds: seq<Feed>, moves: seq<Move>) {
    && |feeds| == |moves| + 1 && Init(after, feeds[0])
    && forall n | 0 <= n < |moves| :: Step(feeds[n], moves[n], feeds[n + 1])
  }

  lemma {:induction false} RunOk(after: nat, feeds: seq<Feed>, moves: seq<Move>, n: nat)
    requires IsRun(after, feeds, moves) && n < |feeds|
    ensures FeedOk(after, feeds[n])
  {
    if n > 0 {
      RunOk(after, feeds, moves, n - 1);
      StepOk(after, feeds[n - 1], moves[n - 1], feeds[n]);
    }
  }

  /** At every moment what was sent is a prefix of the events beyond `after`: no gap, no duplicate, in order. */
  lemma SentIsPrefix(after: nat, feeds: seq<Feed>, moves: seq<Move>, n: nat)
    requires IsRun(after, feeds, moves) && n < |feeds|
    ensures feeds[n].sent <= Newer(feeds[n].rows, after)
  {
    RunOk(after, feeds, moves, n);
  }

  /** A poll comes back empty exactly when everything in the table has been sent. */
  lemma EmptyPollMeansCaughtUp(after: nat, feeds: seq<Feed>, moves: seq<Move>, n: nat)
    requires IsRun(after, feeds, moves) && n < |moves| && moves[n].Poll?
    ensures feeds[n + 1].batch == [] <==> feeds[n].sent == Newer(feeds[n].rows, after)
  {
    RunOk(after, feeds, moves, n);
    CursorIsExact(after, feeds[n]);
    assert Step(feeds[n], moves[n], feeds[n + 1]);
    var all := Newer(feeds[n].rows, after);
    assert feeds[n].sent == all[..|feeds[n].sent|];
    assert all[|feeds[n].sent|..] == [] <==> feeds[n].sent == all;
  }

  // ---------- the loop itself ----------

  /** `event_source` over the table as it is found at each poll. */
  method EventSource(tables: seq<seq<Row>>, after: nat, limit: nat) returns (sent: seq<Row>)
    requires tables != [] && limit >= 1
    requires forall n | 0 <= n < |tables| :: Increasing(tables[n])
    requires forall n | 0 < n < |tables| :: tables[n - 1] <= tables[n]
    ensures sent <= Newer(tables[|tables| - 1], after)
    ensures |tables| == 1 ==> sent == ListEvents(tables[0], after, limit)
  {
    var cursor := after;
    sent := [];
    for n := 0 to |tables|
      invariant n == 0 ==> sent == [] && cursor == after
      invariant n > 0 ==> FeedOk(after, Feed(tables[n - 1], cursor, [], sent))
      invariant n == 1 ==> sent == ListEvents(tables[0], after, limit)
    {
      ghost var start := Feed(tables[n], cursor, [], sent);
      if n > 0 {
        assert tables[n] == tables[n - 1] + tables[n][|tables[n - 1]|..];
        StepOk(after, Feed(tables[n - 1], cursor, [], sent), Append(tables[n][|tables[n - 1]|..]), start);
      }
      var batch := ListEvents(tables[n], cursor, limit);
      StepOk(after, start, Poll(limit), Feed(tables[n], cursor, batch, sent));
      cursor, sent := SendBatch(tables[n], after, cursor, batch, sent);
    }
  }

  method SendBatch(ghost rows: seq<Row>, ghost after: nat, start: nat, batch: seq<Row>, before: seq<Row>)
    returns (cursor: nat, sent: seq<Row>)
    requires FeedOk(after, Feed(rows, start, batch, before))
    ensures FeedOk(after, Feed(rows, cursor, [], sent)) && sent == before + batch
  {
    cursor, sent := start, before;
    for i := 0 to |batch|
      invariant FeedOk(after, Feed(rows, cursor, batch[i..], sent))
      invariant sent == before + batch[..i]
    {
      assert batch[i..][1..] == batch[i + 1..];
      ghost var here := Feed(rows, cursor, batch[i..], sent);
      cursor := batch[i].sequence;
      sent := sent + [batch[i]];
      StepOk(after, here, Send, Feed(rows, cursor, batch[i + 1..], sent));
    }
    assert batch[|batch|..] == [] && batch[..|batch|] == batch;
  }
}
