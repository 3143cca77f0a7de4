/**
  The polling loop of `main_loop`: each iteration fetches the new gifts and
  posts one alert per returned row, in the returned order. Any exception from
  the fetch (connecting, querying, closing) is caught at the iteration
  boundary, before the watermark is assigned, so a failed iteration sends
  nothing and leaves the watermark where it was. Delivery errors are caught
  inside the sender and change nothing the loop keeps.

  The endless loop is modelled as a finite run over the store's behaviour in
  each iteration; the sleep between iterations has no observable effect here.
 */
module MonitorLoop {
  import opened Wrappers
  import opened GiftRecords
  import opened GiftQuery
  import opened Watermark
  import opened AlertPayload

  /** How the store behaves in one iteration: it answers the query from a
      snapshot of its tables, or the fetch raises. */
  datatype Connection = Up(tables: Tables) | Down

  /** What one iteration did: the rows it fetched and the alerts it posted, or
      the error it caught from the fetch. */
  datatype IterationLog = Dispatched(rows: seq<Gift>, alerts: seq<Payload>) | PollFailed

  function RowsOf(log: IterationLog): seq<Gift> {
    if log.Dispatched? then log.rows else []
  }

  /** One iteration's log together with the watermark it leaves behind. */
  datatype Step = Step(log: IterationLog, next: PollState)

  /** The `for row in new_gifts` loop: one payload per row, in row order. */
  function Alerts(rows: seq<Gift>, render: Render): (sent: seq<Payload>)
    ensures |sent| == |rows|
    ensures forall i :: 0 <= i < |rows| ==> sent[i] == BuildPayload(rows[i], render)
  {
    if rows == [] then [] else [BuildPayload(rows[0], render)] + Alerts(rows[1..], render)
  }

  /** One pass of the `while True` body. */
  function Iterate(st: PollState, cfg: Config, conn: Connection, render: Render): (s: Step)
    ensures conn.Down? ==> s.log.PollFailed? && s.next == st
    ensures conn.Up? ==> s.log.Dispatched? && s.next == Poll(st, cfg, conn.tables).next
    ensures st.lastId <= s.next.lastId
    ensures forall g :: g in RowsOf(s.log) ==> st.lastId < g.id <= s.next.lastId
    ensures s.log.Dispatched? ==>
      && s.log.rows == Poll(st, cfg, conn.tables).rows
      && |s.log.alerts| == |s.log.rows|
      && forall i :: 0 <= i < |s.log.rows| ==> s.log.alerts[i] == BuildPayload(s.log.rows[i], render)
  {
    match conn
    case Down => Step(PollFailed, st)
    case Up(t) =>
      var f := Poll(st, cfg, t);
      Step(Dispatched(f.rows, Alerts(f.rows, render)), f.next)
  }

  /** A finite run of the loop: the iterations' logs and the final watermark. */
  datatype Trace = Trace(logs: seq<IterationLog>, final: PollState)

  /** Every gift a run fetched lies above the watermark it started from and at
      or below the watermark it ended with. */
  predicate WithinWatermarks(st: PollState, logs: seq<IterationLog>, final: PollState) {
    forall k, g :: 0 <= k < |logs| && g in RowsOf(logs[k]) ==> st.lastId < g.id <= final.lastId
  }

  /** Each iteration of a run failed exactly when the store raised in it. */
  predicate FailsWhenDown(conns: seq<Connection>, logs: seq<IterationLog>) {
    && |logs| == |conns|
    && forall k :: 0 <= k < |conns| ==> (logs[k].PollFailed? <==> conns[k].Down?)
  }

  /** Runs one iteration per element of `conns`, threading the watermark. */
  function Run(st: PollState, cfg: Config, conns: seq<Connection>, render: Render): (tr: Trace)
    ensures st.lastId <= tr.final.lastId
    ensures FailsWhenDown(conns, tr.logs)
    ensures WithinWatermarks(st, tr.logs, tr.final)
  {
    if conns == [] then Trace([], st)
    else
      var pre, c := conns[..|conns| - 1], conns[|conns| - 1];
      var prev := Run(st, cfg, pre, render);
      var s := Iterate(prev.final, cfg, c, render);
      ExtendRun(st, conns, prev, s);
      Trace(prev.logs + [s.log], s.next)
  }

  /** Appending an iteration that starts from the run's watermark keeps the
      run's bookkeeping. */
  lemma ExtendRun(st: PollState, conns: seq<Connection>, prev: Trace, s: Step)
    requires conns != []
    requires FailsWhenDown(conns[..|conns| - 1], prev.logs)
    requires st.lastId <= prev.final.lastId && WithinWatermarks(st, prev.logs, prev.final)
    requires s.log.PollFailed? <==> conns[|conns| - 1].Down?
    requires prev.final.lastId <= s.next.lastId
    requires forall g :: g in RowsOf(s.log) ==> prev.final.lastId < g.id <= s.next.lastId
    ensures FailsWhenDown(conns, prev.logs + [s.log])
    ensures WithinWatermarks(st, prev.logs + [s.log], s.next)
  {
  }

  /** Every gift an iteration fetched has a smaller id than every gift any
      later iteration fetched. */
  predicate IncreasingAcrossIterations(logs: seq<IterationLog>) {
    forall i, j, g, h :: 0 <= i < j < |logs| && g in RowsOf(logs[i]) && h in RowsOf(logs[j]) ==> g.id < h.id
  }

  /** Ids grow strictly from one iteration to any later one, so no gift is
      alerted by two iterations, whatever the store does between them. */
  lemma {:induction false} PollsNeverRepeatAGift(st: PollState, cfg: Config, conns: seq<Connection>, render: Render)
    ensures IncreasingAcrossIterations(Run(st, cfg, conns, render).logs)
  {
    if conns != [] {
      var prev := Run(st, cfg, conns[..|conns| - 1], render);
      var s := Iterate(prev.final, cfg, conns[|conns| - 1], render);
      PollsNeverRepeatAGift(st, cfg, conns[..|conns| - 1], render);
      IncreasingSnoc(st, prev.logs, prev.final, s.log);
    }
  }

  /** An iteration whose gifts all lie above the watermark every earlier
      iteration stayed within keeps the ids increasing. */
  lemma IncreasingSnoc(st: PollState, logs: seq<IterationLog>, w: PollState, log: IterationLog)
    requires IncreasingAcrossIterations(logs)
    requires WithinWatermarks(st, logs, w)
    requires forall h :: h in RowsOf(log) ==> w.lastId < h.id
    ensures IncreasingAcrossIterations(logs + [log])
  {
  }

  /** The store only appends gifts, each with an id above every id already in
      the table, and keeps the users table as it is. */
  predicate Extends(t: Tables, t': Tables) {
    && t'.users == t.users
    && |t.gifts| <= |t'.gifts|
    && t'.gifts[..|t.gifts|] == t.gifts
    && forall i, j :: 0 <= i < |t.gifts| <= j < |t'.gifts| ==> t.gifts[i].id < t'.gifts[j].id
  }

  /** Every snapshot a run sees extends every earlier one. */
  predicate AppendOnly(conns: seq<Connection>) {
    forall i, j :: 0 <= i < j < |conns| && conns[i].Up? && conns[j].Up? ==> Extends(conns[i].tables, conns[j].tables)
  }

  /** The snapshot the last successful iteration saw, if any. */
  function LastSnapshot(conns: seq<Connection>): Option<Tables> {
    if conns == [] then None
    else if conns[|conns| - 1].Up? then Some(conns[|conns| - 1].tables)
    else LastSnapshot(conns[..|conns| - 1])
  }

  /** Every gift id some iteration of the run alerted. */
  function AlertedIds(logs: seq<IterationLog>): set<int> {
    if logs == [] then {} else AlertedIds(logs[..|logs| - 1]) + Ids(RowsOf(logs[|logs| - 1]))
  }

  lemma {:induction false} LastSnapshotSeen(conns: seq<Connection>)
    ensures LastSnapshot(conns).Some? ==>
      exists i :: 0 <= i < |conns| && conns[i] == Up(LastSnapshot(conns).value)
  {
    if conns != [] && !conns[|conns| - 1].Up? {
      var pre := conns[..|conns| - 1];
      LastSnapshotSeen(pre);
      if LastSnapshot(pre).Some? {
        var i :| 0 <= i < |pre| && pre[i] == Up(LastSnapshot(pre).value);
        assert conns[i] == pre[i];
      }
    }
  }

  /** Over an append-only store, the gifts qualifying after the old watermark
      `w0` are those already alerted from the earlier snapshot plus those the
      next poll returns from the watermark `w` reached so far. */
  lemma CatchUpStep(t: Tables, t': Tables, cfg: Config, w0: int, w: int)
    requires Extends(t, t')
    requires w0 <= w
    requires forall id :: id in QualifyingIds(t, cfg, w0) ==> id <= w
    requires w == w0 || exists g :: g in t.gifts && g.id == w
    ensures QualifyingIds(t, cfg, w0) + QualifyingIds(t', cfg, w) == QualifyingIds(t', cfg, w0)
  {
  }

  /** What a run has achieved so far: with `last` the snapshot of the latest
      successful iteration, it has alerted exactly the gifts above the starting
      watermark that qualify there, and its watermark is the largest of them
      (or still the starting one). */
  predicate CaughtUp(st: PollState, cfg: Config, last: Option<Tables>, alerted: set<int>, w: PollState) {
    match last
    case None => alerted == {} && w == st
    case Some(t) =>
      && alerted == QualifyingIds(t, cfg, st.lastId)
      && st.lastId <= w.lastId
      && (forall id :: id in alerted ==> id <= w.lastId)
      && (w == st || exists g :: g in t.gifts && g.id == w.lastId)
  }

  /** A successful poll of a snapshot extending the last one keeps the run caught up. */
  lemma CaughtUpAfterPoll(st: PollState, cfg: Config, last: Option<Tables>, alerted: set<int>, w: PollState, t': Tables)
    requires CaughtUp(st, cfg, last, alerted, w)
    requires last.Some? ==> Extends(last.value, t')
    ensures var f := Poll(w, cfg, t');
      CaughtUp(st, cfg, Some(t'), alerted + Ids(f.rows), f.next)
  {
    var f := Poll(w, cfg, t');
    PollReturnsEveryQualifyingGift(w, cfg, t');
    if last.Some? {
      CatchUpStep(last.value, t', cfg, st.lastId, w.lastId);
    }
    BoundAfterPoll(alerted, w, f.rows, f.next);
    WitnessAfterPoll(st, last, w, t', f);
  }

  /** The new watermark bounds both what was alerted before and what the poll returned. */
  lemma BoundAfterPoll(alerted: set<int>, w: PollState, rows: seq<Gift>, next: PollState)
    requires forall id :: id in alerted ==> id <= w.lastId
    requires w.lastId <= next.lastId
    requires forall g :: g in rows ==> g.id <= next.lastId
    ensures forall id :: id in alerted + Ids(rows) ==> id <= next.lastId
  {
  }

  /** The new watermark is still the starting one or the id of a gift in the new snapshot. */
  lemma WitnessAfterPoll(st: PollState, last: Option<Tables>, w: PollState, t': Tables, f: Fetched)
    requires last.None? ==> w == st
    requires last.Some? ==> Extends(last.value, t') && (w == st || exists g :: g in last.value.gifts && g.id == w.lastId)
    requires f.rows == [] ==> f.next == w
    requires f.rows != [] ==> exists i :: 0 <= i < |f.rows| && f.rows[i].id == f.next.lastId
    requires forall g :: g in f.rows ==> g in t'.gifts
    ensures f.next == st || exists g :: g in t'.gifts && g.id == f.next.lastId
  {
  }

  /** One more iteration at the end of a run: what it adds to the alerted ids,
      to the watermark and to the last snapshot seen. */
  lemma RunStep(st: PollState, cfg: Config, conns: seq<Connection>, render: Render)
    requires conns != []
    ensures var pre, c := conns[..|conns| - 1], conns[|conns| - 1];
      var prev := Run(st, cfg, pre, render);
      var s := Iterate(prev.final, cfg, c, render);
      && Run(st, cfg, conns, render).final == s.next
      && AlertedIds(Run(st, cfg, conns, render).logs) == AlertedIds(prev.logs) + Ids(RowsOf(s.log))
      && LastSnapshot(conns) == (if c.Up? then Some(c.tables) else LastSnapshot(pre))
  {
  }

  /** Dropping the last iteration keeps the store append-only, and the last
      snapshot seen before it is extended by the one it sees. */
  lemma AppendOnlyPrefix(conns: seq<Connection>)
    requires conns != [] && AppendOnly(conns)
    ensures var pre, c := conns[..|conns| - 1], conns[|conns| - 1];
      && AppendOnly(pre)
      && (c.Up? && LastSnapshot(pre).Some? ==> Extends(LastSnapshot(pre).value, c.tables))
  {
    var pre, c := conns[..|conns| - 1], conns[|conns| - 1];
    forall i, j | 0 <= i < j < |pre| && pre[i].Up? && pre[j].Up?
      ensures Extends(pre[i].tables, pre[j].tables)
    {
      assert pre[i] == conns[i] && pre[j] == conns[j];
    }
    LastSnapshotSeen(pre);
    if c.Up? && LastSnapshot(pre).Some? {
      var i :| 0 <= i < |pre| && pre[i] == Up(LastSnapshot(pre).value);
      assert conns[i] == pre[i];
    }
  }

  /** No gift is skipped: over an append-only store, a run alerts exactly the
      gifts above the starting watermark that qualify in the last snapshot it
      read, however many iterations failed on the way. */
  lemma {:induction false} RunCatchesUp(st: PollState, cfg: Config, conns: seq<Connection>, render: Render)
    requires AppendOnly(conns)
    ensures CaughtUp(st, cfg, LastSnapshot(conns), AlertedIds(Run(st, cfg, conns, render).logs), Run(st, cfg, conns, render).final)
  {
    if conns == [] {
      assert AlertedIds([]) == {};
    } else {
      var pre := conns[..|conns| - 1];
      var c := conns[|conns| - 1];
      AppendOnlyPrefix(conns);
      RunCatchesUp(st, cfg, pre, render);
      RunStep(st, cfg, conns, render);
      var prev := Run(st, cfg, pre, render);
      if c.Up? {
        CaughtUpAfterPoll(st, cfg, LastSnapshot(pre), AlertedIds(prev.logs), prev.final, c.tables);
      }
    }
  }
}
