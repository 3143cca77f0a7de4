/**
  The incremental poll of `fetch_new_gifts`: the module-global `last_id` is
  threaded through as an explicit state value. A poll runs the query with the
  current watermark and, when the query returned rows, moves the watermark to
  the id of the last row, which the ascending order makes the largest.
 */
module Watermark {
  import opened Wrappers
  import opened GiftRecords
  import opened GiftQuery

  /** The highest gift id already handed to the dispatcher. */
  datatype PollState = PollState(lastId: int)

  /** The state of a monitor that has just started. */
  function InitialState(): PollState {
    PollState(InitialLastId)
  }

  /** What one successful poll yields: the returned rows and the watermark after it. */
  datatype Fetched = Fetched(rows: seq<Gift>, next: PollState)

  function Ids(rows: seq<Gift>): set<int> {
    set g | g in rows :: g.id
  }

  /** Ids of the gifts that are new with respect to `lastId` and worth an alert. */
  function QualifyingIds(t: Tables, cfg: Config, lastId: int): set<int> {
    set g | g in t.gifts && Eligible(g, lastId, cfg.threshold) && Tracked(g, t.users, cfg.group) :: g.id
  }

  /** The watermark update after the query: unchanged when no row came back,
      otherwise the id of the last row. When the rows are sorted by id that is
      the largest id returned, and when they all lie above the old watermark
      the watermark never moves back. */
  function Advance(st: PollState, rows: seq<Gift>): (next: PollState)
    ensures rows == [] ==> next == st
    ensures rows != [] ==> exists i :: 0 <= i < |rows| && rows[i].id == next.lastId
    ensures SortedById(rows) ==> forall g :: g in rows ==> g.id <= next.lastId
    ensures (forall g :: g in rows ==> g.id > st.lastId) ==> st.lastId <= next.lastId
  {
    if rows == [] then st
    else
      LastIsLargest(rows);
      PollState(rows[|rows| - 1].id)
  }

  /** In rows sorted by id the last row carries the largest id. */
  lemma LastIsLargest(rows: seq<Gift>)
    requires rows != []
    ensures rows[|rows| - 1] in rows
    ensures SortedById(rows) ==> forall g :: g in rows ==> g.id <= rows[|rows| - 1].id
  {
  }

  /** One call of `fetch_new_gifts` whose query succeeded. */
  function Poll(st: PollState, cfg: Config, t: Tables): (f: Fetched)
    ensures SortedById(f.rows)
    ensures forall g :: g in f.rows ==>
      g in t.gifts && g.id > st.lastId && g.totalDiamonds >= cfg.threshold && Tracked(g, t.users, cfg.group)
    ensures f.rows == [] ==> f.next == st
    ensures f.rows != [] ==> exists i :: 0 <= i < |f.rows| && f.rows[i].id == f.next.lastId
    ensures forall g :: g in f.rows ==> g.id <= f.next.lastId
    ensures st.lastId <= f.next.lastId
  {
    var rows := Select(t.gifts, t.users, st.lastId, cfg.group, cfg.threshold);
    Fetched(rows, Advance(st, rows))
  }

  /** A poll misses nothing: the ids it returns are exactly the ids of the
      qualifying gifts above the watermark. */
  lemma PollReturnsEveryQualifyingGift(st: PollState, cfg: Config, t: Tables)
    ensures Ids(Poll(st, cfg, t).rows) == QualifyingIds(t, cfg, st.lastId)
  {
  }

  /** Polling again on an unchanged table right after a poll returns nothing and
      keeps the watermark: no gift is returned by two consecutive polls. */
  lemma RepollIsEmpty(st: PollState, cfg: Config, t: Tables)
    ensures var f := Poll(st, cfg, t);
      Poll(f.next, cfg, t).rows == [] && Poll(f.next, cfg, t).next == f.next
  {
  }

  /** The store may return rows with equal ids in any order; every order sorted
      by id ends on the same id, so the new watermark does not depend on it. */
  lemma {:induction false} WatermarkIndependentOfTieOrder(a: seq<Gift>, b: seq<Gift>)
    requires SortedById(a) && SortedById(b)
    requires multiset(a) == multiset(b)
    requires a != []
    ensures b != [] && a[|a| - 1].id == b[|b| - 1].id
  {
    assert a[|a| - 1] in multiset(b);
    assert b != [];
    assert b[|b| - 1] in multiset(a);
    var i :| 0 <= i < |b| && b[i] == a[|a| - 1];
    var j :| 0 <= j < |a| && a[j] == b[|b| - 1];
    assert a[j].id <= a[|a| - 1].id;
    assert b[i].id <= b[|b| - 1].id;
  }

  /** With the group label unset the query compares against NULL and selects
      nothing, so the watermark never moves. */
  lemma UnsetGroupSelectsNothing(st: PollState, threshold: int, t: Tables)
    ensures Poll(st, Config(None, threshold), t) == Fetched([], st)
  {
  }
}
