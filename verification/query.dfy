/**
  The selection `fetch_new_gifts` asks the store for: the gift table joined with
  the users table on the creator handle, restricted to ids above the watermark,
  to the configured group and to totals at or above the threshold, ordered by
  ascending id.

  The join is modelled as the store's nested loop over the two tables (one
  output row per matching users row), followed by a stable sort on the id.
  Rows whose ids tie may come back in any order from the store; the new
  watermark does not depend on which (see the watermark module), while the
  alert order among rows with equal ids is the model's stable choice.
 */
module GiftQuery {
  import opened Wrappers
  import opened GiftRecords

  /** The join condition plus the group filter: the users row names the gift's
      creator and carries the configured group. SQL equality involving NULL never
      holds, so a users row without a handle or a group, or an unset group
      label, matches no gift. */
  predicate Matches(u: User, g: Gift, group: Option<string>) {
    u.tiktokUsername == Some(g.creatorUsername) && group.Some? && u.assignedGroup == group
  }

  /** The gift's creator is a member of the configured group. */
  predicate Tracked(g: Gift, users: seq<User>, group: Option<string>) {
    exists i :: 0 <= i < |users| && Matches(users[i], g, group)
  }

  /** The conditions of the WHERE clause that concern the gift row alone. */
  predicate Eligible(g: Gift, lastId: int, threshold: int) {
    g.id > lastId && g.totalDiamonds >= threshold
  }

  /** Positions of the users rows the gift joins with. */
  function MatchingUsers(g: Gift, users: seq<User>, group: Option<string>): set<int> {
    set i | 0 <= i < |users| && Matches(users[i], g, group)
  }

  predicate SortedById(rows: seq<Gift>) {
    forall i, j :: 0 <= i < j < |rows| ==> rows[i].id <= rows[j].id
  }

  lemma {:induction false} MatchingUsersEmpty(g: Gift, users: seq<User>, group: Option<string>)
    ensures MatchingUsers(g, users, group) == {} <==> !Tracked(g, users, group)
  {
    if Tracked(g, users, group) {
      var i :| 0 <= i < |users| && Matches(users[i], g, group);
      assert i in MatchingUsers(g, users, group);
    }
  }

  /** The rows the join produces for one gift: one copy per matching users row. */
  function JoinRows(g: Gift, users: seq<User>, group: Option<string>): (rows: seq<Gift>)
    ensures forall x :: x in rows ==> x == g
    ensures multiset(rows)[g] == |MatchingUsers(g, users, group)|
  {
    if users == [] then []
    else
      var init := users[..|users| - 1];
      var last := users[|users| - 1];
      MatchingUsersSnoc(g, users, group);
      JoinRows(g, init, group) + (if Matches(last, g, group) then [g] else [])
  }

  /** Adding a users row at the end adds its position when it matches. */
  lemma MatchingUsersSnoc(g: Gift, users: seq<User>, group: Option<string>)
    requires users != []
    ensures var init, last := users[..|users| - 1], users[|users| - 1];
      && |MatchingUsers(g, users, group)|
         == |MatchingUsers(g, init, group)| + (if Matches(last, g, group) then 1 else 0)
  {
    var init, last := users[..|users| - 1], users[|users| - 1];
    var before := MatchingUsers(g, init, group);
    assert |init| !in before;
    forall i ensures i in MatchingUsers(g, users, group) <==> i in before || (i == |init| && Matches(last, g, group)) {
      if 0 <= i < |init| {
        assert users[i] == init[i];
      }
    }
    if Matches(last, g, group) {
      assert MatchingUsers(g, users, group) == before + {|init|};
    } else {
      assert MatchingUsers(g, users, group) == before;
    }
  }

  /** How many copies of `x` the query returns: one per occurrence of `x` in the
      gift table times one per users row it joins with, provided it passes the
      WHERE conditions on the gift row. */
  function Multiplicity(x: Gift, gifts: seq<Gift>, users: seq<User>, lastId: int, group: Option<string>, threshold: int): nat {
    if Eligible(x, lastId, threshold) then multiset(gifts)[x] * |MatchingUsers(x, users, group)| else 0
  }

  /** The filtered join, in the store's scan order over the gift table. */
  function Joined(gifts: seq<Gift>, users: seq<User>, lastId: int, group: Option<string>, threshold: int): seq<Gift> {
    if gifts == [] then []
    else
      (if Eligible(gifts[0], lastId, threshold) then JoinRows(gifts[0], users, group) else [])
      + Joined(gifts[1..], users, lastId, group, threshold)
  }

  lemma {:induction false} JoinedMultiplicity(gifts: seq<Gift>, users: seq<User>, lastId: int, group: Option<string>, threshold: int, x: Gift)
    ensures multiset(Joined(gifts, users, lastId, group, threshold))[x] == Multiplicity(x, gifts, users, lastId, group, threshold)
  {
    if gifts != [] {
      var g, tail := gifts[0], gifts[1..];
      JoinedMultiplicity(tail, users, lastId, group, threshold, x);
      var here := if Eligible(g, lastId, threshold) then JoinRows(g, users, group) else [];
      var rest := Joined(tail, users, lastId, group, threshold);
      assert multiset(Joined(gifts, users, lastId, group, threshold))[x] == multiset(here)[x] + multiset(rest)[x];
      HeadCount(gifts, x);
      if x != g {
        assert x !in here;
      } else if Eligible(x, lastId, threshold) {
        DistributeOne(multiset(tail)[x], |MatchingUsers(x, users, group)|);
      }
    }
  }

  lemma HeadCount(gifts: seq<Gift>, x: Gift)
    requires gifts != []
    ensures multiset(gifts)[x] == multiset(gifts[1..])[x] + (if x == gifts[0] then 1 else 0)
  {
    assert gifts == [gifts[0]] + gifts[1..];
  }

  lemma DistributeOne(c: nat, m: nat)
    ensures (c + 1) * m == c * m + m
  {
  }

  lemma PositiveProduct(a: nat, b: nat)
    ensures a * b > 0 <==> a > 0 && b > 0
  {
  }

  /** Places `g` before the first row whose id is at least its own, so rows with
      equal ids keep their relative order. */
  function InsertById(g: Gift, rows: seq<Gift>): (r: seq<Gift>)
    requires SortedById(rows)
    ensures SortedById(r)
    ensures multiset(r) == multiset(rows) + multiset{g}
    ensures r[0] == if rows == [] || g.id <= rows[0].id then g else rows[0]
  {
    if rows == [] || g.id <= rows[0].id then [g] + rows
    else
      var tail := InsertById(g, rows[1..]);
      ConsSorted(rows[0], tail);
      assert rows == [rows[0]] + rows[1..];
      [rows[0]] + tail
  }

  lemma ConsSorted(h: Gift, tail: seq<Gift>)
    requires SortedById(tail)
    requires tail != [] ==> h.id <= tail[0].id
    ensures SortedById([h] + tail)
  {
  }

  /** A stable insertion sort on the id. */
  function SortById(rows: seq<Gift>): (r: seq<Gift>)
    ensures SortedById(r)
    ensures multiset(r) == multiset(rows)
  {
    if rows == [] then []
    else
      assert rows == [rows[0]] + rows[1..];
      InsertById(rows[0], SortById(rows[1..]))
  }

  /** The query of `fetch_new_gifts`: every gift above the watermark, from a
      creator of the group, whose total reaches the threshold, by ascending id.
      Gifts of untracked creators are never returned, whatever their value. */
  function Select(gifts: seq<Gift>, users: seq<User>, lastId: int, group: Option<string>, threshold: int): (rows: seq<Gift>)
    ensures SortedById(rows)
    ensures forall x :: x in rows <==> x in gifts && Eligible(x, lastId, threshold) && Tracked(x, users, group)
  {
    var rows := SortById(Joined(gifts, users, lastId, group, threshold));
    forall x ensures x in rows <==> x in gifts && Eligible(x, lastId, threshold) && Tracked(x, users, group) {
      JoinedMultiplicity(gifts, users, lastId, group, threshold, x);
      assert x in rows <==> multiset(rows)[x] > 0;
      assert x in gifts <==> multiset(gifts)[x] > 0;
      MatchingUsersEmpty(x, users, group);
      PositiveProduct(multiset(gifts)[x], |MatchingUsers(x, users, group)|);
    }
    rows
  }

  /** The join returns one row per matching users row: a gift occurring `c`
      times in the table whose creator has `m` rows in the group comes back
      `c * m` times, so nothing makes the rows of one poll distinct. */
  lemma SelectMultiplicity(gifts: seq<Gift>, users: seq<User>, lastId: int, group: Option<string>, threshold: int, x: Gift)
    ensures multiset(Select(gifts, users, lastId, group, threshold))[x] == Multiplicity(x, gifts, users, lastId, group, threshold)
  {
    JoinedMultiplicity(gifts, users, lastId, group, threshold, x);
  }
}
