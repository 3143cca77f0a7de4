/**
  Concrete runs of the monitor on small tables: the inclusive threshold, a
  single gift alerted once and never again, and the duplicate alerts the join
  produces when a creator has two users rows in the group.
 */
module Scenarios {
  import opened Wrappers
  import opened GiftRecords
  import opened GiftQuery
  import opened Watermark
  import opened AlertPayload
  import opened MonitorLoop

  function GiftOf(id: int, creator: string, gift: string, perItem: int, count: int): Gift {
    Gift(id, creator, "fan", "Fan", gift, perItem, count, perItem * count, Timestamp(0))
  }

  /** A total of exactly the threshold is alerted. */
  lemma ThresholdReached(group: string)
    ensures var at := GiftOf(7, "alice", "Lion", 1000, 1);
      Poll(InitialState(), MonitorConfig(Some(group)), Tables([at], [User(Some("alice"), Some(group))])).rows == [at]
  {
    var at := GiftOf(7, "alice", "Lion", 1000, 1);
    PollOneGift(InitialState(), MonitorConfig(Some(group)), at, [User(Some("alice"), Some(group))]);
    JoinRowsOne(at, User(Some("alice"), Some(group)), Some(group));
  }

  /** One diamond below the threshold is not alerted. */
  lemma ThresholdMissed(group: string)
    ensures var below := GiftOf(7, "alice", "Lion", 999, 1);
      Poll(InitialState(), MonitorConfig(Some(group)), Tables([below], [User(Some("alice"), Some(group))])).rows == []
  {
  }

  /** A gift from a creator outside the group is not alerted, however large. */
  lemma UntrackedCreatorIgnored(group: string)
    ensures var users := [User(Some("alice"), Some(group)), User(Some("bob"), Some(group + "x"))];
      var big := GiftOf(3, "bob", "Universe", 34999, 10);
      Poll(InitialState(), MonitorConfig(Some(group)), Tables([big], users)).rows == []
  {
    var users := [User(Some("alice"), Some(group)), User(Some("bob"), Some(group + "x"))];
    var big := GiftOf(3, "bob", "Universe", 34999, 10);
    assert |group + "x"| != |group|;
    PollOneGift(InitialState(), MonitorConfig(Some(group)), big, users);
    JoinRowsTwo(big, users[0], users[1], Some(group));
  }

  /** The one-gift table and group the next two scenarios poll. */
  function Rose(): Gift {
    GiftOf(5, "alice", "Rose", 1, 500)
  }

  function RoseTable(): Tables {
    Tables([Rose()], [User(Some("alice"), Some("team"))])
  }

  /** One qualifying gift gives one alert for it, and the watermark moves to
      its id. */
  lemma SingleGiftAlerted(render: Render)
    ensures Iterate(PollState(0), Config(Some("team"), 400), Up(RoseTable()), render).next == PollState(5)
    ensures Iterate(PollState(0), Config(Some("team"), 400), Up(RoseTable()), render).log
      == Dispatched([Rose()], [BuildPayload(Rose(), render)])
  {
    var f := Poll(PollState(0), Config(Some("team"), 400), RoseTable());
    assert f.rows == [Rose()] by {
      assert Eligible(Rose(), 0, 400);
      assert Matches(User(Some("alice"), Some("team")), Rose(), Some("team"));
      assert RoseTable().users == [User(Some("alice"), Some("team"))];
      PollOneGift(PollState(0), Config(Some("team"), 400), Rose(), RoseTable().users);
      JoinRowsOne(Rose(), User(Some("alice"), Some("team")), Some("team"));
    }
    assert f.next == PollState(5);
    AlertsOne(Rose(), render);
    IterateUp(PollState(0), Config(Some("team"), 400), RoseTable(), render);
  }

  /** That alert names the creator and the gift and shows the rendered total. */
  lemma SingleGiftPayload(render: Render)
    ensures Read(BuildPayload(Rose(), render)) == Some(View(Rose(), render))
    ensures View(Rose(), render).creator == "alice" && View(Rose(), render).gift == "Rose"
    ensures View(Rose(), render).total == render.number(500)
  {
    ReadBuild(Rose(), render);
  }

  /** Polling again after the alert returns nothing and keeps the watermark. */
  lemma SingleGiftNotRepeated(render: Render)
    ensures Iterate(PollState(5), Config(Some("team"), 400), Up(RoseTable()), render)
      == Step(Dispatched([], []), PollState(5))
  {
  }

  /** A large gift to a creator whose users row appears twice in the group. */
  function Lion(): Gift {
    GiftOf(9, "alice", "Lion", 29999, 1)
  }

  function Member(): User {
    User(Some("alice"), Some("team"))
  }

  /** The join yields one row per matching users row, so a creator listed
      twice in the group gets two identical alerts for the same gift in one
      poll. */
  lemma DuplicateMembershipDuplicatesAlerts(render: Render)
    ensures Iterate(InitialState(), MonitorConfig(Some("team")), Up(Tables([Lion()], [Member(), Member()])), render)
      == Step(Dispatched([Lion(), Lion()], [BuildPayload(Lion(), render), BuildPayload(Lion(), render)]), PollState(9))
  {
    var f := Poll(InitialState(), MonitorConfig(Some("team")), Tables([Lion()], [Member(), Member()]));
    DuplicateRows();
    assert f.next == PollState(9);
    AlertsTwo(Lion(), render);
    IterateUp(InitialState(), MonitorConfig(Some("team")), Tables([Lion()], [Member(), Member()]), render);
  }

  /** The query returns the gift once per users row of its creator. */
  lemma DuplicateRows()
    ensures Poll(InitialState(), MonitorConfig(Some("team")), Tables([Lion()], [Member(), Member()])).rows
      == [Lion(), Lion()]
  {
    assert Eligible(Lion(), 0, 1000);
    assert Matches(Member(), Lion(), Some("team"));
    assert [Lion()] + [Lion()] == [Lion(), Lion()];
    PollOneGift(InitialState(), MonitorConfig(Some("team")), Lion(), [Member(), Member()]);
    JoinRowsTwo(Lion(), Member(), Member(), Some("team"));
  }

  /** An iteration that reaches the store dispatches what the poll returned. */
  lemma IterateUp(st: PollState, cfg: Config, t: Tables, render: Render)
    ensures var f := Poll(st, cfg, t);
      Iterate(st, cfg, Up(t), render) == Step(Dispatched(f.rows, Alerts(f.rows, render)), f.next)
  {
  }

  /** The alerts for a single row and for two copies of a row. */
  lemma AlertsOne(g: Gift, render: Render)
    ensures Alerts([g], render) == [BuildPayload(g, render)]
  {
  }

  lemma AlertsTwo(g: Gift, render: Render)
    ensures Alerts([g, g], render) == [BuildPayload(g, render), BuildPayload(g, render)]
  {
  }

  /** A poll of a one-gift table. */
  lemma PollOneGift(st: PollState, cfg: Config, g: Gift, users: seq<User>)
    ensures Poll(st, cfg, Tables([g], users)).rows
      == if Eligible(g, st.lastId, cfg.threshold) then JoinRows(g, users, cfg.group) else []
  {
    SelectOne(g, users, st.lastId, cfg.group, cfg.threshold);
  }

  /** The query over a one-gift table: the gift once per matching users row,
      provided it passes the WHERE conditions on the gift row. */
  lemma SelectOne(g: Gift, users: seq<User>, lastId: int, group: Option<string>, threshold: int)
    ensures Select([g], users, lastId, group, threshold)
      == if Eligible(g, lastId, threshold) then JoinRows(g, users, group) else []
  {
    var copies := if Eligible(g, lastId, threshold) then JoinRows(g, users, group) else [];
    assert Joined([g], users, lastId, group, threshold) == copies by {
      assert [g][1..] == [];
      assert copies + [] == copies;
    }
    assert forall i :: 0 <= i < |copies| ==> copies[i] == g by {
      forall i | 0 <= i < |copies| ensures copies[i] == g {
        assert copies[i] in copies;
      }
    }
    SortCopies(g, copies);
  }

  /** Sorting copies of one gift leaves them as they are. */
  lemma {:induction false} SortCopies(g: Gift, copies: seq<Gift>)
    requires forall i :: 0 <= i < |copies| ==> copies[i] == g
    ensures SortById(copies) == copies
  {
    if copies != [] {
      SortCopies(g, copies[1..]);
      assert copies == [copies[0]] + copies[1..];
    }
  }

  /** The join rows of one gift against a single users row. */
  lemma JoinRowsOne(g: Gift, u: User, group: Option<string>)
    ensures JoinRows(g, [u], group) == if Matches(u, g, group) then [g] else []
  {
  }

  /** The join rows of one gift against two users rows, in table order. */
  lemma JoinRowsTwo(g: Gift, u: User, v: User, group: Option<string>)
    ensures JoinRows(g, [u, v], group)
      == (if Matches(u, g, group) then [g] else []) + (if Matches(v, g, group) then [g] else [])
  {
    assert [u, v][..1] == [u];
    JoinRowsOne(g, u, group);
  }
}
