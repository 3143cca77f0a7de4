# Team gift monitor — a verified model of the poll-and-alert core

The team gift monitor watches a Postgres table of gift events (virtual gifts
sent to live-streaming creators). It also reads a users table that assigns
each creator handle to a group. Every poll the monitor does three things:

- It asks for the gifts that are new since the last poll, belong to a creator
  of its group and reach the alert threshold of 1000 diamonds.
- It posts one Discord embed per returned row.
- It remembers the id of the last row as its watermark.

This project models that core in Dafny. There are six modules:

- `Wrappers` (`wrappers.dfy`): an `Option` type. SQL `NULL` and an unset
  environment variable both become `None`.
- `GiftRecords` (`records.dfy`): the gift and users rows, table snapshots, the
  group/threshold configuration, and the constants `ALERT_THRESHOLD = 1000` and
  the initial `last_id = 0`.
- `GiftQuery` (`query.dfy`): the selection query of `fetch_new_gifts`. It joins
  on the creator handle, producing one output row per matching users row. It
  filters on `id > last_id`, on the group and on `total_diamonds >= threshold`,
  then sorts by ascending id with a stable insertion sort.
- `Watermark` (`watermark.dfy`): one poll, with the module-global `last_id`
  threaded through as an explicit `PollState`.
- `AlertPayload` (`payload.dfy`): the embed built by `send_discord_alert`.
  Python's `str` of numbers and of the timestamp is a `Render` parameter.
- `MonitorLoop` (`monitor.dfy`): one iteration of `main_loop` and finite runs
  of it. In each iteration the store either answers from a snapshot of its
  tables or raises.

`Scenarios` (`scenarios.dfy`) states what the model computes on small
concrete tables.

Three behaviours of the code worth knowing:

- A poll may return the same gift more than once. The join yields one row per
  users row that maps the creator to the group, so a creator whose handle has
  two such rows gets two identical alerts for one gift in one poll. Ids are
  never repeated across polls. See
  `Scenarios.DuplicateMembershipDuplicatesAlerts`, `GiftQuery.SelectMultiplicity`
  and `MonitorLoop.PollsNeverRepeatAGift`.
- Delivery failures are caught inside `send_discord_alert`, one row at a time,
  so the remaining rows of that poll are still posted and the watermark has
  already moved.
- The creator list of `fetch_creators` (its non-empty handle and `creator_id`
  filters included) only feeds a log line. The gift query filters on the join
  and on the group alone.

## Model

| member | source | states |
|---|---|---|
| GiftQuery.JoinRows | main.py:69-73 | the rows a single gift contributes to the join are copies of that gift, one per users row that names its creator and carries the group |
| GiftQuery.JoinedMultiplicity | main.py:69-74 | before sorting, the filtered join holds a gift (count in the gift table) × (number of matching users rows) times when it is above the watermark and at or over the threshold, and zero times otherwise |
| GiftQuery.InsertById | main.py:75 | inserting a row into id-sorted rows keeps them sorted, adds exactly that row, and puts it first when its id is at most the old first id |
| GiftQuery.SortById | main.py:75 | the `order by g.id asc` result is sorted by id and is a permutation of the joined rows |
| GiftQuery.Select | main.py:58-78 | the query result is sorted by ascending id. A gift appears in it if and only if it is in the gift table, its id is above the watermark, its total is at least the threshold and some users row maps its creator to the group |
| GiftQuery.SelectMultiplicity | main.py:69-74 | the query returns each qualifying gift once per matching users row and once per copy in the gift table, so a poll's rows need not be distinct |
| Watermark.Advance | main.py:84-86 | the watermark stays put when no row came back. Otherwise it becomes the id of a returned row, and that id is the largest when the rows are sorted. It never moves back when all rows lie above it |
| Watermark.Poll | main.py:48-88 | every row a poll returns comes from the gift table, lies above the old watermark, reaches the threshold and belongs to a tracked creator. The rows are sorted by id. The new watermark is the old one when nothing came back, otherwise a returned id at least every returned id, and never lower than before |
| Watermark.PollReturnsEveryQualifyingGift | main.py:72-75 | a poll misses nothing: the ids it returns are exactly the ids of the gifts above the watermark that reach the threshold and belong to the group |
| Watermark.RepollIsEmpty | main.py:72-86 | polling an unchanged table right after a poll returns no rows and keeps the watermark, so two consecutive polls never return the same gift |
| Watermark.WatermarkIndependentOfTieOrder | main.py:75-86 | any two id-sorted orders of the same rows end on the same id, so the new watermark does not depend on how the store orders rows with equal ids |
| Watermark.UnsetGroupSelectsNothing | main.py:73 | with the group label unset the comparison `u.assigned_group = NULL` never holds, so the poll returns nothing and keeps the watermark |
| AlertPayload.Description | main.py:107 | the description carries the creator handle right after the opening bold marker and the gift name right before the closing one |
| AlertPayload.BuildPayload | main.py:105-121 | the payload has exactly one embed titled "Gift Alert" with colour 3447003. It has the eight fields Creator, From, Display Name, Gift, Diamonds, Count, Total Diamonds, Received At in that order, and only Diamonds and Count are inline |
| AlertPayload.ReadBuild | main.py:105-121 | a reader who looks each field up by its label gets back exactly the gift's creator, sender, display name and gift name, and the rendered per-item diamonds, count, total and time |
| AlertPayload.BuildPayloadExact | main.py:105-121 | two gifts give equal payloads if and only if they show the same texts: the builder is deterministic and loses no shown field |
| MonitorLoop.Alerts | main.py:138-160 | the loop posts exactly one payload per returned row, in the returned order, each built from its row |
| MonitorLoop.Iterate | main.py:134-163 | when the fetch raises, the iteration sends nothing and keeps the watermark. Otherwise it posts one alert per polled row in order and adopts the poll's watermark. Every row it handles lies above the old watermark and at or below the new one |
| MonitorLoop.Run | main.py:134-166 | over any finite run the watermark never decreases, and an iteration fails exactly when the store raised in it. Every fetched gift lies between the starting and the final watermark |
| MonitorLoop.PollsNeverRepeatAGift | main.py:72-86 | across the iterations of a run, every gift fetched earlier has a strictly smaller id than every gift fetched later, whatever the store does in between, so no gift is alerted by two iterations |
| MonitorLoop.CatchUpStep | main.py:72-74 | when the store only appends gifts with larger ids, the gifts that qualify above the old watermark are those that qualified in the old table plus those that qualify above the new watermark in the new table |
| MonitorLoop.RunCatchesUp | main.py:134-163 | over an append-only store, failed iterations included, the ids alerted by a run are exactly the qualifying ids of the last table the store answered from. No gift that arrived during an outage is lost, and the final watermark covers every alerted id |
| Scenarios.ThresholdReached | main.py:74 | a gift of exactly 1000 diamonds from a tracked creator is returned |
| Scenarios.ThresholdMissed | main.py:74 | the same gift at 999 diamonds is not returned |
| Scenarios.UntrackedCreatorIgnored | main.py:70-73 | a gift of 349990 diamonds to a creator whose users row carries another group is not returned |
| Scenarios.SingleGiftAlerted | main.py:134-160 | a single 500-diamond Rose to alice, at threshold 400, gives exactly one alert for that gift and moves the watermark to its id 5 |
| Scenarios.SingleGiftPayload | main.py:105-121 | that alert reads back as creator "alice", gift "Rose" and the rendered total 500 |
| Scenarios.SingleGiftNotRepeated | main.py:72-86 | polling the same table again from watermark 5 posts nothing and keeps the watermark at 5 |
| Scenarios.DuplicateMembershipDuplicatesAlerts | main.py:70-73 | a creator listed twice in the group gets two identical alerts for one gift in one poll, and the watermark moves to that gift's id |

## Left out

- Database I/O (`get_db`, cursors, `fetchall`, `close`): the tables are input snapshots. Any exception on the fetch path is one `Down` outcome of the iteration.
- `requests.post`, its 5-second timeout and the delivery errors caught inside `send_discord_alert`: they change nothing the loop keeps. The model stops at the payload value.
- Every `print` and log line.
- `time.sleep(POLL_INTERVAL)` and the endless `while True`: only finite runs are modelled.
- `os.getenv`: the group label, the threshold and the initial watermark are parameters. The monitor's own values are `MonitorConfig` and `InitialState`.
- `fetch_creators` (main.py:24-45): its result only feeds the log line at main.py:132.
- Python's `str` of integers and of `received_at`: the `Render` parameter stands for it.
- NULL in the gift table's columns: the gift columns are taken as non-null.
- The time-window selection strategy of the other program variants: it is not part of this source.
- Persisting the watermark across restarts: the source keeps it in memory only, so a restart begins again at `InitialState`.
- Rows with equal ids: Postgres may return them in any order. The new watermark does not depend on which, but the alert order among rows with equal ids is the model's stable choice.
- AlertPayload.Description: its contract states where the creator and gift names sit in the text, not the fixed words around them. The Markdown is plain concatenation.
- Watermark.Poll: its own contract states membership and ordering. The exact id set is stated by `PollReturnsEveryQualifyingGift`, and multiplicities by `GiftQuery.SelectMultiplicity`.
- MonitorLoop.RunCatchesUp: it holds only for stores that append gifts with ever larger ids and leave the users table unchanged; `fetch_new_gifts` cannot detect a store that makes ids visible out of order.
