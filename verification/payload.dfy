/**
  The Discord message `send_discord_alert` posts for one gift: a payload holding
  a single embed with a fixed title and colour, a description naming the
  creator and the gift, and eight labelled fields. Python's `str` of the
  numeric columns and of the timestamp is a `Render` parameter, since its
  formatting belongs to the runtime and not to the monitor.
 */
module AlertPayload {
  import opened Wrappers
  import opened GiftRecords

  /** How numbers and timestamps are turned into text. */
  datatype Render = Render(number: int -> string, timestamp: Timestamp -> string)

  datatype Field = Field(name: string, value: string, inline: bool)

  datatype Embed = Embed(title: string, description: string, color: int, fields: seq<Field>)

  /** The JSON body of the webhook call: `{"embeds": [...]}`. */
  datatype Payload = Payload(embeds: seq<Embed>)

  const AlertTitle: string := "Gift Alert"

  /** The blue bar on the left of the embed (0x3498DB). */
  const BlueBar: int := 3447003

  /** The field labels, in the order the embed lists them. */
  const FieldNames: seq<string> :=
    ["Creator", "From", "Display Name", "Gift", "Diamonds", "Count", "Total Diamonds", "Received At"]

  /** The only fields shown side by side. */
  const InlineNames: set<string> := {"Diamonds", "Count"}

  /** The texts an alert shows for one gift, one per field, in field order. */
  datatype AlertView = AlertView(
    creator: string,
    sender: string,
    displayName: string,
    gift: string,
    diamonds: string,
    count: string,
    total: string,
    receivedAt: string
  )

  /** What the alert for `g` should show: the text columns as they are and the
      numbers and the timestamp as rendered. The gift id is not shown. */
  function View(g: Gift, render: Render): AlertView {
    AlertView(
      g.creatorUsername, g.senderUsername, g.senderDisplayName, g.giftName,
      render.number(g.diamondsPerItem), render.number(g.repeatCount),
      render.number(g.totalDiamonds), render.timestamp(g.receivedAt))
  }

  /** The layout every alert has: one embed with the fixed title and colour,
      the eight labels in order, and only Diamonds and Count inline. */
  predicate WellFormed(p: Payload) {
    && |p.embeds| == 1
    && p.embeds[0].title == AlertTitle
    && p.embeds[0].color == BlueBar
    && |p.embeds[0].fields| == |FieldNames|
    && forall i :: 0 <= i < |p.embeds[0].fields| ==>
         && p.embeds[0].fields[i].name == FieldNames[i]
         && (p.embeds[0].fields[i].inline <==> FieldNames[i] in InlineNames)
  }

  /** The value of the first field labelled `name`, as a reader of the message finds it. */
  function Lookup(fields: seq<Field>, name: string): Option<string> {
    if fields == [] then None
    else if fields[0].name == name then Some(fields[0].value)
    else Lookup(fields[1..], name)
  }

  /** Reads the alert back from a payload with a single embed, finding each
      field by its label. */
  function Read(p: Payload): Option<AlertView> {
    if |p.embeds| != 1 then None
    else
      var fs := p.embeds[0].fields;
      match (Lookup(fs, "Creator"), Lookup(fs, "From"), Lookup(fs, "Display Name"), Lookup(fs, "Gift"),
             Lookup(fs, "Diamonds"), Lookup(fs, "Count"), Lookup(fs, "Total Diamonds"), Lookup(fs, "Received At"))
      case (Some(c), Some(s), Some(d), Some(g), Some(n), Some(k), Some(t), Some(r)) =>
        Some(AlertView(c, s, d, g, n, k, t, r))
      case _ => None
  }

  /** The description line, which names the creator and the gift in bold. */
  function Description(creator: string, gift: string): (d: string)
    ensures |d| >= 2 + |creator| && d[2..2 + |creator|] == creator
    ensures |d| >= |gift| + 2 && d[|d| - 2 - |gift|..|d| - 2] == gift
  {
    "**" + creator + "** has just received a **" + gift + "**"
  }

  /** The embed construction of `send_discord_alert`. */
  function BuildPayload(g: Gift, render: Render): (p: Payload)
    ensures WellFormed(p)
    ensures p.embeds[0].description == Description(g.creatorUsername, g.giftName)
  {
    var v := View(g, render);
    Payload([Embed(AlertTitle, Description(g.creatorUsername, g.giftName), BlueBar, [
      Field("Creator", v.creator, false),
      Field("From", v.sender, false),
      Field("Display Name", v.displayName, false),
      Field("Gift", v.gift, false),
      Field("Diamonds", v.diamonds, true),
      Field("Count", v.count, true),
      Field("Total Diamonds", v.total, false),
      Field("Received At", v.receivedAt, false)
    ])])
  }

  /** The first field carrying a label is the one found for it. */
  lemma {:induction false} LookupFirst(fields: seq<Field>, i: int)
    requires 0 <= i < |fields|
    requires forall j :: 0 <= j < i ==> fields[j].name != fields[i].name
    ensures Lookup(fields, fields[i].name) == Some(fields[i].value)
  {
    if i > 0 {
      LookupFirst(fields[1..], i - 1);
    }
  }

  /** Reading the alert back by field label recovers exactly what it should show. */
  lemma ReadBuild(g: Gift, render: Render)
    ensures Read(BuildPayload(g, render)) == Some(View(g, render))
  {
    var fs := BuildPayload(g, render).embeds[0].fields;
    assert "From"[0] != "Gift"[0];
    forall i | 0 <= i < |fs| ensures Lookup(fs, fs[i].name) == Some(fs[i].value) {
      LookupFirst(fs, i);
    }
    assert fs[0].name == "Creator" && fs[1].name == "From" && fs[2].name == "Display Name" && fs[3].name == "Gift";
    assert fs[4].name == "Diamonds" && fs[5].name == "Count" && fs[6].name == "Total Diamonds" && fs[7].name == "Received At";
  }

  /** The payload is a function of what the alert shows and loses none of it:
      two gifts give the same payload exactly when they show the same texts. */
  lemma BuildPayloadExact(g1: Gift, g2: Gift, render: Render)
    ensures BuildPayload(g1, render) == BuildPayload(g2, render) <==> View(g1, render) == View(g2, render)
  {
  }
}
