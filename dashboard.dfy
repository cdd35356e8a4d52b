/** The stylist dashboard's helpers: relative-time text for a submission
    date, the status badge lookup with its fallback, and the list of rows
    shown (stored submissions first, then the fixed demo entries). */
module Dashboard {
  import opened Types
  import opened Text
  import opened Submissions

  const MinuteMs: int := 60000
  const HourMs: int := 3600000
  const DayMs: int := 86400000

  /** `"s"` unless the count is exactly one. */
  function Plural(n: int): (suffix: string)
    ensures suffix == "" <==> n == 1
    ensures suffix != "" ==> suffix == "s"
  {
    if n != 1 then "s" else ""
  }

  /** Whole minutes in a millisecond difference, rounded down as `Math.floor`
      does (Dafny's `/` by a positive divisor rounds down too). */
  function Minutes(diff: int): int
  {
    diff / MinuteMs
  }

  /** Dividing by 60000 and then by 60 is dividing by 3600000, and a further
      division by 24 is dividing by 86400000. */
  lemma NestedFloors(diff: int)
    ensures (diff / MinuteMs) / 60 == diff / HourMs
    ensures ((diff / MinuteMs) / 60) / 24 == diff / DayMs
  {
    var m := diff / MinuteMs;
    var h := m / 60;
    var d := h / 24;
    assert diff == MinuteMs * m + diff % MinuteMs;
    assert m == 60 * h + m % 60;
    assert h == 24 * d + h % 24;
    assert diff == HourMs * h + (MinuteMs * (m % 60) + diff % MinuteMs);
    assert 0 <= MinuteMs * (m % 60) + diff % MinuteMs < HourMs;
    assert diff == DayMs * d + (HourMs * (h % 24) + MinuteMs * (m % 60) + diff % MinuteMs);
    assert 0 <= HourMs * (h % 24) + MinuteMs * (m % 60) + diff % MinuteMs < DayMs;
  }

  /** `formatDate`: how long ago a submission was made. `now` is the current
      time and `date` the parsed submission time, both in milliseconds;
      `None` stands for a date text that does not parse, whose difference is
      NaN and fails every comparison, so the text reads "NaN days ago". */
  function FormatDate(now: int, date: Option<int>): (text: string)
    ensures date.None? ==> text == "NaN days ago"
    ensures date.Some? ==> (text == "Just now" <==> now - date.value < MinuteMs)
    ensures date.Some? && MinuteMs <= now - date.value < HourMs
            ==> var n := (now - date.value) / MinuteMs;
                1 <= n < 60 && text == NatToString(n) + " min ago"
    ensures date.Some? && HourMs <= now - date.value < DayMs
            ==> var n := (now - date.value) / HourMs;
                1 <= n < 24 && text == NatToString(n) + " hour" + Plural(n) + " ago"
    ensures date.Some? && DayMs <= now - date.value
            ==> var n := (now - date.value) / DayMs;
                1 <= n && text == NatToString(n) + " day" + Plural(n) + " ago"
  {
    if date.None? then "NaN days ago"
    else
      var diff := now - date.value;
      var mins := Minutes(diff);
      NestedFloors(diff);
      if mins < 1 then "Just now"
      else if mins < 60 then NatToString(mins) + " min ago"
      else
        var hours := mins / 60;
        if hours < 24 then NatToString(hours) + " hour" + Plural(hours) + " ago"
        else
          var days := hours / 24;
          NatToString(days) + " day" + Plural(days) + " ago"
  }

  /** The unit is singular exactly for a count of one: exactly one hour ago
      reads "1 hour ago", two hours "2 hours ago". */
  lemma FormatDateHours()
    ensures FormatDate(HourMs, Some(0)) == "1 hour ago"
    ensures FormatDate(2 * HourMs, Some(0)) == "2 hours ago"
  {
    assert NatToString(1) == "1";
    assert NatToString(2) == "2";
  }

  /** A date in the future, or less than a minute ago, reads "Just now". */
  lemma FutureIsJustNow(now: int, date: int)
    requires date > now - MinuteMs
    ensures FormatDate(now, Some(date)) == "Just now"
  {
  }

  /** A badge: its label and two colours. */
  datatype StatusStyle = StatusStyle(labelText: string, bg: string, color: string)

  /** `STATUS_MAP`: the five known statuses and their badges. */
  function StatusMap(): (m: map<string, StatusStyle>)
    ensures m.Keys == {"draft", "photos_uploaded", "questions_answered", "styles_recommended", "confirmed"}
    ensures m["draft"].labelText == "Draft" && m["confirmed"].labelText == "Confirmed"
  {
    map[
      "draft" := StatusStyle("Draft", "var(--color-bg-raised)", "var(--color-text-muted)"),
      "photos_uploaded" := StatusStyle("Photos", "var(--color-info-bg)", "var(--color-info)"),
      "questions_answered" := StatusStyle("Questions", "var(--color-purple-bg)", "var(--color-purple)"),
      "styles_recommended" := StatusStyle("Styles Ready", "var(--color-warning-bg)", "var(--color-warning)"),
      "confirmed" := StatusStyle("Confirmed", "var(--color-success-bg)", "var(--color-success)")
    ]
  }

  /** `STATUS_MAP[status] || STATUS_MAP.draft`: the badge for a known status,
      and the draft badge for any other. */
  function StatusFor(status: string): (style: StatusStyle)
    ensures status in StatusMap() ==> style == StatusMap()[status]
    ensures status !in StatusMap() ==> style == StatusMap()["draft"] && style.labelText == "Draft"
  {
    if status in StatusMap() then StatusMap()[status] else StatusMap()["draft"]
  }

  /** The labels of the five known statuses, and the fallback for an unknown one. */
  lemma StatusLabels()
    ensures StatusFor("draft").labelText == "Draft"
    ensures StatusFor("photos_uploaded").labelText == "Photos"
    ensures StatusFor("questions_answered").labelText == "Questions"
    ensures StatusFor("styles_recommended").labelText == "Styles Ready"
    ensures StatusFor("confirmed").labelText == "Confirmed"
    ensures StatusFor("archived").labelText == "Draft"
  {
    assert "archived" !in StatusMap();
  }

  /** One dashboard row. */
  datatype Row = Row(id: string, name: string, email: string, status: string, date: string)

  /** The demo entries, projected onto the fields a row shows; their dates
      are already relative-time text. */
  const DemoRows: seq<Row> := [
    Row("sub-1", "Sarah Mitchell", "sarah@email.com", "confirmed", "2 hours ago"),
    Row("sub-2", "Alex Rivera", "alex.r@gmail.com", "styles_recommended", "1 day ago"),
    Row("sub-3", "Jordan Chen", "j.chen@outlook.com", "photos_uploaded", "2 days ago"),
    Row("sub-4", "Priya Sharma", "priya.s@yahoo.com", "confirmed", "4 days ago")
  ]

  /** The row for a stored submission, its date turned into relative text.
      `parse` stands for reading the ISO date text as milliseconds. */
  function RealRow(s: Submission, now: int, parse: string -> Option<int>): (row: Row)
    ensures row.id == s.id && row.name == s.name && row.email == s.email && row.status == s.status
    ensures parse(s.date).None? ==> row.date == "NaN days ago"
    ensures parse(s.date).Some? && now - parse(s.date).value < MinuteMs ==> row.date == "Just now"
  {
    Row(s.id, s.name, s.email, s.status, FormatDate(now, parse(s.date)))
  }

  function RealRows(stored: seq<Submission>, now: int, parse: string -> Option<int>): (rows: seq<Row>)
    ensures |rows| == |stored|
    ensures forall k :: 0 <= k < |stored| ==> rows[k] == RealRow(stored[k], now, parse)
  {
    if stored == [] then [] else [RealRow(stored[0], now, parse)] + RealRows(stored[1..], now, parse)
  }

  /** `allSubmissions`: the stored submissions in their stored order, then the
      four demo rows. */
  function AllSubmissions(stored: seq<Submission>, now: int, parse: string -> Option<int>): (rows: seq<Row>)
    ensures |rows| == |stored| + 4
    ensures rows[|stored|..] == DemoRows
    ensures rows[..|stored|] == RealRows(stored, now, parse)
    ensures forall k :: 0 <= k < |stored| ==> rows[k].id == stored[k].id && rows[k].status == stored[k].status
    ensures forall k :: 0 <= k < |stored| ==> rows[k].name == stored[k].name && rows[k].email == stored[k].email
    ensures forall k :: 0 <= k < |stored| ==> rows[k].date == FormatDate(now, parse(stored[k].date))
  {
    RealRows(stored, now, parse) + DemoRows
  }

  /** A stored submission whose status is "confirmed" shows the
      "Confirmed" badge. */
  lemma ConfirmedRowsShowConfirmed(stored: seq<Submission>, now: int, parse: string -> Option<int>, k: nat)
    requires k < |stored| && stored[k].status == "confirmed"
    ensures StatusFor(AllSubmissions(stored, now, parse)[k].status).labelText == "Confirmed"
  {
  }
}
