/**
  get_homer_messages: every row of the events table, newest first, turned
  into a Homer "message" card {style, title, content}.
*/
module Homer {
  import opened Wrappers
  import opened EventLog
  import Style

  datatype Card = Card(style: string, title: string, content: string)

  function DigitChar(d: nat): (c: char)
    requires d < 10
    ensures '0' <= c <= '9' && c as int - '0' as int == d
  {
    "0123456789"[d]
  }

  predicate AllDigits(s: string) {
    forall i :: 0 <= i < |s| ==> '0' <= s[i] <= '9'
  }

  /** The number a string of decimal digits denotes. */
  function DecimalValue(s: string): nat
    requires AllDigits(s)
  {
    if s == [] then 0 else 10 * DecimalValue(s[..|s| - 1]) + (s[|s| - 1] as int - '0' as int)
  }

  /** The textual form of a timestamp. The model's clock counts ticks, so a
      timestamp is written as its decimal tick count, without leading zeros. */
  function FormatTimestamp(t: nat): (r: string)
    ensures r != [] && AllDigits(r)
    ensures r[0] == '0' ==> t == 0
    decreases t
  {
    if t < 10 then [DigitChar(t)] else FormatTimestamp(t / 10) + [DigitChar(t % 10)]
  }

  /** Reading the written timestamp back gives the timestamp. */
  lemma {:induction false} FormatTimestampRoundTrip(t: nat)
    ensures DecimalValue(FormatTimestamp(t)) == t
  {
    var s := FormatTimestamp(t);
    if t >= 10 {
      FormatTimestampRoundTrip(t / 10);
      assert s[..|s| - 1] == FormatTimestamp(t / 10);
    } else {
      assert s[..|s| - 1] == [];
    }
  }

  /** The card of one row: a style token for its status, its image as title,
      and a content that starts with its message, then " (", the timestamp
      (which can be read back) and ")". */
  function CardOf(row: Row): (c: Card)
    ensures c.style == Style.HomerStyle(row.status) && Style.IsStyleToken(c.style)
    ensures c.title == row.image
    ensures |c.content| >= |row.message| + 4
    ensures c.content[..|row.message|] == row.message
    ensures c.content[|row.message|..|row.message| + 2] == " (" && c.content[|c.content| - 1] == ')'
    ensures var stamp := c.content[|row.message| + 2..|c.content| - 1];
      AllDigits(stamp) && DecimalValue(stamp) == row.timestamp
  {
    var stamp := FormatTimestamp(row.timestamp);
    FormatTimestampRoundTrip(row.timestamp);
    var content := row.message + " (" + stamp + ")";
    assert content[|row.message| + 2..|content| - 1] == stamp;
    Card(Style.HomerStyle(row.status), row.image, content)
  }

  /** Platform and tag never reach a card. */
  lemma CardIgnoresPlatformAndTag(row: Row, platform: Option<string>, tag: Option<string>)
    ensures CardOf(row.(platform := platform, tag := tag)) == CardOf(row)
    ensures Style.IsStyleToken(CardOf(row).style)
  {
  }

  /** Reads the table newest first and builds one card per row, in the same
      order: the style of the row's status, the image as title, and the
      message followed by the timestamp in parentheses as content. Platform
      and tag are not read. Without the table the query fails. */
  method GetHomerMessages(db: Database) returns (r: Result<seq<Card>, StoreError>)
    requires db.Valid()
    ensures r.Success? <==> db.tableExists
    ensures r.Failure? ==> r.error == NoSuchTable
    ensures r.Success? ==> |r.value| == |db.rows|
    ensures r.Success? ==> forall i :: 0 <= i < |r.value| ==> r.value[i] == CardOf(db.Select()[i])
  {
    if !db.tableExists {
      return Failure(NoSuchTable);
    }
    var rows := db.Select();
    var messages: seq<Card> := [];
    for i := 0 to |rows|
      invariant |messages| == i
      invariant forall k :: 0 <= k < i ==> messages[k] == CardOf(rows[k])
    {
      messages := messages + [CardOf(rows[i])];
    }
    r := Success(messages);
  }
}
