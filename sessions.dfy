/** The session-history endpoint (threadweaver-backend/app/api/sessions.py): the
    rows of a session's messages, oldest first, are turned into ChatMessages. The
    database query is outside the model: its outcome is given, either the rows or the
    text of the error it raised. A row is a map from column name to cell. */
module Sessions {
  import opened Wrappers
  import opened Schemas

  /** A column's value: a string, or anything else (NULL or a non-string value). */
  datatype Cell = Text(text: string) | NonText

  type Row = map<string, Cell>

  const ErrorPrefix := "Error getting messages for session: "

  /** Both columns the conversion reads are present. */
  predicate HasFields(row: Row)
  {
    "role" in row && "content" in row
  }

  /** The schema accepts the row's two values: both are strings and the role is the
      value of a MessageType member. */
  predicate Validates(row: Row)
    requires HasFields(row)
  {
    row["role"].Text? && row["content"].Text? && ParseMessageType(row["role"].text).Some?
  }

  /** The text reported after the error prefix for a row the schema refuses: the role
      when it is a string naming no member, otherwise the name of the non-string column. */
  function RejectReason(row: Row): string
    requires HasFields(row)
  {
    if row["role"].Text? && ParseMessageType(row["role"].text).None? then row["role"].text
    else if row["role"].NonText? then "role"
    else "content"
  }

  /** What one iteration of the loop does with a row: skip it (a missing column
      raises KeyError, which is caught), convert it, or reject it (an unknown role or
      a non-string value fails schema validation, which the KeyError handler does not
      catch). */
  datatype RowOutcome = Skipped | Converted(message: ChatMessage) | Rejected(reason: string)

  function ConvertRow(row: Row): (o: RowOutcome)
    ensures o.Skipped? <==> !HasFields(row)
    ensures o.Rejected? <==> HasFields(row) && !Validates(row)
    ensures o.Converted? ==>
              row["role"] == Text(TypeValue(o.message.messageType)) && row["content"] == Text(o.message.content)
  {
    if !HasFields(row) then Skipped
    else if !Validates(row) then Rejected(RejectReason(row))
    else Converted(ChatMessage(ParseMessageType(row["role"].text).value, row["content"].text))
  }

  /** The loop as a left fold over the rows: the messages of the rows so far, or the
      reason of the first row that failed validation, after which nothing is read. */
  function ConvertRows(rows: seq<Row>): Result<seq<ChatMessage>, string>
  {
    if rows == [] then Success([])
    else match ConvertRows(rows[..|rows| - 1])
      case Failure(reason) => Failure(reason)
      case Success(messages) =>
        match ConvertRow(rows[|rows| - 1])
        case Skipped => Success(messages)
        case Converted(m) => Success(messages + [m])
        case Rejected(reason) => Failure(reason)
  }

  /** The rows that have both columns, in their original order. */
  function Kept(rows: seq<Row>): (kept: seq<Row>)
    ensures |kept| <= |rows|
    ensures forall i :: 0 <= i < |kept| ==> HasFields(kept[i])
  {
    if rows == [] then []
    else if HasFields(rows[|rows| - 1]) then Kept(rows[..|rows| - 1]) + [rows[|rows| - 1]]
    else Kept(rows[..|rows| - 1])
  }

  /** The endpoint's answer: the message list, or 500 for a failed query or for a
      row with both columns that the schema refuses. */
  function SessionMessages(query: Result<seq<Row>, string>): Result<MessageListResponse, HttpException>
  {
    match query
    case Failure(reason) => Failure(HttpException(500, ErrorPrefix + reason))
    case Success(rows) =>
      match ConvertRows(rows)
      case Failure(reason) => Failure(HttpException(500, ErrorPrefix + reason))
      case Success(messages) => Success(MessageListResponse(messages))
  }

  /** Keeping rows preserves their order: the rows kept from a concatenation are those
      kept from each part, in turn. */
  lemma {:induction false} KeptAppend(a: seq<Row>, b: seq<Row>)
    ensures Kept(a + b) == Kept(a) + Kept(b)
    decreases |b|
  {
    if b == [] {
      assert a + b == a;
    } else {
      var init := b[..|b| - 1];
      assert (a + b)[..|a + b| - 1] == a + init;
      assert (a + b)[|a + b| - 1] == b[|b| - 1];
      KeptAppend(a, init);
    }
  }

  /** Once a prefix of the rows has failed, later rows change nothing. */
  lemma {:induction false} FailureIsFinal(rows: seq<Row>, k: nat)
    requires k <= |rows| && ConvertRows(rows[..k]).Failure?
    ensures ConvertRows(rows) == ConvertRows(rows[..k])
    decreases |rows| - k
  {
    if k == |rows| {
      assert rows[..k] == rows;
    } else {
      assert rows[..k + 1][..k] == rows[..k];
      FailureIsFinal(rows, k + 1);
    }
  }

  /** The call fails exactly when some row has both columns and the schema refuses it
      (an unknown role, or a NULL or non-string value), and
      it reports the first such row. */
  lemma {:induction false} ConvertRowsFailsIff(rows: seq<Row>)
    ensures ConvertRows(rows).Failure? <==> exists i :: 0 <= i < |rows| && ConvertRow(rows[i]).Rejected?
    ensures ConvertRows(rows).Failure? ==>
              exists i :: 0 <= i < |rows| && ConvertRow(rows[i]) == Rejected(ConvertRows(rows).error)
                          && forall j :: 0 <= j < i ==> !ConvertRow(rows[j]).Rejected?
  {
    if rows != [] {
      var init := rows[..|rows| - 1];
      ConvertRowsFailsIff(init);
      assert forall i :: 0 <= i < |init| ==> init[i] == rows[i];
    }
  }

  /** On success there is one message per kept row, in the same order, with the row's
      role as its type and the row's content as its content; so never more messages
      than rows. */
  lemma {:induction false} ConvertRowsMessages(rows: seq<Row>)
    requires ConvertRows(rows).Success?
    ensures var messages := ConvertRows(rows).value;
            |messages| == |Kept(rows)| <= |rows|
            && forall i :: 0 <= i < |messages| ==>
                 Kept(rows)[i]["role"] == Text(TypeValue(messages[i].messageType))
                 && Kept(rows)[i]["content"] == Text(messages[i].content)
  {
    if rows != [] {
      var init, last := rows[..|rows| - 1], rows[|rows| - 1];
      assert ConvertRows(init).Success?;
      ConvertRowsMessages(init);
      var before := ConvertRows(init).value;
      match ConvertRow(last)
      case Skipped =>
        assert Kept(rows) == Kept(init);
      case Converted(m) =>
        assert ConvertRows(rows).value == before + [m];
        assert Kept(rows) == Kept(init) + [last];
    }
  }

  /** The messages of a concatenation of rows are those of the first part followed by
      those of the second: earlier rows give earlier messages. */
  lemma {:induction false} ConvertRowsAppend(a: seq<Row>, b: seq<Row>)
    requires ConvertRows(a).Success? && ConvertRows(b).Success?
    ensures ConvertRows(a + b) == Success(ConvertRows(a).value + ConvertRows(b).value)
    decreases |b|
  {
    if b == [] {
      assert a + b == a;
      assert ConvertRows(a).value + [] == ConvertRows(a).value;
    } else {
      var init := b[..|b| - 1];
      assert (a + b)[..|a + b| - 1] == a + init;
      var last := b[|b| - 1];
      assert (a + b)[|a + b| - 1] == last;
      assert ConvertRows(init).Success?;
      ConvertRowsAppend(a, init);
      match ConvertRow(last)
      case Skipped =>
      case Converted(m) =>
        assert ConvertRows(a).value + ConvertRows(init).value + [m] == ConvertRows(a).value + (ConvertRows(init).value + [m]);
    }
  }

  /** A row missing a column is passed over and the loop goes on: appending it to any
      rows changes nothing. */
  lemma SkippedRowChangesNothing(rows: seq<Row>, row: Row)
    requires !HasFields(row)
    ensures ConvertRows(rows + [row]) == ConvertRows(rows)
    ensures Kept(rows + [row]) == Kept(rows)
  {
  }

  /** Both lookups happen before validation, so a row with an unknown role and no
      content is skipped rather than failing the call. */
  lemma UnknownRoleWithoutContentSkipped()
    ensures ConvertRows([map["role" := Text("bogus")]]) == Success([])
  {
  }

  /** A row whose content is NULL is not skipped: wherever it stands, validation fails
      and so does the whole call. */
  lemma NullContentFails(rows: seq<Row>, i: nat)
    requires i < |rows| && HasFields(rows[i]) && rows[i]["content"] == NonText
    ensures ConvertRows(rows).Failure?
  {
    ConvertRowsFailsIff(rows);
  }

  /** The endpoint. */
  method GetSessionMessages(query: Result<seq<Row>, string>)
    returns (response: Result<MessageListResponse, HttpException>)
    ensures response == SessionMessages(query)
  {
    if query.Failure? {
      return Failure(HttpException(500, ErrorPrefix + query.error));
    }
    var rows := query.value;
    var messages: seq<ChatMessage> := [];
    var i := 0;
    while i < |rows|
      invariant 0 <= i <= |rows|
      invariant ConvertRows(rows[..i]) == Success(messages)
    {
      assert rows[..i + 1][..i] == rows[..i];
      var row := rows[i];
      if "role" in row && "content" in row {
        var role, content := row["role"], row["content"];
        var messageType := if role.Text? then ParseMessageType(role.text) else None;
        if messageType.None? || content.NonText? {
          FailureIsFinal(rows, i + 1);
          return Failure(HttpException(500, ErrorPrefix + RejectReason(row)));
        }
        messages := messages + [ChatMessage(messageType.value, content.text)];
      }
      i := i + 1;
    }
    assert rows[..i] == rows;
    response := Success(MessageListResponse(messages));
  }
}
