/**
 * `handle_query`: the reply of the bot to one text message. The query is stripped and
 * rejected if blank; otherwise one upstream request is made, and its outcome is mapped
 * through an ordered series of checks to exactly one error message, or walked database
 * by database into a header, an "empty" notice or one code block per entry, and a footer.
 *
 * `bot.send_message` is an append to an outbox; the upstream call is its outcome, a
 * `Fetch`; `json.dumps` and Python's `str()` of non-string values come in a `Library`.
 * An exception the handler does not catch ends it with `Crashed`, after the messages
 * already sent.
 */
module Bot {
  import opened Wrappers
  import opened PyJson
  import opened PyText
  import opened JsFormat

  /** The `parse_mode` of a sent message: none, or 'Markdown'. */
  datatype ParseMode = PlainText | Markdown

  /** One `bot.send_message` call to the chat the query came from. */
  datatype Message = Message(text: string, mode: ParseMode)

  /** The outcome of `requests.post(...).json()`. */
  datatype Fetch =
    | NetworkError(cause: string)   // a RequestException, with its str()
    | InvalidJson                   // a ValueError while decoding the body
    | Response(body: Json)          // the decoded body, of any JSON shape

  /** The JSON payload posted to the upstream search API. */
  datatype Request = Request(token: string, query: string, limit: int, lang: string)

  /** The library calls the handler makes whose behaviour the model takes as given. */
  datatype Library = Library(dumps: Json -> Result<string>, str: Json -> string)

  /** The uncaught exceptions of the handler. */
  datatype Crash =
    | ListNotMapping            // `.items()` on a truthy "List" that is not a dict
    | DataNotIterable(db: string)   // `for` over a truthy "Data" that is a number or `true`

  datatype Status = Done | Crashed(crash: Crash)

  /** The messages sent so far and whether the handler ran to its end. */
  datatype Emitted = Emitted(sent: seq<Message>, status: Status)

  /** Everything one call of the handler does: the request it makes, if any, and what it sends. */
  datatype Outcome = Outcome(request: Option<Request>, sent: seq<Message>, status: Status)

  const Limit := 300
  const Lang := "ru"
  const AliasKey := "1win"
  const AliasTitle := "Smarty Sunny"

  const PleaseSend := "⚠️ Please send a phone number or email to search."
  const NetworkErrorPrefix := "❌ API ERROR (network): "
  const InvalidJsonText := "❌ API ERROR: invalid JSON response."
  const UnexpectedText := "❌ Unexpected API response."
  const ApiErrorPrefix := "🚫 API Error: "
  const NoDataText := "❌ No data found."
  const EmptyEntryText := "⚠️ Empty database entry."
  const FormatErrorPrefix := "⚠️ Error formatting entry: "
  const FooterText := "🔴 *Credit by Smarty Sunny*"

  function Plain(text: string): Message {
    Message(text, PlainText)
  }

  const Footer := Message(FooterText, Markdown)

  /** The title shown for a database key: the alias for any casing of "1win", else the key. */
  function DisplayName(db: string): string {
    if Lower(db) == AliasKey then AliasTitle else db
  }

  function Header(db: string): Message {
    Message("📁 *Database:* `" + DisplayName(db) + "`", Markdown)
  }

  /** `data_list`: the "Data" of a dict content, `None` for a content that is not a dict. */
  function DataList(content: Json): Json {
    if content.Object? then
      match Lookup(content.fields, "Data")
      case Some(d) => d
      case None => Null
    else Null
  }

  /** A database whose "Data" is missing or falsy gets the "empty" notice. */
  predicate IsEmptyDatabase(content: Json) {
    !Truthy(DataList(content))
  }

  /** A database whose truthy "Data" cannot be iterated raises in the `for`. */
  predicate IsBrokenDatabase(content: Json) {
    Truthy(DataList(content)) && Iterate(DataList(content)).NotIterable?
  }

  /** The dict an entry is formatted as: itself, or `{"value": entry}` for anything else. */
  function EntryFields(entry: Json): seq<(string, Json)> {
    if entry.Object? then entry.fields else [("value", entry)]
  }

  /** The message of one entry: its code block, or the warning with the exception text. */
  function EntryMessage(entry: Json, lib: Library): Message {
    match JsBlock(EntryFields(entry), lib.dumps)
    case Ok(block) => Message("```js\n" + block + "\n```", Markdown)
    case Err(e) => Plain(FormatErrorPrefix + e)
  }

  /** The messages of the entries of one database, in order. */
  function EntryMessages(entries: seq<Json>, lib: Library): seq<Message>
    decreases |entries|
  {
    if entries == [] then []
    else EntryMessages(entries[..|entries| - 1], lib) + [EntryMessage(entries[|entries| - 1], lib)]
  }

  /** What one turn of the database loop sends, and whether it raises. */
  function RenderDatabase(db: string, content: Json, lib: Library): Emitted {
    var data := DataList(content);
    if !Truthy(data) then Emitted([Header(db), Plain(EmptyEntryText)], Done)
    else match Iterate(data)
      case Elements(entries) => Emitted([Header(db)] + EntryMessages(entries, lib), Done)
      case NotIterable => Emitted([Header(db)], Crashed(DataNotIterable(db)))
  }

  /** What the database loop sends for `dbs`, stopping at the first database that raises. */
  function RenderDatabases(dbs: seq<(string, Json)>, lib: Library): Emitted
    decreases |dbs|
  {
    if dbs == [] then Emitted([], Done)
    else
      var init := RenderDatabases(dbs[..|dbs| - 1], lib);
      if init.status.Crashed? then init
      else
        var last := RenderDatabase(dbs[|dbs| - 1].0, dbs[|dbs| - 1].1, lib);
        Emitted(init.sent + last.sent, last.status)
  }

  /** The checks on a decoded body, in the handler's order, and then the database loop. */
  function Answer(body: Json, lib: Library): Emitted {
    if !body.Object? then Emitted([Plain(UnexpectedText)], Done)
    else if HasKey(body.fields, "Error code") then
      Emitted([Plain(ApiErrorPrefix + PyStr(Lookup(body.fields, "Error code").value, lib.str))], Done)
    else
      var list := Lookup(body.fields, "List");
      if list.None? || !Truthy(list.value) then Emitted([Plain(NoDataText)], Done)
      else if !list.value.Object? then Emitted([], Crashed(ListNotMapping))
      else
        var loop := RenderDatabases(list.value.fields, lib);
        if loop.status.Done? then Emitted(loop.sent + [Footer], Done) else loop
  }

  /** What the handler sends once the request is made, for each outcome of the request. */
  function Dispatch(upstream: Fetch, lib: Library): Emitted {
    match upstream
    case NetworkError(cause) => Emitted([Plain(NetworkErrorPrefix + cause)], Done)
    case InvalidJson => Emitted([Plain(InvalidJsonText)], Done)
    case Response(body) => Answer(body, lib)
  }

  /**
   * Everything `handle_query` does with the text `text`, when the API token is `token`
   * and the request would come back as `upstream`.
   */
  function Handle(text: string, token: string, upstream: Fetch, lib: Library): Outcome {
    var query := Strip(text);
    if query == [] then Outcome(None, [Plain(PleaseSend)], Done)
    else
      var reply := Dispatch(upstream, lib);
      Outcome(Some(Request(token, query, Limit, Lang)), reply.sent, reply.status)
  }

  /** `handle_query`, sending by appending to `outbox`. */
  method HandleQuery(text: string, token: string, upstream: Fetch, lib: Library)
    returns (request: Option<Request>, outbox: seq<Message>, status: Status)
    ensures Outcome(request, outbox, status) == Handle(text, token, upstream, lib)
  {
    outbox := [];
    status := Done;
    var query := Strip(text);
    if query == [] {
      request := None;
      outbox := outbox + [Plain(PleaseSend)];
      return;
    }
    request := Some(Request(token, query, Limit, Lang));
    ghost var reply := Dispatch(upstream, lib);
    assert Handle(text, token, upstream, lib) == Outcome(request, reply.sent, reply.status);
    match upstream {
      case NetworkError(cause) =>
        outbox := outbox + [Plain(NetworkErrorPrefix + cause)];
      case InvalidJson =>
        outbox := outbox + [Plain(InvalidJsonText)];
      case Response(body) =>
        outbox, status := Reply(body, lib);
    }
  }

  /** The part of `handle_query` after the body is decoded: the checks, then the database loop. */
  method Reply(response: Json, lib: Library) returns (outbox: seq<Message>, status: Status)
    ensures Emitted(outbox, status) == Answer(response, lib)
  {
    outbox := [];
    status := Done;
    if !response.Object? {
      outbox := outbox + [Plain(UnexpectedText)];
      return;
    }
    var errorCode := Lookup(response.fields, "Error code");
    if errorCode.Some? {
      outbox := outbox + [Plain(ApiErrorPrefix + PyStr(errorCode.value, lib.str))];
      return;
    }
    var list := Lookup(response.fields, "List");
    if list.None? || !Truthy(list.value) {
      outbox := outbox + [Plain(NoDataText)];
      return;
    }
    if !list.value.Object? {
      status := Crashed(ListNotMapping);
      return;
    }

    var dbs := list.value.fields;
    var i := 0;
    while i < |dbs|
      invariant 0 <= i <= |dbs|
      invariant RenderDatabases(dbs[..i], lib) == Emitted(outbox, Done)
    {
      var (db, content) := dbs[i];
      assert dbs[..i + 1][..i] == dbs[..i];
      var sent, dbStatus := SendDatabase(db, content, lib);
      outbox := outbox + sent;
      if dbStatus.Crashed? {
        status := dbStatus;
        CrashStopsLoop(dbs, lib, i + 1);
        return;
      }
      i := i + 1;
    }
    assert dbs[..i] == dbs;
    outbox := outbox + [Footer];
  }

  /** One turn of the database loop of `handle_query`: what it sends, and whether it raises. */
  method SendDatabase(db: string, content: Json, lib: Library) returns (sent: seq<Message>, status: Status)
    ensures Emitted(sent, status) == RenderDatabase(db, content, lib)
  {
    status := Done;
    sent := [Header(db)];

    var dataList := Null;
    if content.Object? {
      var data := Lookup(content.fields, "Data");
      if data.Some? {
        dataList := data.value;
      }
    }
    if !Truthy(dataList) {
      sent := sent + [Plain(EmptyEntryText)];
      return;
    }
    var iteration := Iterate(dataList);
    if iteration.NotIterable? {
      status := Crashed(DataNotIterable(db));
      return;
    }
    var entries := iteration.items;
    var j := 0;
    while j < |entries|
      invariant 0 <= j <= |entries|
      invariant sent == [Header(db)] + EntryMessages(entries[..j], lib)
    {
      var entry := entries[j];
      var formatted := FormatAsJs(EntryFields(entry), lib.dumps);
      var message: Message;
      match formatted {
        case Ok(block) =>
          message := Message("```js\n" + block + "\n```", Markdown);
        case Err(e) =>
          message := Plain(FormatErrorPrefix + e);
      }
      assert message == EntryMessage(entry, lib);
      sent := sent + [message];
      j := j + 1;
      assert entries[..j][..j - 1] == entries[..j - 1];
    }
    assert entries[..j] == entries;
  }

  /** Once a database raises, the loop sends nothing more: the later databases are never reached. */
  lemma {:induction false} CrashStopsLoop(dbs: seq<(string, Json)>, lib: Library, k: nat)
    requires k <= |dbs| && RenderDatabases(dbs[..k], lib).status.Crashed?
    ensures RenderDatabases(dbs, lib) == RenderDatabases(dbs[..k], lib)
    decreases |dbs|
  {
    if k < |dbs| {
      assert dbs[..|dbs| - 1][..k] == dbs[..k];
      CrashStopsLoop(dbs[..|dbs| - 1], lib, k);
    } else {
      assert dbs[..k] == dbs;
    }
  }
}
