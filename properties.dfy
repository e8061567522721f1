/**
 * What `handle_query` promises about the messages it sends: the short-circuit checks in
 * their order, the alias rule, the shape of each database's messages, the order of the
 * databases, the message count, the footer, and exactly when the handler raises.
 */
module BotProperties {
  import opened Wrappers
  import opened PyJson
  import opened PyText
  import opened JsFormat
  import opened Bot

  /* ---------- Before the database loop ---------- */

  /** A blank query gets the one "please send" message, and no request is made. */
  lemma BlankQueryIsRejected(text: string, token: string, upstream: Fetch, lib: Library)
    requires forall k :: 0 <= k < |text| ==> IsSpace(text[k])
    ensures Handle(text, token, upstream, lib) == Outcome(None, [Plain(PleaseSend)], Done)
  {
  }

  /**
   * A query that is not blank is sent upstream as the stripped text, with the API token,
   * the limit 300 and the language "ru".
   */
  lemma QueryIsSentStripped(text: string, token: string, upstream: Fetch, lib: Library)
    requires Strip(text) != []
    ensures Handle(text, token, upstream, lib).request == Some(Request(token, Strip(text), 300, "ru"))
  {
  }

  /**
   * A failed request gets exactly one message, the network cause or the invalid-JSON
   * text, and no footer.
   */
  lemma UpstreamFailureIsOneMessage(text: string, token: string, upstream: Fetch, lib: Library)
    requires Strip(text) != [] && !upstream.Response?
    ensures Handle(text, token, upstream, lib).status == Done
    ensures Handle(text, token, upstream, lib).sent
            == if upstream.NetworkError? then [Plain(NetworkErrorPrefix + upstream.cause)]
               else [Plain(InvalidJsonText)]
    ensures Footer !in Handle(text, token, upstream, lib).sent
  {
  }

  /**
   * The checks on the decoded body run in order and the first that matches sends its one
   * message and ends the handler: not a dict, then an "Error code" (whatever "List"
   * holds), then a missing or falsy "List".
   */
  lemma FirstFailingCheckWins(body: Json, lib: Library)
    ensures !body.Object? ==> Answer(body, lib) == Emitted([Plain(UnexpectedText)], Done)
    ensures body.Object? && HasKey(body.fields, "Error code") ==>
              Answer(body, lib)
              == Emitted([Plain(ApiErrorPrefix + PyStr(Lookup(body.fields, "Error code").value, lib.str))], Done)
    ensures body.Object? && !HasKey(body.fields, "Error code")
            && (Lookup(body.fields, "List").None? || !Truthy(Lookup(body.fields, "List").value)) ==>
              Answer(body, lib) == Emitted([Plain(NoDataText)], Done)
  {
  }

  /** `{"Error code": "X"}` gets the one message "🚫 API Error: X". */
  lemma UpstreamErrorText(code: string, lib: Library)
    ensures Answer(Object([("Error code", Str(code))]), lib) == Emitted([Plain("🚫 API Error: " + code)], Done)
  {
    assert HasKey([("Error code", Str(code))], "Error code");
  }

  /* ---------- The alias rule ---------- */

  /** The spellings of "1win" in any letter case: exactly the keys shown as "Smarty Sunny". */
  predicate IsAliasSpelling(db: string) {
    |db| == 4 && db[0] == '1' && (db[1] == 'w' || db[1] == 'W')
    && (db[2] == 'i' || db[2] == 'I') && (db[3] == 'n' || db[3] == 'N')
  }

  /** A database is shown as "Smarty Sunny" if its key is "1win" in any case, else under its key. */
  lemma AliasRule(db: string)
    ensures IsAliasSpelling(db) ==> DisplayName(db) == "Smarty Sunny"
    ensures !IsAliasSpelling(db) ==> DisplayName(db) == db
  {
    var lower := Lower(db);
    assert forall i :: 0 <= i < |db| ==> lower[i] == LowerChar(db[i]);
    if lower == AliasKey {
      assert lower[0] == '1' && lower[1] == 'w' && lower[2] == 'i' && lower[3] == 'n';
    }
    if IsAliasSpelling(db) {
      assert Lower(db) == AliasKey;
    }
  }

  /* ---------- One database ---------- */

  /** One message per entry, in the entries' order. */
  lemma {:induction false} EntryMessagesAt(entries: seq<Json>, lib: Library)
    ensures |EntryMessages(entries, lib)| == |entries|
    ensures forall i :: 0 <= i < |entries| ==> EntryMessages(entries, lib)[i] == EntryMessage(entries[i], lib)
    decreases |entries|
  {
    if entries != [] {
      var init := entries[..|entries| - 1];
      EntryMessagesAt(init, lib);
      assert forall i :: 0 <= i < |init| ==> init[i] == entries[i];
    }
  }

  /**
   * A database whose "Data" is missing or falsy, or whose content is not a dict, sends its
   * header and the one "empty" notice, and the loop goes on.
   */
  lemma EmptyDatabaseShape(db: string, content: Json, lib: Library)
    requires IsEmptyDatabase(content)
    ensures RenderDatabase(db, content, lib) == Emitted([Header(db), Plain(EmptyEntryText)], Done)
  {
  }

  /** A database whose truthy "Data" is a number or `true` sends its header, then raises. */
  lemma BrokenDatabaseShape(db: string, content: Json, lib: Library)
    requires IsBrokenDatabase(content)
    ensures RenderDatabase(db, content, lib) == Emitted([Header(db)], Crashed(DataNotIterable(db)))
  {
  }

  /**
   * Any other database sends its header and then one message per element of "Data", in
   * order, and the loop goes on.
   */
  lemma DatabaseEntries(db: string, content: Json, entries: seq<Json>, lib: Library)
    requires Truthy(DataList(content)) && Iterate(DataList(content)) == Elements(entries)
    ensures RenderDatabase(db, content, lib) == Emitted([Header(db)] + EntryMessages(entries, lib), Done)
    ensures |EntryMessages(entries, lib)| == |entries|
    ensures forall i :: 0 <= i < |entries| ==> EntryMessages(entries, lib)[i] == EntryMessage(entries[i], lib)
  {
    EntryMessagesAt(entries, lib);
  }

  /** The messages a database accounts for: its header and its notice or one per entry. */
  function DatabaseMessages(content: Json): nat {
    if IsEmptyDatabase(content) then 2
    else match Iterate(DataList(content))
      case Elements(entries) => 1 + |entries|
      case NotIterable => 1
  }

  /**
   * Every database sends its header first, raises exactly when it is broken, and
   * otherwise sends `DatabaseMessages` messages, none of them the footer.
   */
  lemma DatabaseShape(db: string, content: Json, lib: Library)
    ensures RenderDatabase(db, content, lib).sent != []
            && RenderDatabase(db, content, lib).sent[0] == Header(db)
    ensures RenderDatabase(db, content, lib).status.Crashed? <==> IsBrokenDatabase(content)
    ensures RenderDatabase(db, content, lib).status.Done? ==>
              |RenderDatabase(db, content, lib).sent| == DatabaseMessages(content)
    ensures Footer !in RenderDatabase(db, content, lib).sent
  {
    assert Header(db).text[0] == '📁';
    if !IsEmptyDatabase(content) && !IsBrokenDatabase(content) {
      var entries := Iterate(DataList(content)).items;
      DatabaseEntries(db, content, entries, lib);
      NoFooterInEntries(entries, lib);
    }
  }

  /** No entry message equals the footer: each is a code block or a warning. */
  lemma {:induction false} NoFooterInEntries(entries: seq<Json>, lib: Library)
    ensures Footer !in EntryMessages(entries, lib)
    decreases |entries|
  {
    if entries != [] {
      NoFooterInEntries(entries[..|entries| - 1], lib);
      var m := EntryMessage(entries[|entries| - 1], lib);
      assert m.text[0] == '`' || m.text[0] == '⚠';
    }
  }

  /**
   * An element that is not a dict is formatted as `{"value": element}`: its code block
   * holds the one line `  value: <json.dumps(element)>`.
   */
  lemma NonDictEntryIsWrapped(entry: Json, lib: Library)
    requires !entry.Object? && lib.dumps(entry).Ok?
    ensures EntryMessage(entry, lib)
            == Message("```js\n{\n  value: " + lib.dumps(entry).value + "\n}\n```", Markdown)
  {
    var fields := [("value", entry)];
    assert fields[..0] == [];
    assert JsLines(fields[..0], lib.dumps) == Ok([]);
    assert JsLines(fields, lib.dumps) == Ok([] + [EntryLine("value", lib.dumps(entry).value)]);
    assert [] + [EntryLine("value", lib.dumps(entry).value)] == [EntryLine("value", lib.dumps(entry).value)];
  }

  /** An entry's message is its code block, or the warning with the exception of `dumps`. */
  lemma EntryFailureIsReported(entry: Json, lib: Library)
    ensures EntryMessage(entry, lib).text[0] == '`' <==> JsBlock(EntryFields(entry), lib.dumps).Ok?
    ensures JsBlock(EntryFields(entry), lib.dumps).Err? ==>
              EntryMessage(entry, lib) == Plain(FormatErrorPrefix + JsBlock(EntryFields(entry), lib.dumps).error)
  {
  }

  /* ---------- The database loop ---------- */

  /**
   * The loop, read from the front: the first database's messages come first, and the rest
   * follow only when it did not raise.
   */
  lemma {:induction false} LoopFromTheFront(db: (string, Json), rest: seq<(string, Json)>, lib: Library)
    ensures var first := RenderDatabase(db.0, db.1, lib);
            var all := RenderDatabases([db] + rest, lib);
            if first.status.Crashed? then all == first
            else all == Emitted(first.sent + RenderDatabases(rest, lib).sent, RenderDatabases(rest, lib).status)
    decreases |rest|
  {
    var dbs := [db] + rest;
    if rest != [] {
      assert dbs[..|dbs| - 1] == [db] + rest[..|rest| - 1];
      assert dbs[|dbs| - 1] == rest[|rest| - 1];
      LoopFromTheFront(db, rest[..|rest| - 1], lib);
    } else {
      assert dbs[..0] == [];
    }
  }

  /** The sum of `DatabaseMessages` over the databases, in the `List` mapping's order. */
  function TotalMessages(dbs: seq<(string, Json)>): nat {
    if dbs == [] then 0 else DatabaseMessages(dbs[0].1) + TotalMessages(dbs[1..])
  }

  /** The loop raises exactly when some database is broken. */
  predicate SomeBroken(dbs: seq<(string, Json)>) {
    exists i :: 0 <= i < |dbs| && IsBrokenDatabase(dbs[i].1)
  }

  /**
   * The loop raises exactly when some database has a truthy "Data" that is a number or
   * `true`, and the exception names the first such database: formatting failures never
   * make it raise.
   */
  lemma {:induction false} LoopRaises(dbs: seq<(string, Json)>, lib: Library)
    ensures RenderDatabases(dbs, lib).status.Crashed? <==> SomeBroken(dbs)
    ensures RenderDatabases(dbs, lib).status.Crashed? ==>
              exists k :: 0 <= k < |dbs| && IsBrokenDatabase(dbs[k].1)
                          && (forall j :: 0 <= j < k ==> !IsBrokenDatabase(dbs[j].1))
                          && RenderDatabases(dbs, lib).status == Crashed(DataNotIterable(dbs[k].0))
    decreases |dbs|
  {
    if dbs != [] {
      var rest := dbs[1..];
      assert dbs == [dbs[0]] + rest;
      LoopFromTheFront(dbs[0], rest, lib);
      DatabaseShape(dbs[0].0, dbs[0].1, lib);
      if IsBrokenDatabase(dbs[0].1) {
        assert RenderDatabases(dbs, lib).status == Crashed(DataNotIterable(dbs[0].0));
      } else {
        LoopRaises(rest, lib);
        assert forall i :: 0 <= i < |rest| ==> rest[i] == dbs[i + 1];
        if SomeBroken(dbs) {
          var i :| 0 <= i < |dbs| && IsBrokenDatabase(dbs[i].1);
          assert IsBrokenDatabase(rest[i - 1].1);
        }
        if RenderDatabases(rest, lib).status.Crashed? {
          var k :| 0 <= k < |rest| && IsBrokenDatabase(rest[k].1)
                   && (forall j :: 0 <= j < k ==> !IsBrokenDatabase(rest[j].1))
                   && RenderDatabases(rest, lib).status == Crashed(DataNotIterable(rest[k].0));
          assert forall j :: 0 <= j < k + 1 ==> !IsBrokenDatabase(dbs[j].1) by {
            forall j | 0 <= j < k + 1 ensures !IsBrokenDatabase(dbs[j].1) {
              if j > 0 { assert dbs[j] == rest[j - 1]; }
            }
          }
          assert dbs[k + 1] == rest[k];
        }
      }
    }
  }

  /** A loop that runs to its end sends `TotalMessages` messages. */
  lemma {:induction false} LoopCount(dbs: seq<(string, Json)>, lib: Library)
    ensures RenderDatabases(dbs, lib).status.Done? ==> |RenderDatabases(dbs, lib).sent| == TotalMessages(dbs)
    decreases |dbs|
  {
    if dbs != [] {
      var rest := dbs[1..];
      assert dbs == [dbs[0]] + rest;
      LoopFromTheFront(dbs[0], rest, lib);
      DatabaseShape(dbs[0].0, dbs[0].1, lib);
      LoopCount(rest, lib);
    }
  }

  /** A message the loop sends never equals the footer. */
  lemma {:induction false} NoFooterInLoop(dbs: seq<(string, Json)>, lib: Library)
    ensures Footer !in RenderDatabases(dbs, lib).sent
    decreases |dbs|
  {
    if dbs != [] {
      NoFooterInLoop(dbs[..|dbs| - 1], lib);
      DatabaseShape(dbs[|dbs| - 1].0, dbs[|dbs| - 1].1, lib);
    }
  }

  /* ---------- The whole reply ---------- */

  /** The loop is reached: a dict body, no "Error code", and a truthy "List" that is a dict. */
  predicate ReachesLoop(body: Json) {
    body.Object? && !HasKey(body.fields, "Error code")
    && Lookup(body.fields, "List").Some? && Truthy(Lookup(body.fields, "List").value)
    && Lookup(body.fields, "List").value.Object?
  }

  /**
   * The footer is sent exactly when the database loop runs to its end, and then it is the
   * last message, sent once, after `TotalMessages` messages for the databases.
   */
  lemma FooterMarksCompletion(body: Json, lib: Library)
    ensures var r := Answer(body, lib);
            Footer in r.sent <==> ReachesLoop(body) && !SomeBroken(Lookup(body.fields, "List").value.fields)
    ensures var r := Answer(body, lib);
            Footer in r.sent ==>
              r.status == Done
              && |r.sent| == TotalMessages(Lookup(body.fields, "List").value.fields) + 1
              && r.sent[|r.sent| - 1] == Footer
              && forall i :: 0 <= i < |r.sent| - 1 ==> r.sent[i] != Footer
  {
    if ReachesLoop(body) {
      var dbs := Lookup(body.fields, "List").value.fields;
      LoopRaises(dbs, lib);
      LoopCount(dbs, lib);
      NoFooterInLoop(dbs, lib);
      var loop := RenderDatabases(dbs, lib);
      if loop.status.Done? {
        assert forall i :: 0 <= i < |loop.sent| ==> (loop.sent + [Footer])[i] == loop.sent[i];
      }
    }
  }

  /**
   * The handler raises exactly when the "List" it reaches is not a dict, or some database
   * in it is broken.
   */
  lemma WhenTheHandlerRaises(body: Json, lib: Library)
    ensures Answer(body, lib).status.Crashed? <==>
              body.Object? && !HasKey(body.fields, "Error code")
              && Lookup(body.fields, "List").Some? && Truthy(Lookup(body.fields, "List").value)
              && (!Lookup(body.fields, "List").value.Object?
                  || SomeBroken(Lookup(body.fields, "List").value.fields))
  {
    if ReachesLoop(body) {
      LoopRaises(Lookup(body.fields, "List").value.fields, lib);
    }
  }

  /**
   * Every reply sends at least one message, except when a truthy "List" is not a dict:
   * then the handler raises before sending anything.
   */
  lemma OnlySilentReply(body: Json, lib: Library)
    ensures Answer(body, lib).sent == [] <==> Answer(body, lib).status == Crashed(ListNotMapping)
  {
    if ReachesLoop(body) {
      var dbs := Lookup(body.fields, "List").value.fields;
      var loop := RenderDatabases(dbs, lib);
      assert Answer(body, lib) == if loop.status.Done? then Emitted(loop.sent + [Footer], Done) else loop;
      if dbs != [] {
        assert dbs == [dbs[0]] + dbs[1..];
        LoopFromTheFront(dbs[0], dbs[1..], lib);
        DatabaseShape(dbs[0].0, dbs[0].1, lib);
        LoopRaises(dbs, lib);
        assert loop.sent != [];
      }
    }
  }

  /** A database `{"Data": [x, ...]}` sends its header and one message per element. */
  lemma DatabaseOfList(db: string, entries: seq<Json>, lib: Library)
    requires entries != []
    ensures RenderDatabase(db, Object([("Data", Array(entries))]), lib)
            == Emitted([Header(db)] + EntryMessages(entries, lib), Done)
  {
    var content := Object([("Data", Array(entries))]);
    assert Lookup(content.fields, "Data") == Some(Array(entries));
  }

  /** The loop over two databases, the first of which does not raise, sends both in order. */
  lemma LoopOfTwo(x: (string, Json), y: (string, Json), lib: Library)
    requires RenderDatabase(x.0, x.1, lib).status.Done?
    ensures RenderDatabases([x, y], lib)
            == Emitted(RenderDatabase(x.0, x.1, lib).sent + RenderDatabase(y.0, y.1, lib).sent,
                       RenderDatabase(y.0, y.1, lib).status)
  {
    assert [x, y][..1] == [x] && [x][..0] == [];
    var first := RenderDatabase(x.0, x.1, lib);
    assert RenderDatabases([x], lib) == Emitted([] + first.sent, Done);
    assert [] + first.sent == first.sent;
  }

  /** The database loop over A with entries [a1, a2] and B with entry [b1]. */
  lemma TwoDatabasesLoop(dbA: string, dbB: string, a1: Json, a2: Json, b1: Json, lib: Library)
    ensures RenderDatabases([(dbA, Object([("Data", Array([a1, a2]))])), (dbB, Object([("Data", Array([b1]))]))], lib)
            == Emitted([Header(dbA), EntryMessage(a1, lib), EntryMessage(a2, lib),
                        Header(dbB), EntryMessage(b1, lib)], Done)
  {
    var contentA := Object([("Data", Array([a1, a2]))]);
    var contentB := Object([("Data", Array([b1]))]);
    assert RenderDatabase(dbA, contentA, lib)
           == Emitted([Header(dbA), EntryMessage(a1, lib), EntryMessage(a2, lib)], Done) by {
      DatabaseOfList(dbA, [a1, a2], lib);
      assert [a1, a2][..1] == [a1] && [a1][..0] == [];
      assert EntryMessages([a1], lib) == [EntryMessage(a1, lib)];
    }
    assert RenderDatabase(dbB, contentB, lib) == Emitted([Header(dbB), EntryMessage(b1, lib)], Done) by {
      DatabaseOfList(dbB, [b1], lib);
      assert [b1][..0] == [];
    }
    LoopOfTwo((dbA, contentA), (dbB, contentB), lib);
  }

  /** A body `{"List": {...}}` with at least one database is answered by the database loop. */
  lemma ListAnswer(dbs: seq<(string, Json)>, lib: Library)
    requires dbs != []
    ensures var loop := RenderDatabases(dbs, lib);
            Answer(Object([("List", Object(dbs))]), lib)
            == if loop.status.Done? then Emitted(loop.sent + [Footer], Done) else loop
  {
    var body := Object([("List", Object(dbs))]);
    assert !HasKey(body.fields, "Error code");
    assert Lookup(body.fields, "List") == Some(Object(dbs));
  }

  /**
   * Two databases A with entries [a1, a2] and B with entry [b1] give exactly
   * header(A), a1, a2, header(B), b1 and the footer.
   */
  lemma TwoDatabasesInOrder(text: string, token: string, dbA: string, dbB: string,
                            a1: Json, a2: Json, b1: Json, lib: Library)
    requires Strip(text) != []
    ensures var body := Object([("List", Object([(dbA, Object([("Data", Array([a1, a2]))])),
                                                (dbB, Object([("Data", Array([b1]))]))]))]);
            Handle(text, token, Response(body), lib).sent
            == [Header(dbA), EntryMessage(a1, lib), EntryMessage(a2, lib),
                Header(dbB), EntryMessage(b1, lib), Footer]
  {
    var dbs := [(dbA, Object([("Data", Array([a1, a2]))])), (dbB, Object([("Data", Array([b1]))]))];
    ListAnswer(dbs, lib);
    TwoDatabasesLoop(dbA, dbB, a1, a2, b1, lib);
  }
}
