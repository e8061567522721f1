/**
 * `format_as_js`: the fixed textual encoding of one entry. Each binding becomes a line
 * `  key: <json.dumps(value)>`, in the dict's order, and the lines are joined by newlines
 * between a `{` line and a `}` line. `json.dumps(value, ensure_ascii=False)` is library
 * code and is a parameter here; an `Err` from it is the exception it raises.
 */
module JsFormat {
  import opened Wrappers
  import opened PyJson
  import opened PyText

  /** The line of one binding: two spaces, the key, a colon, a space and the dumped value. */
  function EntryLine(key: string, dumped: string): string {
    "  " + key + ": " + dumped
  }

  /** The lines `format_as_js` collects, or the exception of the first value `dumps` rejects. */
  function JsLines(fields: seq<(string, Json)>, dumps: Json -> Result<string>): Result<seq<string>>
    decreases |fields|
  {
    if fields == [] then Ok([])
    else
      var init := JsLines(fields[..|fields| - 1], dumps);
      if init.Err? then init
      else match dumps(fields[|fields| - 1].1)
        case Err(e) => Err(e)
        case Ok(v) => Ok(init.value + [EntryLine(fields[|fields| - 1].0, v)])
  }

  /**
   * What `format_as_js` returns, or the exception it raises. Every result opens with
   * "{\n" and closes with "\n}"; an empty dict gives "{\n\n}".
   */
  function JsBlock(fields: seq<(string, Json)>, dumps: Json -> Result<string>): (r: Result<string>)
    ensures r.Ok? ==> |r.value| >= 4 && r.value[..2] == "{\n" && r.value[|r.value| - 2..] == "\n}"
    ensures fields == [] ==> r == Ok("{\n\n}")
  {
    match JsLines(fields, dumps)
    case Err(e) => Err(e)
    case Ok(lines) =>
      assert lines == [] ==> "{\n" + JoinLines(lines) + "\n}" == "{\n\n}";
      Ok("{\n" + JoinLines(lines) + "\n}")
  }

  /** `format_as_js(data)` for the dict whose bindings are `fields`. */
  method FormatAsJs(fields: seq<(string, Json)>, dumps: Json -> Result<string>) returns (r: Result<string>)
    ensures r == JsBlock(fields, dumps)
  {
    var lines: seq<string> := [];
    var i := 0;
    while i < |fields|
      invariant 0 <= i <= |fields|
      invariant JsLines(fields[..i], dumps) == Ok(lines)
    {
      var (key, value) := fields[i];
      var dumped := dumps(value);
      if dumped.Err? {
        JsLinesOk(fields[..i], dumps);
        JsLinesFirstError(fields, dumps, i);
        return Err(dumped.error);
      }
      lines := lines + [EntryLine(key, dumped.value)];
      i := i + 1;
      assert fields[..i][..i - 1] == fields[..i - 1];
    }
    assert fields[..i] == fields;
    r := Ok("{\n" + JoinLines(lines) + "\n}");
  }

  /**
   * Formatting succeeds exactly when `dumps` accepts every value, and then there is one
   * line per binding, in the dict's order.
   */
  lemma {:induction false} JsLinesOk(fields: seq<(string, Json)>, dumps: Json -> Result<string>)
    ensures JsLines(fields, dumps).Ok? <==> forall i :: 0 <= i < |fields| ==> dumps(fields[i].1).Ok?
    ensures JsLines(fields, dumps).Ok? ==>
              |JsLines(fields, dumps).value| == |fields|
              && forall i :: 0 <= i < |fields| ==>
                   JsLines(fields, dumps).value[i] == EntryLine(fields[i].0, dumps(fields[i].1).value)
    decreases |fields|
  {
    if fields != [] {
      var init := fields[..|fields| - 1];
      JsLinesOk(init, dumps);
      assert forall i :: 0 <= i < |init| ==> init[i] == fields[i];
    }
  }

  /** When formatting fails, it fails with the exception of the first value `dumps` rejects. */
  lemma {:induction false} JsLinesFirstError(fields: seq<(string, Json)>, dumps: Json -> Result<string>, k: nat)
    requires k < |fields| && dumps(fields[k].1).Err?
    requires forall i :: 0 <= i < k ==> dumps(fields[i].1).Ok?
    ensures JsLines(fields, dumps) == Err(dumps(fields[k].1).error)
    decreases |fields|
  {
    var init := fields[..|fields| - 1];
    assert forall i :: 0 <= i < |init| ==> init[i] == fields[i];
    if k == |fields| - 1 {
      JsLinesOk(init, dumps);
    } else {
      JsLinesFirstError(init, dumps, k);
    }
  }

  /** A block is the `{` line, the binding lines (one empty line if there are none) and the `}` line. */
  lemma JsBlockAsLines(lines: seq<string>)
    ensures "{\n" + JoinLines(lines) + "\n}" == JoinLines(["{"] + (if lines == [] then [""] else lines) + ["}"])
  {
    if lines == [] {
      assert ["{"] + [""] + ["}"] == ["{", "", "}"];
      assert JoinLines(["{", "", "}"]) == "{" + "\n" + ("" + "\n" + "}");
    } else {
      JoinAppend(["{"] + lines, "}");
      assert (["{"] + lines)[1..] == lines;
      assert JoinLines(["{"] + lines) == "{" + "\n" + JoinLines(lines);
    }
  }

  /**
   * As long as no key and no dumped value contains a newline (json.dumps without `indent`
   * never writes one), the block splits back into exactly its `{` line, one
   * `  key: <dumped value>` line per binding in the dict's order, and its `}` line.
   */
  lemma JsBlockLines(fields: seq<(string, Json)>, dumps: Json -> Result<string>)
    requires forall i :: 0 <= i < |fields| ==> '\n' !in fields[i].0
    requires forall i :: 0 <= i < |fields| ==> dumps(fields[i].1).Ok? && '\n' !in dumps(fields[i].1).value
    ensures JsBlock(fields, dumps).Ok?
    ensures SplitLines(JsBlock(fields, dumps).value)
            == ["{"]
               + (if fields == [] then [""]
                  else seq(|fields|, i requires 0 <= i < |fields| => EntryLine(fields[i].0, dumps(fields[i].1).value)))
               + ["}"]
  {
    JsLinesOk(fields, dumps);
    var lines := JsLines(fields, dumps).value;
    JsBlockAsLines(lines);
    var all := ["{"] + (if lines == [] then [""] else lines) + ["}"];
    forall i | 0 <= i < |all| ensures '\n' !in all[i] {
      if 0 < i < |all| - 1 && lines != [] {
        assert all[i] == EntryLine(fields[i - 1].0, dumps(fields[i - 1].1).value);
      }
    }
    SplitJoin(all);
  }
}
