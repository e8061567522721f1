# Query relay bot: the reply to one search query

This project models the query-to-messages pipeline of the chat bot in `bot.py`. The handler
`handle_query` takes one user text. It strips the text and rejects it if blank. Otherwise it
makes one request to the upstream search API and maps the outcome to an ordered list of chat
messages. The outcome is checked against a fixed series of short-circuit conditions. If none
matches, the handler walks the `List` mapping database by database. Each database sends a
header, then an "empty" notice or one code block per entry, and a footer closes the reply.
Each code block is produced by `format_as_js`.

The model is organised as follows:

- `wrappers.dfy` (`Wrappers`): `Option` and `Result`.
- `pyjson.dfy` (`PyJson`): decoded JSON values and the Python operations the bot applies to them.
  - Objects are association lists in insertion order.
  - The operations are truthiness, `key in d`, `d.get`, `str()` and `for x in v`.
- `pytext.dfy` (`PyText`): `str.strip()`, the lower-casing used by the alias test, `"\n".join` and `split("\n")`.
  - `split("\n")` is not called by the bot. It serves as the inverse of the join, to state that a block has one line per binding.
- `jsformat.dfy` (`JsFormat`): `format_as_js`.
  - `FormatAsJs` is a method with the source's append loop.
  - It is proved equal to the function `JsBlock`, which is built from `JsLines`.
  - The lemmas state what a block is made of.
- `bot.dfy` (`Bot`): `handle_query`.
  - `bot.send_message` appends a `Message(text, mode)` to an outbox.
  - The upstream call is its outcome, a `Fetch`.
  - The outcome of a call is an `Outcome`: the request made, if any, the messages sent, and whether the handler finished or raised.
  - The methods `HandleQuery`, `Reply` and `SendDatabase` follow the source's control flow: early returns, the database loop and the entry loop. Each is proved equal to a function: `Handle`, `Answer` or `RenderDatabase`.
- `properties.dfy` (`BotProperties`): the properties of the reply.
  - The short-circuit checks and their order.
  - The alias rule.
  - The shape of each database's messages.
  - The order of databases and entries.
  - The message count.
  - The single trailing footer.
  - Exactly when the handler raises.

`json.dumps(value, ensure_ascii=False)` and Python's `str()` of numbers, lists and dicts are
library behaviour. They enter as the parameter `Library(dumps, str)`. `dumps` may return `Err`, which stands for
an exception raised while an entry is formatted.

Some behaviour of `bot.py` is easy to miss, and the model states it as the code has it:

- The handler raises in two places, and nothing catches either. The model records each as `Crashed`, after the messages already sent:
  - `.items()` on a truthy `"List"` that is not a dict (`bot.py:103`);
  - the `for` over a truthy `"Data"` that is a number or `true` (`bot.py:114`), which is outside the per-entry `try`.
- A decoded body that is not a JSON object gets "❌ Unexpected API response." (`bot.py:91-93`).
- `"Data"` is tested only for truthiness (`bot.py:110`), not for being a list:
  - a non-empty string `"Data"` is iterated character by character;
  - a non-empty dict `"Data"` is iterated key by key;
  - each character or key is sent as its own `{"value": x}` block.

## Model

| member | source | states |
|---|---|---|
| PyText.Strip | bot.py:69 | the stripped query is empty exactly when every character is Python whitespace; otherwise it starts and ends with a non-whitespace character |
| PyText.StripRemovesEnds | bot.py:69 | the stripped query is a slice of the text with only whitespace before and after it |
| PyText.Lower | bot.py:104 | lower-casing keeps the length (ASCII letters only, see Left out) |
| PyText.JoinAppend | bot.py:65 | joining one more line puts exactly one newline between the joined text and the new line |
| PyText.SplitJoin | bot.py:65 | splitting at newlines undoes `"\n".join` for newline-free lines |
| PyJson.Lookup | bot.py:95-99 | `d.get(key)` finds a value exactly when `key in d` |
| PyJson.LookupFindsFirst | bot.py:99 | `d.get(key)` returns the value bound to the key |
| PyJson.PyStr | bot.py:96 | a string error code is shown as itself |
| PyJson.Iterate | bot.py:114 | `for x in v` raises exactly for `None`, booleans and numbers |
| JsFormat.JsBlock | bot.py:60-65 | every block starts with "{\n" and ends with "\n}"; an empty dict gives "{\n\n}" |
| JsFormat.FormatAsJs | bot.py:60-65 | the append loop returns the block of the dict, or the exception of the first value `json.dumps` rejects |
| JsFormat.JsLinesOk | bot.py:61-64 | formatting succeeds exactly when every value can be dumped, and then gives one `  key: value` line per binding, in the dict's order |
| JsFormat.JsLinesFirstError | bot.py:62-63 | a failing format raises the exception of the first value `json.dumps` rejects |
| JsFormat.JsBlockAsLines | bot.py:65 | a block is the join of the `{` line, the binding lines (one empty line for an empty dict) and the `}` line |
| JsFormat.JsBlockLines | bot.py:60-65 | with newline-free keys and dumped values, the block splits into exactly `{`, one `  key: <dumps(value)>` line per binding in order, and `}` |
| Bot.HandleQuery | bot.py:68-121 | the handler's request, messages and status are those of `Handle` |
| Bot.Reply | bot.py:91-121 | the checks on the decoded body and the database loop send the messages of `Answer`, stopping at the first crash |
| Bot.SendDatabase | bot.py:104-119 | one turn of the database loop sends the messages of `RenderDatabase`: the header, then the empty notice, the crash or one message per entry |
| Bot.CrashStopsLoop | bot.py:103-114 | once a database raises, the later databases send nothing |
| BotProperties.BlankQueryIsRejected | bot.py:69-72 | an all-whitespace query gets exactly the "please send" message, and no request is made |
| BotProperties.QueryIsSentStripped | bot.py:69-79 | a query that is not blank is sent upstream as the stripped text, with the token, limit 300 and language "ru" |
| BotProperties.UpstreamFailureIsOneMessage | bot.py:81-89 | a network error gets exactly the network message with its cause; an undecodable body gets exactly the invalid-JSON message; no footer in either case |
| BotProperties.FirstFailingCheckWins | bot.py:91-101 | a non-dict body, then an "Error code" (whatever "List" holds), then a missing or falsy "List": the first that holds sends its one message and ends the reply |
| BotProperties.UpstreamErrorText | bot.py:95-97 | `{"Error code": "X"}` gets exactly "🚫 API Error: X" |
| BotProperties.AliasRule | bot.py:104 | the title is "Smarty Sunny" exactly for the 8 case spellings of "1win"; any other key is shown unchanged |
| BotProperties.EntryMessagesAt | bot.py:114-119 | one message per entry, the i-th for the i-th entry |
| BotProperties.EmptyDatabaseShape | bot.py:105-112 | a non-dict content, or one with a missing or falsy "Data", sends the header and exactly one "empty" notice, and the loop goes on |
| BotProperties.BrokenDatabaseShape | bot.py:105-114 | a truthy number or `true` "Data" sends the header and then raises |
| BotProperties.DatabaseEntries | bot.py:105-119 | any other database sends its header and then one message per element of "Data", in order, and the loop goes on |
| BotProperties.DatabaseShape | bot.py:103-119 | each database sends its header first; it raises exactly when broken; otherwise it sends 2 or 1 + (number of elements) messages, none of them the footer |
| BotProperties.NoFooterInEntries | bot.py:114-121 | no entry message equals the footer |
| BotProperties.NonDictEntryIsWrapped | bot.py:116-117 | a non-dict element is sent as the block of `{"value": element}` |
| BotProperties.EntryFailureIsReported | bot.py:114-119 | an entry's message is a code block exactly when formatting succeeds; otherwise it is the warning with the exception text |
| BotProperties.LoopFromTheFront | bot.py:103 | the first database's messages come first; the rest follow only if it did not raise |
| BotProperties.LoopRaises | bot.py:103-119 | the loop raises exactly when some database is broken, and the exception names the first broken one; formatting failures never make it raise |
| BotProperties.LoopCount | bot.py:103-119 | a loop that completes sends the sum over databases of the header plus the notice or one per element |
| BotProperties.NoFooterInLoop | bot.py:103-121 | the loop itself never sends the footer |
| BotProperties.FooterMarksCompletion | bot.py:99-121 | the footer is sent exactly when the loop is reached and completes; it is then the last message, sent once, after the loop's messages |
| BotProperties.WhenTheHandlerRaises | bot.py:91-114 | the handler raises exactly when the body is a dict without "Error code" and its truthy "List" is not a dict or holds a broken database |
| BotProperties.OnlySilentReply | bot.py:91-121 | the reply is empty exactly when the body is a dict without "Error code" and its truthy "List" is not a dict, which raises before any send |
| BotProperties.DatabaseOfList | bot.py:107-117 | `{"Data": [x, ...]}` sends the header and one message per element |
| BotProperties.LoopOfTwo | bot.py:103-119 | a loop over two databases, the first of which does not raise, sends the first's messages and then the second's |
| BotProperties.TwoDatabasesLoop | bot.py:103-119 | A with entries [a1, a2] and B with [b1] send header(A), a1, a2, header(B), b1 |
| BotProperties.ListAnswer | bot.py:99-121 | a dict body with a non-empty "List" dict is answered by the loop, followed by the footer if the loop completes |
| BotProperties.TwoDatabasesInOrder | bot.py:69-121 | a query whose reply lists A with [a1, a2] and B with [b1] gets exactly header(A), a1, a2, header(B), b1, footer |

## Left out

- The health-check HTTP server (`bot.py:24-47`): socket I/O, with no data link to the pipeline.
- Start-up and polling (`bot.py:124-142`): threads and process lifecycle.
- Environment configuration and `sys.exit` (`bot.py:10-18`). The API token is a parameter of the handler.
- The `/start` welcome message (`bot.py:50-58`): a constant with no logic.
- `requests.post` with its 15-second timeout (`bot.py:82`): network I/O. Its outcome is the input `Fetch`.
  - With recent versions of `requests`, a JSON decode error is itself a `RequestException` and would take the network branch.
  - The model keeps the two `except` clauses as the two constructors `NetworkError` and `InvalidJson`.
- The Telegram transport: a send is an append to the outbox, and sends never fail in the model. The real `send_message` can raise:
  - inside the per-entry `try`, e.g. for a message over Telegram's length limit, it would be reported as a formatting warning;
  - elsewhere it would end the handler.
- The escaping rules of `json.dumps(..., ensure_ascii=False)`, and `str()` of numbers, lists and dicts: library behaviour, passed in as `Library`.
- JsFormat.JsBlockLines: the line-by-line reading of a block holds only under three assumptions.
  - Every `json.dumps` call succeeds. A failing entry is described by `JsLinesFirstError` and `EntryFailureIsReported` instead.
  - No dumped value holds a newline. `json.dumps` without `indent` escapes newlines inside strings, so this always holds.
  - No key holds a newline. Keys come from the upstream service and may contain one. Such a block has more lines than bindings, and the lemma says nothing about it.
- Floating-point values are reals: NaN and infinities, which Python's decoder accepts, are not modelled.
- Duplicate keys in a decoded object cannot occur in Python; lookups take the first binding.
- PyText.Lower: only ASCII letters are lower-cased. The comparison with "1win" comes out as in Python, because no other character lower-cases to a single '1', 'w', 'i' or 'n'.
- PyJson.PyStr: states only the string case; numbers, lists and dicts are shown by the `str` parameter.
- PyJson.Iterate: states only when iteration raises. The elements (a list's items, a dict's keys, a string's characters) are given by its definition.
- Determinism of `format_as_js` and of the reply needs no lemma: both are functions of their inputs.
