# Cyfuture AI Bot: a Dafny model of the per-turn logic

The Cyfuture AI Bot is a customer-care chatbot. It has three parts:

- a FastAPI service (main.py);
- a turn handler (`ChatBot.get_response` in src/bot.py), which classifies each
  message and then either looks up a complaint's status or collects the
  user's contact details and raises a complaint ticket;
- a Streamlit front end that renders the service's replies as markdown.

This project models the deterministic logic around the language model, the
vector store and the SQLite tables, and proves properties of it.

- `Results` holds `Option`, `Result` and the error cases. An `Error` is an
  upstream failure at a named `Step`, a missing dict key, a non-dict where a
  dict is indexed, a non-string where a string field is filled, or a
  malformed format string.
- `Json` holds JSON values as the Python code handles them:
  - dicts keep insertion order;
  - `d[key]` (`Index`), `d.get(key, default)` (`GetOr`) and truthiness
    (`Truthy`);
  - `str()` of a value as an f-string renders it (`PyStr`).
- `Text` holds `str.strip`/`rstrip`/`lstrip`, `", ".join`, one-character
  `replace` and `title`.
- `Tables` holds the three tables `cyfuture_conversation_analytics`,
  `cyfuture_user_details` and `cyfuture_complaints`:
  - each is an append-only sequence of rows in insertion order, and a row's
    position stands for its `created_at`;
  - it also holds the queries the code runs on them: the history window, the
    latest contact details, and the lookup by complaint id.
- `Services` holds src/utils.py: `generate_complaint`, `get_complaint_client`
  and `get_user_detail`.
- `Api` holds the complaint endpoints and the welcome endpoint of main.py.
  `ChatApi` holds `POST /chatbot`.
- `Prompts` holds the three message builders of src/prompts.py:
  - the template text is reproduced verbatim;
  - Python's `str.format` is modelled (`Format`);
  - the intent template is, as in the code, never formatted, so its
    `{previous_conversations}` placeholder reaches the model literally.
- `Bot` holds `ChatBot.__init__` and `ChatBot.get_response`. One turn is a
  function from the store and an `Oracle` to a `TurnOutcome`: the reply, the
  store the turn leaves behind, and the requests it sent.
  - The `Oracle` supplies the answers of the outside world: the three
    completions' parsed JSON, the retrieved chunks, the new complaint id, and
    the set of steps that fail.
  - Every failure propagates, as the code re-raises it, and rows written
    before the failure stay written.
  - `get_complaint_status` and `create_complaint` go over HTTP to the service
    itself. They are modelled as direct calls of `Api.GetComplaint` and
    `Api.CreateComplaint`.
- `BotProperties` and `UiProperties` state what a turn does, branch by branch,
  against independent definitions:
  - the user's newest turns;
  - the latest contact details;
  - the complaint services;
  - the markdown the chat window shows.
- `Ui` holds `_fmt_complaint_details`, `_extract_bot_text` and its inner
  `_join` from streamlit_chatbot_ui.py.

## Model

| member | source | states |
|---|---|---|
| Bot.AnalyticsRow | src/bot.py:23-27 | the conversation row a turn records always carries the request's user id and text |
| Tables.Recent | src/bot.py:55-64 | the history query yields at most the requested number of rows, all of them the user's |
| Tables.RecentIsNewestOfUser | src/bot.py:55-64 | the rows the history query returns, read oldest first, are exactly the last min(2, n) of the user's n conversation rows |
| BotProperties.TranscriptIsHistory | src/bot.py:55-74 | the transcript the turn builds is the transcript of the user's newest turns (at most two, oldest first) |
| Bot.RenderRows | src/bot.py:67-70 | the rendered history is empty exactly when there are no past rows |
| Bot.RenderRowsAppend | src/bot.py:67-70 | the rendering of two runs of rows is the rendering of each in turn, so every row contributes exactly its own block, in order |
| Bot.Transcript | src/bot.py:65-74 | with no past rows the transcript is exactly "No previous conversations found.", and only then; otherwise it is the rendered rows followed by "User: <text>" with only trailing whitespace removed |
| Bot.TranscriptStripsOnlyTheEnd | src/bot.py:71-72 | stripping the assembled transcript removes nothing from its front, since it starts with "User: " |
| Text.Strip | src/bot.py:72 | strip returns the slice between the leading and the trailing whitespace, and the result neither starts nor ends with whitespace |
| Text.RStripKeepsHead | src/bot.py:71-72 | right-stripping a text that ends in a non-blank part leaves everything before that part untouched |
| Bot.RetrievedContext | src/bot.py:130-132 | the context is empty for no chunks, and otherwise the chunks joined by blank lines with a final blank line |
| Text.JoinSnoc | src/bot.py:148 | joining one more part appends the separator and that part |
| Bot.ContactParts | src/bot.py:137-147 | one phrase per non-empty contact field, in the order name, phone, email, each with its fixed lead-in |
| Bot.UserInput | src/bot.py:134-154 | the model sees the raw text exactly when no details exist or all three fields are empty; otherwise the joined phrases, ".\nComplaint/Query: " and the text |
| Bot.DetailsFromUserInfo | src/bot.py:168-174 | the recorded details row carries the turn's user id and each contact field of user_info, "" for an absent one; it fails when user_info is not a dict or a present field is not a string |
| Bot.ComplaintFromUserInfo | src/bot.py:195-202 | the complaint is read with d[key], so each of its four fields is the string user_info binds, and a missing name is a KeyError, not a default |
| Bot.Reply | src/bot.py:106-109 | a reply dict binds "response" and "complaint_details" to the given values |
| Bot.GetResponse | src/bot.py:53-215 | every turn appends at most one row to each table and changes nothing already there; a complaint is raised only together with a flag-0 conversation row; a flag-1 row comes with no complaint; every upstream failure reported is one that occurred, and a reply means the history fetch and intent completion did not fail |
| Bot.StatusTurn | src/bot.py:81-110 | the status branch never writes and sends exactly the status completion after the intent completion; a reply means the status completion did not fail, nor the complaint lookup when the flag is falsy |
| Bot.IntakeTurn | src/bot.py:112-164 | the intake branch keeps the one-row-per-table and flag rules and reports only failures that occurred; a reply means none of the user-detail fetch, embedding, vector search, chat completion and the two inserts failed, nor the complaint insert when the flag is falsy |
| Bot.Conclude | src/bot.py:165-175 | after the chat completion, no further requests are sent and the flag rules hold for the rows written; a reply means the user-detail and conversation inserts did not fail, nor the complaint insert when the flag is falsy |
| Bot.AskFollowup | src/bot.py:175-184 | a followup question is replied exactly when it was recorded, as one flag-1 row with no details, with the question as the reply's response and null details |
| Bot.FinalRecord | src/bot.py:186-189 | the final branch can record its row exactly when user_info's response is a string and its complaint_details is a string or null; the row then holds that response and those details, null as NULL |
| Bot.RaiseComplaint | src/bot.py:186-191 | whenever the response and complaint details are read and the insert succeeds, exactly one flag-0 row with them is appended, before the complaint is attempted; otherwise nothing is written and the turn fails; a complaint is raised only after that row |
| Bot.FileComplaint | src/bot.py:195-210 | the turn succeeds exactly when a complaint row is appended, and that row is the Pending complaint under the new id with the four fields user_info binds; a failing insert of a well-formed complaint is re-raised as that failure |
| BotProperties.StatusPath | src/bot.py:79-81 | a turn classified "status" is its status branch, with the intent request already sent |
| BotProperties.IntakeBranch | src/bot.py:79-112 | once the history is read and the intent is classified, any category other than "status" takes the intake branch, whatever the later steps do |
| BotProperties.IntakeReachesConclude | src/bot.py:112-164 | with the fetch, embedding, search and chat steps answering, the intake branch sends the embedding, search and chat requests and goes on to the reply |
| BotProperties.IntakePath | src/bot.py:53-164 | a turn that reaches the chat completion has sent exactly the four intake requests |
| BotProperties.FinalPath | src/bot.py:168-191 | with a falsy followup flag, the turn records the details row and then takes the final branch |
| BotProperties.StatusTurnWritesNothing | src/bot.py:81-110 | a status turn leaves every table as it was and sends the intent and the status completions only |
| BotProperties.StatusFollowupRelaysQuestion | src/bot.py:98-100 | a truthy status followup flag makes the reply exactly the model's followup_question |
| BotProperties.StatusLookupAnswersRecord | src/bot.py:102-110 | otherwise the reply's response is the fixed status heading and its details read back as the record get_complaint_client finds for the extracted id |
| BotProperties.StatusFetchFailureSurfaces | src/bot.py:102-110 | with a falsy flag and an extracted id, a failing complaint lookup fails the turn with that failure and writes nothing |
| BotProperties.IntakeRequests | src/bot.py:112-164 | the chat prompt carries the user's newest-turns transcript, the latest contact details as preamble and the retrieved chunks, after the embedding and the top-5 search on "CyfutureRag" returning "content" |
| BotProperties.IntakeRecordsDetails | src/bot.py:168-174 | every intake turn that reaches the model's answer appends exactly one details row, whatever happens next |
| BotProperties.FollowupTurn | src/bot.py:175-184 | a truthy intake flag appends one flag-1 row with the question and no details, raises no complaint, and replies with the question and null details |
| BotProperties.FinalAnswerReads | src/bot.py:168-202 | a complete user_info yields the details row and the complaint request with its fields |
| BotProperties.FinalTurn | src/bot.py:186-210 | a falsy intake flag appends one flag-0 row with the answer and details, then one Pending complaint under the new id, and replies with the recorded answer and the id |
| BotProperties.FinalInsertFailureSurfaces | src/bot.py:186-215 | with a falsy intake flag, a failing complaint insert fails the turn with that failure, after the flag-0 row with the answer and details was appended, and raises no complaint |
| BotProperties.FinalTurnWithoutName | src/bot.py:186-202 | a final answer without a name fails with a KeyError after its conversation row is recorded, and raises no complaint |
| BotProperties.FinalTurnWithNullDetails | src/bot.py:186-202 | a final answer with null complaint details records its flag-0 row with NULL details and the contact row, then fails to raise the complaint, which needs the details as text |
| BotProperties.FinalThenStatus | src/bot.py:102-110 | the complaint a final turn raises under a fresh id is what a later status turn for that id reports, with the same fields and status Pending |
| Services.GenerateComplaint | src/utils.py:12-24 | a new ticket copies the four fields, gets the new id and status Pending, and is the one row appended; a failing insert is re-raised |
| Services.GetComplaintClient | src/utils.py:28-50 | an unknown id answers the sentinel (Unknown contact fields, status "Not Found", the fixed details text, the id echoed) without error; a known id answers a stored row with that id; a failing read is re-raised |
| Services.GetUserDetail | src/utils.py:53-78 | the result is None exactly when the user has no details row, and otherwise the user's most recently inserted row |
| Tables.LatestDetails | src/utils.py:67-75 | the latest row is absent exactly when no row has the user id, and otherwise no later row has it |
| Tables.FirstWithId | src/utils.py:30-45 | the lookup is empty exactly when the id is fresh, and otherwise answers the first row with that id |
| Tables.FindsAppended | src/utils.py:30-45 | a row appended under a fresh id is the row the lookup finds |
| Services.GenerateThenGet | src/utils.py:13-45 | round trip: a ticket generated under a fresh id is found again with the same fields and status Pending |
| Services.GenerateKeepsIdsUnique | src/utils.py:14 | generating under a fresh id keeps complaint ids unique |
| Api.ReadRoot | main.py:30-32 | the welcome payload is a one-entry dict binding "Response" to the welcome text |
| Api.ComplaintJson | main.py:41-44 | a complaint record is serialised as a dict of six string fields |
| Api.ComplaintJsonRoundTrip | main.py:41-44 | a serialised complaint record reads back as the same record |
| Api.GetComplaint | main.py:41-44 | the body reads back as exactly the record get_complaint_client returns, sentinel included; a failing read is an error |
| Api.CreateComplaint | main.py:47-53 | the body binds the new id and "Complaint created successfully", and the store is the one generate_complaint leaves |
| Api.CreateThenGet | main.py:41-53 | the id POST /complaints answers fetches, through GET /complaints/{id}, the Pending record with the request's fields |
| Api.UnknownIdAnswersSentinel | main.py:41-44 | an id nobody raised fetches the sentinel record with status "Not Found" |
| ChatApi.Wrap | main.py:60 | the chatbot body is a one-entry dict binding "bot_response" to the reply |
| ChatApi.ChatbotInteraction | main.py:56-60 | the endpoint answers the turn's reply unchanged under "bot_response", fails exactly when the turn does, and leaves the turn's store; a success is exactly the wrapped reply of the turn |
| Prompts.GetChatbotPrompt | src/prompts.py:1-47 | two messages, system then user; the user content is the input verbatim; the system content is the template text with the context and the transcript at the two placeholders |
| Prompts.ChatbotPromptFormatsTemplate | src/prompts.py:36-40 | the chatbot system message is what str.format makes of the template with the two arguments |
| Prompts.Format | src/prompts.py:37-40 | str.format copies text without braces unchanged; on the named fields modelled it fails only with a ValueError for a malformed field or a KeyError for a field name without an argument |
| Prompts.FormatFillsTwoFields | src/prompts.py:13-16 | formatting brace-free text with two named fields in it replaces each field by its argument and changes nothing else |
| Prompts.GetComplaintStatusPrompt | src/prompts.py:50-78 | two messages, system then user; the system content is the fixed status template whatever the input; the user content is the input verbatim |
| Prompts.GetIntentPrompt | src/prompts.py:81-111 | two messages, system then user; the system content is the intent template as written; the user content is the input verbatim |
| Prompts.IntentIgnoresTranscript | src/prompts.py:90-105 | the intent prompt is the same for every transcript, and the literal "{previous_conversations}" stays in its system content |
| Json.Index | src/bot.py:186-200 | d[key] yields the value bound to key; a dict without the key is a KeyError naming it, and a non-dict is a TypeError |
| Json.GetOr | src/bot.py:168-173 | d.get(key, default) yields the bound value when the key is there and the default otherwise, and fails only on a non-dict |
| Json.Truthy | src/bot.py:175 | a value is true unless it is None, False, 0, or an empty string, list or dict, as Python's bool decides |
| Json.PyStr | streamlit_chatbot_ui.py:43-49 | an f-string shows a string as itself, None as "None" and an integer as its decimal digits without leading zeros, with a minus sign when negative, and a boolean as "True" or "False" |
| Ui.Label | streamlit_chatbot_ui.py:49 | a details key is shown with every underscore a space, the first letter of each run of letters upper-case and the other letters lower-case |
| Text.Title | streamlit_chatbot_ui.py:49 | title-casing keeps the length, upper-cases exactly the letters that start a run of letters, lower-cases the other letters and keeps every other character |
| Text.ReplaceChar | streamlit_chatbot_ui.py:49 | replacing a character changes exactly its occurrences and keeps the length |
| Ui.EntriesSnoc | streamlit_chatbot_ui.py:48-49 | one more dict entry adds its bullet at the end |
| Ui.EntriesAppend | streamlit_chatbot_ui.py:48-49 | the bullets of two runs of entries are those of each, in order |
| Ui.EntriesHaveOneLineEach | streamlit_chatbot_ui.py:48-49 | the first entry contributes exactly its own bullet, followed by the bullets of the rest |
| Ui.FmtComplaintDetails | streamlit_chatbot_ui.py:42-50 | the output is empty exactly for falsy details; otherwise it is the heading, then str(details) and a newline, or one bullet per dict entry |
| Ui.JoinReply | streamlit_chatbot_ui.py:59-60 | joining succeeds exactly for a string response, and the output is that response followed by the formatted details |
| Ui.DictDetailsJoined | streamlit_chatbot_ui.py:42-60 | a response joined with a non-empty dict is the response, the heading and the entries' bullets |
| Ui.ExtractBotText | streamlit_chatbot_ui.py:58-74 | a string bot_response is shown verbatim; a dict bot_response is joined from its response ("" when absent) and its complaint_details (null when absent); otherwise a payload with "response" is joined the same way from its own keys; anything else is dumped; the only failure is a non-string response |
| UiProperties.WrappingKeepsRendering | streamlit_chatbot_ui.py:63-72 | any dict with a "response" renders the same wrapped under "bot_response" as bare |
| UiProperties.BareAndWrappedRenderAlike | streamlit_chatbot_ui.py:63-72 | a reply dict the bot builds renders the same wrapped under "bot_response" as bare, as the joined response and details |
| UiProperties.StatusQuestionShownVerbatim | streamlit_chatbot_ui.py:63-66 | a status question from the model is shown verbatim |
| UiProperties.FollowupShownVerbatim | streamlit_chatbot_ui.py:63-68 | an intake question is shown verbatim, with no details section |
| UiProperties.DictDetailsShown | streamlit_chatbot_ui.py:67-68 | a wrapped reply with a non-empty details dict shows its response, the heading and one bullet per entry |
| UiProperties.FinalShowsAnswerThenId | streamlit_chatbot_ui.py:67-68 | after a final turn the chat shows the recorded answer, then the details heading and the bullets of the creation body, the new id first |

## Left out

- The SQL engine and pandas (src/adapters/sqllitemanager.py) are not part of this model. The queries are modelled as the filters and orderings they express. The f-string SQL (a user id or complaint id containing a quote) is not modelled.
- `created_at` is modelled as insertion order. Two rows inserted in the same second are ordered by insertion, which SQLite's one-second `CURRENT_TIMESTAMP` does not guarantee.
- The language model, the embedding endpoint and the vector store are not modelled. Their answers are `Oracle` fields, and `json.loads` of a completion is taken as already done.
- Floating-point numbers in JSON are not modelled.
- Timing (`measure_time`), logging and the `/upload_docs` endpoint with its document ingestion are not modelled, nor are table creation, CORS and process start-up.
- The HTTP hops of `get_complaint_status` and `create_complaint` are not modelled; they are direct calls of the handlers. A complaint id that changes the URL's path or query is therefore not modelled.
- Concurrent turns of one user are not modelled. Each turn is a function of the store it starts from.
- The Streamlit page, its session state and its `requests.post` are not modelled.
- src/types.py is not part of this model. The contact and complaint fields of its pydantic models are taken to be strings, so a non-string JSON value written into one is an error. The conversation row's complaint details are taken to be an optional string, since the code stores None there on a followup turn and the column is nullable; a value that is neither a string nor null is an error. The complaint record is taken to serialise in the field order name, phone_number, email, complaint_details, complaint_id, status.
- Json.PyStr: Python's `str` of lists and dicts is the abstract `show` parameter, not a definition.
- `json.dumps(payload, indent=2)` in the chat window is the abstract `dump` parameter of `Ui.ExtractBotText`, not a definition.
- A JSON dict is a sequence of bindings and `Json.Lookup` takes the first binding of a key, whereas `json.loads` keeps the last value of a repeated key. The two agree on dicts with distinct keys, which every dict the code builds has; a model answer with a repeated key is not modelled.
- Text.Title: only ASCII letters are cased. Python's `title` also cases other Unicode letters.
- Prompts.ChatbotPromptFormatsTemplate: the template's fixed text is taken to have no braces of its own. This holds of the text as written, but it is a hypothesis of the lemma rather than proved of the literal.
- Prompts.Format: only plain `{name}` fields, `{{` and `}}` are modelled. Format specs, conversions, and attribute and index fields are not. An empty field `{}` and a positional field such as `{0}` make Python raise an IndexError, whereas the model answers a malformed-format error for `{}` and a missing key "0" for `{0}`. The chatbot template uses neither form.
- Bot.AskFollowup: a followup_question that is not a string is an error (see src/types.py above), where pydantic without assignment validation might store it as it is.
- Bot.FinalRecord: a user_info response that is not a string is an error for the same reason, where pydantic without assignment validation might store it as it is.
- Services.GetComplaintClient: for a known id it answers the first row with that id, where the SQL query has no ORDER BY. With unique ids, which `Services.GenerateKeepsIdsUnique` preserves, there is only one such row.
