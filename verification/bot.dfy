/** One chatbot turn (`ChatBot.get_response` in src/bot.py) as a function
    from the store and the answers of the outside services to the reply,
    the store the turn leaves behind and the requests it sent out.

    The language model, the embedding endpoint and the vector store are not
    modelled: their answers are fields of an `Oracle`, and a failure of any
    external step is the step's membership in `Oracle.faults`. Every failure
    is re-raised, so a turn that fails keeps the rows it had already written.
 */
module Bot {
  import opened Results
  import opened Json
  import opened Text
  import opened Tables
  import opened Services
  import opened Prompts
  import Api

  /** How many past turns the transcript shows. */
  const HistoryWindow := 2
  const NoHistory := "No previous conversations found."
  const StatusCategory := "status"
  const StatusHeading := "Here is the status of your complaint:"
  const ComplaintPrefix := ".\nComplaint/Query: "
  const CollectionName := "CyfutureRag"
  const ReturnFields := ["content"]
  /** How many context chunks the vector search asks for. */
  const TopK := 5

  /** The body of `POST /chatbot`. */
  datatype ChatTurn = ChatTurn(userId: string, userText: string)

  /** A request the turn sends to an outside service. */
  datatype Request =
    | Completion(messages: seq<Message>)
    | EmbeddingOf(text: string)
    | Search(collection: string, returnFields: seq<string>, topK: nat)

  /** What the outside world answers during one turn: the parsed JSON of the
      intent, status and chat completions, the `content` of each retrieved
      chunk in rank order, the id `uuid4` produces, the steps that fail, and
      Python's `str` of lists and dicts. */
  datatype Oracle = Oracle(
    intent: Json,
    status: Json,
    chunks: seq<string>,
    chat: Json,
    newId: string,
    faults: set<Step>,
    show: Json -> string)

  datatype TurnOutcome = TurnOutcome(reply: Result<Json>, store: Store, requests: seq<Request>)

  function Fail(e: Error, store: Store, sent: seq<Request>): TurnOutcome
  {
    TurnOutcome(Err(e), store, sent)
  }

  /** Each table grew by at most one row, at its end. */
  predicate AtMostOneRowEach(before: Store, after: Store)
  {
    && AppendOnly(before, after)
    && |after.conversations| <= |before.conversations| + 1
    && |after.userDetails| <= |before.userDetails| + 1
    && |after.complaints| <= |before.complaints| + 1
  }

  /** The followup flag means what it says: a complaint is raised only by a
      turn that also recorded a final (flag 0) conversation row, and a turn
      that recorded a question (flag 1) raised no complaint. */
  predicate FlagConsistent(before: Store, after: Store)
    requires AppendOnly(before, after)
  {
    && (|after.complaints| > |before.complaints| ==>
          |after.conversations| > |before.conversations|
          && after.conversations[|after.conversations| - 1].followupFlag == 0)
    && (|after.conversations| > |before.conversations|
        && after.conversations[|after.conversations| - 1].followupFlag == 1 ==>
          after.complaints == before.complaints)
  }

  /** The conversation row `ChatBot.__init__` starts from, completed with the
      turn's outcome: it always carries the turn's user id and text. */
  function AnalyticsRow(turn: ChatTurn, response: string, details: Option<string>, flag: Flag)
    : (row: ConversationRow)
    ensures row.userId == turn.userId && row.userText == turn.userText
  {
    ConversationRow(turn.userId, turn.userText, details, response, flag)
  }

  /** The reply dict every answered turn has: the text to show and the
      complaint it concerns, if any. */
  function Reply(response: Json, details: Json): (r: Json)
    ensures r.Obj? && |r.fields| == 2
    ensures Index(r, "response") == Ok(response)
    ensures Index(r, "complaint_details") == Ok(details)
  {
    var fields := [("response", response), ("complaint_details", details)];
    LookupAt(fields, 0);
    LookupAt(fields, 1);
    Obj(fields)
  }

  // ---------------------------------------------------------------------
  // The strings the turn assembles.

  /** One past turn as the transcript shows it. */
  function RenderRow(row: ConversationRow): string
  {
    "User: " + row.userText + "\nBot (You): " + row.response + "\n\n"
  }

  /** The past turns, one block each, in the order given. */
  function RenderRows(rows: seq<ConversationRow>): (r: string)
    ensures r == "" <==> |rows| == 0
  {
    if |rows| == 0 then "" else RenderRows(rows[..|rows| - 1]) + RenderRow(rows[|rows| - 1])
  }

  /** The blocks of two runs of turns are the blocks of each, one after the
      other; so every turn contributes exactly its own block, in order. */
  lemma {:induction false} RenderRowsAppend(a: seq<ConversationRow>, b: seq<ConversationRow>)
    ensures RenderRows(a + b) == RenderRows(a) + RenderRows(b)
    decreases |b|
  {
    if |b| > 0 {
      var b' := b[..|b| - 1];
      var last := b[|b| - 1];
      assert (a + b)[..|a + b| - 1] == a + b';
      assert (a + b)[|a + b| - 1] == last;
      RenderRowsAppend(a, b');
    } else {
      assert a + b == a;
    }
  }

  /** The transcript: the past turns, then the current text, stripped; or
      the "no history" sentinel when there are no past turns. Only the end
      of the transcript can lose whitespace, because it starts with
      "User: ". */
  function Transcript(rows: seq<ConversationRow>, userText: string): (t: string)
    ensures t == NoHistory <==> |rows| == 0
    ensures |rows| > 0 ==> t == RenderRows(rows) + RStrip("User: " + userText)
  {
    if |rows| == 0 then NoHistory
    else
      var whole := RenderRows(rows) + "User: " + userText;
      TranscriptStripsOnlyTheEnd(rows, userText);
      Strip(whole)
  }

  lemma {:induction false} RenderRowsStartsWithUser(rows: seq<ConversationRow>)
    requires |rows| > 0
    ensures |RenderRows(rows)| >= 6 && RenderRows(rows)[..6] == "User: "
    decreases |rows|
  {
    if |rows| > 1 {
      RenderRowsStartsWithUser(rows[..|rows| - 1]);
    }
  }

  /** A string that starts with a letter loses nothing to `lstrip`, and
      keeps its head under `rstrip` when it is the head of a longer one. */
  lemma StripStartingWithU(head: string, tail: string)
    requires |head| > 0 && head[0] == 'U'
    requires |tail| > 0 && tail[0] == 'U'
    ensures Strip(head + tail) == head + RStrip(tail)
  {
    var whole := head + tail;
    assert whole[0] == 'U';
    assert LStrip(whole) == whole;
    assert HasInk(tail) by { assert !IsSpace(tail[0]); }
    RStripKeepsHead(head, tail);
  }

  lemma TranscriptStripsOnlyTheEnd(rows: seq<ConversationRow>, userText: string)
    requires |rows| > 0
    ensures Strip(RenderRows(rows) + "User: " + userText) == RenderRows(rows) + RStrip("User: " + userText)
    ensures RenderRows(rows) + RStrip("User: " + userText) != NoHistory
  {
    var head := RenderRows(rows);
    var tail := "User: " + userText;
    RenderRowsStartsWithUser(rows);
    assert head[0] == head[..6][0];
    assert tail[0] == 'U';
    assert head + "User: " + userText == head + tail;
    StripStartingWithU(head, tail);
    assert (head + RStrip(tail))[0] == 'U';
    assert NoHistory[0] == 'N';
  }

  /** The retrieved context: each chunk's content followed by a blank line,
      in rank order. */
  function RetrievedContext(chunks: seq<string>): (r: string)
    ensures |chunks| == 0 ==> r == ""
    ensures |chunks| > 0 ==> r == Join("\n\n", chunks) + "\n\n"
  {
    if |chunks| == 0 then ""
    else
      var front := chunks[..|chunks| - 1];
      var r := RetrievedContext(front) + chunks[|chunks| - 1] + "\n\n";
      if |front| == 0 then r
      else
        JoinSnoc("\n\n", front, chunks[|chunks| - 1]);
        assert front + [chunks[|chunks| - 1]] == chunks;
        r
  }

  /** The known contact fields as phrases, in the order name, phone, email;
      an empty field contributes nothing. */
  function ContactParts(d: UserDetailsRow): (parts: seq<string>)
    ensures |parts| == (if d.name != "" then 1 else 0) + (if d.phoneNumber != "" then 1 else 0)
                         + (if d.email != "" then 1 else 0)
    ensures d.name != "" ==> parts[0] == "I'm " + d.name
    ensures d.phoneNumber != "" ==>
              parts[if d.name != "" then 1 else 0] == "my phone number is " + d.phoneNumber
    ensures d.email != "" ==> parts[|parts| - 1] == "my email is " + d.email
  {
    (if d.name != "" then ["I'm " + d.name] else [])
    + (if d.phoneNumber != "" then ["my phone number is " + d.phoneNumber] else [])
    + (if d.email != "" then ["my email is " + d.email] else [])
  }

  /** The user input the chat completion sees: the raw text, or the known
      contact fields as a preamble before it. */
  function UserInput(details: Option<UserDetailsRow>, userText: string): (r: string)
    ensures r == userText <==>
              details.None? || (details.value.name == "" && details.value.phoneNumber == ""
                                && details.value.email == "")
    ensures r != userText ==> r == Join(", ", ContactParts(details.value)) + ComplaintPrefix + userText
  {
    if details.None? then userText
    else
      var preamble := Join(", ", ContactParts(details.value));
      if preamble == "" then userText
      else
        var r := preamble + ComplaintPrefix + userText;
        assert |r| > |userText|;
        r
  }

  // ---------------------------------------------------------------------
  // Reading the model's JSON into records.

  /** A JSON value that a string field of a record receives. */
  function AsString(v: Json, field: string): (r: Result<string>)
    ensures r.Ok? <==> v.Str?
    ensures r.Ok? ==> r.value == v.s
    ensures r.Err? ==> r.error == NotAString(field)
  {
    if v.Str? then Ok(v.s) else Err(NotAString(field))
  }

  /** A JSON value that a nullable text field receives: `null` is stored as
      SQL NULL, a string as itself. */
  function AsOptionalString(v: Json, field: string): (r: Result<Option<string>>)
    ensures r.Ok? <==> v.Str? || v.Null?
    ensures v.Null? ==> r == Ok(None)
    ensures v.Str? ==> r == Ok(Some(v.s))
    ensures r.Err? ==> r.error == NotAString(field)
  {
    match v
    case Null => Ok(None)
    case Str(s) => Ok(Some(s))
    case _ => Err(NotAString(field))
  }

  /** The field `key` of `info` is a string or is not there at all. */
  predicate StrOrAbsent(info: Json, key: string)
  {
    !HasKey(info, key) || Index(info, key).value.Str?
  }

  /** The string `info.get(key, "")` yields, for a field that is a string or
      absent. */
  function StrOr(info: Json, key: string): string
    requires StrOrAbsent(info, key)
  {
    if HasKey(info, key) then Index(info, key).value.s else ""
  }

  /** The user-details row the intake branch records: each contact field
      read with `.get(field, "")`. */
  function DetailsFromUserInfo(userId: string, info: Json): (r: Result<UserDetailsRow>)
    ensures r.Ok? <==> info.Obj? && StrOrAbsent(info, "name") && StrOrAbsent(info, "phone_number")
                       && StrOrAbsent(info, "email")
    ensures r.Ok? ==> && r.value.userId == userId
                      && r.value.name == StrOr(info, "name")
                      && r.value.phoneNumber == StrOr(info, "phone_number")
                      && r.value.email == StrOr(info, "email")
    ensures !info.Obj? ==> r == Err(NotAnObject)
  {
    match (GetOr(info, "name", Str("")), GetOr(info, "phone_number", Str("")), GetOr(info, "email", Str("")))
    case (Ok(n), Ok(p), Ok(e)) =>
      if !n.Str? then Err(NotAString("name"))
      else if !p.Str? then Err(NotAString("phone_number"))
      else if !e.Str? then Err(NotAString("email"))
      else Ok(UserDetailsRow(userId, n.s, p.s, e.s))
    case _ => Err(NotAnObject)
  }

  /** The complaint the final branch raises: each of the four fields read
      with `[field]`, so a missing one is a KeyError, not a default. */
  function ComplaintFromUserInfo(info: Json): (r: Result<ComplaintRequest>)
    ensures r.Ok? ==> && Index(info, "name") == Ok(Str(r.value.name))
                      && Index(info, "phone_number") == Ok(Str(r.value.phoneNumber))
                      && Index(info, "email") == Ok(Str(r.value.email))
                      && Index(info, "complaint_details") == Ok(Str(r.value.complaintDetails))
    ensures info.Obj? && !HasKey(info, "name") ==> r == Err(KeyMissing("name"))
  {
    match (Index(info, "name"), Index(info, "phone_number"), Index(info, "email"), Index(info, "complaint_details"))
    case (Err(e), _, _, _) => Err(e)
    case (_, Err(e), _, _) => Err(e)
    case (_, _, Err(e), _) => Err(e)
    case (_, _, _, Err(e)) => Err(e)
    case (Ok(n), Ok(p), Ok(e), Ok(d)) =>
      if !n.Str? then Err(NotAString("name"))
      else if !p.Str? then Err(NotAString("phone_number"))
      else if !e.Str? then Err(NotAString("email"))
      else if !d.Str? then Err(NotAString("complaint_details"))
      else Ok(ComplaintRequest(n.s, p.s, e.s, d.s))
  }

  // ---------------------------------------------------------------------
  // The turn.

  /** `get_response`. */
  function GetResponse(turn: ChatTurn, store: Store, o: Oracle): (out: TurnOutcome)
    ensures AtMostOneRowEach(store, out.store)
    ensures FlagConsistent(store, out.store)
    ensures out.reply.Err? && out.reply.error.Upstream? ==> out.reply.error.step in o.faults
    ensures out.reply.Ok? ==> HistoryFetch !in o.faults && IntentCompletion !in o.faults
  {
    if HistoryFetch in o.faults then Fail(Upstream(HistoryFetch), store, [])
    else
      var transcript := Transcript(Recent(store.conversations, turn.userId, HistoryWindow), turn.userText);
      var sent := [Completion(GetIntentPrompt(turn.userText, transcript))];
      if IntentCompletion in o.faults then Fail(Upstream(IntentCompletion), store, sent)
      else match Index(o.intent, "category")
        case Err(e) => Fail(e, store, sent)
        case Ok(category) =>
          if category == Str(StatusCategory) then StatusTurn(turn, store, o, sent)
          else IntakeTurn(turn, store, o, transcript, sent)
  }

  /** The status branch: ask the model for the complaint id, then either
      relay its question or look the complaint up. It never writes. */
  function StatusTurn(turn: ChatTurn, store: Store, o: Oracle, sent: seq<Request>): (out: TurnOutcome)
    ensures out.store == store
    ensures out.requests == sent + [Completion(GetComplaintStatusPrompt(turn.userText))]
    ensures out.reply.Err? && out.reply.error.Upstream? ==> out.reply.error.step in o.faults
    ensures out.reply.Ok? ==> StatusCompletion !in o.faults
    ensures out.reply.Ok? && Index(o.status, "followup_flag").Ok? && !Truthy(Index(o.status, "followup_flag").value) ==>
              ComplaintFetch !in o.faults
  {
    var sent := sent + [Completion(GetComplaintStatusPrompt(turn.userText))];
    if StatusCompletion in o.faults then Fail(Upstream(StatusCompletion), store, sent)
    else match Index(o.status, "followup_flag")
      case Err(e) => Fail(e, store, sent)
      case Ok(flag) =>
        if Truthy(flag) then TurnOutcome(Index(o.status, "followup_question"), store, sent)
        else match Index(o.status, "complaint_id")
          case Err(e) => Fail(e, store, sent)
          case Ok(id) =>
            match Api.GetComplaint(store, PyStr(id, o.show), o.faults)
            case Err(e) => Fail(e, store, sent)
            case Ok(details) =>
              TurnOutcome(Ok(Reply(Str(StatusHeading), details)), store, sent)
  }

  /** The intake branch up to the chat completion: fetch the latest contact
      details, retrieve context and ask the model. */
  function IntakeTurn(turn: ChatTurn, store: Store, o: Oracle, transcript: string, sent: seq<Request>)
    : (out: TurnOutcome)
    ensures AtMostOneRowEach(store, out.store)
    ensures FlagConsistent(store, out.store)
    ensures out.reply.Err? && out.reply.error.Upstream? ==> out.reply.error.step in o.faults
    ensures out.reply.Ok? ==> && UserDetailFetch !in o.faults && Embedding !in o.faults
                              && VectorSearch !in o.faults && ChatCompletion !in o.faults
                              && UserDetailInsert !in o.faults && ConversationInsert !in o.faults
    ensures out.reply.Ok? && Index(o.chat, "followup_flag").Ok? && !Truthy(Index(o.chat, "followup_flag").value) ==>
              ComplaintInsert !in o.faults
  {
    match GetUserDetail(store, turn.userId, o.faults)
    case Err(e) => Fail(e, store, sent)
    case Ok(details) =>
      var sent := sent + [EmbeddingOf(turn.userText)];
      if Embedding in o.faults then Fail(Upstream(Embedding), store, sent)
      else
        var sent := sent + [Search(CollectionName, ReturnFields, TopK)];
        if VectorSearch in o.faults then Fail(Upstream(VectorSearch), store, sent)
        else
          var prompt := GetChatbotPrompt(UserInput(details, turn.userText), RetrievedContext(o.chunks), transcript);
          var sent := sent + [Completion(prompt)];
          if ChatCompletion in o.faults then Fail(Upstream(ChatCompletion), store, sent)
          else Conclude(turn, store, o, sent)
  }

  /** The intake branch after the chat completion: record the contact
      details, then either record the model's question or record its final
      answer and raise the complaint. */
  function Conclude(turn: ChatTurn, store: Store, o: Oracle, sent: seq<Request>): (out: TurnOutcome)
    ensures out.requests == sent
    ensures AtMostOneRowEach(store, out.store)
    ensures FlagConsistent(store, out.store)
    ensures out.reply.Err? && out.reply.error.Upstream? ==> out.reply.error.step in o.faults
    ensures out.reply.Ok? ==> UserDetailInsert !in o.faults && ConversationInsert !in o.faults
    ensures out.reply.Ok? && Index(o.chat, "followup_flag").Ok? && !Truthy(Index(o.chat, "followup_flag").value) ==>
              ComplaintInsert !in o.faults
  {
    var chat := o.chat;
    match GetOr(chat, "user_info", Obj([]))
    case Err(e) => Fail(e, store, sent)
    case Ok(info) =>
      match DetailsFromUserInfo(turn.userId, info)
      case Err(e) => Fail(e, store, sent)
      case Ok(row) =>
        if UserDetailInsert in o.faults then Fail(Upstream(UserDetailInsert), store, sent)
        else
          var store1 := store.(userDetails := store.userDetails + [row]);
          match Index(chat, "followup_flag")
          case Err(e) => Fail(e, store1, sent)
          case Ok(flag) =>
            if Truthy(flag) then AskFollowup(turn, store1, o, sent)
            else RaiseComplaint(turn, store1, o, info, sent)
  }

  /** The model still needs details: record its question and relay it. */
  function AskFollowup(turn: ChatTurn, store: Store, o: Oracle, sent: seq<Request>): (out: TurnOutcome)
    ensures out.requests == sent
    ensures out.store.userDetails == store.userDetails && out.store.complaints == store.complaints
    ensures out.reply.Ok? <==> out.store.conversations != store.conversations
    ensures out.reply.Ok? ==>
              var question := Index(o.chat, "followup_question");
              && question.Ok? && question.value.Str?
              && out.reply.value == Reply(question.value, Null)
              && out.store.conversations == store.conversations + [AnalyticsRow(turn, question.value.s, None, 1)]
    ensures out.reply.Err? && out.reply.error.Upstream? ==> out.reply.error.step in o.faults
    ensures out.reply.Ok? ==> ConversationInsert !in o.faults
  {
    match Index(o.chat, "followup_question")
    case Err(e) => Fail(e, store, sent)
    case Ok(question) =>
      match AsString(question, "response")
      case Err(e) => Fail(e, store, sent)
      case Ok(q) =>
        if ConversationInsert in o.faults then Fail(Upstream(ConversationInsert), store, sent)
        else
          var store1 := store.(conversations := store.conversations + [AnalyticsRow(turn, q, None, 1)]);
          TurnOutcome(Ok(Reply(question, Null)), store1, sent)
  }

  /** What the final branch records as the conversation row's response and
      complaint details, once both are read: the answer must be a string,
      the details a string or null. */
  function FinalRecord(o: Oracle, info: Json): (r: Result<(string, Option<string>)>)
    ensures r.Ok? <==> && Index(o.chat, "user_info").Ok?
                       && Index(Index(o.chat, "user_info").value, "response").Ok?
                       && Index(Index(o.chat, "user_info").value, "response").value.Str?
                       && Index(info, "complaint_details").Ok?
                       && AsOptionalString(Index(info, "complaint_details").value, "complaint_details").Ok?
    ensures r.Ok? ==> && r.value.0 == Index(Index(o.chat, "user_info").value, "response").value.s
                      && r.value.1 == AsOptionalString(Index(info, "complaint_details").value, "complaint_details").value
  {
    match Index(o.chat, "user_info")
    case Err(e) => Err(e)
    case Ok(userInfo) =>
      match (Index(userInfo, "response"), Index(info, "complaint_details"))
      case (Err(e), _) => Err(e)
      case (_, Err(e)) => Err(e)
      case (Ok(response), Ok(details)) =>
        match (AsString(response, "response"), AsOptionalString(details, "complaint_details"))
        case (Err(e), _) => Err(e)
        case (_, Err(e)) => Err(e)
        case (Ok(answer), Ok(d)) => Ok((answer, d))
  }

  /** The model has everything: record its answer, raise the complaint and
      reply with the answer and the new complaint's id. The answer is
      recorded before the complaint's fields are read, so a complaint that
      cannot be raised still leaves the answer recorded. */
  function RaiseComplaint(turn: ChatTurn, store: Store, o: Oracle, info: Json, sent: seq<Request>)
    : (out: TurnOutcome)
    ensures out.requests == sent
    ensures AppendOnly(store, out.store)
    ensures out.store.userDetails == store.userDetails
    ensures |out.store.complaints| <= |store.complaints| + 1
    ensures |out.store.conversations| <= |store.conversations| + 1
    ensures |out.store.conversations| > |store.conversations| ==>
              out.store.conversations[|store.conversations|].followupFlag == 0
    ensures FinalRecord(o, info).Ok? && ConversationInsert !in o.faults ==>
              var (answer, details) := FinalRecord(o, info).value;
              out.store.conversations == store.conversations + [AnalyticsRow(turn, answer, details, 0)]
    ensures FinalRecord(o, info).Err? || ConversationInsert in o.faults ==>
              out.store == store && out.reply.Err?
    ensures |out.store.complaints| > |store.complaints| ==> |out.store.conversations| > |store.conversations|
    ensures out.reply.Err? && out.reply.error.Upstream? ==> out.reply.error.step in o.faults
    ensures out.reply.Ok? ==> ComplaintInsert !in o.faults
  {
    match FinalRecord(o, info)
    case Err(e) => Fail(e, store, sent)
    case Ok((answer, details)) =>
      if ConversationInsert in o.faults then Fail(Upstream(ConversationInsert), store, sent)
      else
        var store1 := store.(conversations := store.conversations + [AnalyticsRow(turn, answer, details, 0)]);
        FileComplaint(store1, o, info, Str(answer), sent)
  }

  /** The complaint of a final answer: read its four fields, raise it
      through `POST /complaints`, and reply with the answer and the new id. */
  function FileComplaint(store: Store, o: Oracle, info: Json, response: Json, sent: seq<Request>)
    : (out: TurnOutcome)
    ensures out.requests == sent
    ensures out.store.conversations == store.conversations && out.store.userDetails == store.userDetails
    ensures out.reply.Ok? <==> out.store.complaints != store.complaints
    ensures out.reply.Ok? ==>
              && ComplaintFromUserInfo(info).Ok?
              && var req := ComplaintFromUserInfo(info).value;
                 out.store.complaints == store.complaints + [ComplaintRow(o.newId, req.name, req.phoneNumber,
                                                                          req.email, req.complaintDetails, Pending)]
    ensures out.reply.Err? && out.reply.error.Upstream? ==> out.reply.error.step in o.faults
    ensures ComplaintFromUserInfo(info).Ok? && ComplaintInsert in o.faults ==>
              out.reply == Err(Upstream(ComplaintInsert))
  {
    match ComplaintFromUserInfo(info)
    case Err(e) => Fail(e, store, sent)
    case Ok(req) =>
      match Api.CreateComplaint(store, req, o.newId, o.faults)
      case Err(e) => Fail(e, store, sent)
      case Ok(posted) =>
        TurnOutcome(Ok(Reply(response, posted.value)), posted.store, sent)
  }
}
