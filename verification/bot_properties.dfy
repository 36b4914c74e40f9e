/** What a chatbot turn does, stated against the independent definitions of
    the history window, the latest contact details and the complaint
    services: which requests it sends, which rows it writes, and what it
    replies, branch by branch.
 */
module BotProperties {
  import opened Results
  import opened Json
  import opened Tables
  import opened Services
  import opened Prompts
  import opened Bot
  import Api

  /** The turn gets past the intent classification with `category`. */
  predicate Classified(store: Store, o: Oracle, category: Json)
  {
    && HistoryFetch !in o.faults && IntentCompletion !in o.faults
    && Index(o.intent, "category") == Ok(category)
  }

  /** The turn takes the intake branch and its chat completion answers. */
  predicate ReachesChat(store: Store, o: Oracle)
  {
    && HistoryFetch !in o.faults && IntentCompletion !in o.faults
    && Index(o.intent, "category").Ok? && Index(o.intent, "category").value != Str(StatusCategory)
    && UserDetailFetch !in o.faults && Embedding !in o.faults && VectorSearch !in o.faults
    && ChatCompletion !in o.faults
  }

  /** The user's newest turns, at most `HistoryWindow` of them, oldest
      first. */
  function NewestTurns(store: Store, userId: string): seq<ConversationRow>
  {
    var mine := ConversationsOf(store.conversations, userId);
    var n := if HistoryWindow < |mine| then HistoryWindow else |mine|;
    mine[|mine| - n..]
  }

  /** The transcript a turn should show the model. */
  function HistoryOf(store: Store, turn: ChatTurn): string
  {
    Transcript(NewestTurns(store, turn.userId), turn.userText)
  }

  /** The requests an intake turn sends up to and including the chat
      completion. */
  function IntakeRequestsOf(turn: ChatTurn, store: Store, o: Oracle): seq<Request>
  {
    [Completion(GetIntentPrompt(turn.userText, HistoryOf(store, turn))),
     EmbeddingOf(turn.userText),
     Search(CollectionName, ReturnFields, TopK),
     Completion(GetChatbotPrompt(UserInput(LatestDetails(store.userDetails, turn.userId), turn.userText),
                                 RetrievedContext(o.chunks),
                                 HistoryOf(store, turn)))]
  }

  /** The transcript the turn builds from its query result is the
      newest-turns transcript. */
  lemma TranscriptIsHistory(turn: ChatTurn, store: Store)
    ensures Transcript(Recent(store.conversations, turn.userId, HistoryWindow), turn.userText)
              == HistoryOf(store, turn)
  {
    RecentIsNewestOfUser(store.conversations, turn.userId, HistoryWindow);
    assert Recent(store.conversations, turn.userId, HistoryWindow) == NewestTurns(store, turn.userId);
  }

  /** A turn classified as "status" is its status branch. */
  lemma StatusPath(turn: ChatTurn, store: Store, o: Oracle)
    requires Classified(store, o, Str(StatusCategory))
    ensures GetResponse(turn, store, o)
              == StatusTurn(turn, store, o, [Completion(GetIntentPrompt(turn.userText, HistoryOf(store, turn)))])
  {
    TranscriptIsHistory(turn, store);
  }

  /** A turn classified as anything but "status" is its intake branch. */
  lemma IntakeBranch(turn: ChatTurn, store: Store, o: Oracle, category: Json)
    requires Classified(store, o, category) && category != Str(StatusCategory)
    ensures GetResponse(turn, store, o)
              == IntakeTurn(turn, store, o, HistoryOf(store, turn),
                            [Completion(GetIntentPrompt(turn.userText, HistoryOf(store, turn)))])
  {
    TranscriptIsHistory(turn, store);
  }

  /** An intake branch whose outside calls answer reaches `Conclude` with
      the embedding, search and chat requests added. */
  lemma IntakeReachesConclude(turn: ChatTurn, store: Store, o: Oracle, t: string, sent: seq<Request>)
    requires UserDetailFetch !in o.faults && Embedding !in o.faults && VectorSearch !in o.faults
    requires ChatCompletion !in o.faults
    ensures IntakeTurn(turn, store, o, t, sent)
              == Conclude(turn, store, o,
                          sent + [EmbeddingOf(turn.userText), Search(CollectionName, ReturnFields, TopK),
                                  Completion(GetChatbotPrompt(UserInput(LatestDetails(store.userDetails, turn.userId),
                                                                        turn.userText),
                                                              RetrievedContext(o.chunks), t))])
  {
    assert GetUserDetail(store, turn.userId, o.faults) == Ok(LatestDetails(store.userDetails, turn.userId));
  }

  /** The intake requests are the intent request followed by the three the
      intake branch adds. */
  lemma IntakeRequestsSplit(turn: ChatTurn, store: Store, o: Oracle)
    ensures IntakeRequestsOf(turn, store, o)
              == [Completion(GetIntentPrompt(turn.userText, HistoryOf(store, turn)))]
                 + [EmbeddingOf(turn.userText), Search(CollectionName, ReturnFields, TopK),
                    Completion(GetChatbotPrompt(UserInput(LatestDetails(store.userDetails, turn.userId), turn.userText),
                                                RetrievedContext(o.chunks), HistoryOf(store, turn)))]
  {
  }

  /** A turn that reaches the chat completion continues as `Conclude` with
      the four intake requests sent. */
  lemma IntakePath(turn: ChatTurn, store: Store, o: Oracle)
    requires ReachesChat(store, o)
    ensures GetResponse(turn, store, o) == Conclude(turn, store, o, IntakeRequestsOf(turn, store, o))
  {
    var t := HistoryOf(store, turn);
    IntakeBranch(turn, store, o, Index(o.intent, "category").value);
    IntakeReachesConclude(turn, store, o, t, [Completion(GetIntentPrompt(turn.userText, t))]);
    IntakeRequestsSplit(turn, store, o);
  }

  /** After recording the contact details, a falsy followup flag leads to
      the final branch. */
  lemma FinalPath(turn: ChatTurn, store: Store, o: Oracle, sent: seq<Request>, info: Json, flag: Json)
    requires UserDetailInsert !in o.faults
    requires GetOr(o.chat, "user_info", Obj([])) == Ok(info) && DetailsFromUserInfo(turn.userId, info).Ok?
    requires Index(o.chat, "followup_flag") == Ok(flag) && !Truthy(flag)
    ensures Conclude(turn, store, o, sent)
              == RaiseComplaint(turn, store.(userDetails := store.userDetails + [DetailsFromUserInfo(turn.userId, info).value]),
                                o, info, sent)
  {
  }

  /** The status branch never writes, whatever the model answers. */
  lemma StatusTurnWritesNothing(turn: ChatTurn, store: Store, o: Oracle)
    requires Classified(store, o, Str(StatusCategory))
    ensures GetResponse(turn, store, o).store == store
    ensures GetResponse(turn, store, o).requests
              == [Completion(GetIntentPrompt(turn.userText, HistoryOf(store, turn))),
                  Completion(GetComplaintStatusPrompt(turn.userText))]
  {
    StatusPath(turn, store, o);
  }

  /** A status request the model cannot resolve yet is answered with the
      model's own question, and nothing is looked up. */
  lemma StatusFollowupRelaysQuestion(turn: ChatTurn, store: Store, o: Oracle, flag: Json)
    requires Classified(store, o, Str(StatusCategory)) && StatusCompletion !in o.faults
    requires Index(o.status, "followup_flag") == Ok(flag) && Truthy(flag)
    ensures GetResponse(turn, store, o).reply == Index(o.status, "followup_question")
  {
    StatusPath(turn, store, o);
  }

  /** A resolved status request answers with the complaint
      `get_complaint_client` finds for the id the model extracted. */
  lemma StatusLookupAnswersRecord(turn: ChatTurn, store: Store, o: Oracle, flag: Json, id: string)
    requires Classified(store, o, Str(StatusCategory)) && StatusCompletion !in o.faults
    requires Index(o.status, "followup_flag") == Ok(flag) && !Truthy(flag)
    requires Index(o.status, "complaint_id") == Ok(Str(id)) && ComplaintFetch !in o.faults
    ensures var reply := GetResponse(turn, store, o).reply;
            && reply.Ok?
            && Index(reply.value, "response") == Ok(Str(StatusHeading))
            && Index(reply.value, "complaint_details").Ok?
            && Api.ComplaintFromJson(Index(reply.value, "complaint_details").value)
                 == Some(GetComplaintClient(store, id, o.faults).value)
  {
    StatusPath(turn, store, o);
  }

  /** Any category other than "status" takes the intake branch, and the
      chat completion sees the user's newest turns, the latest contact
      details and the retrieved chunks. */
  lemma IntakeRequests(turn: ChatTurn, store: Store, o: Oracle)
    requires ReachesChat(store, o)
    ensures GetResponse(turn, store, o).requests == IntakeRequestsOf(turn, store, o)
  {
    IntakePath(turn, store, o);
  }

  /** Every intake turn whose model answer carries well-formed contact
      fields records them, before and whatever it does next. */
  lemma IntakeRecordsDetails(turn: ChatTurn, store: Store, o: Oracle, info: Json, row: UserDetailsRow)
    requires ReachesChat(store, o) && UserDetailInsert !in o.faults
    requires GetOr(o.chat, "user_info", Obj([])) == Ok(info)
    requires DetailsFromUserInfo(turn.userId, info) == Ok(row)
    ensures GetResponse(turn, store, o).store.userDetails == store.userDetails + [row]
  {
    IntakePath(turn, store, o);
  }

  /** A turn whose model still needs details records the question with
      flag 1, raises no complaint, and relays the question. */
  lemma FollowupTurn(turn: ChatTurn, store: Store, o: Oracle, info: Json, row: UserDetailsRow, flag: Json, q: string)
    requires ReachesChat(store, o) && UserDetailInsert !in o.faults && ConversationInsert !in o.faults
    requires GetOr(o.chat, "user_info", Obj([])) == Ok(info)
    requires DetailsFromUserInfo(turn.userId, info) == Ok(row)
    requires Index(o.chat, "followup_flag") == Ok(flag) && Truthy(flag)
    requires Index(o.chat, "followup_question") == Ok(Str(q))
    ensures var out := GetResponse(turn, store, o);
            && out.reply == Ok(Reply(Str(q), Null))
            && out.store == Store(store.conversations + [AnalyticsRow(turn, q, None, 1)],
                                  store.userDetails + [row],
                                  store.complaints)
  {
    IntakePath(turn, store, o);
  }

  /** The model's final answer for a turn: what `user_info` holds. */
  predicate FinalAnswer(o: Oracle, info: Json, answer: string, req: ComplaintRequest)
  {
    && Index(o.chat, "user_info") == Ok(info)
    && Index(info, "response") == Ok(Str(answer))
    && Index(info, "name") == Ok(Str(req.name))
    && Index(info, "phone_number") == Ok(Str(req.phoneNumber))
    && Index(info, "email") == Ok(Str(req.email))
    && Index(info, "complaint_details") == Ok(Str(req.complaintDetails))
  }

  /** The contact row and the complaint a final answer yields. */
  lemma FinalAnswerReads(userId: string, o: Oracle, info: Json, answer: string, req: ComplaintRequest)
    requires FinalAnswer(o, info, answer, req)
    ensures GetOr(o.chat, "user_info", Obj([])) == Ok(info)
    ensures DetailsFromUserInfo(userId, info) == Ok(UserDetailsRow(userId, req.name, req.phoneNumber, req.email))
    ensures ComplaintFromUserInfo(info) == Ok(req)
  {
    assert HasKey(o.chat, "user_info");
    assert HasKey(info, "name") && HasKey(info, "phone_number") && HasKey(info, "email");
  }

  /** A turn whose model has every detail records its answer with flag 0,
      raises a "Pending" complaint under the new id, and replies with the
      recorded answer and the new id. */
  lemma FinalTurn(turn: ChatTurn, store: Store, o: Oracle, info: Json, answer: string,
                  req: ComplaintRequest, flag: Json)
    requires ReachesChat(store, o)
    requires UserDetailInsert !in o.faults && ConversationInsert !in o.faults && ComplaintInsert !in o.faults
    requires FinalAnswer(o, info, answer, req)
    requires Index(o.chat, "followup_flag") == Ok(flag) && !Truthy(flag)
    ensures var out := GetResponse(turn, store, o);
            && out.reply == Ok(Reply(Str(answer), Api.CreatedJson(o.newId)))
            && out.store.conversations == store.conversations + [AnalyticsRow(turn, answer, Some(req.complaintDetails), 0)]
            && out.store.userDetails
                 == store.userDetails + [UserDetailsRow(turn.userId, req.name, req.phoneNumber, req.email)]
            && out.store.complaints
                 == store.complaints + [ComplaintRow(o.newId, req.name, req.phoneNumber, req.email,
                                                     req.complaintDetails, Pending)]
  {
    IntakePath(turn, store, o);
    FinalAnswerReads(turn.userId, o, info, answer, req);
    FinalPath(turn, store, o, IntakeRequestsOf(turn, store, o), info, flag);
  }

  /** The four complaint fields are read with `[]` only after the answer is
      recorded: a final answer without a name fails the turn but keeps the
      recorded answer, and raises no complaint. */
  lemma FinalTurnWithoutName(turn: ChatTurn, store: Store, o: Oracle, info: Json, answer: string,
                             details: string, flag: Json)
    requires ReachesChat(store, o) && UserDetailInsert !in o.faults && ConversationInsert !in o.faults
    requires Index(o.chat, "user_info") == Ok(info) && !HasKey(info, "name")
    requires DetailsFromUserInfo(turn.userId, info).Ok?
    requires Index(info, "response") == Ok(Str(answer))
    requires Index(info, "complaint_details") == Ok(Str(details))
    requires Index(o.chat, "followup_flag") == Ok(flag) && !Truthy(flag)
    ensures var out := GetResponse(turn, store, o);
            && out.reply == Err(KeyMissing("name"))
            && out.store.conversations == store.conversations + [AnalyticsRow(turn, answer, Some(details), 0)]
            && out.store.complaints == store.complaints
  {
    assert HasKey(o.chat, "user_info");
    var sent := IntakeRequestsOf(turn, store, o);
    IntakePath(turn, store, o);
    FinalPath(turn, store, o, sent, info, flag);
    var s1 := store.(userDetails := store.userDetails + [DetailsFromUserInfo(turn.userId, info).value]);
    var s2 := s1.(conversations := s1.conversations + [AnalyticsRow(turn, answer, Some(details), 0)]);
    assert RaiseComplaint(turn, s1, o, info, sent) == FileComplaint(s2, o, info, Str(answer), sent);
    assert ComplaintFromUserInfo(info) == Err(KeyMissing("name"));
  }

  /** A final answer whose complaint details are null is still recorded,
      with NULL details, before the complaint is refused: the complaint
      needs its details as text, the conversation row does not. */
  lemma FinalTurnWithNullDetails(turn: ChatTurn, store: Store, o: Oracle, info: Json, answer: string,
                                 name: string, phone: string, email: string, flag: Json)
    requires ReachesChat(store, o) && UserDetailInsert !in o.faults && ConversationInsert !in o.faults
    requires Index(o.chat, "user_info") == Ok(info)
    requires Index(info, "name") == Ok(Str(name)) && Index(info, "phone_number") == Ok(Str(phone))
    requires Index(info, "email") == Ok(Str(email))
    requires Index(info, "response") == Ok(Str(answer))
    requires Index(info, "complaint_details") == Ok(Null)
    requires Index(o.chat, "followup_flag") == Ok(flag) && !Truthy(flag)
    ensures var out := GetResponse(turn, store, o);
            && out.reply == Err(NotAString("complaint_details"))
            && out.store.conversations == store.conversations + [AnalyticsRow(turn, answer, None, 0)]
            && out.store.userDetails == store.userDetails + [UserDetailsRow(turn.userId, name, phone, email)]
            && out.store.complaints == store.complaints
  {
    assert HasKey(o.chat, "user_info");
    assert HasKey(info, "name") && HasKey(info, "phone_number") && HasKey(info, "email");
    var row := UserDetailsRow(turn.userId, name, phone, email);
    assert DetailsFromUserInfo(turn.userId, info) == Ok(row);
    var sent := IntakeRequestsOf(turn, store, o);
    IntakePath(turn, store, o);
    FinalPath(turn, store, o, sent, info, flag);
    var s1 := store.(userDetails := store.userDetails + [row]);
    var s2 := s1.(conversations := s1.conversations + [AnalyticsRow(turn, answer, None, 0)]);
    assert FinalRecord(o, info) == Ok((answer, None));
    assert RaiseComplaint(turn, s1, o, info, sent) == FileComplaint(s2, o, info, Str(answer), sent);
    assert ComplaintFromUserInfo(info) == Err(NotAString("complaint_details"));
  }

  /** A failing complaint lookup in the status branch is re-raised, not
      answered with the "Not Found" record, and nothing is written. */
  lemma StatusFetchFailureSurfaces(turn: ChatTurn, store: Store, o: Oracle, flag: Json, id: string)
    requires Classified(store, o, Str(StatusCategory)) && StatusCompletion !in o.faults
    requires Index(o.status, "followup_flag") == Ok(flag) && !Truthy(flag)
    requires Index(o.status, "complaint_id") == Ok(Str(id))
    requires ComplaintFetch in o.faults
    ensures GetResponse(turn, store, o).reply == Err(Upstream(ComplaintFetch))
    ensures GetResponse(turn, store, o).store == store
  {
    StatusPath(turn, store, o);
  }

  /** A failing complaint insert in the final branch is re-raised: the
      answer stays recorded, but no complaint is raised and the turn fails. */
  lemma FinalInsertFailureSurfaces(turn: ChatTurn, store: Store, o: Oracle, info: Json, answer: string,
                                   req: ComplaintRequest, flag: Json)
    requires ReachesChat(store, o)
    requires UserDetailInsert !in o.faults && ConversationInsert !in o.faults && ComplaintInsert in o.faults
    requires FinalAnswer(o, info, answer, req)
    requires Index(o.chat, "followup_flag") == Ok(flag) && !Truthy(flag)
    ensures var out := GetResponse(turn, store, o);
            && out.reply == Err(Upstream(ComplaintInsert))
            && out.store.conversations == store.conversations + [AnalyticsRow(turn, answer, Some(req.complaintDetails), 0)]
            && out.store.complaints == store.complaints
  {
    IntakePath(turn, store, o);
    FinalAnswerReads(turn.userId, o, info, answer, req);
    FinalPath(turn, store, o, IntakeRequestsOf(turn, store, o), info, flag);
  }

  /** End to end: the complaint a final turn raises under a fresh id is
      what a later status turn for that id reports, still "Pending". */
  lemma FinalThenStatus(turn: ChatTurn, store: Store, o: Oracle, info: Json, answer: string,
                        req: ComplaintRequest, flag: Json,
                        later: ChatTurn, o2: Oracle, flag2: Json)
    requires ReachesChat(store, o)
    requires UserDetailInsert !in o.faults && ConversationInsert !in o.faults && ComplaintInsert !in o.faults
    requires FinalAnswer(o, info, answer, req)
    requires Index(o.chat, "followup_flag") == Ok(flag) && !Truthy(flag)
    requires FreshId(store.complaints, o.newId)
    requires Classified(GetResponse(turn, store, o).store, o2, Str(StatusCategory))
    requires StatusCompletion !in o2.faults && ComplaintFetch !in o2.faults
    requires Index(o2.status, "followup_flag") == Ok(flag2) && !Truthy(flag2)
    requires Index(o2.status, "complaint_id") == Ok(Str(o.newId))
    ensures var after := GetResponse(turn, store, o).store;
            var reply := GetResponse(later, after, o2).reply;
            && reply.Ok?
            && Index(reply.value, "complaint_details").Ok?
            && Api.ComplaintFromJson(Index(reply.value, "complaint_details").value)
                 == Some(ComplaintRow(o.newId, req.name, req.phoneNumber, req.email, req.complaintDetails, Pending))
  {
    FinalTurn(turn, store, o, info, answer, req, flag);
    var after := GetResponse(turn, store, o).store;
    var c := ComplaintRow(o.newId, req.name, req.phoneNumber, req.email, req.complaintDetails, Pending);
    assert after.complaints == store.complaints + [c];
    FindsAppended(store.complaints, c);
    assert GetComplaintClient(after, o.newId, o2.faults) == Ok(c);
    StatusLookupAnswersRecord(later, after, o2, flag2, o.newId);
  }
}
