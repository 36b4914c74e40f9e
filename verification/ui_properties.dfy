/** What the chat window shows for the replies `POST /chatbot` answers
    with: the markdown the user interface renders, stated against the turn
    that produced the reply.
 */
module UiProperties {
  import opened Results
  import opened Json
  import opened Tables
  import opened Services
  import opened Bot
  import opened BotProperties
  import opened ChatApi
  import opened Ui
  import Api

  /** Any dict with a "response" and no "bot_response" of its own renders
      the same wrapped under "bot_response" as bare. */
  lemma WrappingKeepsRendering(reply: Json, show: Json -> string, dump: Json -> string)
    requires reply.Obj? && !HasKey(reply, "bot_response") && HasKey(reply, "response")
    ensures ExtractBotText(Wrap(reply), show, dump) == ExtractBotText(reply, show, dump)
  {
  }

  /** A reply dict renders the same whether it arrives wrapped under
      "bot_response" or bare, as the older backend sent it. */
  lemma BareAndWrappedRenderAlike(response: Json, details: Json, show: Json -> string, dump: Json -> string)
    ensures ExtractBotText(Wrap(Reply(response, details)), show, dump) == JoinReply(response, details, show)
    ensures ExtractBotText(Reply(response, details), show, dump) == JoinReply(response, details, show)
  {
    var fields := Reply(response, details).fields;
    assert fields[0].0 == "response" && fields[1].0 == "complaint_details";
    assert !Binds(fields, "bot_response") by {
      forall i | 0 <= i < |fields|
        ensures fields[i].0 != "bot_response"
      {
        assert fields[i].0 == "response" || fields[i].0 == "complaint_details";
      }
    }
  }

  /** A status question the model asks is shown verbatim. */
  lemma StatusQuestionShownVerbatim(turn: ChatTurn, store: Store, o: Oracle, flag: Json, q: string,
                                    show: Json -> string, dump: Json -> string)
    requires Classified(store, o, Str(StatusCategory)) && StatusCompletion !in o.faults
    requires Index(o.status, "followup_flag") == Ok(flag) && Truthy(flag)
    requires Index(o.status, "followup_question") == Ok(Str(q))
    ensures ChatbotInteraction(turn, store, o).reply.Ok?
    ensures ExtractBotText(ChatbotInteraction(turn, store, o).reply.value, show, dump) == Ok(q)
  {
    StatusFollowupRelaysQuestion(turn, store, o, flag);
  }

  /** An intake question is shown verbatim, with no details section. */
  lemma FollowupShownVerbatim(turn: ChatTurn, store: Store, o: Oracle, info: Json, row: UserDetailsRow,
                              flag: Json, q: string, show: Json -> string, dump: Json -> string)
    requires ReachesChat(store, o) && UserDetailInsert !in o.faults && ConversationInsert !in o.faults
    requires GetOr(o.chat, "user_info", Obj([])) == Ok(info)
    requires DetailsFromUserInfo(turn.userId, info) == Ok(row)
    requires Index(o.chat, "followup_flag") == Ok(flag) && Truthy(flag)
    requires Index(o.chat, "followup_question") == Ok(Str(q))
    ensures ChatbotInteraction(turn, store, o).reply.Ok?
    ensures ExtractBotText(ChatbotInteraction(turn, store, o).reply.value, show, dump) == Ok(q)
  {
    FollowupTurn(turn, store, o, info, row, flag, q);
    BareAndWrappedRenderAlike(Str(q), Null, show, dump);
    assert q + "" == q;
  }

  /** A reply whose details are a non-empty dict shows the text, then the
      details heading, then one bullet per entry. */
  lemma DictDetailsShown(answer: string, details: Json, show: Json -> string, dump: Json -> string)
    requires details.Obj? && |details.fields| > 0
    ensures ExtractBotText(Wrap(Reply(Str(answer), details)), show, dump)
              == Ok(answer + DetailsHeading + Entries(details.fields, show))
  {
    BareAndWrappedRenderAlike(Str(answer), details, show, dump);
    DictDetailsJoined(answer, details, show);
  }

  /** A final answer is shown first, then a details section with one bullet
      for each entry of the body `POST /complaints` answered with, the new
      complaint's id first. */
  lemma FinalShowsAnswerThenId(turn: ChatTurn, store: Store, o: Oracle, info: Json, answer: string,
                               req: ComplaintRequest, flag: Json, show: Json -> string, dump: Json -> string)
    requires ReachesChat(store, o)
    requires UserDetailInsert !in o.faults && ConversationInsert !in o.faults && ComplaintInsert !in o.faults
    requires FinalAnswer(o, info, answer, req)
    requires Index(o.chat, "followup_flag") == Ok(flag) && !Truthy(flag)
    ensures ChatbotInteraction(turn, store, o).reply == Ok(Wrap(Reply(Str(answer), Api.CreatedJson(o.newId))))
    ensures ExtractBotText(ChatbotInteraction(turn, store, o).reply.value, show, dump)
              == Ok(answer + DetailsHeading + Entries(Api.CreatedJson(o.newId).fields, show))
    ensures Api.CreatedJson(o.newId).fields[0] == ("complaint_id", Str(o.newId))
  {
    FinalTurn(turn, store, o, info, answer, req, flag);
    DictDetailsShown(answer, Api.CreatedJson(o.newId), show, dump);
  }
}
