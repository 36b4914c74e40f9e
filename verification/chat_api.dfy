/** `POST /chatbot` in main.py: build the bot for the request, run one
    turn and wrap its reply under "bot_response". A turn that raises is
    answered with an error, and the rows it had written stay written.
 */
module ChatApi {
  import opened Results
  import opened Json
  import opened Tables
  import opened Bot

  /** The body `POST /chatbot` answers with for a turn's reply. */
  function Wrap(reply: Json): (body: Json)
    ensures body.Obj? && |body.fields| == 1
    ensures Index(body, "bot_response") == Ok(reply)
  {
    var fields := [("bot_response", reply)];
    LookupAt(fields, 0);
    Obj(fields)
  }

  /** `chatbot_interaction`. */
  function ChatbotInteraction(turn: ChatTurn, store: Store, o: Oracle): (out: TurnOutcome)
    ensures out.reply.Ok? <==> GetResponse(turn, store, o).reply.Ok?
    ensures out.reply.Ok? ==> Index(out.reply.value, "bot_response") == GetResponse(turn, store, o).reply
    ensures out.reply.Ok? ==> out.reply.value == Wrap(GetResponse(turn, store, o).reply.value)
    ensures out.reply.Err? ==> out.reply == GetResponse(turn, store, o).reply
    ensures out.store == GetResponse(turn, store, o).store
    ensures AtMostOneRowEach(store, out.store)
  {
    var t := GetResponse(turn, store, o);
    match t.reply
    case Err(e) => t
    case Ok(reply) => t.(reply := Ok(Wrap(reply)))
  }
}
