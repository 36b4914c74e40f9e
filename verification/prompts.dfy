/** The message lists of src/prompts.py: each builder returns a system
    message followed by a user message carrying the user's input verbatim.
    The template text is part of the service's observable behaviour, so it
    is reproduced exactly.
 */
module Prompts {
  import opened Results

  const SystemRole := "system"
  const UserRole := "user"

  datatype Message = Message(role: string, content: string)

  /** The chatbot template up to its `{relevant_context}` placeholder. */
  const ChatbotHead: string :=
    "You are a Customer Support Agent who raises tickets for Cyfuture.\n"
    + "\n"
    + "## Primary Objective:\n"
    + "1. Check and Collect the user's full details (name, phone, email, and complaint / user query / follow up response) step-by-step through polite questions if it is missing in the query.\n"
    + "2. If the user has already included a question in their message, treat that as their complaint/query.\n"
    + "3. Do NOT provide any answers or proceed with ticket creation until all four user details are collected.\n"
    + "4. If the user has provided all the required details, answer the complaint/query (if possible from context) and raise a ticket.\n"
    + "\n"
    + "## Context:\n"

  /** The chatbot template between its two placeholders. */
  const ChatbotMid: string :=
    "\n"
    + "\n"
    + "## Past Conversations History: FYI, you can use the past conversation history to understand the past conversations beween the user and the chatbot.\n"

  /** The chatbot template after its `{past_conversations}` placeholder. */
  const ChatbotTail: string :=
    "\n"
    + "\n"
    + "## Thought Process:\n"
    + "1. Collect the user's name, phone number, email, and complaint / user query / follow up response information one by one if any are missing from the provided user details or query message.\n"
    + "2. If the user includes a question in their message, and it fits a complaint/query type, treat that as the complaint_details.\n"
    + "3. Once all info is collected, answer the complaint/query (if possible from context), and raise a ticket. Also inform the user that their ticket has been raised successfully based on the provided details.\n"
    + "\n"
    + "## Output Format:\n"
    + "A JSON dictionary with the following keys:\n"
    + "- \"followup_flag\": boolean (true if more user details need to be collected, false if all is collected)\n"
    + "- \"followup_question\": string (the next polite question to collect missing user info, but first if user has provided the information or not)\n"
    + "- \"user_info\": A dictionary with the following keys (Only include that key which is collected):\n"
    + "    - \"name\": string (the user's name, it can be first name or full name)\n"
    + "    - \"phone_number\": string (the user's phone number, it can be provided in any format, also can be found in the user's query directly)\n"
    + "    - \"email\": string (the user's email address, it can be provided in any format, also can be found in the user's query directly)\n"
    + "    - \"complaint_details\": string (the user's complaint or query information that user asked about or it can be a follow-up answer to a question)\n"
    + "    - \"response\": The final response to the user, including the solution/answer to the complaint/query, if possible from context and the ticket creation confirmation."

  /** The names of the chatbot template's two fields. */
  const ContextField := "relevant_context"
  const HistoryField := "past_conversations"

  /** The chatbot system template as written, placeholders included. */
  const ChatbotTemplate: string :=
    ChatbotHead + "{" + ContextField + "}" + ChatbotMid + "{" + HistoryField + "}" + ChatbotTail

  /** The complaint-status system prompt; it has no placeholder. */
  const StatusTemplate: string :=
    "You are a Helpful Assistant who provides the complaint id for Cyfuture.\n"
    + "\n"
    + "## Primary Objective:\n"
    + "1. Check and Collect the complaint ID from the user.\n"
    + "2. If the user has already included a complaint ID in their message, treat that as the complaint ID.\n"
    + "3. If the user has not provided a complaint ID, politely ask them to provide it.\n"
    + "\n"
    + "## Thought Process:\n"
    + "1. If the user includes a complaint ID in their message, and it fits a complaint ID format, treat that as the complaint ID.\n"
    + "2. If the user has not provided a complaint ID, politely ask them to provide it.\n"
    + "\n"
    + "## Output Format:\n"
    + "A JSON dictionary with the following keys:\n"
    + "- \"followup_flag\": boolean (true if complaint ID needs to be collected, false if it is already provided)\n"
    + "- \"followup_question\": string (the next polite question to collect the complaint ID)\n"
    + "- \"complaint_id\": string (the complaint ID provided by the user, if available)"

  /** The intent template up to its `{previous_conversations}` placeholder. */
  const IntentHead: string :=
    "You are a Helpful Assistant who identifies the user's categories for Cyfuture.\n"
    + "\n"
    + "## Primary Objective:\n"
    + "1. Analyze the user's message and classify it into one of the following categories:\n"
    + "    - \"complaint_or_query\": The user is filing a complaint or asking a question.\n"
    + "    - \"status\": The user is asking for the status of a complaint using a complaint ID. Complaint ID is a UUID only, rest other numbers are not complaint IDs.\n"
    + "\n"
    + "## Past Conversations History: FYI, you can use the past conversation history to understand the user's intent.\n"

  /** The intent template after its placeholder. */
  const IntentTail: string :=
    "\n"
    + "\n"
    + "## Thought Process:\n"
    + "1. Analyze the user's message to determine their category.\n"
    + "2. If the user is asking about the status of a complaint, classify it as \"status\".\n"
    + "3. If the user is asking a question or filing a complaint, classify it as \"complaint_or_query\".\n"
    + "\n"
    + "## Output Format:\n"
    + "A JSON dictionary with the following keys\n"
    + "- \"category\": string (the user's category, either \"complaint_or_query\" or \"status\")"

  /** The intent system template as written, placeholder included. */
  const IntentTemplate: string := IntentHead + "{previous_conversations}" + IntentTail

  /** `get_chatbot_prompt`: the chatbot template with the retrieved context
      and the transcript in place of its two placeholders, then the user's
      input. */
  function GetChatbotPrompt(userInput: string, relevantContext: string, pastConversations: string)
    : (m: seq<Message>)
    ensures |m| == 2
    ensures m[0].role == SystemRole && m[1].role == UserRole
    ensures m[1].content == userInput
    ensures m[0].content == ChatbotHead + relevantContext + ChatbotMid + pastConversations + ChatbotTail
  {
    [Message(SystemRole, ChatbotHead + relevantContext + ChatbotMid + pastConversations + ChatbotTail),
     Message(UserRole, userInput)]
  }

  /** `get_complaint_status_prompt`: the fixed status template, then the
      user's input. */
  function GetComplaintStatusPrompt(userInput: string): (m: seq<Message>)
    ensures |m| == 2
    ensures m[0] == Message(SystemRole, StatusTemplate)
    ensures m[1] == Message(UserRole, userInput)
  {
    [Message(SystemRole, StatusTemplate), Message(UserRole, userInput)]
  }

  /** `get_intent_prompt`: the intent template exactly as written, then the
      user's input. The template is never formatted, so the transcript it
      is given does not reach the model and the placeholder stays in. */
  function GetIntentPrompt(userInput: string, previousConversations: string): (m: seq<Message>)
    ensures |m| == 2
    ensures m[0] == Message(SystemRole, IntentTemplate)
    ensures m[1] == Message(UserRole, userInput)
  {
    [Message(SystemRole, IntentTemplate), Message(UserRole, userInput)]
  }

  /** The intent prompt is the same whatever transcript it is given. */
  lemma IntentIgnoresTranscript(userInput: string, a: string, b: string)
    ensures GetIntentPrompt(userInput, a) == GetIntentPrompt(userInput, b)
    ensures var p := "{previous_conversations}";
            GetIntentPrompt(userInput, a)[0].content[|IntentHead|..|IntentHead| + |p|] == p
  {
    var p := "{previous_conversations}";
    assert IntentTemplate == IntentHead + p + IntentTail;
    assert (IntentHead + p + IntentTail)[|IntentHead|..|IntentHead| + |p|] == p;
  }

  // ---------------------------------------------------------------------
  // Python's `str.format` with keyword arguments, for the fields the
  // templates use: `{name}` is replaced by the argument `name`, `{{` and
  // `}}` stand for single braces.

  /** True when `s` has neither `{` nor `}`. */
  predicate NoBraces(s: string)
  {
    forall i :: 0 <= i < |s| ==> s[i] != '{' && s[i] != '}'
  }

  /** The position of the first `}` in `t` at or after `from`. */
  function CloseAt(t: string, from: nat): (r: Option<nat>)
    requires from <= |t|
    ensures r.Some? ==> from <= r.value < |t| && t[r.value] == '}'
                        && forall i :: from <= i < r.value ==> t[i] != '}'
    ensures r.None? ==> forall i :: from <= i < |t| ==> t[i] != '}'
    decreases |t| - from
  {
    if from == |t| then None
    else if t[from] == '}' then Some(from)
    else CloseAt(t, from + 1)
  }

  /** `s` in front of a formatting result. */
  function Prepend(s: string, r: Result<string>): Result<string>
  {
    match r
    case Ok(v) => Ok(s + v)
    case Err(e) => Err(e)
  }

  /** `t.format(**args)`: a KeyError for a field without an argument, a
      ValueError for an unmatched brace or a malformed field name. */
  function Format(t: string, args: map<string, string>): (r: Result<string>)
    ensures NoBraces(t) ==> r == Ok(t)
    ensures r.Err? ==> r.error == BadFormat || (r.error.KeyMissing? && r.error.key !in args)
    decreases |t|
  {
    if |t| == 0 then Ok("")
    else if t[0] == '{' then
      if |t| > 1 && t[1] == '{' then Prepend("{", Format(t[2..], args))
      else match CloseAt(t, 1)
        case None => Err(BadFormat)
        case Some(k) =>
          var name := t[1..k];
          if |name| == 0 || !NoBraces(name) then Err(BadFormat)
          else if name !in args then Err(KeyMissing(name))
          else Prepend(args[name], Format(t[k + 1..], args))
    else if t[0] == '}' then
      if |t| > 1 && t[1] == '}' then Prepend("}", Format(t[2..], args))
      else Err(BadFormat)
    else
      assert NoBraces(t) ==> NoBraces(t[1..]) && t[..1] + t[1..] == t;
      Prepend(t[..1], Format(t[1..], args))
  }

  /** Two texts put in front one after the other are their concatenation
      put in front. */
  lemma PrependTwice(a: string, b: string, r: Result<string>)
    ensures Prepend(a, Prepend(b, r)) == Prepend(a + b, r)
  {
    match r
    case Ok(v) => assert a + (b + v) == a + b + v;
    case Err(_) =>
  }

  /** Text without braces is copied through unchanged. */
  lemma {:induction false} FormatCopiesPlainText(s: string, rest: string, args: map<string, string>)
    requires NoBraces(s)
    ensures Format(s + rest, args) == Prepend(s, Format(rest, args))
    decreases |s|
  {
    var t := s + rest;
    if |s| > 0 {
      assert t[0] == s[0] && t[..1] == s[..1];
      assert t[1..] == s[1..] + rest;
      FormatCopiesPlainText(s[1..], rest, args);
      PrependTwice(s[..1], s[1..], Format(rest, args));
      assert s[..1] + s[1..] == s;
    } else {
      assert t == rest;
      match Format(rest, args)
      case Ok(v) => assert s + v == v;
      case Err(_) =>
    }
  }

  /** A field whose name has an argument is replaced by that argument. */
  lemma FormatFillsField(name: string, rest: string, args: map<string, string>)
    requires |name| > 0 && NoBraces(name) && name in args
    ensures Format("{" + name + "}" + rest, args) == Prepend(args[name], Format(rest, args))
  {
    var t := "{" + name + "}" + rest;
    var k := |name| + 1;
    assert t[k] == '}';
    assert forall i :: 1 <= i < k ==> t[i] == name[i - 1];
    assert CloseAt(t, 1) == Some(k);
    assert t[1..k] == name;
    assert t[k + 1..] == rest;
  }

  /** The arguments `get_chatbot_prompt` formats its template with. */
  function ChatbotArgs(relevantContext: string, pastConversations: string): map<string, string>
  {
    map[ContextField := relevantContext, HistoryField := pastConversations]
  }

  /** Brace-free text followed by a field: the text, then the field's
      argument, in front of whatever the rest formats to. */
  lemma FormatFillsTextThenField(head: string, name: string, rest: string, args: map<string, string>)
    requires NoBraces(head) && |name| > 0 && NoBraces(name) && name in args
    ensures Format(head + "{" + name + "}" + rest, args) == Prepend(head + args[name], Format(rest, args))
  {
    var t1 := "{" + name + "}" + rest;
    FormatFillsField(name, rest, args);
    FormatCopiesPlainText(head, t1, args);
    assert head + "{" + name + "}" + rest == head + t1;
    match Format(rest, args)
    case Ok(v) => assert head + (args[name] + v) == head + args[name] + v;
    case Err(_) =>
  }

  /** Formatting brace-free text with two fields in it replaces each field
      by its argument and copies the text around them. */
  lemma FormatFillsTwoFields(head: string, n1: string, mid: string, n2: string, tail: string,
                             args: map<string, string>)
    requires NoBraces(head) && NoBraces(mid) && NoBraces(tail)
    requires |n1| > 0 && NoBraces(n1) && n1 in args
    requires |n2| > 0 && NoBraces(n2) && n2 in args
    ensures Format(head + "{" + n1 + "}" + mid + "{" + n2 + "}" + tail, args)
            == Ok(head + args[n1] + mid + args[n2] + tail)
  {
    var rest := mid + "{" + n2 + "}" + tail;
    FormatCopiesPlainText(tail, "", args);
    assert tail + "" == tail;
    FormatFillsTextThenField(mid, n2, tail, args);
    assert Format(rest, args) == Ok(mid + args[n2] + tail);
    FormatFillsTextThenField(head, n1, rest, args);
    assert head + "{" + n1 + "}" + mid + "{" + n2 + "}" + tail == head + "{" + n1 + "}" + rest;
    assert head + args[n1] + (mid + args[n2] + tail) == head + args[n1] + mid + args[n2] + tail;
  }

  /** `get_chatbot_prompt`'s system message is what `str.format` makes of
      the chatbot template, as long as the template's fixed text has no
      braces of its own. */
  lemma ChatbotPromptFormatsTemplate(userInput: string, relevantContext: string, pastConversations: string)
    ensures NoBraces(ChatbotHead) && NoBraces(ChatbotMid) && NoBraces(ChatbotTail) ==>
              Format(ChatbotTemplate, ChatbotArgs(relevantContext, pastConversations))
                == Ok(GetChatbotPrompt(userInput, relevantContext, pastConversations)[0].content)
  {
    if NoBraces(ChatbotHead) && NoBraces(ChatbotMid) && NoBraces(ChatbotTail) {
      var args := ChatbotArgs(relevantContext, pastConversations);
      assert NoBraces(ContextField) && NoBraces(HistoryField);
      assert args[ContextField] == relevantContext && args[HistoryField] == pastConversations;
      FormatFillsTwoFields(ChatbotHead, ContextField, ChatbotMid, HistoryField, ChatbotTail, args);
    }
  }
}
