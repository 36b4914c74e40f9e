/** The two pure helpers of streamlit_chatbot_ui.py that turn a backend
    payload into the markdown shown in the chat. The page layout, the
    session state and the HTTP call are not modelled; `show` is Python's
    `str` of lists and dicts and `dump` is `json.dumps(payload, indent=2)`,
    neither of which this model defines.
 */
module Ui {
  import opened Results
  import opened Json
  import opened Text

  const DetailsHeading := "\n\n**Complaint details**\n"
  const BulletOpen := "- **"
  const BulletClose := "**: "
  const LineEnd := "\n"

  /** The label a details key is shown under: underscores become spaces and
      the words are title-cased. */
  function Label(key: string): (shown: string)
    ensures |shown| == |key|
    ensures forall i :: 0 <= i < |key| ==> shown[i] == TitleAt(ReplaceChar(key, '_', ' '), i)
  {
    Title(ReplaceChar(key, '_', ' '))
  }

  /** The bullet one details entry is shown as. */
  function EntryLine(key: string, value: Json, show: Json -> string): string
  {
    BulletOpen + Label(key) + BulletClose + PyStr(value, show) + LineEnd
  }

  /** The bullets of all entries, in the dict's order. */
  function Entries(fields: seq<(string, Json)>, show: Json -> string): string
  {
    if |fields| == 0 then ""
    else Entries(fields[..|fields| - 1], show) + EntryLine(fields[|fields| - 1].0, fields[|fields| - 1].1, show)
  }

  /** One more entry adds its bullet at the end. */
  lemma EntriesSnoc(fields: seq<(string, Json)>, last: (string, Json), show: Json -> string)
    ensures Entries(fields + [last], show) == Entries(fields, show) + EntryLine(last.0, last.1, show)
  {
    assert (fields + [last])[..|fields|] == fields;
  }

  /** The bullets of two runs of entries are the bullets of each, one after
      the other. */
  lemma {:induction false} EntriesAppend(a: seq<(string, Json)>, b: seq<(string, Json)>, show: Json -> string)
    ensures Entries(a + b, show) == Entries(a, show) + Entries(b, show)
    decreases |b|
  {
    if |b| > 0 {
      var b' := b[..|b| - 1];
      var last := b[|b| - 1];
      assert a + b == (a + b') + [last];
      assert b == b' + [last];
      EntriesAppend(a, b', show);
      EntriesSnoc(a + b', last, show);
      EntriesSnoc(b', last, show);
    } else {
      assert a + b == a;
    }
  }

  /** Every entry contributes one bullet. */
  lemma {:induction false} EntriesHaveOneLineEach(fields: seq<(string, Json)>, show: Json -> string)
    ensures |fields| > 0 ==>
              Entries(fields, show)
                == Entries(fields[..1], show) + Entries(fields[1..], show)
    ensures |fields| > 0 ==> Entries(fields[..1], show) == EntryLine(fields[0].0, fields[0].1, show)
  {
    if |fields| > 0 {
      assert fields[..1] + fields[1..] == fields;
      EntriesAppend(fields[..1], fields[1..], show);
      assert fields[..1][..0] == [];
    }
  }

  /** `_fmt_complaint_details`: nothing for a falsy value, otherwise a
      heading followed by the value, or by one bullet per entry of a dict. */
  function FmtComplaintDetails(details: Json, show: Json -> string): (md: string)
    ensures md == "" <==> !Truthy(details)
    ensures Truthy(details) ==> |md| >= |DetailsHeading| && md[..|DetailsHeading|] == DetailsHeading
    ensures Truthy(details) && !details.Obj? ==> md[|DetailsHeading|..] == PyStr(details, show) + "\n"
    ensures details.Obj? ==> md == "" || md[|DetailsHeading|..] == Entries(details.fields, show)
  {
    if !Truthy(details) then ""
    else if !details.Obj? then DetailsHeading + PyStr(details, show) + "\n"
    else
      var md := DetailsHeading + Entries(details.fields, show);
      assert md[|DetailsHeading|..] == Entries(details.fields, show);
      md
  }

  /** `_join`: the main text followed by the rendered details. Adding a
      non-string to a string raises a TypeError. */
  function JoinReply(main: Json, details: Json, show: Json -> string): (r: Result<string>)
    ensures r.Ok? <==> main.Str?
    ensures r.Ok? ==> |r.value| >= |main.s| && r.value[..|main.s|] == main.s
    ensures r.Ok? ==> r.value[|main.s|..] == FmtComplaintDetails(details, show)
    ensures r.Err? ==> r.error == NotAString("response")
  {
    if main.Str? then
      var r := main.s + FmtComplaintDetails(details, show);
      assert r[|main.s|..] == FmtComplaintDetails(details, show);
      Ok(r)
    else Err(NotAString("response"))
  }

  /** Joining a text with a non-empty details dict gives the text, the
      details heading and one bullet per entry. */
  lemma DictDetailsJoined(answer: string, details: Json, show: Json -> string)
    requires details.Obj? && |details.fields| > 0
    ensures JoinReply(Str(answer), details, show) == Ok(answer + DetailsHeading + Entries(details.fields, show))
  {
    var md := FmtComplaintDetails(details, show);
    assert Truthy(details);
    assert md == md[..|DetailsHeading|] + md[|DetailsHeading|..];
    var e := Entries(details.fields, show);
    assert md[..|DetailsHeading|] == DetailsHeading;
    assert md[|DetailsHeading|..] == e;
    assert md == DetailsHeading + e;
    var r := JoinReply(Str(answer), details, show).value;
    assert r[..|answer|] == answer;
    assert r[|answer|..] == md;
    assert r == r[..|answer|] + r[|answer|..];
    assert r == answer + md;
    assert answer + (DetailsHeading + e) == answer + DetailsHeading + e;
  }

  /** The value `d.get(key, default)` yields on a dict `d`. */
  function Field(d: Json, key: string, default: Json): (v: Json)
    ensures HasKey(d, key) ==> Index(d, key) == Ok(v)
    ensures !HasKey(d, key) ==> v == default
  {
    if HasKey(d, key) then Index(d, key).value else default
  }

  /** True when `payload` carries a "bot_response" that is a string or a
      dict, the two shapes the current backend sends. */
  predicate Wrapped(payload: Json)
  {
    HasKey(payload, "bot_response")
    && (Index(payload, "bot_response").value.Str? || Index(payload, "bot_response").value.Obj?)
  }

  /** `_extract_bot_text`: the wrapped reply of the current backend, a bare
      reply of the older backend, or the payload dumped as JSON. A
      "bot_response" of any other shape is passed over, as if it were not
      there. */
  function ExtractBotText(payload: Json, show: Json -> string, dump: Json -> string): (r: Result<string>)
    ensures Wrapped(payload) && Index(payload, "bot_response").value.Str? ==>
              r == Ok(Index(payload, "bot_response").value.s)
    ensures Wrapped(payload) && Index(payload, "bot_response").value.Obj? ==>
              var reply := Index(payload, "bot_response").value;
              r == JoinReply(Field(reply, "response", Str("")), Field(reply, "complaint_details", Null), show)
    ensures !Wrapped(payload) && HasKey(payload, "response") ==>
              r == JoinReply(Index(payload, "response").value, Field(payload, "complaint_details", Null), show)
    ensures !Wrapped(payload) && !HasKey(payload, "response") ==> r == Ok(dump(payload))
    ensures r.Err? ==> r.error == NotAString("response")
  {
    var wrapped := if HasKey(payload, "bot_response") then Index(payload, "bot_response").value else Null;
    if HasKey(payload, "bot_response") && wrapped.Str? then Ok(wrapped.s)
    else if HasKey(payload, "bot_response") && wrapped.Obj? then
      JoinReply(GetOr(wrapped, "response", Str("")).value, GetOr(wrapped, "complaint_details", Null).value, show)
    else if HasKey(payload, "response") then
      JoinReply(GetOr(payload, "response", Str("")).value, GetOr(payload, "complaint_details", Null).value, show)
    else Ok(dump(payload))
  }
}
