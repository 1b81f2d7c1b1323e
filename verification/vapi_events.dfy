/** The webhook side of the outbound-call tool: a per-call record that every
    provider event updates (running transcript, whether a purchase link was
    sent, summary), the binary success verdict computed when a call ends, and
    the `start_call` tool that dials and resets the call's record. */
module VapiEvents {
  import opened Wrappers
  import opened Text

  // ---------------------------------------------------------------------
  // Link detection: `re.search(r"https?://\S+", text or "")`
  // ---------------------------------------------------------------------

  /** The pattern matches at the start of `s`: `http://` or `https://`
      followed by at least one non-whitespace character. */
  predicate LinkStart(s: string) {
    (StartsWith(s, "http://") && |s| > 7 && !IsSpace(s[7])) ||
    (StartsWith(s, "https://") && |s| > 8 && !IsSpace(s[8]))
  }

  /** The reference meaning of a search: a match begins at some offset. */
  ghost predicate HasLink(text: string) {
    exists i :: 0 <= i <= |text| && LinkStart(text[i..])
  }

  /** `extract_link`: the search, trying each offset from the left. */
  function ExtractLink(text: string): (r: bool)
    ensures r ==> |text| >= 8
    decreases |text|
  {
    LinkStart(text) || (|text| > 0 && ExtractLink(text[1..]))
  }

  /** The scan finds a link exactly when a match begins at some offset. */
  lemma {:induction false} ExtractLinkMeansLink(text: string)
    ensures ExtractLink(text) <==> HasLink(text)
    decreases |text|
  {
    assert text[0..] == text;
    if |text| > 0 {
      ExtractLinkMeansLink(text[1..]);
      if ExtractLink(text[1..]) {
        var i :| 0 <= i <= |text[1..]| && LinkStart(text[1..][i..]);
        assert text[1..][i..] == text[i + 1..];
      }
      if HasLink(text) {
        var i :| 0 <= i <= |text| && LinkStart(text[i..]);
        if i > 0 {
          assert text[1..][i - 1..] == text[i..];
        }
      }
    }
  }

  // ---------------------------------------------------------------------
  // Webhook bodies
  // ---------------------------------------------------------------------

  /** An entry of `data.messages`: a dictionary, whose `content` may be
      absent, or any other JSON value. */
  datatype Message = DictMessage(content: Option<string>) | OtherMessage

  /** `body["data"]`; an absent `data` is the empty dictionary, every
      field `None`. */
  datatype EventData = EventData(
    id: Option<string>,
    callId: Option<string>,
    transcript: Option<string>,
    messages: Option<seq<Message>>,
    summary: Option<string>)

  const NoEventData := EventData(None, None, None, None, None)

  /** The JSON body of one webhook request. */
  datatype WebhookBody = WebhookBody(
    eventType: Option<string>,
    event: Option<string>,
    data: EventData,
    callId: Option<string>,
    transcript: Option<string>,
    summary: Option<string>)

  /** An optional string that Python treats as true: present and non-empty. */
  predicate Truthy(a: Option<string>) {
    a.Some? && a.value != ""
  }

  /** Python's `a or b` where `a` is an optional string: `a` when it is a
      non-empty string, `b` otherwise. */
  function Or(a: Option<string>, b: string): string {
    if Truthy(a) then a.value else b
  }

  /** `body.get("type") or body.get("event") or "unknown"` */
  function EventType(body: WebhookBody): string {
    Or(body.eventType, Or(body.event, "unknown"))
  }

  /** `data.get("id") or data.get("callId") or body.get("callId") or "unknown"` */
  function CallIdOf(body: WebhookBody): (id: string)
    ensures id != ""
    ensures Truthy(body.data.id) ==> id == body.data.id.value
    ensures !Truthy(body.data.id) && Truthy(body.data.callId) ==> id == body.data.callId.value
    ensures !Truthy(body.data.id) && !Truthy(body.data.callId) && Truthy(body.callId) ==>
      id == body.callId.value
    ensures !Truthy(body.data.id) && !Truthy(body.data.callId) && !Truthy(body.callId) ==>
      id == "unknown"
  {
    Or(body.data.id, Or(body.data.callId, Or(body.callId, "unknown")))
  }

  /** `data.get("transcript") or body.get("transcript") or ""` */
  function IncomingTranscript(body: WebhookBody): string {
    Or(body.data.transcript, Or(body.transcript, ""))
  }

  /** `data.get("messages") or []` */
  function Messages(body: WebhookBody): seq<Message> {
    if body.data.messages.Some? then body.data.messages.value else []
  }

  /** `data.get("summary") or body.get("summary")`, with a falsy value as "". */
  function IncomingSummary(body: WebhookBody): string {
    Or(body.data.summary, Or(body.summary, ""))
  }

  /** A message sets `link_sent` when it is a dictionary whose content
      (absent counting as "") holds a link. */
  predicate MessageHasLink(m: Message) {
    m.DictMessage? && ExtractLink(m.content.GetOr(""))
  }

  /** Some message of `ms` holds a link (defined from the back, as the loop
      over the messages grows its prefix). */
  predicate AnyMessageLink(ms: seq<Message>) {
    ms != [] && (AnyMessageLink(ms[..|ms| - 1]) || MessageHasLink(ms[|ms| - 1]))
  }

  lemma {:induction false} AnyMessageLinkMeansSome(ms: seq<Message>)
    ensures AnyMessageLink(ms) <==> exists i :: 0 <= i < |ms| && MessageHasLink(ms[i])
  {
    if ms != [] {
      var init := ms[..|ms| - 1];
      AnyMessageLinkMeansSome(init);
      if exists i :: 0 <= i < |ms| && MessageHasLink(ms[i]) {
        var i :| 0 <= i < |ms| && MessageHasLink(ms[i]);
        if i < |ms| - 1 {
          assert init[i] == ms[i];
        }
      }
      if AnyMessageLink(init) {
        var i :| 0 <= i < |init| && MessageHasLink(init[i]);
        assert ms[i] == init[i];
      }
    }
  }

  /** The terminal event types that produce a verdict. */
  predicate IsTerminal(event: string) {
    event == "call.ended" || event == "ended" || event == "call.completed"
  }

  // ---------------------------------------------------------------------
  // Per-call records
  // ---------------------------------------------------------------------

  /** `CALL_STATE[call_id]` */
  datatype CallRecord = CallRecord(transcript: string, linkSent: bool, summary: string)

  /** The record `setdefault` creates and `start_call` writes. */
  const InitialRecord := CallRecord("", false, "")

  /** The binary verdict: a link was sent and the lower-cased transcript
      mentions "ticket" or "single-game". */
  predicate Success(rec: CallRecord) {
    rec.linkSent &&
    (Contains(Lower(rec.transcript), "ticket") || Contains(Lower(rec.transcript), "single-game"))
  }

  /** The record an event works on: the stored one, or a fresh one. */
  function RecordOr(states: map<string, CallRecord>, id: string): CallRecord {
    if id in states then states[id] else InitialRecord
  }

  /** What one event does to its call's record. */
  function UpdateRecord(rec: CallRecord, body: WebhookBody): CallRecord {
    var t := IncomingTranscript(body);
    var s := IncomingSummary(body);
    CallRecord(
      if t != "" then t else rec.transcript,
      rec.linkSent || (t != "" && ExtractLink(t)) || AnyMessageLink(Messages(body)),
      if s != "" then s else rec.summary)
  }

  /** What one event does to the whole call-state table. */
  function ApplyEvent(states: map<string, CallRecord>, body: WebhookBody): map<string, CallRecord> {
    var id := CallIdOf(body);
    states[id := UpdateRecord(RecordOr(states, id), body)]
  }

  /** The verdict the handler reports after an event: one on terminal
      events, none otherwise. */
  function Verdict(states: map<string, CallRecord>, body: WebhookBody): Option<bool> {
    if IsTerminal(EventType(body)) then Some(Success(RecordOr(states, CallIdOf(body)))) else None
  }

  /** The events of a sequence, applied in order. */
  function ApplyEvents(states: map<string, CallRecord>, bodies: seq<WebhookBody>): map<string, CallRecord>
    decreases |bodies|
  {
    if bodies == [] then states else ApplyEvents(ApplyEvent(states, bodies[0]), bodies[1..])
  }

  /** How one event changes a record: a non-empty transcript replaces the
      stored one, an empty one keeps it; `link_sent` becomes true when the
      transcript or a dictionary message holds a link and never goes back;
      the summary changes only to a non-empty one. */
  lemma UpdateRecordEffect(rec: CallRecord, body: WebhookBody)
    ensures var r := UpdateRecord(rec, body);
      var t := IncomingTranscript(body);
      (t != "" ==> r.transcript == t) && (t == "" ==> r.transcript == rec.transcript)
    ensures var r := UpdateRecord(rec, body);
      r.linkSent <==> (rec.linkSent || HasLink(IncomingTranscript(body)) ||
        exists i :: 0 <= i < |Messages(body)| && MessageHasLink(Messages(body)[i]))
    ensures var r := UpdateRecord(rec, body);
      var s := IncomingSummary(body);
      (s != "" ==> r.summary == s) && (s == "" ==> r.summary == rec.summary)
  {
    ExtractLinkMeansLink(IncomingTranscript(body));
    AnyMessageLinkMeansSome(Messages(body));
  }

  /** An event touches its own call's record only; a first event for a new
      id starts from the initial record. */
  lemma ApplyEventFrame(states: map<string, CallRecord>, body: WebhookBody)
    ensures ApplyEvent(states, body).Keys == states.Keys + {CallIdOf(body)}
    ensures forall k :: k in states && k != CallIdOf(body) ==> ApplyEvent(states, body)[k] == states[k]
    ensures CallIdOf(body) !in states ==>
      ApplyEvent(states, body)[CallIdOf(body)] == UpdateRecord(InitialRecord, body)
  {
  }

  /** Applying the same event twice is the same as applying it once. */
  lemma ApplyEventIdempotent(states: map<string, CallRecord>, body: WebhookBody)
    ensures ApplyEvent(ApplyEvent(states, body), body) == ApplyEvent(states, body)
  {
    var id := CallIdOf(body);
    var once := UpdateRecord(RecordOr(states, id), body);
    assert RecordOr(ApplyEvent(states, body), id) == once;
    assert UpdateRecord(once, body) == once;
  }

  /** A replayed terminal event yields the verdict the first one did. */
  lemma ReplayedVerdict(states: map<string, CallRecord>, body: WebhookBody)
    ensures Verdict(ApplyEvent(ApplyEvent(states, body), body), body) == Verdict(ApplyEvent(states, body), body)
  {
    ApplyEventIdempotent(states, body);
  }

  /** Across any sequence of webhook events, a call whose link was sent
      keeps `link_sent` true, and no record disappears. */
  lemma {:induction false} LinkSentStays(states: map<string, CallRecord>, bodies: seq<WebhookBody>, id: string)
    requires id in states && states[id].linkSent
    ensures id in ApplyEvents(states, bodies) && ApplyEvents(states, bodies)[id].linkSent
    decreases |bodies|
  {
    if bodies != [] {
      var next := ApplyEvent(states, bodies[0]);
      assert id in next && next[id].linkSent;
      LinkSentStays(next, bodies[1..], id);
    }
  }

  // ---------------------------------------------------------------------
  // Outbound calls
  // ---------------------------------------------------------------------

  const TeamNameDefault := "SF Giants"
  const PurchaseLinkFallback := "https://tickets.example.com/giants/single-game"

  /** The inline assistant configuration; decimal settings in tenths. */
  datatype InlineAssistant = InlineAssistant(
    name: string,
    modelProvider: string,
    model: string,
    temperatureTenths: int,
    maxOutputTokens: int,
    voiceProvider: string,
    voiceModel: string,
    voice: string,
    firstMessageMode: string,
    firstMessage: string,
    systemPrompt: string,
    serverUrl: string,
    transcriberProvider: string,
    transcriberModel: string,
    language: string,
    numWords: int,
    voiceSecondsTenths: int,
    backoffSeconds: int,
    endCallMessage: string)

  /** The webhook address for a public base URL. */
  function EventsUrl(publicUrl: string): string {
    publicUrl + "/vapi/events"
  }

  /** `build_inline_assistant(system_prompt, first_message)` */
  function BuildInlineAssistant(systemPrompt: string, firstMessage: string, publicUrl: string): (r: InlineAssistant)
    ensures r.systemPrompt == systemPrompt && r.firstMessage == firstMessage
    ensures r.serverUrl == EventsUrl(publicUrl) && r.firstMessageMode == "assistant"
    ensures r.temperatureTenths == 6 && r.maxOutputTokens == 50 && r.endCallMessage == "Goodbye."
  {
    InlineAssistant(
      "SF Marketer (Inline)",
      "openai", "gpt-4o-mini-realtime-preview-2024-12-17", 6, 50,
      "openai", "tts-1-hd", "ash",
      "assistant", firstMessage, systemPrompt,
      EventsUrl(publicUrl),
      "deepgram", "nova-2", "en",
      4, 3, 3,
      "Goodbye.")
  }

  /** Two inline configurations differ in the prompts and nowhere else. */
  lemma InlineAssistantDependsOnlyOnPrompts(s1: string, f1: string, s2: string, f2: string, publicUrl: string)
    ensures BuildInlineAssistant(s1, f1, publicUrl) ==
      BuildInlineAssistant(s2, f2, publicUrl).(systemPrompt := s1, firstMessage := f1)
  {
  }

  /** The `assistant` entry of the payload. */
  datatype AssistantChoice = ById(assistantId: string) | Inline(config: InlineAssistant)

  datatype CallPayload = CallPayload(phoneNumber: string, assistant: AssistantChoice, serverUrl: string)

  /** The payload `start_vapi_call` posts: the assistant by id when a
      non-empty id is given, the inline configuration otherwise. */
  function StartPayload(toNumber: string, systemPrompt: string, firstMessage: string,
                        assistantId: Option<string>, publicUrl: string): (p: CallPayload)
    ensures p.phoneNumber == toNumber && p.serverUrl == EventsUrl(publicUrl)
    ensures p.assistant.ById? <==> assistantId.Some? && assistantId.value != ""
    ensures p.assistant.ById? ==> p.assistant.assistantId == assistantId.value
    ensures p.assistant.Inline? ==> p.assistant.config == BuildInlineAssistant(systemPrompt, firstMessage, publicUrl)
  {
    CallPayload(
      toNumber,
      if assistantId.Some? && assistantId.value != "" then ById(assistantId.value)
      else Inline(BuildInlineAssistant(systemPrompt, firstMessage, publicUrl)),
      EventsUrl(publicUrl))
  }

  /** The template variables after the three `setdefault` calls. */
  function WithDefaults(vars: map<string, string>): (r: map<string, string>)
    ensures r.Keys == vars.Keys + {"team_name", "team_default", "fallback_link"}
    ensures forall k :: k in vars ==> r[k] == vars[k]
    ensures "team_name" !in vars ==> r["team_name"] == TeamNameDefault
    ensures "team_default" !in vars ==> r["team_default"] == TeamNameDefault
    ensures "fallback_link" !in vars ==> r["fallback_link"] == PurchaseLinkFallback
  {
    var a := if "team_name" in vars then vars else vars["team_name" := TeamNameDefault];
    var b := if "team_default" in a then a else a["team_default" := TeamNameDefault];
    if "fallback_link" in b then b else b["fallback_link" := PurchaseLinkFallback]
  }

  /** The fields of the create-call response that name the call. */
  datatype CallResponse = CallResponse(id: Option<string>, callId: Option<string>)

  /** `resp.get("id") or resp.get("callId") or "unknown"` */
  function ResponseCallId(resp: CallResponse): string {
    Or(resp.id, Or(resp.callId, "unknown"))
  }

  /** The string `start_call` returns once the call is placed. */
  function DialingMessage(toNumber: string, callId: string): string {
    "Dialing " + toNumber + ". Vapi call id: " + callId
  }

  /** The settings `start_call` reads from the environment, and the template
      renderer and HTTP client it uses. */
  datatype CallSettings = CallSettings(
    toNumber: string,
    publicUrl: string,
    assistantId: string,
    renderSystem: map<string, string> -> string,
    renderFirst: map<string, string> -> string,
    post: CallPayload -> Outcome<CallResponse>)

  /** The payload `start_call` posts for the parsed variables. */
  function StartCallPayload(settings: CallSettings, vars: map<string, string>): CallPayload {
    var v := WithDefaults(vars);
    StartPayload(settings.toNumber, settings.renderSystem(v), settings.renderFirst(v),
                 if settings.assistantId != "" then Some(settings.assistantId) else None,
                 settings.publicUrl)
  }

  /** The process-wide `CALL_STATE` table with the two entry points that
      write it. */
  class CallStateStore {
    var states: map<string, CallRecord>

    constructor()
      ensures states == map[]
    {
      states := map[];
    }

    /** `vapi_events`: update the event's call record field by field, then
        report the verdict on terminal events; the response is always
        `{"ok": True}`. */
    method HandleEvent(body: WebhookBody) returns (ok: bool, verdict: Option<bool>)
      modifies this
      ensures ok
      ensures states == ApplyEvent(old(states), body)
      ensures verdict == Verdict(states, body)
    {
      var event := EventType(body);
      var callId := CallIdOf(body);
      ghost var rec0 := RecordOr(states, callId);
      if callId !in states {
        states := states[callId := InitialRecord];
      }
      assert states == old(states)[callId := rec0];
      var transcript := IncomingTranscript(body);
      ApplyTranscript(callId, transcript);
      var messages := Messages(body);
      MarkMessageLinks(callId, messages);
      var summary := IncomingSummary(body);
      ApplySummary(callId, summary);
      assert states == old(states)[callId := UpdateRecord(rec0, body)];
      verdict := None;
      if IsTerminal(event) {
        var st := states[callId];
        verdict := Some(Success(st));
      }
      ok := true;
    }

    /** A non-empty transcript replaces the stored one and, when it holds a
        link, sets `link_sent`. */
    method ApplyTranscript(callId: string, transcript: string)
      requires callId in states
      modifies this
      ensures var rec := old(states)[callId];
        states == old(states)[callId := rec.(
          transcript := if transcript != "" then transcript else rec.transcript,
          linkSent := rec.linkSent || (transcript != "" && ExtractLink(transcript)))]
    {
      if transcript != "" {
        states := states[callId := states[callId].(transcript := transcript)];
        if ExtractLink(transcript) {
          states := states[callId := states[callId].(linkSent := true)];
        }
      }
    }

    /** The loop over `data.messages`: every dictionary message whose
        content holds a link sets the call's `link_sent`. */
    method MarkMessageLinks(callId: string, messages: seq<Message>)
      requires callId in states
      modifies this
      ensures states == old(states)[callId := old(states)[callId].(linkSent :=
        old(states)[callId].linkSent || AnyMessageLink(messages))]
    {
      ghost var rec := states[callId];
      var i := 0;
      while i < |messages|
        invariant 0 <= i <= |messages|
        invariant states == old(states)[callId := rec.(linkSent := rec.linkSent || AnyMessageLink(messages[..i]))]
      {
        assert messages[..i + 1][..i] == messages[..i];
        assert AnyMessageLink(messages[..i + 1]) == (AnyMessageLink(messages[..i]) || MessageHasLink(messages[i]));
        var m := messages[i];
        if m.DictMessage? {
          var content := m.content.GetOr("");
          if ExtractLink(content) {
            states := states[callId := states[callId].(linkSent := true)];
          }
        }
        i := i + 1;
      }
      assert messages[..i] == messages;
    }

    /** A non-empty summary overwrites the stored one. */
    method ApplySummary(callId: string, summary: string)
      requires callId in states
      modifies this
      ensures states == old(states)[callId := old(states)[callId].(
        summary := if summary != "" then summary else old(states)[callId].summary)]
    {
      if summary != "" {
        states := states[callId := states[callId].(summary := summary)];
      }
    }

    /** `start_call`: parse the variables, fill in the defaults, render the
        prompts, place the call and reset the new call's record. A parse
        error is returned as a message; an HTTP error escapes as an
        exception. */
    method StartCall(settings: CallSettings, variables: Outcome<map<string, string>>) returns (r: Outcome<string>)
      modifies this
      ensures variables.Raised? ==>
        r == Returned("Invalid JSON for variables_json: " + variables.message) && states == old(states)
      ensures variables.Returned? && settings.post(StartCallPayload(settings, variables.value)).Raised? ==>
        r == Raised(settings.post(StartCallPayload(settings, variables.value)).message) &&
        states == old(states)
      ensures variables.Returned? && settings.post(StartCallPayload(settings, variables.value)).Returned? ==>
        var id := ResponseCallId(settings.post(StartCallPayload(settings, variables.value)).value);
        states == old(states)[id := InitialRecord] && r == Returned(DialingMessage(settings.toNumber, id))
    {
      if variables.Raised? {
        return Returned("Invalid JSON for variables_json: " + variables.message);
      }
      var payload := StartCallPayload(settings, variables.value);
      var resp := settings.post(payload);
      if resp.Raised? {
        return Raised(resp.message);
      }
      var callId := ResponseCallId(resp.value);
      states := states[callId := InitialRecord];
      r := Returned(DialingMessage(settings.toNumber, callId));
    }
  }

  /** After `start_call` the new call's record is the initial one, so the
      next webhook event for it starts from a record with no link. */
  lemma StartThenEvent(states: map<string, CallRecord>, id: string, body: WebhookBody)
    requires CallIdOf(body) == id
    ensures ApplyEvent(states[id := InitialRecord], body)[id] == UpdateRecord(InitialRecord, body)
    ensures !InitialRecord.linkSent && !Success(InitialRecord)
  {
  }
}
