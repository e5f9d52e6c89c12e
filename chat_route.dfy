/** frontend/app/api/chat/route.ts: the POST handler of the chat endpoint. It
    turns the conversation into the chat history the Gemini client expects,
    sends the last message as the prompt, and maps failures to responses. The
    Gemini service is a parameter: the outcome it gives for a history and a prompt. */
module ChatRoute {
  import opened Wrappers
  import Seqs

  datatype ChatMessage = ChatMessage(role: string, content: string)

  /** One `{ role, parts: [{ text }] }` history entry; `parts` holds the texts. */
  datatype HistoryEntry = HistoryEntry(role: string, parts: seq<string>)

  /** The request body: not JSON at all, or an object whose `messages` may be missing. */
  datatype RequestBody = Malformed | Body(messages: Option<seq<ChatMessage>>)

  /** What the service does with the prompt: streams chunks (possibly failing
      part-way), or rejects the call, with the error's `status` if it has one. */
  datatype GeminiOutcome = Streamed(chunks: seq<string>, failsMidStream: bool) | Rejected(status: Option<int>)

  datatype ChatResponse =
    | JsonError(status: int, error: string)
    | PlainText(text: string)
    | TextStream(pieces: seq<string>, endsWithError: bool)

  const UserRole: string := "user"
  const AssistantRole: string := "assistant"
  const ModelRole: string := "model"
  const QuotaExceeded: int := 429
  const HttpServerError: int := 500
  const NoApiKeyError: string := "API key not configured"
  const ProcessingError: string := "Error processing request"
  const QuotaFallback: string :=
    "I'm currently experiencing high demand. Please try again in a few moments. In the meantime, you can:\n\n"
    + "1. Check machine status in the Dashboard\n2. View maintenance schedules in Machines section\n"
    + "3. Create work orders manually\n4. Review analytics for insights\n\n"
    + "For urgent issues, contact your supervisor directly."

  predicate IsConversational(m: ChatMessage)
  {
    m.role == UserRole || m.role == AssistantRole
  }

  function Conversational(): ChatMessage -> bool { (m: ChatMessage) => IsConversational(m) }

  /** assistant becomes "model", anything else kept becomes "user"; the content is the one part. */
  function ToEntry(m: ChatMessage): (e: HistoryEntry)
    ensures e.role == ModelRole <==> m.role == AssistantRole
    ensures e.role == UserRole <==> m.role != AssistantRole
    ensures e.parts == [m.content]
  {
    HistoryEntry(if m.role == AssistantRole then ModelRole else UserRole, [m.content])
  }

  function Entry(): ChatMessage -> HistoryEntry { (m: ChatMessage) => ToEntry(m) }

  /** All messages but the last: `slice(0, -1)`, which is empty for an empty list. */
  function AllButLast(ms: seq<ChatMessage>): (r: seq<ChatMessage>)
    ensures |r| == if ms == [] then 0 else |ms| - 1
    ensures r == ms[..|r|]
  {
    if ms == [] then [] else ms[..|ms| - 1]
  }

  /** The `filter` and `map` over earlier messages. */
  function Candidates(prior: seq<ChatMessage>): (r: seq<HistoryEntry>)
    ensures |r| <= |prior|
    ensures forall i :: 0 <= i < |r| ==> (r[i].role == UserRole || r[i].role == ModelRole) && |r[i].parts| == 1
  {
    Seqs.Map(Seqs.Filter(prior, Conversational()), Entry())
  }

  /** The history handed to `startChat`: a leading "model" entry is removed. */
  function BuildHistory(ms: seq<ChatMessage>): (h: seq<HistoryEntry>)
    ensures |h| <= if ms == [] then 0 else |ms| - 1
  {
    var c := Candidates(AllButLast(ms));
    if |c| > 0 && c[0].role == ModelRole then c[1..] else c
  }

  /** The candidates of a concatenation are the candidates of each part, in
      order: the transform never reorders messages. */
  lemma CandidatesKeepOrder(a: seq<ChatMessage>, b: seq<ChatMessage>)
    ensures Candidates(a + b) == Candidates(a) + Candidates(b)
  {
    Seqs.FilterAppend(a, b, Conversational());
    Seqs.MapAppend(Seqs.Filter(a, Conversational()), Seqs.Filter(b, Conversational()), Entry());
  }

  /** Exactly the first candidate is dropped when it is "model"; nothing else is. */
  lemma HistoryDropsOnlyLeadingModel(ms: seq<ChatMessage>)
    ensures var c := Candidates(AllButLast(ms));
      (|c| > 0 && c[0].role == ModelRole ==> BuildHistory(ms) == c[1..] && |BuildHistory(ms)| == |c| - 1) &&
      (!(|c| > 0 && c[0].role == ModelRole) ==> BuildHistory(ms) == c)
  {
  }

  /** The last message is the prompt and never part of the history: a
      conversation of one message has an empty history. */
  lemma SingleMessageHasEmptyHistory(m: ChatMessage)
    ensures BuildHistory([m]) == []
  {
  }

  /** A message with a system (or any other) role never reaches the history. */
  lemma OtherRolesDropped(prior: seq<ChatMessage>, m: ChatMessage)
    requires !IsConversational(m)
    ensures Candidates(prior + [m]) == Candidates(prior)
  {
    CandidatesKeepOrder(prior, [m]);
    assert [m][..0] == [];
  }

  predicate NonEmptyText(t: string) { t != "" }

  function NonEmpty(): string -> bool { (t: string) => NonEmptyText(t) }

  /** The POST handler. `apiKey` is the environment variable, "" when unset. */
  function Post(body: RequestBody, apiKey: string, gemini: (seq<HistoryEntry>, string) -> GeminiOutcome): (r: ChatResponse)
    ensures body.Malformed? ==> r == JsonError(HttpServerError, ProcessingError)
    ensures body.Body? && apiKey == "" ==> r == JsonError(HttpServerError, NoApiKeyError)
    ensures body.Body? && apiKey != "" && (body.messages.None? || body.messages.value == []) ==>
      r == JsonError(HttpServerError, ProcessingError)
    ensures r.PlainText? ==> r.text == QuotaFallback
    ensures r.TextStream? ==> forall i :: 0 <= i < |r.pieces| ==> r.pieces[i] != ""
  {
    match body
    case Malformed => JsonError(HttpServerError, ProcessingError)
    case Body(messages) =>
      if apiKey == "" then JsonError(HttpServerError, NoApiKeyError)
      else if messages.None? || messages.value == [] then JsonError(HttpServerError, ProcessingError)
      else
        var ms := messages.value;
        match gemini(BuildHistory(ms), ms[|ms| - 1].content)
        case Streamed(chunks, fails) => TextStream(Seqs.Filter(chunks, NonEmpty()), fails)
        case Rejected(status) =>
          if status == Some(QuotaExceeded) then PlainText(QuotaFallback)
          else JsonError(HttpServerError, ProcessingError)
  }

  /** With a key and a conversation, the service sees the built history and the
      last message's content, and a rejection gives the fallback text exactly
      when its status is 429. */
  lemma PostCallsServiceWithHistory(ms: seq<ChatMessage>, apiKey: string,
                                    gemini: (seq<HistoryEntry>, string) -> GeminiOutcome)
    requires apiKey != "" && ms != []
    ensures var outcome := gemini(BuildHistory(ms), ms[|ms| - 1].content);
      var r := Post(Body(Some(ms)), apiKey, gemini);
      (outcome.Streamed? ==> r == TextStream(Seqs.Filter(outcome.chunks, NonEmpty()), outcome.failsMidStream)) &&
      (outcome.Rejected? ==> (r.PlainText? <==> outcome.status == Some(QuotaExceeded))) &&
      (outcome.Rejected? && outcome.status != Some(QuotaExceeded) ==> r == JsonError(HttpServerError, ProcessingError))
  {
  }
}
