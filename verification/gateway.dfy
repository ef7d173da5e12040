/** The conversational wrapper around the remote language model
    (server/services/geminiService.ts, `GeminiService`). The remote call is an
    oracle: the caller supplies what it returned, a reply text or a thrown
    value. The wrapper keeps a transcript of past turns and the generation
    settings; it never lets an upstream failure escape. */
module Gateway {
  import opened Wrappers
  import Text

  /** Messages longer than this many characters are truncated before sending. */
  const MaxSize: nat := 30000

  /** The phrase the chat client puts in front of an uploaded file's content. */
  const UploadMarker := "I'm uploading the following content for analysis"

  const UploadNotice := "\n\n[Note: This is a large file upload that has been truncated. I'll focus on analyzing the visible portion.]"
  const GenericNotice := "\n\n[Message truncated due to size limitations]"

  /** The upstream error code for an exhausted quota or an oversized request. */
  const ResourceExhausted := "RESOURCE_EXHAUSTED"

  const TooLargeReply := "I'm sorry, but the request was too large for me to process. Please try sending a smaller portion of text or breaking your question into multiple smaller messages."
  const ErrorReply := "I'm sorry, I encountered an error processing your request. Please try again or rephrase your question. If you're uploading a file, try with a smaller file or only the most relevant portion."

  datatype Turn = UserTurn | ModelTurn

  /** One transcript entry: `{ role, parts: [{ text }] }`. */
  datatype Entry = Entry(role: Turn, text: string)

  datatype Settings = Settings(temperature: real, maxOutputTokens: real)

  datatype SettingsPatch = SettingsPatch(temperature: Option<real>, maxOutputTokens: Option<real>)

  datatype Gateway = Gateway(history: seq<Entry>, settings: Settings)

  /** What a JavaScript `throw` carried: an `Error` with its message, or any
      other value. */
  datatype Thrown = ErrorObject(message: string) | OtherValue

  /** What the remote chat call did. */
  datatype Outcome = Reply(text: string) | Threw(error: Thrown)

  /** `sendMessage`'s result: the reply text and the wrapper's next state. */
  datatype Sent = Sent(reply: string, gateway: Gateway)

  /** The state after construction: no transcript, temperature 0.2 and at
      most 8192 output tokens. */
  function Init(): (g: Gateway)
    ensures g.history == [] && Alternating(g.history)
    ensures g.settings == Settings(0.2, 8192.0)
  {
    Gateway([], Settings(0.2, 8192.0))
  }

  /** The transcript is a sequence of (user, model) pairs. */
  ghost predicate Alternating(h: seq<Entry>) {
    && |h| % 2 == 0
    && forall i :: 0 <= i < |h| ==> h[i].role == (if i % 2 == 0 then UserTurn else ModelTurn)
  }

  /** The notice appended to a truncated message. */
  function TruncationNotice(message: string): (n: string)
    ensures n == UploadNotice <==> Text.Contains(message, UploadMarker)
    ensures n == GenericNotice <==> !Text.Contains(message, UploadMarker)
  {
    if Text.Contains(message, UploadMarker) then UploadNotice else GenericNotice
  }

  /** `preprocessLargeMessage`: a message within the limit passes through
      unchanged; a longer one keeps its first `MaxSize` characters and gains a
      notice, the upload notice exactly when it carries the upload marker. */
  function Preprocess(message: string): (r: string)
    ensures |message| <= MaxSize ==> r == message
    ensures |message| > MaxSize ==>
              && |r| == MaxSize + |TruncationNotice(message)|
              && r[..MaxSize] == message[..MaxSize]
              && (r[MaxSize..] == UploadNotice <==> Text.Contains(message, UploadMarker))
              && (r[MaxSize..] == GenericNotice <==> !Text.Contains(message, UploadMarker))
    ensures |r| <= MaxSize + |UploadNotice|
  {
    if |message| > MaxSize then message[..MaxSize] + TruncationNotice(message)
    else message
  }

  /** A message that opens with the upload marker and exceeds the limit is
      sent with the upload notice. */
  lemma UploadGetsUploadNotice(content: string)
    requires |UploadMarker + content| > MaxSize
    ensures Preprocess(UploadMarker + content)[MaxSize..] == UploadNotice
  {
  }

  /** The canned reply for a failed remote call: the "too large" text for an
      `Error` whose message mentions `RESOURCE_EXHAUSTED`, the general
      apology for anything else. */
  function FailureReply(e: Thrown): (r: string)
    ensures r == TooLargeReply <==> e.ErrorObject? && Text.Contains(e.message, ResourceExhausted)
    ensures r == ErrorReply <==> !(e.ErrorObject? && Text.Contains(e.message, ResourceExhausted))
  {
    if e.ErrorObject? && Text.Contains(e.message, ResourceExhausted) then TooLargeReply else ErrorReply
  }

  /** `sendMessage`: on a reply the transcript grows by the user turn (as
      preprocessed) and the model turn; on a failure the transcript is left
      alone and a canned reply stands in for the model's. */
  function SendMessage(g: Gateway, message: string, outcome: Outcome): (r: Sent)
    ensures r.gateway.settings == g.settings
    ensures outcome.Reply? ==>
              && r.reply == outcome.text
              && r.gateway.history == g.history + [Entry(UserTurn, Preprocess(message)), Entry(ModelTurn, outcome.text)]
    ensures outcome.Threw? ==> r.gateway == g && r.reply == FailureReply(outcome.error)
  {
    match outcome
    case Reply(text) =>
      var sent := Preprocess(message);
      Sent(text, g.(history := g.history + [Entry(UserTurn, sent), Entry(ModelTurn, text)]))
    case Threw(e) =>
      Sent(FailureReply(e), g)
  }

  /** `updateSettings`: supplied fields replace the current ones, the rest and
      the transcript are kept. */
  function UpdateSettings(g: Gateway, p: SettingsPatch): (r: Gateway)
    ensures r.history == g.history
    ensures r.settings.temperature == p.temperature.GetOr(g.settings.temperature)
    ensures r.settings.maxOutputTokens == p.maxOutputTokens.GetOr(g.settings.maxOutputTokens)
  {
    g.(settings := Settings(p.temperature.GetOr(g.settings.temperature),
                            p.maxOutputTokens.GetOr(g.settings.maxOutputTokens)))
  }

  /** `resetChat`: forgets the transcript, keeps the settings. */
  function ResetChat(g: Gateway): (r: Gateway)
    ensures r.history == [] && r.settings == g.settings
  {
    g.(history := [])
  }

  /** Appending one (user, model) pair keeps the transcript alternating. */
  lemma AppendPairKeepsAlternating(h: seq<Entry>, u: string, m: string)
    requires Alternating(h)
    ensures Alternating(h + [Entry(UserTurn, u), Entry(ModelTurn, m)])
  {
    var h' := h + [Entry(UserTurn, u), Entry(ModelTurn, m)];
    forall i | 0 <= i < |h'|
      ensures h'[i].role == (if i % 2 == 0 then UserTurn else ModelTurn)
    {
      if i < |h| {
        assert h'[i] == h[i];
      }
    }
  }

  /** Every operation keeps the transcript a sequence of (user, model) pairs. */
  lemma OperationsKeepTranscriptAlternating(g: Gateway, message: string, outcome: Outcome, p: SettingsPatch)
    requires Alternating(g.history)
    ensures Alternating(SendMessage(g, message, outcome).gateway.history)
    ensures Alternating(UpdateSettings(g, p).history)
    ensures Alternating(ResetChat(g).history)
  {
    if outcome.Reply? {
      AppendPairKeepsAlternating(g.history, Preprocess(message), outcome.text);
    }
  }

  /** Applying the same settings twice is the same as applying them once, and
      an empty patch changes nothing. */
  lemma UpdateSettingsIdempotent(g: Gateway, p: SettingsPatch)
    ensures UpdateSettings(UpdateSettings(g, p), p) == UpdateSettings(g, p)
    ensures UpdateSettings(g, SettingsPatch(None, None)) == g
  {
  }

  /** Successive messages, each answered by the remote model. */
  function SendAll(g: Gateway, messages: seq<string>, replies: seq<string>): Gateway
    requires |messages| == |replies|
    decreases |messages|
  {
    if |messages| == 0 then g
    else SendAll(SendMessage(g, messages[0], Reply(replies[0])).gateway, messages[1..], replies[1..])
  }

  /** The (user, model) pairs that successful exchanges contribute, in order. */
  function Exchanges(messages: seq<string>, replies: seq<string>): seq<Entry>
    requires |messages| == |replies|
    decreases |messages|
  {
    if |messages| == 0 then []
    else [Entry(UserTurn, Preprocess(messages[0])), Entry(ModelTurn, replies[0])]
         + Exchanges(messages[1..], replies[1..])
  }

  /** The transcript only ever grows at its end, by one pair per answered
      message, in the order the messages were sent. */
  lemma {:induction false} SendAllAppendsExchanges(g: Gateway, messages: seq<string>, replies: seq<string>)
    requires |messages| == |replies|
    ensures SendAll(g, messages, replies).history == g.history + Exchanges(messages, replies)
    ensures SendAll(g, messages, replies).settings == g.settings
    decreases |messages|
  {
    if |messages| > 0 {
      var pair := [Entry(UserTurn, Preprocess(messages[0])), Entry(ModelTurn, replies[0])];
      var g1 := SendMessage(g, messages[0], Reply(replies[0])).gateway;
      var rest := Exchanges(messages[1..], replies[1..]);
      assert g1.history == g.history + pair;
      assert Exchanges(messages, replies) == pair + rest;
      assert SendAll(g, messages, replies) == SendAll(g1, messages[1..], replies[1..]);
      SendAllAppendsExchanges(g1, messages[1..], replies[1..]);
      assert g.history + pair + rest == g.history + (pair + rest);
    }
  }

  lemma {:induction false} ExchangesLength(messages: seq<string>, replies: seq<string>)
    requires |messages| == |replies|
    ensures |Exchanges(messages, replies)| == 2 * |messages|
    decreases |messages|
  {
    if |messages| > 0 {
      ExchangesLength(messages[1..], replies[1..]);
    }
  }

  /** Each answered message adds exactly two entries to the transcript. */
  lemma SendAllGrowsByTwoPerMessage(g: Gateway, messages: seq<string>, replies: seq<string>)
    requires |messages| == |replies|
    ensures |SendAll(g, messages, replies).history| == |g.history| + 2 * |messages|
  {
    SendAllAppendsExchanges(g, messages, replies);
    ExchangesLength(messages, replies);
  }
}
