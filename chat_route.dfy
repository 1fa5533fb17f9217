/** The `POST /api/chat` handler: client key derivation, history
    truncation, transcript rendering, prompt assembly, and the order in
    which the handler checks configuration, quota, input and model output. */
module ChatRoute {
  import opened Wrappers
  import opened JsText
  import RateLimit

  /** One prior turn of the conversation, as the handler reads it. */
  datatype Turn = Turn(isUser: bool, text: string)

  /** The decoded JSON body; an absent field is `None`. */
  datatype Body = Body(message: Option<string>, conversationHistory: Option<seq<Turn>>)

  /** What the handler reads from a request: the `x-forwarded-for` header,
      and the body, `None` when it is not valid JSON (`request.json()` throws). */
  datatype Request = Request(forwardedFor: Option<string>, body: Option<Body>)

  /** What the generative model returns for a prompt: its text, or a failure. */
  datatype Reply = Generated(text: string) | ModelFailed

  /** The handler's JSON response: `200 {response}` or `status {error}`. */
  datatype Response = Answer(response: string) | Error(status: int, error: string)

  /** The two fixed texts of the prompt, kept opaque: the biography document
      and the instruction block after the question heading. */
  datatype PromptText = PromptText(knowledgeBase: string, instructions: string)

  const UnknownClient := "unknown"
  const HistoryLimit: nat := 6
  const HistoryHeading := "\n\nConversation History:\n"
  const QuestionHeading := "\n\nCurrent User Question: "
  const InstructionsHeading := "\n\nInstructions:\n"

  const NotConfigured := "Gemini API key not configured"
  const TooManyRequests := "Too many requests. Please try again later."
  const MessageRequired := "Message is required"
  const ProcessingFailed := "Failed to process your message. Please try again."

  /** `s.split(',')[0]`: the text before the first comma, or all of `s`. */
  function FirstField(s: string): (r: string)
    ensures r <= s
    ensures ',' !in r
    ensures |r| < |s| ==> s[|r|] == ','
  {
    if s == [] || s[0] == ',' then [] else [s[0]] + FirstField(s[1..])
  }

  /** `getRateLimitKey`: the first comma-separated field of `x-forwarded-for`,
      not trimmed; `"unknown"` when the header is absent or empty. */
  function ClientKey(forwardedFor: Option<string>): (key: string)
    ensures forwardedFor.None? || forwardedFor == Some("") ==> key == UnknownClient
    ensures forwardedFor.Some? && forwardedFor.value != "" ==>
              key <= forwardedFor.value && ',' !in key
              && (|key| < |forwardedFor.value| ==> forwardedFor.value[|key|] == ',')
  {
    match forwardedFor
    case Some(header) => if header == "" then UnknownClient else FirstField(header)
    case None => UnknownClient
  }

  /** The contract of `FirstField` pins it down: the comma-free prefix of
      `s` that ends at a comma or at the end of `s` is unique. */
  lemma FirstFieldUnique(s: string, n: nat)
    requires n <= |s|
    requires ',' !in s[..n]
    requires n == |s| || s[n] == ','
    ensures FirstField(s) == s[..n]
  {
  }

  /** The key of a forwarded chain `first,rest` is `first`, exactly as
      written (surrounding spaces included, and empty when the header starts
      with a comma); a header without a comma is its own key. */
  lemma ClientKeyOfChain(first: string, rest: string)
    requires ',' !in first
    ensures ClientKey(Some(first + "," + rest)) == first
    ensures first != "" ==> ClientKey(Some(first)) == first
  {
    var s := first + "," + rest;
    assert s[..|first|] == first;
    FirstFieldUnique(s, |first|);
    assert first[..|first|] == first;
    if first != "" {
      FirstFieldUnique(first, |first|);
    }
  }

  /** `conversationHistory ? conversationHistory.slice(-6) : []`: absent
      history is empty, otherwise the last min(6, n) turns in their order. */
  function LimitHistory(history: Option<seq<Turn>>): (r: seq<Turn>)
    ensures history.None? ==> r == []
    ensures history.Some? ==>
              |r| == (if |history.value| < 6 then |history.value| else 6)
              && r == history.value[|history.value| - |r|..]
  {
    match history
    case None => []
    case Some(h) => if |h| <= HistoryLimit then h else h[|h| - HistoryLimit..]
  }

  /** The role label of a turn in the transcript. */
  function Speaker(turn: Turn): (r: string)
    ensures r == "User" <==> turn.isUser
    ensures r != "User" ==> r == "Assistant"
  {
    if turn.isUser then "User" else "Assistant"
  }

  /** One transcript line: role, colon, text, newline. */
  function Line(turn: Turn): string
  {
    Speaker(turn) + ": " + turn.text + "\n"
  }

  /** The transcript lines of `h`, in order. */
  function Lines(h: seq<Turn>): string
  {
    if h == [] then "" else Lines(h[..|h| - 1]) + Line(h[|h| - 1])
  }

  /** Each turn contributes a line of at least seven characters
      (`User: \n` is the shortest), and a non-empty transcript ends with a newline. */
  lemma {:induction false} LinesShape(h: seq<Turn>)
    ensures |Lines(h)| >= 7 * |h|
    ensures h != [] ==> Lines(h)[|Lines(h)| - 1] == '\n'
  {
    if h != [] {
      LinesShape(h[..|h| - 1]);
    }
  }

  /** `a + b` with its last turn split off. */
  lemma SplitLast(a: seq<Turn>, b: seq<Turn>)
    requires b != []
    ensures a + b == (a + b[..|b| - 1]) + [b[|b| - 1]]
  {
  }

  lemma ConcatAssoc(x: string, y: string, z: string)
    ensures (x + y) + z == x + (y + z)
  {
  }

  /** Appending one turn appends its line. */
  lemma LinesSnoc(h: seq<Turn>, turn: Turn)
    ensures Lines(h + [turn]) == Lines(h) + Line(turn)
  {
    assert (h + [turn])[..|h|] == h;
  }

  /** Lines of a concatenation are the concatenation of the lines. */
  lemma {:induction false} LinesAppend(a: seq<Turn>, b: seq<Turn>)
    ensures Lines(a + b) == Lines(a) + Lines(b)
    decreases |b|
  {
    if b == [] {
      assert a + b == a;
    } else {
      var b', x := b[..|b| - 1], b[|b| - 1];
      SplitLast(a, b);
      SplitLast([], b);
      assert [] + b == b && [] + b' == b';
      LinesAppend(a, b');
      LinesSnoc(a + b', x);
      LinesSnoc(b', x);
      ConcatAssoc(Lines(a), Lines(b'), Line(x));
    }
  }

  /** The transcript of one turn is its line. */
  lemma LinesSingle(turn: Turn)
    ensures Lines([turn]) == Line(turn)
  {
    assert [turn][..0] == [];
  }

  /** The transcript of a history, line by line from the front. */
  lemma {:induction false} LinesCons(turn: Turn, h: seq<Turn>)
    ensures Lines([turn] + h) == Line(turn) + Lines(h)
  {
    LinesAppend([turn], h);
    LinesSingle(turn);
  }

  /** The rendered conversation context: empty for an empty history,
      otherwise the history heading followed by one line per turn. */
  function Context(h: seq<Turn>): (r: string)
    ensures r == "" <==> h == []
    ensures h != [] ==> HistoryHeading <= r
  {
    if h == [] then "" else HistoryHeading + Lines(h)
  }

  /** Building the context with the handler's `forEach` loop yields `Context`. */
  method BuildContext(history: seq<Turn>) returns (context: string)
    ensures context == Context(history)
  {
    context := "";
    if |history| > 0 {
      context := HistoryHeading;
      var i := 0;
      while i < |history|
        invariant 0 <= i <= |history|
        invariant context == HistoryHeading + Lines(history[..i])
      {
        ContextPrefixStep(history, i);
        context := context + Line(history[i]);
        i := i + 1;
      }
      assert history[..|history|] == history;
    }
  }

  /** One turn of `BuildContext`'s loop: the rendered prefix grows by one line. */
  lemma ContextPrefixStep(h: seq<Turn>, i: nat)
    requires i < |h|
    ensures HistoryHeading + Lines(h[..i + 1]) == HistoryHeading + Lines(h[..i]) + Line(h[i])
  {
    assert h[..i + 1] == h[..i] + [h[i]];
    LinesSnoc(h[..i], h[i]);
    ConcatAssoc(HistoryHeading, Lines(h[..i]), Line(h[i]));
  }

  /** The prompt: biography, context, question heading, the message, then the instructions. */
  function Prompt(text: PromptText, context: string, message: string): (p: string)
    ensures text.knowledgeBase <= p
    ensures |p| == |text.knowledgeBase| + |context| + |QuestionHeading| + |message|
                   + |InstructionsHeading| + |text.instructions|
  {
    text.knowledgeBase + context + QuestionHeading + message + InstructionsHeading + text.instructions
  }

  /** Reads the user's question back out of a prompt built from the same fixed texts and context. */
  function QuestionOf(text: PromptText, context: string, prompt: string): (q: string)
    requires |text.knowledgeBase| + |context| + |QuestionHeading|
             <= |prompt| - |InstructionsHeading| - |text.instructions|
  {
    prompt[|text.knowledgeBase| + |context| + |QuestionHeading|
           .. |prompt| - |InstructionsHeading| - |text.instructions|]
  }

  /** The prompt begins with the biography followed by the context and the
      question heading, ends with the instructions, and the question can be
      read back from it, so distinct messages give distinct prompts. */
  lemma PromptLayout(text: PromptText, context: string, message: string)
    ensures var p := Prompt(text, context, message);
      && p[..|text.knowledgeBase|] == text.knowledgeBase
      && p[|text.knowledgeBase|..|text.knowledgeBase| + |context|] == context
      && p[|text.knowledgeBase| + |context|..|text.knowledgeBase| + |context| + |QuestionHeading|]
         == QuestionHeading
      && QuestionOf(text, context, p) == message
      && p[|p| - |InstructionsHeading| - |text.instructions|..] == InstructionsHeading + text.instructions
  {
    var kb, q := text.knowledgeBase, QuestionHeading;
    var p := Prompt(text, context, message);
    var tail := InstructionsHeading + text.instructions;
    assert p == kb + context + q + message + tail;
    assert p[|kb| + |context| + |q|..|p| - |tail|] == message;
    assert p[|p| - |tail|..] == tail;
  }

  /** The handler's steps once the rate limiter has let the request through. */
  function Respond(text: PromptText, body: Option<Body>, model: string -> Reply): (r: Response)
    ensures r.Error? ==> r == Error(400, MessageRequired) || r == Error(500, ProcessingFailed)
    ensures r.Error? && r.status == 400 ==>
              body.Some? && (body.value.message.None? || body.value.message == Some(""))
    ensures r.Answer? ==> r.response != "" && !IsWhitespace(r.response[0])
                          && !IsWhitespace(r.response[|r.response| - 1])
  {
    match body
    case None => Error(500, ProcessingFailed)
    case Some(b) =>
      if b.message.None? || b.message.value == "" then
        Error(400, MessageRequired)
      else
        var prompt := Prompt(text, Context(LimitHistory(b.conversationHistory)), b.message.value);
        match model(prompt)
        case ModelFailed => Error(500, ProcessingFailed)
        case Generated(out) =>
          if Trim(out) == "" then Error(500, ProcessingFailed) else Answer(Trim(out))
  }

  /** `POST`: the API key check, then the limiter, then the body. Returns the
      limiter's new table and the response. */
  function Handle(t: RateLimit.Table, apiKey: Option<string>, request: Request, now: int,
                  text: PromptText, model: string -> Reply): (r: (RateLimit.Table, Response))
    ensures RateLimit.WellFormed(t) ==> RateLimit.WellFormed(r.0)
    ensures t.Keys <= r.0.Keys
    ensures r.1.Error? && r.1.status == 429 ==> r.0 == t
    ensures r.1.Error? ==> r.1 in {Error(500, NotConfigured), Error(429, TooManyRequests),
                                   Error(400, MessageRequired), Error(500, ProcessingFailed)}
  {
    if apiKey.None? || apiKey.value == "" then
      (t, Error(500, NotConfigured))
    else
      var v := RateLimit.Step(t, ClientKey(request.forwardedFor), now);
      if !v.allowed then (v.table, Error(429, TooManyRequests))
      else (v.table, Respond(text, request.body, model))
  }

  /** Without an API key the handler answers 500 and the limiter's table is untouched. */
  lemma MissingKeySkipsLimiter(t: RateLimit.Table, apiKey: Option<string>, request: Request, now: int,
                               text: PromptText, model: string -> Reply)
    requires apiKey.None? || apiKey == Some("")
    ensures Handle(t, apiKey, request, now, text, model) == (t, Error(500, NotConfigured))
  {
  }

  /** With an API key the limiter is consulted before the body is read: the
      table moves by one limiter step whatever the body holds, a denied
      request answers 429, and an allowed one is answered from its body. */
  lemma LimiterRunsBeforeBody(t: RateLimit.Table, apiKey: Option<string>, request: Request, now: int,
                              text: PromptText, model: string -> Reply)
    requires apiKey.Some? && apiKey.value != ""
    ensures var v := RateLimit.Step(t, ClientKey(request.forwardedFor), now);
      && Handle(t, apiKey, request, now, text, model).0 == v.table
      && (!v.allowed ==> Handle(t, apiKey, request, now, text, model).1 == Error(429, TooManyRequests))
      && (v.allowed ==> Handle(t, apiKey, request, now, text, model).1 == Respond(text, request.body, model))
  {
  }

  /** A request whose message is absent or empty still uses up quota, and then gets 400. */
  lemma MissingMessageUsesQuota(t: RateLimit.Table, apiKey: Option<string>, forwardedFor: Option<string>,
                                message: Option<string>, history: Option<seq<Turn>>, now: int,
                                text: PromptText, model: string -> Reply)
    requires apiKey.Some? && apiKey.value != ""
    requires message.None? || message == Some("")
    requires RateLimit.Step(t, ClientKey(forwardedFor), now).allowed
    ensures var request := Request(forwardedFor, Some(Body(message, history)));
      Handle(t, apiKey, request, now, text, model)
      == (RateLimit.Step(t, ClientKey(forwardedFor), now).table, Error(400, MessageRequired))
  {
  }

  /** An answer only comes from an allowed request with a non-empty message;
      it is the trimmed, non-blank text the model produced for the prompt
      built from the last turns of the history. */
  lemma AnswerComesFromModel(t: RateLimit.Table, apiKey: Option<string>, request: Request, now: int,
                             text: PromptText, model: string -> Reply)
    ensures var resp := Handle(t, apiKey, request, now, text, model).1;
      (resp.Answer? ==>
            && apiKey.Some? && apiKey.value != ""
            && RateLimit.Step(t, ClientKey(request.forwardedFor), now).allowed
            && request.body.Some? && request.body.value.message.Some?
            && request.body.value.message.value != ""
            && var b := request.body.value;
               var prompt := Prompt(text, Context(LimitHistory(b.conversationHistory)), b.message.value);
               && model(prompt).Generated?
               && resp.response == Trim(model(prompt).text)
               && resp.response != ""
               && !IsWhitespace(resp.response[0])
               && !IsWhitespace(resp.response[|resp.response| - 1]))
  {
  }

  /** The success path: with an API key, an allowed request, a non-empty
      message and non-blank model output for the prompt built from the last
      turns of the history, the handler counts the request and answers with
      the trimmed output. */
  lemma AnswerWhenAllChecksPass(t: RateLimit.Table, k: string, forwardedFor: Option<string>,
                                m: string, h: Option<seq<Turn>>, now: int,
                                text: PromptText, model: string -> Reply, out: string)
    requires k != "" && m != ""
    requires RateLimit.Step(t, ClientKey(forwardedFor), now).allowed
    requires model(Prompt(text, Context(LimitHistory(h)), m)) == Generated(out)
    requires !IsBlank(out)
    ensures Handle(t, Some(k), Request(forwardedFor, Some(Body(Some(m), h))), now, text, model)
            == (RateLimit.Step(t, ClientKey(forwardedFor), now).table, Answer(Trim(out)))
  {
  }

  /** A model reply that is empty or all whitespace is a 500, not an answer. */
  lemma BlankModelOutputFails(text: PromptText, body: Body, model: string -> Reply)
    requires body.message.Some? && body.message.value != ""
    requires var prompt := Prompt(text, Context(LimitHistory(body.conversationHistory)), body.message.value);
      model(prompt).Generated? && IsBlank(model(prompt).text)
    ensures Respond(text, Some(body), model) == Error(500, ProcessingFailed)
  {
  }

  /** Past an allowed limiter step, a body that is not JSON, a failed model
      call and a blank model output all land in the single catch: 500 with
      the generic message, the request still counted. */
  lemma FailuresAreGeneric(t: RateLimit.Table, k: string, request: Request, now: int,
                           text: PromptText, model: string -> Reply)
    requires k != ""
    requires RateLimit.Step(t, ClientKey(request.forwardedFor), now).allowed
    requires request.body.None? ||
      (var b := request.body.value;
       && b.message.Some? && b.message.value != ""
       && var reply := model(Prompt(text, Context(LimitHistory(b.conversationHistory)), b.message.value));
          reply.ModelFailed? || IsBlank(reply.text))
    ensures Handle(t, Some(k), request, now, text, model)
            == (RateLimit.Step(t, ClientKey(request.forwardedFor), now).table, Error(500, ProcessingFailed))
  {
  }

  /** The handler as it runs against the process-wide limiter. */
  method Post(limiter: RateLimit.Limiter, apiKey: Option<string>, request: Request, now: int,
              text: PromptText, model: string -> Reply) returns (response: Response)
    requires limiter.Valid()
    modifies limiter
    ensures limiter.Valid()
    ensures (limiter.table, response) == Handle(old(limiter.table), apiKey, request, now, text, model)
  {
    if apiKey.None? || apiKey.value == "" {
      return Error(500, NotConfigured);
    }
    var key := ClientKey(request.forwardedFor);
    var allowed := limiter.Check(key, now);
    if !allowed {
      return Error(429, TooManyRequests);
    }
    if request.body.None? {
      return Error(500, ProcessingFailed);
    }
    var body := request.body.value;
    if body.message.None? || body.message.value == "" {
      return Error(400, MessageRequired);
    }
    var history := LimitHistory(body.conversationHistory);
    var context := BuildContext(history);
    var prompt := Prompt(text, context, body.message.value);
    var reply := model(prompt);
    if reply.ModelFailed? || Trim(reply.text) == "" {
      return Error(500, ProcessingFailed);
    }
    response := Answer(Trim(reply.text));
  }
}
