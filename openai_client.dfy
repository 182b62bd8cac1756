/** The background worker's `callOpenAI`: assembling the chat-completion
    request from the settings and the post context, and reading the comment
    (or the error) out of the reply. The network call itself is not modelled:
    its outcome is an input. */
module OpenAIClient {
  import opened Wrappers
  import opened JsText
  import opened Storage

  /** The default prompt template, split around its two placeholders. */
  const DefaultUserPrompt: string :=
    DefaultIntro + CaptionPlaceholder + "\n\n" + HashtagsPlaceholder + DefaultInstructions

  const DefaultIntro: string :=
    "Generate a friendly, relevant, "
    + "and engaging Instagram comment "
    + "for this post.\n\n"

  const DefaultInstructions: string :=
    "\n\nGenerate a comment that:\n"
    + "- Is 1-2 sentences long\n"
    + "- Feels natural and authentic\n"
    + "- References specific details "
    + "from both the image and text\n"
    + "- Is positive and encouraging\n"
    + "- Does not use excessive emojis "
    + "(max 1-2)\n"
    + "- Sounds like a real person, "
    + "not AI-generated\n"
    + "\n"
    + "Comment:"

  const DefaultSystemPrompt: string :=
    "You are a helpful assistant that generates natural, authentic Instagram comments. "
    + "Keep comments brief, friendly, and relevant to the post content and images."

  const DefaultModel: string := "gpt-4o-mini"
  const Endpoint: string := "https://api.openai.com/v1/chat/completions"
  const MaxTokens: nat := 100
  const Temperature: real := 0.8

  const CaptionPlaceholder: string := "{caption}"
  const HashtagsPlaceholder: string := "{hashtags}"
  const CaptionLabel: string := "Post caption: "
  const HashtagsLabel: string := "Hashtags: "
  const ApiErrorLabel: string := "API error: "

  /** What the content script reports about the focused post. */
  datatype PostContext = PostContext(
    caption: Option<string>,
    hashtags: Option<seq<string>>,
    imageBase64: Option<string>,
    hasImage: bool)

  datatype Role = System | User

  datatype ContentPart =
    | TextPart(text: string)
    | ImagePart(url: string, detail: string)

  /** A message's content: a plain string, or a list of typed parts. */
  datatype Content = Text(text: string) | Multimodal(parts: seq<ContentPart>)

  datatype ChatMessage = ChatMessage(role: Role, content: Content)

  datatype RequestBody = RequestBody(
    model: string,
    messages: seq<ChatMessage>,
    maxTokens: nat,
    temperature: real)

  datatype Request = Request(
    url: string,
    httpMethod: string,
    contentType: string,
    authorization: string,
    body: RequestBody)

  // ---------------------------------------------------------------------------
  // Prompt assembly
  // ---------------------------------------------------------------------------

  /** The caption fragment: empty without a caption, otherwise the caption
      after its label. */
  function CaptionText(ctx: PostContext): (r: string)
    ensures r == "" <==> !Truthy(ctx.caption)
    ensures Truthy(ctx.caption) ==> r == CaptionLabel + ctx.caption.value
  {
    if Truthy(ctx.caption) then CaptionLabel + ctx.caption.value else ""
  }

  predicate HasHashtags(ctx: PostContext)
  {
    ctx.hashtags.Some? && |ctx.hashtags.value| > 0
  }

  /** The hashtag fragment: empty without hashtags, otherwise the label
      followed by the hashtags separated by single spaces. */
  function HashtagsText(ctx: PostContext): (r: string)
    ensures r == "" <==> !HasHashtags(ctx)
    ensures HasHashtags(ctx) ==> StartsWith(r, HashtagsLabel)
  {
    if HasHashtags(ctx) then HashtagsLabel + Join(ctx.hashtags.value, " ") else ""
  }

  /** The hashtags, in their order, can be read back from the fragment when
      none of them contains a space. */
  lemma HashtagsRecoverable(ctx: PostContext)
    requires HasHashtags(ctx)
    requires forall k :: 0 <= k < |ctx.hashtags.value| ==> ' ' !in ctx.hashtags.value[k]
    ensures Split(HashtagsText(ctx)[|HashtagsLabel|..], ' ') == ctx.hashtags.value
  {
    assert HashtagsText(ctx)[|HashtagsLabel|..] == Join(ctx.hashtags.value, [' ']);
    SplitJoin(ctx.hashtags.value, ' ');
  }

  /** The prompt template in force: the configured one unless it is missing
      or empty. */
  function Template(settings: StoredSettings): (r: string)
    ensures r != ""
    ensures Truthy(settings.userPrompt) ==> r == settings.userPrompt.value
    ensures !Truthy(settings.userPrompt) ==> r == DefaultUserPrompt
    ensures r == DefaultUserPrompt <==> !Truthy(settings.userPrompt) || settings.userPrompt.value == DefaultUserPrompt
  {
    Or(settings.userPrompt, DefaultUserPrompt)
  }

  /** The user prompt: the first `{caption}` of the template replaced by the
      caption fragment, then the first `{hashtags}` of the result by the
      hashtag fragment. */
  function BuildPrompt(template: string, ctx: PostContext): (r: string)
    ensures '{' !in template ==> r == template
  {
    var withCaption := ReplaceFirst(template, CaptionPlaceholder, CaptionText(ctx));
    var r := ReplaceFirst(withCaption, HashtagsPlaceholder, HashtagsText(ctx));
    assert '{' !in template ==> r == template by {
      if '{' !in template {
        AbsentFirstChar(template, CaptionPlaceholder);
        AbsentFirstChar(template, HashtagsPlaceholder);
      }
    }
    r
  }

  /** Neither fragment contains a `$`, so neither is subject to `$`-pattern
      expansion when it is substituted. */
  predicate DollarFree(ctx: PostContext)
  {
    && '$' !in CaptionText(ctx)
    && '$' !in HashtagsText(ctx)
  }

  /** A template with neither placeholder is sent as it is. */
  lemma PromptWithoutPlaceholders(template: string, ctx: PostContext)
    requires forall j: nat :: !OccursAt(template, CaptionPlaceholder, j)
    requires forall j: nat :: !OccursAt(template, HashtagsPlaceholder, j)
    ensures BuildPrompt(template, ctx) == template
  {
  }

  /** Both placeholders, in this order, with no `{` before either: each is
      replaced by its fragment and the rest of the template is kept. */
  lemma PromptFillsBoth(a: string, m: string, z: string, ctx: PostContext)
    requires '{' !in a && '{' !in m
    requires ctx.caption.Some? ==> '{' !in ctx.caption.value
    requires DollarFree(ctx)
    ensures BuildPrompt(a + CaptionPlaceholder + m + HashtagsPlaceholder + z, ctx)
            == a + CaptionText(ctx) + m + HashtagsText(ctx) + z
  {
    var cap, tags := CaptionText(ctx), HashtagsText(ctx);
    ConcatRegroupTail(a, CaptionPlaceholder, m, HashtagsPlaceholder, z);
    ReplaceFirstAfterLiteral(a, CaptionPlaceholder, cap, m + HashtagsPlaceholder + z);
    ConcatRegroupTail(a, cap, m, HashtagsPlaceholder, z);
    CaptionTextNoBrace(ctx);
    NoBraceInConcat(a, cap, m);
    ReplaceFirstAfterLiteral(a + cap + m, HashtagsPlaceholder, tags, z);
  }

  // Regrouping and brace-freedom facts the prompt lemmas use.

  lemma ConcatRegroupTail(a: string, p: string, m: string, h: string, z: string)
    ensures a + p + m + h + z == a + p + (m + h + z)
  {
  }

  lemma CaptionTextNoBrace(ctx: PostContext)
    requires ctx.caption.Some? ==> '{' !in ctx.caption.value
    ensures '{' !in CaptionText(ctx)
  {
    assert '{' !in CaptionLabel;
  }

  /** A `{hashtags}` inside the caption is the first one the second
      replacement finds: the hashtag fragment lands inside the caption and
      whatever follows `{caption}` in the template, including its own
      `{hashtags}`, is left as it is. */
  lemma HashtagsInCaptionReplacedFirst(a: string, b: string, c1: string, c2: string, ctx: PostContext)
    requires ctx.caption == Some(c1 + HashtagsPlaceholder + c2)
    requires '{' !in a && '{' !in c1
    requires DollarFree(ctx)
    ensures BuildPrompt(a + CaptionPlaceholder + b, ctx)
            == a + CaptionLabel + c1 + HashtagsText(ctx) + c2 + b
  {
    var tags := HashtagsText(ctx);
    CaptionHoldingHashtagsFilled(a, b, c1, c2, ctx);
    NoBraceInConcat(a, CaptionLabel, c1);
    ReplaceFirstAfterLiteral(a + CaptionLabel + c1, HashtagsPlaceholder, tags, c2 + b);
    ConcatAssociative(a + CaptionLabel + c1 + tags, c2, b);
  }

  /** The first replacement, for a caption holding `{hashtags}`. */
  lemma CaptionHoldingHashtagsFilled(a: string, b: string, c1: string, c2: string, ctx: PostContext)
    requires ctx.caption == Some(c1 + HashtagsPlaceholder + c2)
    requires '{' !in a
    requires '$' !in CaptionText(ctx)
    ensures ReplaceFirst(a + CaptionPlaceholder + b, CaptionPlaceholder, CaptionText(ctx))
            == (a + CaptionLabel + c1) + HashtagsPlaceholder + (c2 + b)
  {
    var cap := CaptionText(ctx);
    ReplaceFirstAfterLiteral(a, CaptionPlaceholder, cap, b);
    assert cap == CaptionLabel + (c1 + HashtagsPlaceholder + c2);
    ConcatRegroupAroundPlaceholder(a, CaptionLabel, c1, HashtagsPlaceholder, c2, b);
  }

  lemma ConcatRegroupAroundPlaceholder(a: string, l: string, c1: string, h: string, c2: string, b: string)
    ensures a + (l + (c1 + h + c2)) + b == (a + l + c1) + h + (c2 + b)
  {
  }

  lemma NoBraceInConcat(a: string, l: string, c: string)
    requires '{' !in a && '{' !in l && '{' !in c
    ensures '{' !in a + l + c
  {
  }

  /** With the default template, the prompt is the introduction, the caption
      fragment, a blank line, the hashtag fragment and the instructions. */
  lemma DefaultPrompt(ctx: PostContext)
    requires ctx.caption.Some? ==> forall j: nat :: !OccursAt(ctx.caption.value, HashtagsPlaceholder, j)
    requires DollarFree(ctx)
    ensures BuildPrompt(DefaultUserPrompt, ctx)
            == DefaultIntro + CaptionText(ctx) + "\n\n" + HashtagsText(ctx) + DefaultInstructions
  {
    DefaultIntroNoBrace();
    assert forall k :: 0 <= k < |"\n\n"| ==> "\n\n"[k] !in HashtagsPlaceholder;
    PromptFillsBothSeparated(DefaultIntro, "\n\n", DefaultInstructions, ctx);
  }

  /** Both placeholders, in this order, with no `{` before `{caption}`, no
      `{hashtags}` inside the caption, and between the placeholders a
      non-empty text with no character of `{hashtags}`: each placeholder is
      replaced by its fragment and the rest of the template is kept, whatever
      other braces the caption holds. */
  lemma PromptFillsBothSeparated(a: string, m: string, z: string, ctx: PostContext)
    requires '{' !in a
    requires |m| > 0 && forall k :: 0 <= k < |m| ==> m[k] !in HashtagsPlaceholder
    requires ctx.caption.Some? ==> forall j: nat :: !OccursAt(ctx.caption.value, HashtagsPlaceholder, j)
    requires DollarFree(ctx)
    ensures BuildPrompt(a + CaptionPlaceholder + m + HashtagsPlaceholder + z, ctx)
            == a + CaptionText(ctx) + m + HashtagsText(ctx) + z
  {
    var cap, tags := CaptionText(ctx), HashtagsText(ctx);
    CaptionFilled(a, m, z, ctx);
    HashtagsFoundAfterSeparator(a, m, z, ctx);
    ReplaceFirstFound(a + cap + m, HashtagsPlaceholder, tags, z);
  }

  /** The first replacement of a template with no `{` before `{caption}`. */
  lemma CaptionFilled(a: string, m: string, z: string, ctx: PostContext)
    requires '{' !in a
    requires '$' !in CaptionText(ctx)
    ensures ReplaceFirst(a + CaptionPlaceholder + m + HashtagsPlaceholder + z, CaptionPlaceholder, CaptionText(ctx))
            == a + CaptionText(ctx) + m + HashtagsPlaceholder + z
  {
    var cap := CaptionText(ctx);
    ConcatRegroupTail(a, CaptionPlaceholder, m, HashtagsPlaceholder, z);
    ReplaceFirstAfterLiteral(a, CaptionPlaceholder, cap, m + HashtagsPlaceholder + z);
    ConcatRegroupTail(a, cap, m, HashtagsPlaceholder, z);
  }

  /** After the first replacement, the template's own `{hashtags}` is the
      first one when the caption holds none and the separator cannot be part
      of one. */
  lemma HashtagsFoundAfterSeparator(a: string, m: string, z: string, ctx: PostContext)
    requires '{' !in a
    requires |m| > 0 && forall k :: 0 <= k < |m| ==> m[k] !in HashtagsPlaceholder
    requires ctx.caption.Some? ==> forall j: nat :: !OccursAt(ctx.caption.value, HashtagsPlaceholder, j)
    ensures IndexOf(a + CaptionText(ctx) + m + HashtagsPlaceholder + z, HashtagsPlaceholder)
            == Some(|a + CaptionText(ctx) + m|)
  {
    var cap := CaptionText(ctx);
    if Truthy(ctx.caption) {
      var c := ctx.caption.value;
      ConcatAssociative(a, CaptionLabel, c);
      assert '{' !in a + CaptionLabel by { assert '{' !in CaptionLabel; }
      FirstOccurrenceAfterSeparator(a + CaptionLabel, c, m, HashtagsPlaceholder, z);
    } else {
      assert forall j: nat :: !OccursAt(cap, HashtagsPlaceholder, j);
      FirstOccurrenceAfterSeparator(a, cap, m, HashtagsPlaceholder, z);
    }
  }

  lemma DefaultIntroNoBrace()
    ensures '{' !in DefaultIntro
  {
  }

  /** The replacement text is subject to `$`-pattern expansion: a caption
      `$&` puts the matched `{caption}` itself back into the template. */
  lemma CaptionDollarAmpersand(a: string, b: string, ctx: PostContext)
    requires ctx.caption == Some("$&")
    requires '{' !in a
    ensures ReplaceFirst(a + CaptionPlaceholder + b, CaptionPlaceholder, CaptionText(ctx))
            == a + CaptionLabel + CaptionPlaceholder + b
  {
    assert CaptionText(ctx) == CaptionLabel + "$&";
    ReplaceFirstAfter(a, CaptionPlaceholder, CaptionLabel + "$&", b);
    LabelledMatch(a, b);
  }

  lemma LabelledMatch(before: string, after: string)
    ensures Substitution(CaptionLabel + "$&", CaptionPlaceholder, before, after)
            == CaptionLabel + CaptionPlaceholder
  {
    assert Substitution("$&", CaptionPlaceholder, before, after) == CaptionPlaceholder by {
      assert "$&"[2..] == "";
    }
    assert '$' !in CaptionLabel;
    SubstitutionAppend(CaptionLabel, "$&", CaptionPlaceholder, before, after);
  }

  // ---------------------------------------------------------------------------
  // The request
  // ---------------------------------------------------------------------------

  predicate SendsImage(ctx: PostContext)
  {
    Truthy(ctx.imageBase64) && ctx.hasImage
  }

  /** The prompt a message content carries. */
  function PromptOf(content: Content): string
  {
    match content
    case Text(t) => t
    case Multimodal(parts) =>
      if |parts| > 0 && parts[0].TextPart? then parts[0].text else ""
  }

  /** The user message: the prompt and the image at low detail when there is
      image data and the post has an image, the prompt alone otherwise. */
  function UserContent(prompt: string, ctx: PostContext): (c: Content)
    ensures c.Multimodal? <==> SendsImage(ctx)
    ensures c.Multimodal? ==> c.parts == [TextPart(prompt), ImagePart(ctx.imageBase64.value, "low")]
    ensures PromptOf(c) == prompt
  {
    if SendsImage(ctx) then
      Multimodal([TextPart(prompt), ImagePart(ctx.imageBase64.value, "low")])
    else
      Text(prompt)
  }

  /** The POST sent to the chat-completion endpoint: a system message with the
      system prompt, then the user message, at most 100 tokens. */
  function BuildRequest(settings: StoredSettings, ctx: PostContext): (req: Request)
    ensures req.url == Endpoint && req.httpMethod == "POST" && req.contentType == "application/json"
    ensures req.authorization == "Bearer " + Interpolate(settings.openaiApiKey)
    ensures req.body.model != "" && req.body.maxTokens == 100
    ensures req.body.model == DefaultModel <==> !Truthy(settings.model) || settings.model.value == DefaultModel
    ensures Truthy(settings.model) ==> req.body.model == settings.model.value
    ensures req.body.temperature == 0.8
    ensures |req.body.messages| == 2
    ensures req.body.messages[0].role == System && req.body.messages[1].role == User
    ensures req.body.messages[0].content.Text?
    ensures req.body.messages[0].content.text != ""
    ensures Truthy(settings.systemPrompt) ==> req.body.messages[0].content.text == settings.systemPrompt.value
    ensures !Truthy(settings.systemPrompt) ==> req.body.messages[0].content.text == DefaultSystemPrompt
    ensures PromptOf(req.body.messages[1].content) == BuildPrompt(Template(settings), ctx)
    ensures req.body.messages[1].content.Multimodal? <==> SendsImage(ctx)
    ensures req.body.messages[1].content == UserContent(BuildPrompt(Template(settings), ctx), ctx)
  {
    var prompt := BuildPrompt(Template(settings), ctx);
    var body := RequestBody(
      Or(settings.model, DefaultModel),
      [ ChatMessage(System, Text(Or(settings.systemPrompt, DefaultSystemPrompt))),
        ChatMessage(User, UserContent(prompt, ctx)) ],
      MaxTokens,
      Temperature);
    Request(Endpoint, "POST", "application/json", "Bearer " + Interpolate(settings.openaiApiKey), body)
  }

  /** An example post with a caption, two hashtags and an image, under the
      default settings: the request carries the default system prompt, the image at low detail, and
      a prompt holding the caption and both hashtags. */
  lemma HikeScenario()
    ensures var ctx := HikePost();
            var req := BuildRequest(StoredSettings(Some("sk-example"), None, None, None), ctx);
            && req.body.model == DefaultModel
            && req.body.messages[0].content == Text(DefaultSystemPrompt)
            && req.body.messages[1].content == Multimodal([
                 TextPart(DefaultIntro + CaptionLabel + HikeCaption + "\n\n"
                          + HashtagsLabel + "#nature #sunset" + DefaultInstructions),
                 ImagePart(HikeImage, "low")])
  {
    var ctx := HikePost();
    var settings := StoredSettings(Some("sk-example"), None, None, None);
    assert Template(settings) == DefaultUserPrompt;
    HikePrompt();
    assert SendsImage(ctx) && ctx.imageBase64.value == HikeImage;
  }

  /** The prompt of the example post under the default template. */
  lemma HikePrompt()
    ensures BuildPrompt(DefaultUserPrompt, HikePost())
            == DefaultIntro + CaptionLabel + HikeCaption + "\n\n"
               + HashtagsLabel + "#nature #sunset" + DefaultInstructions
  {
    var ctx := HikePost();
    HikeFragments();
    DefaultPrompt(ctx);
    ConcatAssociative(DefaultIntro, CaptionLabel, HikeCaption);
    ConcatAssociative(DefaultIntro + CaptionLabel + HikeCaption + "\n\n", HashtagsLabel, "#nature #sunset");
  }

  lemma ConcatAssociative(a: string, b: string, c: string)
    ensures a + (b + c) == a + b + c
  {
  }

  function HikePost(): PostContext
  {
    PostContext(Some(HikeCaption), Some(["#nature", "#sunset"]), Some(HikeImage), true)
  }

  lemma HikeFragments()
    ensures CaptionText(HikePost()) == CaptionLabel + HikeCaption
    ensures HashtagsText(HikePost()) == HashtagsLabel + "#nature #sunset"
    ensures DollarFree(HikePost())
    ensures forall j: nat :: !OccursAt(HikeCaption, HashtagsPlaceholder, j)
  {
    HikeCaptionNoDollarOrPlaceholder();
    HikeHashtagsTextSpelled();
  }

  lemma HikeCaptionNoDollarOrPlaceholder()
    ensures '$' !in CaptionLabel + HikeCaption
    ensures forall j: nat :: !OccursAt(HikeCaption, HashtagsPlaceholder, j)
  {
    assert '$' !in CaptionLabel && '$' !in HikeCaption;
    assert '{' !in HikeCaption;
    AbsentFirstChar(HikeCaption, HashtagsPlaceholder);
  }

  lemma HikeHashtagsTextSpelled()
    ensures HashtagsText(HikePost()) == HashtagsLabel + "#nature #sunset"
    ensures '$' !in HashtagsLabel + "#nature #sunset"
  {
    assert Join(["#nature", "#sunset"], " ") == "#nature #sunset";
    assert '$' !in HashtagsLabel && '$' !in "#nature #sunset";
  }

  const HikeCaption: string := "Had the best hike today! " + "#nature #sunset"
  const HikeImage: string := "data:image/jpeg;base64,/9j/"

  // ---------------------------------------------------------------------------
  // The reply
  // ---------------------------------------------------------------------------

  /** The parsed JSON body of a reply: not JSON at all, an object without
      `choices` whose `error.message` may be missing, or a `choices` list of
      which each entry's `message.content` may be missing. */
  datatype ReplyBody =
    | Unparseable
    | ErrorEnvelope(message: Option<string>)
    | Completion(contents: seq<Option<string>>)

  /** The outcome of the `fetch`: rejected, or an HTTP status and body. */
  datatype Reply = NetworkFailure | HttpReply(status: nat, body: ReplyBody)

  /** Why `callOpenAI` throws: the API answered with an error status, or a
      runtime error (rejected fetch, invalid JSON, missing field). */
  datatype Failure = ApiError(message: string) | RuntimeError

  /** `response.ok`. */
  predicate IsOk(status: nat)
  {
    200 <= status <= 299
  }

  /** The message of the error thrown on a non-ok reply: the reply's own
      error message when it has one, otherwise the status after a fixed
      label. It is never empty, and the status can be read back from it. */
  function ErrorMessage(message: Option<string>, status: nat): (r: string)
    ensures r != ""
    ensures Truthy(message) ==> r == message.value
    ensures !Truthy(message) ==> r == ApiErrorLabel + Decimal(status)
    ensures !Truthy(message) ==>
              && StartsWith(r, ApiErrorLabel)
              && (forall i :: |ApiErrorLabel| <= i < |r| ==> IsDigit(r[i]))
              && DecimalValue(r[|ApiErrorLabel|..]) == status
  {
    if Truthy(message) then message.value
    else
      var digits := Decimal(status);
      DecimalRoundTrip(status);
      assert (ApiErrorLabel + digits)[|ApiErrorLabel|..] == digits;
      ApiErrorLabel + digits
  }

  /** `callOpenAI`'s result given the reply: the trimmed content of the first
      choice, or the failure it throws. */
  function ReadReply(reply: Reply): (r: Result<string, Failure>)
    ensures r.Ok? <==> reply.HttpReply? && IsOk(reply.status) && reply.body.Completion?
                       && |reply.body.contents| > 0 && reply.body.contents[0].Some?
    ensures r.Ok? ==> r.value == Trim(reply.body.contents[0].value) && IsTrimmed(r.value)
    ensures (r.Err? && r.error.ApiError?) <==> reply.HttpReply? && !IsOk(reply.status) && !reply.body.Unparseable?
    ensures r.Err? && r.error.ApiError? && reply.body.ErrorEnvelope? && Truthy(reply.body.message) ==>
              r.error.message == reply.body.message.value
    ensures r.Err? && r.error.ApiError? ==>
              r.error.message == ErrorMessage(if reply.body.ErrorEnvelope? then reply.body.message else None, reply.status)
  {
    match reply
    case NetworkFailure => Err(RuntimeError)
    case HttpReply(status, body) =>
      if !IsOk(status) then
        match body
        case Unparseable => Err(RuntimeError)
        case ErrorEnvelope(message) => Err(ApiError(ErrorMessage(message, status)))
        case Completion(_) => Err(ApiError(ErrorMessage(None, status)))
      else
        match body
        case Completion(contents) =>
          if |contents| > 0 && contents[0].Some? then Ok(Trim(contents[0].value)) else Err(RuntimeError)
        case _ => Err(RuntimeError)
  }

  /** One run of `callOpenAI`: the request it sends and what it returns or
      throws. */
  datatype Call = Call(request: Request, result: Result<string, Failure>)

  /** `callOpenAI(settings, postContext)`, with the outcome of its request
      given as `reply`. */
  function CallOpenAI(settings: StoredSettings, ctx: PostContext, reply: Reply): (c: Call)
    ensures c.request == BuildRequest(settings, ctx)
    ensures c.result == ReadReply(reply)
    ensures c.result.Ok? ==> IsTrimmed(c.result.value)
    ensures c.result.Ok? ==> reply.HttpReply? && IsOk(reply.status)
  {
    Call(BuildRequest(settings, ctx), ReadReply(reply))
  }
}
