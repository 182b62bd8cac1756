/** The background worker's `generateComment`: a sequence of awaited calls
    with early returns, modelled as a function from the outcomes of those calls
    to what the worker does — whether it opens the popup and which messages it
    sends to the tab, in order. */
module Background {
  import opened Wrappers
  import opened JsText
  import opened Storage
  import opened OpenAIClient

  /** The notice sent when anything in the sequence throws. */
  const FailureNotice: string := "Failed to generate comment. Check console for details."

  /** A message the worker sends to the content script of the tab. */
  datatype TabMessage =
    | GetPostContext
    | ShowError(message: string)
    | InsertComment(comment: string)

  /** The content script's answer to `getPostContext`: an `error` field, or the
      post context. */
  datatype ContextReply = ContextReply(error: Option<string>, context: PostContext)

  /** The outcomes of the calls `generateComment` awaits:
      - `stored`: the settings read from storage, `None` when the read rejects;
      - `contextReply`: the answer to `getPostContext`, `None` when sending it
        rejects or nothing answers;
      - `apiReply`: the outcome of the chat-completion request;
      - `followUpRejects`: whether sending the message after the context
        (`showError` or `insertComment`) rejects. */
  datatype Outcomes = Outcomes(
    stored: Option<StoredSettings>,
    contextReply: Option<ContextReply>,
    apiReply: Reply,
    followUpRejects: bool)

  /** What the worker does: whether it opens the popup, and every message it
      sends to the tab, in order (a message whose delivery rejects counts as
      sent). */
  datatype Effects = Effects(openedPopup: bool, sent: seq<TabMessage>)

  /** The catch block's notice, sent after a follow-up message rejects. */
  function AfterFollowUp(rejects: bool): seq<TabMessage>
  {
    if rejects then [ShowError(FailureNotice)] else []
  }

  predicate HasKey(o: Outcomes)
  {
    o.stored.Some? && Truthy(o.stored.value.openaiApiKey)
  }

  /** The comment `callOpenAI` returns for these outcomes, if it is called
      and returns one. What it returns depends only on the reply to its
      request (`ReadReply`); `GeneratedByCall` ties this to `CallOpenAI`. */
  function Generated(o: Outcomes): (r: Option<string>)
    ensures r.Some? ==> IsTrimmed(r.value)
  {
    if HasKey(o) && o.contextReply.Some? && !Truthy(o.contextReply.value.error) then
      match ReadReply(o.apiReply)
      case Ok(comment) => Some(comment)
      case Err(_) => None
    else None
  }

  /** The generated comment is the one `callOpenAI` returns when called with
      the stored settings and the post context, and there is none when it
      throws or is not called. */
  lemma GeneratedByCall(o: Outcomes)
    ensures Generated(o).Some? <==>
              && HasKey(o) && o.contextReply.Some? && !Truthy(o.contextReply.value.error)
              && CallOpenAI(o.stored.value, o.contextReply.value.context, o.apiReply).result.Ok?
    ensures Generated(o).Some? ==>
              Generated(o).value == CallOpenAI(o.stored.value, o.contextReply.value.context, o.apiReply).result.value
  {
  }

  predicate IsInsert(m: TabMessage)
  {
    m.InsertComment?
  }

  /** The post context came back without an error, so `callOpenAI` runs. */
  predicate ContextOk(o: Outcomes)
  {
    HasKey(o) && o.contextReply.Some? && !Truthy(o.contextReply.value.error)
  }

  /** A message follows `getPostContext`: the context error, or the
      non-empty generated comment. */
  predicate FollowUpSent(o: Outcomes)
  {
    && HasKey(o) && o.contextReply.Some?
    && (Truthy(o.contextReply.value.error) || (Generated(o).Some? && Generated(o).value != ""))
  }

  /** Something awaited inside the `try` throws: the storage read, the
      `getPostContext` send (or reading `error` of a missing answer),
      `callOpenAI`, or the follow-up send. */
  predicate Throws(o: Outcomes)
  {
    || o.stored.None?
    || (HasKey(o) && o.contextReply.None?)
    || (ContextOk(o) && Generated(o).None?)
    || (FollowUpSent(o) && o.followUpRejects)
  }

  /** `generateComment(tabId)`, case by case:
      - a failed storage read: only the failure notice;
      - no API key: the popup is opened and nothing is sent to the tab;
      - a failed context request: `getPostContext`, then the notice;
      - a context error: `getPostContext`, the error once, and the notice
        only when sending the error rejects;
      - a thrown `callOpenAI`: `getPostContext`, then the notice;
      - a non-empty comment: `getPostContext`, the comment, and the notice
        only when inserting rejects;
      - an empty comment: `getPostContext` alone. */
  function GenerateComment(o: Outcomes): (e: Effects)
    ensures o.stored.None? ==> e == Effects(false, [ShowError(FailureNotice)])
    ensures o.stored.Some? && !HasKey(o) ==> e == Effects(true, [])
    ensures HasKey(o) && o.contextReply.None? ==> e == Effects(false, [GetPostContext, ShowError(FailureNotice)])
    ensures HasKey(o) && o.contextReply.Some? && Truthy(o.contextReply.value.error) ==>
              e == Effects(false, [GetPostContext, ShowError(o.contextReply.value.error.value)]
                                  + AfterFollowUp(o.followUpRejects))
    ensures ContextOk(o) && Generated(o).None? ==> e == Effects(false, [GetPostContext, ShowError(FailureNotice)])
    ensures ContextOk(o) && Generated(o).Some? && Generated(o).value != "" ==>
              e == Effects(false, [GetPostContext, InsertComment(Generated(o).value)] + AfterFollowUp(o.followUpRejects))
    ensures ContextOk(o) && Generated(o) == Some("") ==> e == Effects(false, [GetPostContext])
  {
    match o.stored
    case None => Effects(false, [ShowError(FailureNotice)])
    case Some(settings) =>
      if !Truthy(settings.openaiApiKey) then Effects(true, [])
      else
        match o.contextReply
        case None => Effects(false, [GetPostContext, ShowError(FailureNotice)])
        case Some(reply) =>
          if Truthy(reply.error) then
            Effects(false, [GetPostContext, ShowError(reply.error.value)] + AfterFollowUp(o.followUpRejects))
          else
            match Generated(o)
            case None => Effects(false, [GetPostContext, ShowError(FailureNotice)])
            case Some(comment) =>
              if comment != "" then
                Effects(false, [GetPostContext, InsertComment(comment)] + AfterFollowUp(o.followUpRejects))
              else
                Effects(false, [GetPostContext])
  }

  /** Across the cases: the popup opens exactly when settings were read but
      hold no key; `getPostContext` goes first exactly when there is a key;
      at most one `insertComment` is sent, second, exactly when a non-empty
      comment was generated, and it carries that trimmed comment; whenever
      something throws, the last message is the failure notice. */
  lemma GenerateCommentGuarantees(o: Outcomes)
    ensures var e := GenerateComment(o);
            && (e.openedPopup <==> o.stored.Some? && !HasKey(o))
            && (HasKey(o) <==> |e.sent| > 0 && e.sent[0] == GetPostContext)
            && (forall i :: 0 <= i < |e.sent| && IsInsert(e.sent[i]) ==>
                  i == 1 && Generated(o) == Some(e.sent[i].comment) && e.sent[i].comment != ""
                  && IsTrimmed(e.sent[i].comment))
            && ((Generated(o).Some? && Generated(o).value != "") <==> |e.sent| > 1 && IsInsert(e.sent[1]))
            && (Throws(o) ==> |e.sent| > 0 && e.sent[|e.sent| - 1] == ShowError(FailureNotice))
  {
  }
}
