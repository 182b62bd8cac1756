# Instagram comment assistant: request assembly and settings, in Dafny

This project models the deterministic core of two scripts of a browser
extension that writes Instagram comments with a chat-completion API:

- the background worker (`background.js`): `callOpenAI`, which picks the
  prompt template, model and system prompt (falling back to built-in
  defaults), fills the caption and hashtag fragments into the template with
  `String.prototype.replace`, chooses a text-only or text-and-image user
  message, builds the request body, and reads the trimmed comment or the
  error out of the reply; and `generateComment`, which decides from the
  outcomes of its awaited calls whether to open the popup and which messages
  (`getPostContext`, `showError`, `insertComment`) to send to the tab;
- the settings popup (`popup.js`): the save handler, which trims the API
  key, refuses an empty key and then a key without the `sk-` prefix, and
  stores trimmed prompts with their defaults; the load callback, which fills
  the form from storage with the same defaults; and the popup's own copy of
  the default prompts.

Modules, one file each:

- `Wrappers` (`wrappers.dfy`): `Option` and `Result`.
- `JsText` (`js_text.dfy`): the JavaScript string built-ins the scripts use,
  over strings of Unicode scalar values: truthiness and `||`, `trim` (the
  ECMAScript white-space and line-terminator set), `startsWith`, `indexOf`,
  `replace` with a string pattern including its `$`-pattern expansion
  (`$$`, `$&`, `` $` ``, `$'`), `join` (with `Split` as its inverse) and the
  decimal rendering of a status code (with `DecimalValue` as its inverse).
- `Storage` (`storage.dfy`): the four stored settings, each possibly missing.
- `OpenAIClient` (`openai_client.dfy`): `callOpenAI`. The `fetch` outcome is
  an input (`Reply`); the function returns the request it sends and the
  comment or the failure it throws.
- `Background` (`background.dfy`): `generateComment` as a function from the
  outcomes of its calls (`Outcomes`) to what it does (`Effects`).
- `Popup` (`popup.js` → `popup.dfy`): the save decision, the load defaults,
  and a `SettingsPopup` class whose fields are the form's inputs and status
  line, with `Load` and `Save` methods proved against those functions.

This worker has no "SKIP" sentinel handling (a reply of `SKIP` would be
inserted as a comment), and the hashtag fragment has no trailing space.
The error message `callOpenAI` derives from a failed reply is modelled, but
`generateComment` replaces every thrown error with its fixed notice, so that
message never reaches the tab.

## Model

| member | source | states |
|---|---|---|
| `JsText.Or` | background.js:110 | logical-or fallback: the value when present and non-empty, the fallback otherwise; never empty when the fallback is not |
| `JsText.Interpolate` | background.js:161 | `${…}` of a missing key renders as the text `undefined`, a present one as itself |
| `JsText.Trim` | popup.js:58 | the result has no white space at either end, and it is empty exactly when the input is all white space |
| `JsText.TrimKeepsInfix` | background.js:195 | what `trim` keeps is one contiguous piece of the input and everything dropped on both sides is white space |
| `JsText.TrimSurrounded` | popup.js:73-74 | `trim` removes exactly the white space around a string with no white space at its ends |
| `JsText.TrimIdempotent` | background.js:195 | trimming the returned comment again changes nothing |
| `JsText.StartsWith` | popup.js:65 | `startsWith`: the string is the prefix followed by the rest of the string |
| `JsText.IndexOf` | background.js:123-125 | `indexOf`: the result is an occurrence with no earlier occurrence, and none is found only when there is no occurrence at all |
| `JsText.FirstOccurrenceAfterSeparator` | background.js:125 | a pattern absent from a middle piece and sharing no character with the non-empty text after it is first found after that text |
| `JsText.ReplaceFirst` | background.js:123-125 | `replace` with a string pattern leaves a string without an occurrence unchanged |
| `JsText.ReplaceFirstAfter` | background.js:124 | only the first occurrence is replaced: the text before and after it is kept |
| `JsText.ReplaceFirstAfterLiteral` | background.js:125 | a `$`-free replacement is inserted as it is in place of the first occurrence |
| `JsText.ReplaceFirstFound` | background.js:125 | wherever the first occurrence lies, a `$`-free replacement takes its place and the text around it is kept |
| `JsText.Substitution` | background.js:124-125 | the `$`-pattern expansion of `replace` (`$$`, `$&`, `` $` ``, `$'`); a replacement string without `$` is inserted unchanged |
| `JsText.SubstitutionAppend` | background.js:124 | the expansion of a replacement whose first part has no `$` is that part followed by the expansion of the rest |
| `JsText.SplitJoin` | background.js:120 | `join(" ")` of pieces that contain no space can be split back into the same pieces in the same order |
| `JsText.Join` | background.js:120 | `join` of no pieces is empty; otherwise the result begins with the first piece |
| `JsText.DecimalRoundTrip` | background.js:190 | the decimal digits of the status read back as the status |
| `JsText.Decimal` | background.js:190 | `${status}` renders at least one decimal digit, with no leading zero unless the status is 0 |
| `OpenAIClient.CaptionText` | background.js:113-116 | the caption fragment is empty exactly when the caption is missing or empty, and otherwise is `Post caption: ` followed by the caption |
| `OpenAIClient.HashtagsText` | background.js:118-121 | the hashtag fragment is empty exactly when the hashtags are missing or empty, and otherwise starts with `Hashtags: ` |
| `OpenAIClient.HashtagsRecoverable` | background.js:118-121 | after the label, the fragment is the hashtags separated by single spaces, in order: splitting it gives them back |
| `OpenAIClient.Template` | background.js:110 | the template is the stored prompt when one is set and non-empty, the default otherwise; never empty |
| `OpenAIClient.PromptWithoutPlaceholders` | background.js:123-125 | a template with neither placeholder is sent unchanged |
| `OpenAIClient.BuildPrompt` | background.js:123-125 | the first `{caption}`, then the first `{hashtags}` of the result, is replaced by its fragment; a template with no `{` at all comes back unchanged |
| `OpenAIClient.PromptFillsBoth` | background.js:123-125 | `{caption}` then `{hashtags}`: each is replaced by its fragment and the rest of the template is kept |
| `OpenAIClient.PromptFillsBothSeparated` | background.js:123-125 | the same with no `{hashtags}` in the caption (other braces allowed) and a separator between the placeholders that cannot be part of `{hashtags}` |
| `OpenAIClient.HashtagsInCaptionReplacedFirst` | background.js:123-125 | a `{hashtags}` inside the caption is replaced instead of the template's own, which is left in the prompt |
| `OpenAIClient.CaptionDollarAmpersand` | background.js:124 | a caption `$&` is expanded by `replace`: the prompt gets the literal `{caption}` back |
| `OpenAIClient.DefaultPrompt` | background.js:90-125 | for any caption without `{hashtags}`, the default template gives the introduction, the caption fragment, a blank line, the hashtag fragment and the instructions |
| `OpenAIClient.UserContent` | background.js:127-152 | the user message is text and image at detail `low` exactly when there is image data and the post has an image, and the prompt alone otherwise; either way it carries the prompt |
| `OpenAIClient.BuildRequest` | background.js:127-177 | POST to the chat-completion endpoint with the key as bearer token; exactly two messages, system then user, the user one being `UserContent` of the filled template; `max_tokens` 100, `temperature` 0.8; model and system prompt are the stored ones when set and non-empty, the defaults otherwise |
| `OpenAIClient.HikeScenario` | background.js:110-177 | for an example post with a caption, two hashtags and an image, under default settings, the request has the default model and system prompt and a text-and-image message whose prompt holds the caption and the hashtags |
| `OpenAIClient.ErrorMessage` | background.js:188-191 | the error message is the reply's own message when it has one, otherwise `API error: ` followed by the status in decimal, which reads back as the status; never empty |
| `OpenAIClient.ReadReply` | background.js:180-195 | a comment is returned exactly for an ok reply whose first choice has content, and it is that content trimmed; an API error is thrown exactly for a non-ok reply with a JSON body, and its message is `ErrorMessage` of the body's message (if any) and the status |
| `OpenAIClient.CallOpenAI` | background.js:87-203 | the request sent is the one built from the settings and context, and what is returned or thrown is read from the reply alone; a returned comment is trimmed and comes from an ok reply |
| `Background.Generated` | background.js:64-65 | a comment produced for the tab is trimmed |
| `Background.GeneratedByCall` | background.js:64-65 | the comment handed to the tab is the one `callOpenAI` returns for the stored settings and the post context, and there is none when it throws or is not reached |
| `Background.GenerateComment` | background.js:10-85 | the exact messages of each path: storage failure → the notice; no key → popup and nothing sent; failed context request → `getPostContext`, notice; context error → `getPostContext`, that error once, and the notice only if sending it rejects; thrown `callOpenAI` → `getPostContext`, notice; non-empty comment → `getPostContext`, the comment, and the notice only if inserting rejects; empty comment → `getPostContext` alone |
| `Background.GenerateCommentGuarantees` | background.js:10-85 | the popup opens exactly when settings hold no key; at most one `insertComment`, second, exactly when a non-empty comment was generated, carrying it trimmed; whenever anything in the `try` throws, the last message is the failure notice |
| `Popup.DefaultsAgree` | popup.js:13-30 | the popup's default prompts and model are the background worker's |
| `Popup.ValidateSave` | popup.js:57-75 | a blank key is refused with "Please enter an API key" before any format check; a non-blank key without `sk-` is refused with the format message; an accepted save stores the trimmed key, which starts with `sk-`, the selected model, and non-empty prompts (trimmed input, or the default when that is empty) |
| `Popup.Loaded` | popup.js:33-48 | the key input is filled only when a key is stored; model and prompts show the stored value, or the default when it is missing or empty, and so are never empty |
| `Popup.SaveThenLoad` | popup.js:70-75 | reopening the popup after an accepted save shows exactly the saved key and prompts, and the saved model unless none was selected |
| `Popup.SavedSettingsDriveRequests` | popup.js:70-75 | after an accepted save the worker has a key, sends it as bearer token, and uses the saved system prompt and template |
| `Popup.SaveStatus` | popup.js:60-82 | success is shown exactly when the save is accepted and the write succeeds; a refusal shows its message; a failed write shows `Error saving settings: ` and the error |
| `Popup.SettingsPopup.Load` | popup.js:33-48 | the form becomes `Loaded` of the old form, and "Settings loaded" is shown only when a key is stored |
| `Popup.SettingsPopup.Save` | popup.js:57-83 | a write is attempted exactly when `ValidateSave` accepts, and the object handed to it is the accepted settings; the status is `SaveStatus`; the inputs are unchanged |

## Left out

- Extension I/O (`chrome.storage.local.get`/`set`, `chrome.tabs.sendMessage`,
  `chrome.action.openPopup`) is not performed: its outcomes are inputs of
  `GenerateComment` and `SettingsPopup.Save`, and its effects are outputs.
- The `onMessage` listener that calls `generateComment` (background.js:4-8)
  is messaging glue and is not modelled.
- `fetch` and `response.json()` are not modelled: a reply is a status and a
  body already classified as not JSON, an error envelope, or a list of
  choices. `statusText` and the JSON text of the request body are not modelled.
- `temperature` is the real number 0.8, not a double.
- Strings are sequences of Unicode scalar values, not UTF-16 code units, so
  lone surrogates are not modelled; other JavaScript value types (numbers,
  `null`, objects in place of strings) are not modelled, and `hasImage` is a
  boolean with a missing value read as `false`.
- Console logging, the advanced-settings toggle, the Enter-key handler and
  the 3000 ms timer that clears the status style are UI and timer code.
- The content script (post extraction, similarity filter, post identity,
  the autonomous loop, the "SKIP" sentinel and the topic gate) is not part
  of this model.
- OpenAIClient.PromptFillsBoth: stated only for templates with no `{` before
  either placeholder and for `$`-free fragments; other templates follow the
  general definition of `ReplaceFirst`.
- OpenAIClient.PromptFillsBothSeparated: stated only for `$`-free fragments;
  a caption with `$` patterns follows the general definition of `Substitution`.
- OpenAIClient.DefaultPrompt: stated only for `$`-free fragments, for the
  same reason.
- OpenAIClient.HashtagsInCaptionReplacedFirst: stated only when no `{` comes
  before the placeholder or the caption's `{hashtags}` and the fragments are `$`-free.
