/** The settings popup: filling the form from storage when it opens, and
    validating the form into the settings it stores when it is saved. The
    form's inputs and its status line are the fields of `SettingsPopup`. */
module Popup {
  import opened Wrappers
  import opened JsText
  import opened Storage
  import OpenAIClient

  /** The popup's own copy of the default system prompt. */
  const DefaultSystemPrompt: string :=
    "You are a helpful assistant that generates natural, authentic Instagram comments. "
    + "Keep comments brief, friendly, and relevant to the post content and images."

  /** The popup's own copy of the default prompt template, split around its
      two placeholders. */
  const DefaultUserPrompt: string :=
    PromptIntro + "{caption}" + "\n\n" + "{hashtags}" + PromptInstructions

  const PromptIntro: string :=
    "Generate a friendly, relevant, "
    + "and engaging Instagram comment "
    + "for this post.\n\n"

  const PromptInstructions: string :=
    "\n\nGenerate a comment that:\n"
    + "- Is 1-2 sentences long\n"
    + "- Feels natural and authentic\n"
    + "- References specific details "
    + "from both the image and text\n"
    + "- Is positive and encouraging\n"
    + "- Does not use excessive emojis "
    + "(max 1-2)\n"
    + "- Sounds like a real person, "
    + "not AI-generated\n"
    + "\n"
    + "Comment:"

  const DefaultModel: string := "gpt-4o-mini"
  const KeyPrefix: string := "sk-"

  const MissingKeyMessage: string := "Please enter an API key"
  const BadKeyMessage: string := "Invalid API key format. Should start with \"sk-\""
  const SavedMessage: string := "Settings saved successfully!"
  const SaveFailedLabel: string := "Error saving settings: "
  const LoadedMessage: string := "Settings loaded"

  /** The popup and the background worker fall back to the same defaults. */
  lemma DefaultsAgree()
    ensures DefaultSystemPrompt == OpenAIClient.DefaultSystemPrompt
    ensures DefaultUserPrompt == OpenAIClient.DefaultUserPrompt
    ensures DefaultModel == OpenAIClient.DefaultModel
  {
  }

  /** The values of the form's four inputs. */
  datatype FormValues = FormValues(apiKey: string, model: string, systemPrompt: string, userPrompt: string)

  /** The settings object the save handler writes. */
  datatype SavedSettings = SavedSettings(openaiApiKey: string, model: string, systemPrompt: string, userPrompt: string)

  datatype SaveDecision = Rejected(message: string) | Accepted(settings: SavedSettings)

  /** The save handler's checks and the settings it builds: the key is trimmed;
      an empty key is refused first, then a key without the `sk-` prefix; the
      prompts are trimmed and fall back to the defaults when that leaves them
      empty; the model is kept as selected. */
  function ValidateSave(form: FormValues): (d: SaveDecision)
    ensures d == Rejected(MissingKeyMessage) <==> AllWhiteSpace(form.apiKey)
    ensures d == Rejected(BadKeyMessage) <==> !AllWhiteSpace(form.apiKey) && !StartsWith(Trim(form.apiKey), KeyPrefix)
    ensures d.Rejected? ==> d.message in {MissingKeyMessage, BadKeyMessage}
    ensures d.Accepted? ==>
              && d.settings.openaiApiKey == Trim(form.apiKey)
              && StartsWith(d.settings.openaiApiKey, KeyPrefix)
              && IsTrimmed(d.settings.openaiApiKey)
              && d.settings.model == form.model
    ensures d.Accepted? ==>
              && d.settings.systemPrompt != "" && d.settings.userPrompt != ""
              && (AllWhiteSpace(form.systemPrompt) ==> d.settings.systemPrompt == DefaultSystemPrompt)
              && (!AllWhiteSpace(form.systemPrompt) ==> d.settings.systemPrompt == Trim(form.systemPrompt))
              && (AllWhiteSpace(form.userPrompt) ==> d.settings.userPrompt == DefaultUserPrompt)
              && (!AllWhiteSpace(form.userPrompt) ==> d.settings.userPrompt == Trim(form.userPrompt))
  {
    var apiKey := Trim(form.apiKey);
    if apiKey == "" then Rejected(MissingKeyMessage)
    else if !StartsWith(apiKey, KeyPrefix) then Rejected(BadKeyMessage)
    else
      Accepted(SavedSettings(
        apiKey,
        form.model,
        Or(Some(Trim(form.systemPrompt)), DefaultSystemPrompt),
        Or(Some(Trim(form.userPrompt)), DefaultUserPrompt)))
  }

  /** What storage holds after the settings are written. */
  function Written(s: SavedSettings): StoredSettings
  {
    StoredSettings(Some(s.openaiApiKey), Some(s.model), Some(s.systemPrompt), Some(s.userPrompt))
  }

  /** The form after the load callback: the key input is filled only when a
      key is stored, the other inputs show the stored value or their default. */
  function Loaded(form: FormValues, stored: StoredSettings): (f: FormValues)
    ensures f.apiKey == (if Truthy(stored.openaiApiKey) then stored.openaiApiKey.value else form.apiKey)
    ensures f.model == Or(stored.model, DefaultModel)
    ensures f.systemPrompt == Or(stored.systemPrompt, DefaultSystemPrompt)
    ensures f.userPrompt == Or(stored.userPrompt, DefaultUserPrompt)
    ensures f.model != "" && f.systemPrompt != "" && f.userPrompt != ""
  {
    FormValues(
      if Truthy(stored.openaiApiKey) then stored.openaiApiKey.value else form.apiKey,
      Or(stored.model, DefaultModel),
      Or(stored.systemPrompt, DefaultSystemPrompt),
      Or(stored.userPrompt, DefaultUserPrompt))
  }

  /** Reopening the popup after an accepted save shows exactly the saved key
      and prompts, whatever the form held, and the saved model unless none
      was selected. */
  lemma SaveThenLoad(form: FormValues, before: FormValues)
    requires ValidateSave(form).Accepted?
    ensures var s := ValidateSave(form).settings;
            Loaded(before, Written(s))
            == FormValues(s.openaiApiKey, if s.model != "" then s.model else DefaultModel,
                          s.systemPrompt, s.userPrompt)
  {
  }

  /** After an accepted save the background worker generates with the saved
      key, system prompt and template: it does not open the popup, and none of
      its defaults applies except the model when none was selected. */
  lemma SavedSettingsDriveRequests(form: FormValues, s: SavedSettings, ctx: OpenAIClient.PostContext)
    requires ValidateSave(form) == Accepted(s)
    ensures var req := OpenAIClient.BuildRequest(Written(s), ctx);
            && Truthy(Written(s).openaiApiKey)
            && req.authorization == "Bearer " + s.openaiApiKey
            && req.body.messages[0].content == OpenAIClient.Text(s.systemPrompt)
            && OpenAIClient.Template(Written(s)) == s.userPrompt
  {
    assert StartsWith(s.openaiApiKey, KeyPrefix);
    assert |s.openaiApiKey| >= |KeyPrefix| == 3;
    RequestFromConfigured(Written(s), ctx);
  }

  /** With a key, a system prompt and a template all configured, the request
      uses each of them. */
  lemma RequestFromConfigured(w: StoredSettings, ctx: OpenAIClient.PostContext)
    requires Truthy(w.openaiApiKey) && Truthy(w.systemPrompt) && Truthy(w.userPrompt)
    ensures var req := OpenAIClient.BuildRequest(w, ctx);
            && req.authorization == "Bearer " + w.openaiApiKey.value
            && req.body.messages[0].content == OpenAIClient.Text(w.systemPrompt.value)
            && OpenAIClient.Template(w) == w.userPrompt.value
  {
  }

  datatype StatusKind = Success | Error

  /** The status line: nothing yet, or a message of a kind. */
  datatype Status = Blank | Shown(message: string, kind: StatusKind)

  /** The status the save handler shows, given whether the storage write
      rejects (and with which message) when it is attempted. */
  function SaveStatus(d: SaveDecision, writeError: Option<string>): (st: Status)
    ensures st.Shown?
    ensures st.kind == Success <==> d.Accepted? && writeError.None?
    ensures st.kind == Success ==> st.message == SavedMessage
    ensures d.Rejected? ==> st == Shown(d.message, Error)
    ensures d.Accepted? && writeError.Some? ==>
              st.message == SaveFailedLabel + writeError.value
  {
    match d
    case Rejected(message) => Shown(message, Error)
    case Accepted(_) =>
      match writeError
      case None => Shown(SavedMessage, Success)
      case Some(message) => Shown(SaveFailedLabel + message, Error)
  }

  /** The popup's form: the values of its inputs and its status line. */
  class SettingsPopup {
    var apiKey: string
    var model: string
    var systemPrompt: string
    var userPrompt: string
    var status: Status

    function Form(): FormValues
      reads this
    {
      FormValues(apiKey, model, systemPrompt, userPrompt)
    }

    constructor (initial: FormValues)
      ensures Form() == initial && status == Blank
    {
      apiKey := initial.apiKey;
      model := initial.model;
      systemPrompt := initial.systemPrompt;
      userPrompt := initial.userPrompt;
      status := Blank;
    }

    /** The callback run with the stored settings when the popup opens. */
    method Load(stored: StoredSettings)
      modifies this
      ensures Form() == Loaded(old(Form()), stored)
      ensures status == if Truthy(stored.openaiApiKey) then Shown(LoadedMessage, Success) else old(status)
    {
      if Truthy(stored.openaiApiKey) {
        apiKey := stored.openaiApiKey.value;
      }
      model := Or(stored.model, DefaultModel);
      systemPrompt := Or(stored.systemPrompt, DefaultSystemPrompt);
      userPrompt := Or(stored.userPrompt, DefaultUserPrompt);
      if Truthy(stored.openaiApiKey) {
        status := Shown(LoadedMessage, Success);
      }
    }

    /** The save button's handler. `writeError` is how the storage write ends
        when it is attempted; `toWrite` is the object handed to the storage
        write, if one is attempted (whether or not that write then rejects).
        The inputs are left as they are. */
    method Save(writeError: Option<string>) returns (toWrite: Option<StoredSettings>)
      modifies this`status
      ensures toWrite.Some? <==> ValidateSave(Form()).Accepted?
      ensures toWrite.Some? ==> toWrite.value == Written(ValidateSave(Form()).settings)
      ensures status == SaveStatus(ValidateSave(Form()), writeError)
    {
      var key := Trim(apiKey);
      if key == "" {
        status := Shown(MissingKeyMessage, Error);
        assert ValidateSave(Form()) == Rejected(MissingKeyMessage);
        return None;
      }
      if !StartsWith(key, KeyPrefix) {
        status := Shown(BadKeyMessage, Error);
        assert ValidateSave(Form()) == Rejected(BadKeyMessage);
        return None;
      }
      var settings := SavedSettings(
        key,
        model,
        Or(Some(Trim(systemPrompt)), DefaultSystemPrompt),
        Or(Some(Trim(userPrompt)), DefaultUserPrompt));
      toWrite := Some(Written(settings));
      if writeError.None? {
        status := Shown(SavedMessage, Success);
      } else {
        status := Shown(SaveFailedLabel + writeError.value, Error);
      }
    }
  }
}
