/** The settings both scripts keep in the extension's local storage. */
module Storage {
  import opened Wrappers

  /** The four keys read by the background worker and the popup; a key that
      was never written reads as missing. */
  datatype StoredSettings = StoredSettings(
    openaiApiKey: Option<string>,
    model: Option<string>,
    systemPrompt: Option<string>,
    userPrompt: Option<string>)
}
