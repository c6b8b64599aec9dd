/** The `ApiKeySettings` dialog: its `open` flag, the text typed into its key
    field, and the save handler that hands the trimmed key to `AIService`. */
module ApiKeyDialog {
  import opened Wrappers
  import JsString
  import Config
  import AiClient

  class ApiKeySettings {
    var open: bool
    var apiKey: string
    /** The static `AIService` state the handler writes through. */
    const service: AiClient.AIService

    /** `useState(false)` and `useState('')`. */
    constructor (service: AiClient.AIService)
      ensures !open && apiKey == "" && this.service == service
    {
      open := false;
      apiKey := "";
      this.service := service;
    }

    /** `onOpenChange={setOpen}`. */
    method HandleOpenChange(value: bool)
      modifies this
      ensures open == value && apiKey == old(apiKey)
    {
      open := value;
    }

    /** The input's `onChange`: the field holds what was typed. */
    method HandleInputChange(value: string)
      modifies this
      ensures apiKey == value && open == old(open)
    {
      apiKey := value;
    }

    /** `handleSaveApiKey`: input that trims to nothing changes nothing;
        otherwise the trimmed key goes to `AIService.setApiKey`, the dialog
        closes and the field is cleared. `accepted` is whether the browser
        accepts the storage write; when it refuses, the exception from
        `setApiKey` escapes the handler (`threw`) before the dialog is closed,
        so the dialog stays open with its text while the cache holds the key. */
    method HandleSaveApiKey(accepted: bool) returns (threw: bool)
      modifies this, service, service.storage
      ensures threw <==> JsString.Trim(old(apiKey)) != "" && !accepted
      ensures JsString.Trim(old(apiKey)) == "" ==>
        open == old(open) && apiKey == old(apiKey)
        && service.apiKey == old(service.apiKey) && service.storage.items == old(service.storage.items)
      ensures JsString.Trim(old(apiKey)) != "" ==>
        service.apiKey == Some(JsString.Trim(old(apiKey)))
      ensures JsString.Trim(old(apiKey)) != "" && accepted ==>
        !open && apiKey == ""
        && service.storage.items == old(service.storage.items)[Config.ApiKeyStorageKey := JsString.Trim(old(apiKey))]
      ensures JsString.Trim(old(apiKey)) != "" && !accepted ==>
        open == old(open) && apiKey == old(apiKey) && service.storage.items == old(service.storage.items)
    {
      threw := false;
      var trimmed := JsString.Trim(apiKey);
      if JsString.Truthy(trimmed) {
        threw := service.SetApiKey(trimmed, accepted);
        if threw {
          return;
        }
        open := false;
        apiKey := "";
      }
    }
  }

  /** What the save handler stores is a usable key: non-empty, with no white
      space at either end, and taken from the typed text. Input that is all
      white space is never saved. */
  lemma SavedKeyIsClean(input: string)
    ensures JsString.Trim(input) != "" <==> !JsString.AllWhiteSpace(input)
    ensures JsString.Trim(input) != "" ==>
      var key := JsString.Trim(input);
      !JsString.IsWhiteSpace(key[0]) && !JsString.IsWhiteSpace(key[|key| - 1])
      && JsString.Trim(key) == key
  {
    JsString.TrimEmptyIff(input);
    JsString.TrimIdempotent(input);
  }

  /** After a save of input with some non-white-space character that the
      browser stores, with no key in the build environment, the key
      `getOpenAIApiKey()` reads back from storage is the trimmed input. */
  method SaveThenReadConfiguredKey(dialog: ApiKeySettings) returns (key: Option<string>)
    requires !JsString.AllWhiteSpace(dialog.apiKey)
    modifies dialog, dialog.service, dialog.service.storage
    ensures key == Some(JsString.Trim(old(dialog.apiKey)))
    ensures !dialog.open && dialog.apiKey == ""
  {
    SavedKeyIsClean(dialog.apiKey);
    var threw := dialog.HandleSaveApiKey(true);
    var stored := dialog.service.storage.GetItem(Config.ApiKeyStorageKey);
    key := Config.GetOpenAIApiKey(None, stored);
  }
}
