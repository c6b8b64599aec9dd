/** `src/utils/config.ts`: where the frontend takes the backend's base URL and
    the OpenAI key from. The build-time environment (`import.meta.env`) and the
    value read from `localStorage` are parameters: `None` stands for
    `undefined` or `null`. */
module Config {
  import opened Wrappers
  import JsString

  /** The `localStorage` key under which the OpenAI key is kept. */
  const ApiKeyStorageKey := "openai_api_key"

  /** `getApiBaseUrl()`: the `VITE_API_BASE_URL` value when it is truthy, else ''. */
  function GetApiBaseUrl(envUrl: Option<string>): (url: string)
    ensures JsString.TruthyOption(envUrl) ==> url == envUrl.value
    ensures !JsString.TruthyOption(envUrl) ==> url == ""
  {
    if JsString.TruthyOption(envUrl) then envUrl.value else ""
  }

  /** The base URL is empty exactly when the environment gives none; it is
      never anything other than the environment's value or ''. */
  lemma ApiBaseUrlEmptyIff(envUrl: Option<string>)
    ensures GetApiBaseUrl(envUrl) == "" <==> (envUrl.None? || envUrl.value == "")
    ensures GetApiBaseUrl(envUrl) == "" || envUrl == Some(GetApiBaseUrl(envUrl))
  {
  }

  /** `getOpenAIApiKey()`: `VITE_OPENAI_API_KEY || localStorage.getItem(...) || null`. */
  function GetOpenAIApiKey(envKey: Option<string>, storedKey: Option<string>): (key: Option<string>)
    ensures JsString.TruthyOption(envKey) ==> key == envKey
    ensures !JsString.TruthyOption(envKey) && JsString.TruthyOption(storedKey) ==> key == storedKey
    ensures !JsString.TruthyOption(envKey) && !JsString.TruthyOption(storedKey) ==> key == None
  {
    if JsString.TruthyOption(envKey) then envKey
    else if JsString.TruthyOption(storedKey) then storedKey
    else None
  }

  /** The `||` chain never yields the empty string, and whatever it yields
      comes from one of its two sources, the environment first. */
  lemma OpenAIApiKeyShape(envKey: Option<string>, storedKey: Option<string>)
    ensures GetOpenAIApiKey(envKey, storedKey) != Some("")
    ensures GetOpenAIApiKey(envKey, storedKey).Some? <==>
      (JsString.TruthyOption(envKey) || JsString.TruthyOption(storedKey))
    ensures GetOpenAIApiKey(envKey, storedKey).Some? ==>
      GetOpenAIApiKey(envKey, storedKey) == envKey || GetOpenAIApiKey(envKey, storedKey) == storedKey
  {
  }
}
