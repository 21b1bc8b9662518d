/**
 * The settings dialog of the browser client (static/js/main.js): which entries `saveSettings`
 * refuses before sending anything, and the body `updateLLMSettings` sends to the API-key
 * endpoint. The DOM reads and the toasts are outside the model: the form's values are
 * parameters and a refusal is the toast's text.
 */
module SettingsForm {
  import opened Wrappers
  import opened Text
  import opened Json
  import opened Forms
  import opened Accounts
  import AS = AccountSerializers

  /** The values of the dialog's provider, key, model, custom-name and custom-URL inputs. */
  datatype SettingsInput = SettingsInput(provider: string, apiKey: string, model: string, customName: string, customBaseUrl: string)

  const ApiKeyRequiredMessage: string := "API key is required for this provider"
  const CustomProviderMessage: string := "Provider name and base URL are required for custom provider"

  /** The providers that call a remote API with the user's key. */
  predicate NeedsApiKey(provider: string) {
    provider == "openai" || provider == "comet" || provider == "custom"
  }

  /**
   * `this.currentUser && this.currentUser.use_own_api_key && this.currentUser.llm_provider === provider`,
   * read as a condition; `None` is a `currentUser` that is `null`.
   */
  predicate HasExistingKey(currentUser: Option<Json>, provider: string) {
    JsTruthy(currentUser) && JsTruthy(Get(currentUser.value, "use_own_api_key"))
    && Get(currentUser.value, "llm_provider") == Some(JStr(provider))
  }

  /** The refusal `saveSettings` shows, if any: a missing key first, then an incomplete custom provider. */
  function SettingsError(input: SettingsInput, currentUser: Option<Json>): (r: Option<string>)
    ensures r == Some(ApiKeyRequiredMessage) <==>
              NeedsApiKey(input.provider) && input.apiKey == "" && !HasExistingKey(currentUser, input.provider)
    ensures r == Some(CustomProviderMessage) <==>
              !(NeedsApiKey(input.provider) && input.apiKey == "" && !HasExistingKey(currentUser, input.provider))
              && input.provider == "custom" && (input.customName == "" || input.customBaseUrl == "")
    ensures r.None? || r == Some(ApiKeyRequiredMessage) || r == Some(CustomProviderMessage)
  {
    if NeedsApiKey(input.provider) && input.apiKey == "" && !HasExistingKey(currentUser, input.provider) then
      Some(ApiKeyRequiredMessage)
    else if input.provider == "custom" && (input.customName == "" || input.customBaseUrl == "") then
      Some(CustomProviderMessage)
    else None
  }

  /** The entry `key: value` if `present`, else nothing. */
  function Optional(key: string, present: bool, value: Json): (e: seq<(string, Json)>)
    ensures Lookup(e, key) == if present then Some(value) else None
    ensures forall k | k != key :: Lookup(e, k).None?
  {
    if present then [(key, value)] else []
  }

  /** The keys the payload may hold. */
  const PayloadKeys: set<string> :=
    {"llm_provider", "use_own_api_key", "llm_api_key", "llm_model", "custom_provider_name", "custom_api_base_url"}

  /** The trimmed key, when the key is there and not only whitespace (`apiKey && apiKey.trim()`). */
  predicate KeySent(apiKey: string) {
    apiKey != "" && JsTrim(apiKey) != ""
  }

  /**
   * `updateLLMSettings`'s body: the provider and whether it is remote always; the trimmed key
   * only when it is not blank; the model only when given; the custom name and URL only for the
   * custom provider.
   */
  function SettingsPayload(input: SettingsInput): (data: Json)
    ensures data.JObj?
  {
    var custom := input.provider == "custom";
    JObj([("llm_provider", JStr(input.provider)), ("use_own_api_key", JBool(input.provider != "local"))]
         + Optional("llm_api_key", KeySent(input.apiKey), JStr(JsTrim(input.apiKey)))
         + Optional("llm_model", input.model != "", JStr(input.model))
         + Optional("custom_provider_name", custom, JStr(input.customName))
         + Optional("custom_api_base_url", custom, JStr(input.customBaseUrl)))
  }

  /** What a lookup in the payload finds. */
  lemma {:induction false} PayloadLookup(input: SettingsInput, key: string)
    ensures Get(SettingsPayload(input), key) ==
              if key == "llm_provider" then Some(JStr(input.provider))
              else if key == "use_own_api_key" then Some(JBool(input.provider != "local"))
              else if key == "llm_api_key" && KeySent(input.apiKey) then Some(JStr(JsTrim(input.apiKey)))
              else if key == "llm_model" && input.model != "" then Some(JStr(input.model))
              else if key == "custom_provider_name" && input.provider == "custom" then Some(JStr(input.customName))
              else if key == "custom_api_base_url" && input.provider == "custom" then Some(JStr(input.customBaseUrl))
              else None
  {
    var custom := input.provider == "custom";
    var head := [("llm_provider", JStr(input.provider)), ("use_own_api_key", JBool(input.provider != "local"))];
    var k := Optional("llm_api_key", KeySent(input.apiKey), JStr(JsTrim(input.apiKey)));
    var m := Optional("llm_model", input.model != "", JStr(input.model));
    var n := Optional("custom_provider_name", custom, JStr(input.customName));
    var u := Optional("custom_api_base_url", custom, JStr(input.customBaseUrl));
    LookupAppend(head + k + m + n, u, key);
    LookupAppend(head + k + m, n, key);
    LookupAppend(head + k, m, key);
    LookupAppend(head, k, key);
    assert SettingsPayload(input) == JObj(head + k + m + n + u);
    assert head[1..] == [head[1]] && head[1..][1..] == [];
    assert Lookup(head[1..][1..], key) == None;
    assert Lookup(head[1..], key) == if key == "use_own_api_key" then Some(JBool(input.provider != "local")) else None;
    assert Lookup(head, key) == if key == "llm_provider" then Some(JStr(input.provider))
                                else if key == "use_own_api_key" then Some(JBool(input.provider != "local")) else None;
  }

  /** The payload's properties: `use_own_api_key` is true exactly off the local provider, the key is sent trimmed and only if it is not blank. */
  lemma PayloadFields(input: SettingsInput)
    ensures Get(SettingsPayload(input), "llm_provider") == Some(JStr(input.provider))
    ensures Get(SettingsPayload(input), "use_own_api_key") == Some(JBool(input.provider != "local"))
    ensures Get(SettingsPayload(input), "llm_api_key").Some? <==> !AllOf(IsJsWhitespace, input.apiKey)
    ensures Get(SettingsPayload(input), "llm_api_key").Some? ==>
              Get(SettingsPayload(input), "llm_api_key") == Some(JStr(JsTrim(input.apiKey)))
    ensures Get(SettingsPayload(input), "llm_model").Some? <==> input.model != ""
    ensures Get(SettingsPayload(input), "custom_provider_name").Some? <==> input.provider == "custom"
    ensures Get(SettingsPayload(input), "custom_api_base_url").Some? <==> input.provider == "custom"
    ensures Get(SettingsPayload(input), "openai_api_key").None?
  {
    PayloadLookup(input, "llm_provider");
    PayloadLookup(input, "use_own_api_key");
    PayloadLookup(input, "llm_api_key");
    PayloadLookup(input, "llm_model");
    PayloadLookup(input, "custom_provider_name");
    PayloadLookup(input, "custom_api_base_url");
    PayloadLookup(input, "openai_api_key");
    TrimEmptyIff(IsJsWhitespace, input.apiKey);
  }

  /** A key of only whitespace passes the dialog's check, yet the body sent carries no key. */
  lemma WhitespaceKeyDropped(input: SettingsInput, currentUser: Option<Json>)
    requires input.apiKey != "" && AllOf(IsJsWhitespace, input.apiKey) && input.provider != "custom"
    ensures SettingsError(input, currentUser).None?
    ensures Get(SettingsPayload(input), "llm_api_key").None?
  {
    PayloadFields(input);
  }

  /**
   * The endpoint the dialog sends to validates only `openai_api_key` and `use_own_api_key`,
   * and the body never carries the former: saving settings leaves the stored user as it was.
   */
  lemma SavingSettingsKeepsUser(u: User, input: SettingsInput)
    ensures AS.UpdateApiKey(u, SettingsPayload(input)) == Accepted(u)
  {
    var data := SettingsPayload(input);
    PayloadFields(input);
    assert FieldOf(data, "openai_api_key").Absent?;
    assert AS.ApiKeyField(data).Skipped?;
    assert FieldOf(data, "use_own_api_key") == Given(JBool(input.provider != "local"));
    assert AS.UseOwnField(data).Clean?;
  }

  /**
   * The profile the client keeps as `currentUser` shows neither `use_own_api_key` nor
   * `llm_provider`, so the dialog never finds an existing key and a key is always asked for.
   */
  lemma ProfileNeverHasKey(id: UserId, u: User, input: SettingsInput)
    requires NeedsApiKey(input.provider) && input.apiKey == ""
    ensures !HasExistingKey(Some(AS.ProfileJson(id, u)), input.provider)
    ensures SettingsError(input, Some(AS.ProfileJson(id, u))) == Some(ApiKeyRequiredMessage)
  {
    AS.ProfileHidesKeys(id, u);
  }

  /** The local provider is never refused and the body says it does not use an own key. */
  lemma LocalAlwaysAccepted(input: SettingsInput, currentUser: Option<Json>)
    requires input.provider == "local"
    ensures SettingsError(input, currentUser).None?
    ensures Get(SettingsPayload(input), "use_own_api_key") == Some(JBool(false))
  {
    PayloadFields(input);
  }
}
