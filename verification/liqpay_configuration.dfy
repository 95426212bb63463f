/**
  The Liqpay method configuration: its defaults (status table and gateway
  settings), the accessors of the `config` section, and its form submit.
*/
module LiqpayConfiguration {
  import opened Php
  import opened OffsiteConfiguration

  /** The default gateway-status to payment-status table. */
  const LiqpayStatuses: map<string, Value> := map[
    "success" := Str("payment_success"),
    "failure" := Str("payment_failed"),
    "reversed" := Str("payment_failed"),
    "sandbox" := Str("payment_success"),
    "otp_verify" := Str("payment_pending"),
    "3ds_verify" := Str("payment_pending"),
    "cvv_verify" := Str("payment_pending"),
    "sender_verify" := Str("payment_pending"),
    "receiver_verify" := Str("payment_pending"),
    "wait_secure" := Str("payment_pending"),
    "wait_accept" := Str("payment_pending")]

  /** The default gateway settings: API version 3, action `pay`, sandbox on, redirect 1, no keys and no action URL. */
  const LiqpayConfig: map<string, Value> := map[
    "version" := Int(3),
    "public_key" := Str(""),
    "private_key" := Str(""),
    "action_url" := Str(""),
    "action" := Str("pay"),
    "sandbox" := Int(1),
    "redirect_url" := Int(1)]

  const LiqpayOwnDefaults: map<string, Value> := map[
    "message_text" := Str("In addition to the order amount liqpay fee can be charged."),
    "message_text_format" := Str("plain_text"),
    "ipn_statuses" := Arr(LiqpayStatuses),
    "config" := Arr(LiqpayConfig)]

  /** `parent::defaultConfiguration() + [...]`: the parent's defaults win wherever both define a key. */
  function LiqpayDefaults(parentDefaults: map<string, Value>): (r: map<string, Value>)
    ensures r.Keys == parentDefaults.Keys + {"message_text", "message_text_format", "ipn_statuses", "config"}
    ensures forall k :: k in parentDefaults ==> r[k] == parentDefaults[k]
    ensures "ipn_statuses" !in parentDefaults ==> r["ipn_statuses"] == Arr(LiqpayStatuses)
    ensures "config" !in parentDefaults ==> r["config"] == Arr(LiqpayConfig)
  {
    Union(parentDefaults, LiqpayOwnDefaults)
  }

  /**
    Unless the parent defines a status table, `success` and `sandbox` map to
    `payment_success`, `failure` and `reversed` to `payment_failed`, the
    seven verify and wait statuses to `payment_pending`, and nothing else is
    mapped.
  */
  lemma DefaultStatusTable(parentDefaults: map<string, Value>)
    requires "ipn_statuses" !in parentDefaults
    ensures var table := StatusTable(LiqpayDefaults(parentDefaults));
      table.Keys == {"success", "failure", "reversed", "sandbox", "otp_verify", "3ds_verify", "cvv_verify",
                     "sender_verify", "receiver_verify", "wait_secure", "wait_accept"} &&
      table["success"] == table["sandbox"] == Str("payment_success") &&
      table["failure"] == table["reversed"] == Str("payment_failed") &&
      table["otp_verify"] == table["3ds_verify"] == table["cvv_verify"] == table["sender_verify"] ==
        table["receiver_verify"] == table["wait_secure"] == table["wait_accept"] == Str("payment_pending")
  {
    assert StatusTable(LiqpayDefaults(parentDefaults)) == LiqpayStatuses;
  }

  /** Unless the parent defines a `config` section, the default gateway settings are those of `LiqpayConfig`. */
  lemma DefaultSettings(parentDefaults: map<string, Value>)
    requires "config" !in parentDefaults
    ensures var c := LiqpayDefaults(parentDefaults);
      ConfigEntry(c, "version") == Int(3) && ConfigEntry(c, "action") == Str("pay") &&
      ConfigEntry(c, "sandbox") == Int(1) && ConfigEntry(c, "redirect_url") == Int(1) &&
      ConfigEntry(c, "public_key") == Str("") && ConfigEntry(c, "private_key") == Str("") &&
      ConfigEntry(c, "action_url") == Str("")
  {
    assert EntriesOf(Lookup(LiqpayDefaults(parentDefaults), "config")) == LiqpayConfig;
  }

  /** An entry of the `config` section. */
  function ConfigEntry(configuration: map<string, Value>, key: string): Value {
    Lookup(EntriesOf(Lookup(configuration, "config")), key)
  }

  /** `$configuration['config'][$key] = $value`. */
  function WithConfigEntry(configuration: map<string, Value>, key: string, value: Value): (r: map<string, Value>)
    ensures r.Keys == configuration.Keys + {"config"}
    ensures forall k :: k in configuration && k != "config" ==> r[k] == configuration[k]
  {
    configuration["config" := Arr(EntriesOf(Lookup(configuration, "config"))[key := value])]
  }

  /** Writing one `config` entry sets it and keeps every other entry and every other setting. */
  lemma WithConfigEntryOnlyChangesItsEntry(configuration: map<string, Value>, key: string, value: Value)
    ensures ConfigEntry(WithConfigEntry(configuration, key, value), key) == value
    ensures forall k :: k != key ==> ConfigEntry(WithConfigEntry(configuration, key, value), k) == ConfigEntry(configuration, k)
    ensures StatusTable(WithConfigEntry(configuration, key, value)) == StatusTable(configuration)
  {
  }

  /** The redirect setting as stored: `trim()` of its string form. */
  function StoredRedirect(redirect: Value): (r: Value)
    ensures r.Str? && |r.s| > 0 ==> !TrimmedChar(r.s[0]) && !TrimmedChar(r.s[|r.s| - 1])
  {
    Str(Trim(ToPhpString(redirect)))
  }

  /** Storing a redirect that was read back from storage changes nothing. */
  lemma StoredRedirectIdempotent(redirect: Value)
    ensures StoredRedirect(StoredRedirect(redirect)) == StoredRedirect(redirect)
  {
    TrimIdempotent(ToPhpString(redirect));
  }

  /** The submitted values under the plugin form's parents; the whole submission for an empty path. */
  function PluginFormValues(values: map<string, Value>, parents: seq<string>): map<string, Value> {
    if |parents| == 0 then values
    else match NestedValue(values, parents)
      case None => map[]
      case Some(v) => EntriesOf(v)
  }

  /** The seven settings the Liqpay form submits, copied into the `config` section in order. */
  function SubmittedSettings(configuration: map<string, Value>, section: map<string, Value>): map<string, Value> {
    var c1 := WithConfigEntry(configuration, "version", Lookup(section, "version"));
    var c2 := WithConfigEntry(c1, "public_key", Lookup(section, "public_key"));
    var c3 := WithConfigEntry(c2, "private_key", Lookup(section, "private_key"));
    var c4 := WithConfigEntry(c3, "action", Lookup(section, "action"));
    var c5 := WithConfigEntry(c4, "action_url", Lookup(section, "action_url"));
    var c6 := WithConfigEntry(c5, "sandbox", Lookup(section, "sandbox"));
    WithConfigEntry(c6, "redirect_url", StoredRedirect(Lookup(section, "redirect_url")))
  }

  /** The `config` section of a configuration. */
  function Settings(configuration: map<string, Value>): map<string, Value> {
    EntriesOf(Lookup(configuration, "config"))
  }

  /**
    The submit copies the seven settings from the form (the redirect
    trimmed) over the `config` section, keeping its other entries, and
    leaves every setting outside `config`, the status table included, as it
    was.
  */
  lemma SubmittedSettingsCopiesSeven(configuration: map<string, Value>, section: map<string, Value>)
    ensures var r := SubmittedSettings(configuration, section);
      Settings(r) == Settings(configuration)
        ["version" := Lookup(section, "version")]
        ["public_key" := Lookup(section, "public_key")]
        ["private_key" := Lookup(section, "private_key")]
        ["action" := Lookup(section, "action")]
        ["action_url" := Lookup(section, "action_url")]
        ["sandbox" := Lookup(section, "sandbox")]
        ["redirect_url" := StoredRedirect(Lookup(section, "redirect_url"))] &&
      (forall k :: k in configuration && k != "config" ==> k in r && r[k] == configuration[k])
  {
    var c1 := WithConfigEntry(configuration, "version", Lookup(section, "version"));
    var c2 := WithConfigEntry(c1, "public_key", Lookup(section, "public_key"));
    var c3 := WithConfigEntry(c2, "private_key", Lookup(section, "private_key"));
    var c4 := WithConfigEntry(c3, "action", Lookup(section, "action"));
    var c5 := WithConfigEntry(c4, "action_url", Lookup(section, "action_url"));
    var c6 := WithConfigEntry(c5, "sandbox", Lookup(section, "sandbox"));
    assert Settings(c1) == Settings(configuration)["version" := Lookup(section, "version")];
    assert Settings(c6) == Settings(c5)["sandbox" := Lookup(section, "sandbox")];
  }

  /** The Liqpay configuration plugin; its configuration is that of its off-site base. */
  class LiqpayConfiguration {
    const base: OffsiteConfiguration

    /**
      The inherited constructor puts the supplied configuration over the
      defaults, which for Liqpay are the parent's defaults extended by its
      own status table, message and gateway settings.
    */
    constructor (supplied: map<string, Value>, parentDefaults: map<string, Value>)
      ensures fresh(base)
      ensures base.configuration == Union(supplied, LiqpayDefaults(parentDefaults))
      ensures forall k :: k in supplied ==> base.configuration[k] == supplied[k]
      ensures "config" !in supplied && "config" !in parentDefaults ==> base.configuration["config"] == Arr(LiqpayConfig)
      ensures "ipn_statuses" !in supplied && "ipn_statuses" !in parentDefaults ==>
        StatusTable(base.configuration) == LiqpayStatuses
    {
      base := new OffsiteConfiguration(supplied, LiqpayDefaults(parentDefaults));
    }

    function GetVersion(): Value reads base { ConfigEntry(base.configuration, "version") }
    function GetRedirect(): Value reads base { ConfigEntry(base.configuration, "redirect_url") }
    function GetPrivateKey(): Value reads base { ConfigEntry(base.configuration, "private_key") }
    function GetPublicKey(): Value reads base { ConfigEntry(base.configuration, "public_key") }
    function GetAction(): Value reads base { ConfigEntry(base.configuration, "action") }
    function GetActionUrl(): Value reads base { ConfigEntry(base.configuration, "action_url") }
    function GetSandboxStatus(): Value reads base { ConfigEntry(base.configuration, "sandbox") }

    method SetVersion(version: Value)
      modifies base`configuration
      ensures base.configuration == WithConfigEntry(old(base.configuration), "version", version)
      ensures GetVersion() == version
    {
      WithConfigEntryOnlyChangesItsEntry(base.configuration, "version", version);
      base.configuration := WithConfigEntry(base.configuration, "version", version);
    }

    /** Stores the redirect trimmed, not verbatim. */
    method SetRedirect(redirect: Value)
      modifies base`configuration
      ensures base.configuration == WithConfigEntry(old(base.configuration), "redirect_url", StoredRedirect(redirect))
      ensures GetRedirect() == Str(Trim(ToPhpString(redirect)))
    {
      WithConfigEntryOnlyChangesItsEntry(base.configuration, "redirect_url", StoredRedirect(redirect));
      base.configuration := WithConfigEntry(base.configuration, "redirect_url", StoredRedirect(redirect));
    }

    method SetPrivateKey(privateKey: Value)
      modifies base`configuration
      ensures base.configuration == WithConfigEntry(old(base.configuration), "private_key", privateKey)
      ensures GetPrivateKey() == privateKey
    {
      WithConfigEntryOnlyChangesItsEntry(base.configuration, "private_key", privateKey);
      base.configuration := WithConfigEntry(base.configuration, "private_key", privateKey);
    }

    method SetPublicKey(publicKey: Value)
      modifies base`configuration
      ensures base.configuration == WithConfigEntry(old(base.configuration), "public_key", publicKey)
      ensures GetPublicKey() == publicKey
    {
      WithConfigEntryOnlyChangesItsEntry(base.configuration, "public_key", publicKey);
      base.configuration := WithConfigEntry(base.configuration, "public_key", publicKey);
    }

    method SetAction(action: Value)
      modifies base`configuration
      ensures base.configuration == WithConfigEntry(old(base.configuration), "action", action)
      ensures GetAction() == action
    {
      WithConfigEntryOnlyChangesItsEntry(base.configuration, "action", action);
      base.configuration := WithConfigEntry(base.configuration, "action", action);
    }

    method SetActionUrl(actionUrl: Value)
      modifies base`configuration
      ensures base.configuration == WithConfigEntry(old(base.configuration), "action_url", actionUrl)
      ensures GetActionUrl() == actionUrl
    {
      WithConfigEntryOnlyChangesItsEntry(base.configuration, "action_url", actionUrl);
      base.configuration := WithConfigEntry(base.configuration, "action_url", actionUrl);
    }

    method SetSandboxStatus(sandbox: Value)
      modifies base`configuration
      ensures base.configuration == WithConfigEntry(old(base.configuration), "sandbox", sandbox)
      ensures GetSandboxStatus() == sandbox
    {
      WithConfigEntryOnlyChangesItsEntry(base.configuration, "sandbox", sandbox);
      base.configuration := WithConfigEntry(base.configuration, "sandbox", sandbox);
    }

    /**
      The parent's submit (statuses and flags), then the seven gateway
      settings copied from the values under the plugin form's parents.
    */
    method SubmitConfigurationForm(chosen: string -> string, values: map<string, Value>, parents: seq<string>)
      modifies base`configuration
      ensures base.configuration == SubmittedSettings(
        StatusesChosen(old(base.configuration), chosen, StatusTable(old(base.configuration)).Keys)
          ["verbose" := SubmittedValue(values, FlagPath("verbose"), Bool(false))]
          ["auto_submit" := SubmittedValue(values, FlagPath("auto_submit"), Bool(true))],
        PluginFormValues(values, parents))
    {
      base.SubmitConfigurationForm(chosen, values);
      var section := PluginFormValues(values, parents);
      SetVersion(Lookup(section, "version"));
      SetPublicKey(Lookup(section, "public_key"));
      SetPrivateKey(Lookup(section, "private_key"));
      SetAction(Lookup(section, "action"));
      SetActionUrl(Lookup(section, "action_url"));
      SetSandboxStatus(Lookup(section, "sandbox"));
      SetRedirect(Lookup(section, "redirect_url"));
    }
  }
}
