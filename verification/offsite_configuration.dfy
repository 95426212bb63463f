/**
  The configuration of an off-site payment method: a gateway-status to
  payment-status table (`ipn_statuses`), the verbose and auto-submit flags,
  and the configuration form's submit handler that rewrites them.
*/
module OffsiteConfiguration {
  import opened Php

  /**
    `NestedArray::getValue($values, $path)` with the key-exists test: the
    value at the end of the path, or nothing when some key on it is missing
    or some step is not an array.
  */
  function NestedValue(values: map<string, Value>, path: seq<string>): (r: Option<Value>)
    requires |path| > 0
    ensures |path| == 1 ==> (r.Some? <==> path[0] in values)
    ensures path[0] !in values ==> r == None
    decreases |path|
  {
    if path[0] !in values then None
    else if |path| == 1 then Some(values[path[0]])
    else if values[path[0]].Arr? then NestedValue(values[path[0]].entries, path[1..])
    else None
  }

  /** `$form_state->getValue($path, $default)`: the submitted value, or the default when the path is absent. */
  function SubmittedValue(values: map<string, Value>, path: seq<string>, default: Value): (v: Value)
    requires |path| > 0
    ensures NestedValue(values, path).None? ==> v == default
    ensures NestedValue(values, path).Some? ==> v == NestedValue(values, path).value
  {
    match NestedValue(values, path)
    case None => default
    case Some(x) => x
  }

  /** Where the configuration form puts the flag with the given name. */
  function FlagPath(name: string): seq<string> {
    ["plugin_form", "plugin_form", "payment_offsite_api", name]
  }

  /** A submitted flag reaches the configuration exactly when its whole path was submitted. */
  lemma {:induction false} FlagPathLookup(values: map<string, Value>, name: string, v: Value)
    requires "plugin_form" in values && values["plugin_form"].Arr?
    requires "plugin_form" in values["plugin_form"].entries && values["plugin_form"].entries["plugin_form"].Arr?
    requires var inner := values["plugin_form"].entries["plugin_form"].entries;
      "payment_offsite_api" in inner && inner["payment_offsite_api"].Arr? &&
      name in inner["payment_offsite_api"].entries && inner["payment_offsite_api"].entries[name] == v
    ensures SubmittedValue(values, FlagPath(name), Bool(false)) == v
    ensures SubmittedValue(values, FlagPath(name), Bool(true)) == v
  {
    var p := FlagPath(name);
    var outer := values["plugin_form"].entries;
    var inner := outer["plugin_form"].entries;
    var section := inner["payment_offsite_api"].entries;
    assert p[1..] == ["plugin_form", "payment_offsite_api", name];
    assert p[1..][1..] == ["payment_offsite_api", name];
    assert p[1..][1..][1..] == [name];
    assert NestedValue(section, [name]) == Some(v);
    assert NestedValue(inner, ["payment_offsite_api", name]) == Some(v);
    assert NestedValue(outer, ["plugin_form", "payment_offsite_api", name]) == Some(v);
    assert NestedValue(values, p) == Some(v);
  }

  /** The status table of a configuration; anything but an array reads as no statuses. */
  function StatusTable(configuration: map<string, Value>): map<string, Value> {
    EntriesOf(Lookup(configuration, "ipn_statuses"))
  }

  /** The configuration after the statuses in `done` have been set to the chosen payment statuses. */
  function StatusesChosen(configuration: map<string, Value>, chosen: string -> string, done: set<string>): (r: map<string, Value>)
    ensures done == {} ==> r == configuration
    ensures done != {} ==> r.Keys == configuration.Keys + {"ipn_statuses"}
    ensures StatusTable(r).Keys == StatusTable(configuration).Keys
    ensures forall s :: s in StatusTable(r) ==>
      StatusTable(r)[s] == if s in done then Str(chosen(s)) else StatusTable(configuration)[s]
    ensures forall k :: k in configuration && k != "ipn_statuses" ==> r[k] == configuration[k]
  {
    var statuses := StatusTable(configuration);
    if done == {} then configuration
    else configuration["ipn_statuses" := Arr(map s | s in statuses :: if s in done then Str(chosen(s)) else statuses[s])]
  }

  /** Setting one more status extends the set of statuses already chosen. */
  lemma StatusesChosenStep(initial: map<string, Value>, chosen: string -> string, done: set<string>, status: string)
    requires status in StatusTable(initial) && status !in done
    ensures var current := StatusesChosen(initial, chosen, done);
      current["ipn_statuses" := Arr(StatusTable(current)[status := Str(chosen(status))])] ==
      StatusesChosen(initial, chosen, done + {status})
  {
    var current := StatusesChosen(initial, chosen, done);
    var next := done + {status};
    var statuses := StatusTable(initial);
    assert StatusTable(current)[status := Str(chosen(status))] ==
      map s | s in statuses :: if s in next then Str(chosen(s)) else statuses[s];
  }

  /** Once every status has been chosen, and whatever the flags are set to, each status maps to its choice. */
  lemma SubmittedStatuses(initial: map<string, Value>, chosen: string -> string, verbose: Value, autoSubmit: Value)
    ensures var r := StatusesChosen(initial, chosen, StatusTable(initial).Keys)["verbose" := verbose]["auto_submit" := autoSubmit];
      StatusTable(r).Keys == StatusTable(initial).Keys &&
      forall s :: s in StatusTable(r) ==> StatusTable(r)[s] == Str(chosen(s))
  {
    var chosenAll := StatusesChosen(initial, chosen, StatusTable(initial).Keys);
    var r := chosenAll["verbose" := verbose]["auto_submit" := autoSubmit];
    assert StatusTable(r) == StatusTable(chosenAll);
  }

  /** The configuration plugin of an off-site payment method. */
  class OffsiteConfiguration {
    var configuration: map<string, Value>

    /** The supplied configuration over the defaults: every supplied key keeps its supplied value. */
    constructor (supplied: map<string, Value>, defaults: map<string, Value>)
      ensures configuration == Union(supplied, defaults)
      ensures configuration.Keys == supplied.Keys + defaults.Keys
      ensures forall k :: k in supplied ==> configuration[k] == supplied[k]
      ensures forall k :: k in defaults && k !in supplied ==> configuration[k] == defaults[k]
    {
      configuration := Union(supplied, defaults);
    }

    /** The whole status table. */
    function GetStatuses(): Value
      reads this
    {
      Lookup(configuration, "ipn_statuses")
    }

    /** The payment status configured for a gateway status; NULL when there is none. */
    function GetStatusId(statusId: string): (r: Value)
      reads this
      ensures statusId !in StatusTable(configuration) ==> r == Null
      ensures statusId in StatusTable(configuration) ==> r == StatusTable(configuration)[statusId]
    {
      Lookup(EntriesOf(GetStatuses()), statusId)
    }

    /** Maps one gateway status; every other mapping and every other setting is kept. */
    method SetStatusId(statusId: string, status: Value)
      modifies this`configuration
      ensures configuration == old(configuration)["ipn_statuses" := Arr(StatusTable(old(configuration))[statusId := status])]
      ensures GetStatusId(statusId) == status
      ensures forall s :: s != statusId ==> GetStatusId(s) == old(GetStatusId(s))
    {
      var statuses := EntriesOf(GetStatuses());
      configuration := configuration["ipn_statuses" := Arr(statuses[statusId := status])];
    }

    function GetAutoSubmit(): Value
      reads this
    {
      Lookup(configuration, "auto_submit")
    }

    function GetVerbose(): Value
      reads this
    {
      Lookup(configuration, "verbose")
    }

    method SetAutoSubmit(autoSubmit: Value)
      modifies this`configuration
      ensures configuration == old(configuration)["auto_submit" := autoSubmit]
      ensures GetAutoSubmit() == autoSubmit
    {
      configuration := configuration["auto_submit" := autoSubmit];
    }

    method SetVerbose(verbose: Value)
      modifies this`configuration
      ensures configuration == old(configuration)["verbose" := verbose]
      ensures GetVerbose() == verbose
    {
      configuration := configuration["verbose" := verbose];
    }

    /**
      The status and flag part of the configuration form's submit: every
      existing gateway status is mapped to the payment status chosen for it
      (no status is added or removed), then verbose is taken from the form
      (FALSE when absent) and auto-submit likewise (TRUE when absent).
    */
    method SubmitConfigurationForm(chosen: string -> string, values: map<string, Value>)
      modifies this`configuration
      ensures configuration ==
        StatusesChosen(old(configuration), chosen, StatusTable(old(configuration)).Keys)
          ["verbose" := SubmittedValue(values, FlagPath("verbose"), Bool(false))]
          ["auto_submit" := SubmittedValue(values, FlagPath("auto_submit"), Bool(true))]
      ensures StatusTable(configuration).Keys == StatusTable(old(configuration)).Keys
      ensures forall s :: s in StatusTable(configuration) ==> GetStatusId(s) == Str(chosen(s))
    {
      ghost var initial := configuration;
      var remaining := StatusTable(configuration).Keys;
      ghost var done: set<string> := {};
      while remaining != {}
        invariant remaining + done == StatusTable(initial).Keys && remaining !! done
        invariant configuration == StatusesChosen(initial, chosen, done)
        decreases remaining
      {
        var status :| status in remaining;
        StatusesChosenStep(initial, chosen, done, status);
        SetStatusId(status, Str(chosen(status)));
        remaining := remaining - {status};
        done := done + {status};
      }
      SetVerbose(SubmittedValue(values, FlagPath("verbose"), Bool(false)));
      SetAutoSubmit(SubmittedValue(values, FlagPath("auto_submit"), Bool(true)));
      SubmittedStatuses(initial, chosen, SubmittedValue(values, FlagPath("verbose"), Bool(false)),
        SubmittedValue(values, FlagPath("auto_submit"), Bool(true)));
    }
  }
}
