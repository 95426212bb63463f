/**
  Entity forms submitted over AJAX: after a save the form is rebuilt for a
  fresh entity with the user input cleared, and the AJAX callback answers
  with a fixed sequence of page commands.
*/
module AjaxFormEntity {
  import opened Php

  /** The entity being edited, as far as these handlers look at it. */
  datatype Entity = Entity(entityTypeId: string, bundle: string, title: string, isNew: bool)

  /** A fresh entity of a bundle, as `create(['type' => $bundle])` makes it. */
  function NewEntity(entityTypeId: string, bundle: string): (e: Entity)
    ensures e.entityTypeId == entityTypeId && e.bundle == bundle && e.isNew && e.title == ""
  {
    Entity(entityTypeId, bundle, "", true)
  }

  /** A user input item: a submitted value, or the entity the submit handler stores for the callback. */
  datatype InputItem = Item(v: Value) | EntityItem(entity: Entity)

  /** The module's settings for the form (`ajax_form_entity` in the form values); missing settings read as NULL. */
  function Setting(values: map<string, Value>, name: string): Value {
    Lookup(EntriesOf(Lookup(values, "ajax_form_entity")), name)
  }

  /** `$configurations['reload'] != 'reload_entity'`: whether the form moves on to a fresh entity. */
  predicate SwapsEntity(values: map<string, Value>) {
    !LooseEqualsLiteral(Setting(values, "reload"), "reload_entity")
  }

  /** A user input key survives the clean-up: a system key, `ajax_page_state`, or a key starting with `_`. */
  predicate KeepsInput(key: string, cleanValueKeys: seq<string>) {
    key in cleanValueKeys || key == "ajax_page_state" || (|key| > 0 && key[0] == '_')
  }

  /** The user input with everything but the kept keys removed. */
  function KeptInput(input: map<string, InputItem>, cleanValueKeys: seq<string>): (r: map<string, InputItem>)
    ensures r.Keys == set k | k in input && KeepsInput(k, cleanValueKeys)
    ensures forall k :: k in r ==> r[k] == input[k]
  {
    map k | k in input && KeepsInput(k, cleanValueKeys) :: input[k]
  }

  /** The kept input with the keys in `visited` filtered, the others not yet looked at. */
  function PartlyKept(input: map<string, InputItem>, cleanValueKeys: seq<string>, visited: set<string>): map<string, InputItem> {
    map k | k in input && (k !in visited || KeepsInput(k, cleanValueKeys)) :: input[k]
  }

  /** The input the rebuilt form sees: the kept keys, plus the edited entity under `entity`. */
  function SubmittedInput(input: map<string, InputItem>, cleanValueKeys: seq<string>, edited: Entity): map<string, InputItem> {
    KeptInput(input, cleanValueKeys)["entity" := EntityItem(edited)]
  }

  /** Cleaning the cleaned input again changes nothing but re-storing the entity. */
  lemma SubmittedInputStable(input: map<string, InputItem>, cleanValueKeys: seq<string>, edited: Entity)
    ensures var once := SubmittedInput(input, cleanValueKeys, edited);
      once.Keys == (set k | k in input && KeepsInput(k, cleanValueKeys)) + {"entity"} &&
      once["entity"] == EntityItem(edited) &&
      (forall k :: k in once && k != "entity" ==> once[k] == input[k] && KeepsInput(k, cleanValueKeys)) &&
      SubmittedInput(once, cleanValueKeys, edited) == once
  {
    var once := SubmittedInput(input, cleanValueKeys, edited);
    var twice := SubmittedInput(once, cleanValueKeys, edited);
    assert twice.Keys == once.Keys;
  }

  /** The form state of an AJAX entity form, with the entity held by its form object. */
  class AjaxFormState {
    const values: map<string, Value>
    const cleanValueKeys: seq<string>
    var userInput: map<string, InputItem>
    var storage: map<string, Value>
    var rebuild: bool
    var entity: Entity

    constructor (values: map<string, Value>, cleanValueKeys: seq<string>, userInput: map<string, InputItem>,
                 storage: map<string, Value>, entity: Entity)
      ensures this.values == values && this.cleanValueKeys == cleanValueKeys && this.userInput == userInput
      ensures this.storage == storage && this.entity == entity && !rebuild
    {
      this.values := values;
      this.cleanValueKeys := cleanValueKeys;
      this.userInput := userInput;
      this.storage := storage;
      this.entity := entity;
      rebuild := false;
    }

    /**
      The submit handler: unless the form is set to reload the same entity,
      the form object moves on to a fresh entity of the same type and
      bundle; the user input keeps only system keys, `ajax_page_state` and
      keys starting with `_`, and gets the entity that was just edited under
      `entity`; the form is rebuilt with empty storage.
    */
    method Submit()
      modifies this`userInput, this`storage, this`rebuild, this`entity
      ensures entity == if SwapsEntity(values) then NewEntity(old(entity).entityTypeId, old(entity).bundle) else old(entity)
      ensures userInput == SubmittedInput(old(userInput), cleanValueKeys, old(entity))
      ensures rebuild && storage == map[]
    {
      var edited := entity;
      if !LooseEqualsLiteral(Setting(values, "reload"), "reload_entity") {
        entity := NewEntity(edited.entityTypeId, edited.bundle);
      }
      var input := userInput;
      var remaining := input.Keys;
      ghost var visited: set<string> := {};
      while remaining != {}
        invariant remaining + visited == userInput.Keys && remaining !! visited
        invariant input == PartlyKept(userInput, cleanValueKeys, visited)
        decreases remaining
      {
        var key :| key in remaining;
        if !(key in cleanValueKeys || key == "ajax_page_state") && !(|key| > 0 && key[0] == '_') {
          input := input - {key};
        }
        remaining := remaining - {key};
        visited := visited + {key};
      }
      assert input == KeptInput(userInput, cleanValueKeys);
      userInput := input["entity" := EntityItem(edited)];
      rebuild := true;
      storage := map[];
    }
  }

  /** What a command inserts: plain markup, the rendered entity (with the status messages when asked), or the form. */
  datatype Content = Markup(html: string) | EntityView(messages: Option<string>, entity: Entity, viewMode: Value) | TheForm

  datatype Command = Replace(selector: Value, content: Content) | Remove(selector: Value)
                   | Before(selector: Value, content: Content) | After(selector: Value, content: Content)

  /** The callback either hands back the form (with its errors) or answers with commands. */
  datatype CallbackResult = FormWithErrors | Commands(commands: seq<Command>)

  /** On a full node page the page title is replaced and the entity shown without its title. */
  predicate FullNodePage(entity: Entity, values: map<string, Value>) {
    entity.entityTypeId == "node" && LooseEqualsLiteral(Setting(values, "view_mode"), "full")
  }

  function TitleCommands(entity: Entity, values: map<string, Value>): seq<Command> {
    if FullNodePage(entity, values) then [Replace(Str("h1"), Markup("<h1>" + entity.title + "</h1>"))] else []
  }

  /**
    The content command: with `send_content` the rendered entity goes
    before, after or in place of the content selector; without it the
    handler reads an undefined variable and sends nothing.
  */
  function ContentCommands(shown: Entity, values: map<string, Value>, renderedMessages: string): seq<Command> {
    var output := EntityView(if Truthy(Setting(values, "show_message")) then Some(renderedMessages) else None,
                             shown, Setting(values, "view_mode"));
    var selector := Setting(values, "content_selector");
    if !Truthy(Setting(values, "send_content")) then []
    else if Setting(values, "selector_type") == Str("prepend") then [Before(selector, output)]
    else if Setting(values, "selector_type") == Str("append") then [After(selector, output)]
    else if Truthy(selector) then [Replace(selector, output)]
    else []
  }

  function FormCommand(values: map<string, Value>): Command {
    if Truthy(Setting(values, "reload")) then Replace(Setting(values, "form_selector"), TheForm)
    else Remove(Setting(values, "form_selector"))
  }

  /**
    The AJAX callback, run on the rebuilt form: the form itself when the
    submission had errors, otherwise the title, message, content, form and
    dialog commands in that order.
  */
  function Callback(hasErrors: bool, userInput: map<string, InputItem>, values: map<string, Value>,
                    renderedMessages: string): CallbackResult
    requires !hasErrors ==> "entity" in userInput && userInput["entity"].EntityItem?
  {
    if hasErrors then FormWithErrors
    else
      var entity := userInput["entity"].entity;
      var shown := if FullNodePage(entity, values) then entity.(title := "") else entity;
      Commands(TitleCommands(entity, values) + [Remove(Str(".messages"))] + ContentCommands(shown, values, renderedMessages)
        + [FormCommand(values), Remove(Str(".ui-dialog")), Remove(Str(".ui-widget-overlay"))])
  }

  /** Any error hands back the form and sends no command. */
  lemma ErrorsReturnForm(userInput: map<string, InputItem>, values: map<string, Value>, renderedMessages: string)
    ensures Callback(true, userInput, values, renderedMessages) == FormWithErrors
  {
  }

  /**
    Without errors: on a full node page the first command puts the title
    into `h1`; old messages are removed before any content is sent; the
    form is reloaded for a truthy `reload` and removed otherwise; the last
    two commands close a dialog and its overlay.
  */
  lemma CallbackOrder(userInput: map<string, InputItem>, values: map<string, Value>, renderedMessages: string)
    requires "entity" in userInput && userInput["entity"].EntityItem?
    ensures var r := Callback(false, userInput, values, renderedMessages);
      var entity := userInput["entity"].entity;
      var t := if FullNodePage(entity, values) then 1 else 0;
      r.Commands? && 4 + t <= |r.commands| <= 5 + t &&
      (FullNodePage(entity, values) ==> r.commands[0] == Replace(Str("h1"), Markup("<h1>" + entity.title + "</h1>"))) &&
      r.commands[t] == Remove(Str(".messages")) &&
      r.commands[|r.commands| - 3] ==
        (if Truthy(Setting(values, "reload")) then Replace(Setting(values, "form_selector"), TheForm)
         else Remove(Setting(values, "form_selector"))) &&
      r.commands[|r.commands| - 2] == Remove(Str(".ui-dialog")) &&
      r.commands[|r.commands| - 1] == Remove(Str(".ui-widget-overlay"))
  {
  }

  /**
    With `send_content` exactly one content command follows the message
    removal: before the selector for `prepend`, after it for `append`, in
    its place for any other type when the selector is set; the entity is
    shown without its title on a full node page. Without `send_content`
    no content or message is sent.
  */
  lemma CallbackContent(userInput: map<string, InputItem>, values: map<string, Value>, renderedMessages: string)
    requires "entity" in userInput && userInput["entity"].EntityItem?
    ensures var r := Callback(false, userInput, values, renderedMessages);
      var entity := userInput["entity"].entity;
      var t := if FullNodePage(entity, values) then 1 else 0;
      var shown := if FullNodePage(entity, values) then entity.(title := "") else entity;
      var output := EntityView(if Truthy(Setting(values, "show_message")) then Some(renderedMessages) else None,
                               shown, Setting(values, "view_mode"));
      var selector := Setting(values, "content_selector");
      r.Commands? &&
      (!Truthy(Setting(values, "send_content")) ==> |r.commands| == 4 + t) &&
      (Truthy(Setting(values, "send_content")) && Setting(values, "selector_type") == Str("prepend") ==>
        |r.commands| == 5 + t && r.commands[t + 1] == Before(selector, output)) &&
      (Truthy(Setting(values, "send_content")) && Setting(values, "selector_type") == Str("append") ==>
        |r.commands| == 5 + t && r.commands[t + 1] == After(selector, output)) &&
      (Truthy(Setting(values, "send_content")) && Setting(values, "selector_type") != Str("prepend") &&
        Setting(values, "selector_type") != Str("append") ==>
        (Truthy(selector) ==> |r.commands| == 5 + t && r.commands[t + 1] == Replace(selector, output)) &&
        (!Truthy(selector) ==> |r.commands| == 4 + t))
  {
  }

  /**
    After a successful submit the callback shows the entity that was just
    saved, even when the form has already moved on to a fresh one.
  */
  lemma CallbackShowsEditedEntity(input: map<string, InputItem>, cleanValueKeys: seq<string>, edited: Entity,
                                  values: map<string, Value>, renderedMessages: string)
    requires !FullNodePage(edited, values) && Truthy(Setting(values, "send_content"))
    requires Setting(values, "selector_type") == Str("append")
    ensures var r := Callback(false, SubmittedInput(input, cleanValueKeys, edited), values, renderedMessages);
      r.Commands? && r.commands[1].After? && r.commands[1].content.EntityView? && r.commands[1].content.entity == edited
  {
  }
}
