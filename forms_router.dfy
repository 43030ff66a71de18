/** The form endpoints: a per-company store of the current form and the
    stack of earlier versions, with generate, update and undo; the initial
    form built from the memory record; and the text-command edit rules. */
module FormsRouter {
  import opened Wrappers
  import opened JsonValues
  import opened Text
  import opened FormEdits
  import opened FormGeneration

  // ---------------------------------------------------------------------
  // generate_form_dict
  // ---------------------------------------------------------------------

  /** Python `str(v)` for a scalar JSON value; None for a list or a dict,
      whose printed form is not modelled. */
  function PyStr(v: Json): (r: Option<string>)
    ensures r.Some? <==> !v.JArr? && !v.JObj?
  {
    match v
    case JNull => Some("None")
    case JBool(b) => Some(if b then "True" else "False")
    case JInt(i) => Some(IntToString(i))
    case JStr(s) => Some(s)
    case _ => None
  }

  /** `memory_data.get("company", {})` as a dict, or None when the section
      is not an object (the following `.get` raises). */
  function CompanySection(memoryData: map<string, Json>): (section: Option<map<string, Json>>)
    ensures section.None? <==> "company" in memoryData && !memoryData["company"].JObj?
  {
    if "company" !in memoryData then Some(map[])
    else if memoryData["company"].JObj? then Some(memoryData["company"].fields)
    else None
  }

  /** `generate_form_dict`: the five-key initial form, or None when reading
      the company section raises or its revenue is a list or a dict. */
  function GenerateFormDict(companyId: int, memoryData: map<string, Json>): (form: Option<Form>)
    ensures form.None? <==>
              "company" in memoryData &&
              (!memoryData["company"].JObj? ||
               ("company_annual_revenue_usd" in memoryData["company"].fields &&
                (memoryData["company"].fields["company_annual_revenue_usd"].JArr? ||
                 memoryData["company"].fields["company_annual_revenue_usd"].JObj?)))
    ensures form.Some? ==>
              form.value.Keys == {"agency", "applicantName", "contactInformationPrimary", "annualRevenues", "deductible"} &&
              form.value["agency"] == JStr("ABC Insurance") && form.value["deductible"] == JStr("")
  {
    match CompanySection(memoryData)
    case None => None
    case Some(company) =>
      match PyStr(GetOr(company, "company_annual_revenue_usd", JStr("")))
      case None => None
      case Some(annualRevenues) =>
        Some(map["agency" := JStr("ABC Insurance"),
                 "applicantName" := GetOr(company, "company_name", JStr("")),
                 "contactInformationPrimary" := GetOr(company, "company_primary_email", JStr("")),
                 "annualRevenues" := JStr(annualRevenues),
                 "deductible" := JStr("")])
  }

  /** The initial form has exactly the five keys: a fixed agency, the
      company's name and e-mail ("" when missing), `str()` of its revenue
      ("" when missing) and an empty deductible. */
  lemma GenerateFormDictFields(companyId: int, memoryData: map<string, Json>)
    requires CompanySection(memoryData).Some?
    requires var company := CompanySection(memoryData).value;
             "company_annual_revenue_usd" in company ==>
               !company["company_annual_revenue_usd"].JArr? && !company["company_annual_revenue_usd"].JObj?
    ensures GenerateFormDict(companyId, memoryData).Some?
    ensures var form := GenerateFormDict(companyId, memoryData).value;
            var company := CompanySection(memoryData).value;
            form.Keys == {"agency", "applicantName", "contactInformationPrimary", "annualRevenues", "deductible"} &&
            form["agency"] == JStr("ABC Insurance") && form["deductible"] == JStr("") &&
            form["applicantName"] == (if "company_name" in company then company["company_name"] else JStr("")) &&
            form["contactInformationPrimary"] ==
              (if "company_primary_email" in company then company["company_primary_email"] else JStr("")) &&
            form["annualRevenues"] ==
              (if "company_annual_revenue_usd" in company
               then JStr(PyStr(company["company_annual_revenue_usd"]).value) else JStr(""))
  {
  }

  /** The form built for a company named Acme with e-mail a@acme.com and
      revenue 500000. */
  lemma GenerateFormDictExample()
    ensures var memoryData := map["company" := JObj(map["company_name" := JStr("Acme"),
                                                         "company_primary_email" := JStr("a@acme.com"),
                                                         "company_annual_revenue_usd" := JInt(500000)])];
            GenerateFormDict(1, memoryData) ==
              Some(map["agency" := JStr("ABC Insurance"), "applicantName" := JStr("Acme"),
                       "contactInformationPrimary" := JStr("a@acme.com"),
                       "annualRevenues" := JStr("500000"), "deductible" := JStr("")])
  {
    assert IntToString(500000) == "500000";
  }

  /** `generate_pdf_and_save`: only the path of the saved form. */
  function GeneratePdfAndSave(companyId: int, formFields: Form): (url: string)
    ensures url == FormUrl(companyId)
  {
    "/static/forms/form_" + IntToString(companyId) + ".pdf"
  }

  // ---------------------------------------------------------------------
  // apply_command_logic
  // ---------------------------------------------------------------------

  /** The rules of `apply_command_logic`, in the order tried; "undo" has no
      rule because it changes nothing. */
  const CommandRules: seq<EditRule> := [
    EditRule("deductible", "deductible", "$5000"),
    EditRule("applicant name", "applicantName", "Acme Inc"),
    EditRule("annual revenue", "annualRevenues", "5000000")]

  /** `apply_command_logic`: the form with each rule applied whose phrase
      the lower-cased command contains. The source updates the dict in
      place and returns it; here the updated form is the result. */
  method ApplyCommandLogic(currentForm: Form, command: string) returns (form: Form)
    ensures form == ApplyRules(CommandRules, currentForm, command)
  {
    var cmd := Lower(command);
    form := currentForm;
    if Contains(cmd, "deductible") {
      form := form["deductible" := JStr("$5000")];
    }
    ApplyRulesPrefix(CommandRules, currentForm, command, 0);
    if Contains(cmd, "applicant name") {
      form := form["applicantName" := JStr("Acme Inc")];
    }
    ApplyRulesPrefix(CommandRules, currentForm, command, 1);
    if Contains(cmd, "annual revenue") {
      form := form["annualRevenues" := JStr("5000000")];
    }
    ApplyRulesPrefix(CommandRules, currentForm, command, 2);
    if Contains(cmd, "undo") {
      // nothing to do: undoing is its own endpoint
    }
    assert CommandRules[..3] == CommandRules;
  }

  /** The three rules are independent: each sets its key exactly when the
      lower-cased command contains its phrase, a key whose phrase is absent
      keeps its entry, and every other key is untouched. */
  lemma CommandLogicEffect(form: Form, command: string)
    ensures var updated := ApplyRules(CommandRules, form, command);
            (Contains(Lower(command), "deductible") ==> "deductible" in updated && updated["deductible"] == JStr("$5000")) &&
            (Contains(Lower(command), "applicant name") ==>
               "applicantName" in updated && updated["applicantName"] == JStr("Acme Inc")) &&
            (Contains(Lower(command), "annual revenue") ==>
               "annualRevenues" in updated && updated["annualRevenues"] == JStr("5000000"))
    ensures forall key :: (key != "deductible" || !Contains(Lower(command), "deductible")) &&
                          (key != "applicantName" || !Contains(Lower(command), "applicant name")) &&
                          (key != "annualRevenues" || !Contains(Lower(command), "annual revenue")) ==>
              (key in ApplyRules(CommandRules, form, command) <==> key in form) &&
              (key in form ==> ApplyRules(CommandRules, form, command)[key] == form[key])
  {
    assert DistinctKeys(CommandRules);
    if Contains(Lower(command), "deductible") {
      FiredKeyWritten(CommandRules, form, command, 0);
    }
    if Contains(Lower(command), "applicant name") {
      FiredKeyWritten(CommandRules, form, command, 1);
    }
    if Contains(Lower(command), "annual revenue") {
      FiredKeyWritten(CommandRules, form, command, 2);
    }
    forall key | (key != "deductible" || !Contains(Lower(command), "deductible")) &&
                 (key != "applicantName" || !Contains(Lower(command), "applicant name")) &&
                 (key != "annualRevenues" || !Contains(Lower(command), "annual revenue"))
      ensures (key in ApplyRules(CommandRules, form, command) <==> key in form) &&
              (key in form ==> ApplyRules(CommandRules, form, command)[key] == form[key])
    {
      UnwrittenKeyKept(CommandRules, form, command, key);
    }
  }

  /** The command "undo" changes nothing. */
  lemma UndoCommandChangesNothing(form: Form)
    ensures ApplyRules(CommandRules, form, "undo") == form
  {
    assert |Lower("undo")| == 4;
    NoRuleFires(CommandRules, form, "undo");
  }

  // ---------------------------------------------------------------------
  // The per-company store
  // ---------------------------------------------------------------------

  /** One company's entry: the current form, if any, and the earlier
      versions, most recent last. */
  datatype EntityState = EntityState(current: Option<Form>, history: seq<Form>)

  /** The entry a company gets on first access. */
  const FreshState := EntityState(None, [])

  /** What an endpoint answers: a 200 body, or an HTTP error. */
  datatype Reply =
    | PdfUrl(url: string)
    | UpdatedFormData(form: Form)
    | BadRequest(detail: string)
    | ServerError

  const NoFormState := "No form state for this company."
  const NoOlderVersion := "No older version to revert to."

  /** The entry after `/generate` with a built form: the form is current
      and the history is empty. */
  function GenerateStep(state: EntityState, form: Form): (after: EntityState)
    ensures after.current == Some(form) && after.history == []
  {
    state.(history := []).(current := Some(form))
  }

  /** The entry and the reply after `/update`: with no current form, a 400
      error and no change; otherwise the previous form is pushed on the
      history and the command's edits become current. */
  function UpdateStep(state: EntityState, command: string): (result: (EntityState, Reply))
    ensures state.current.None? ==> result == (state, BadRequest(NoFormState))
    ensures state.current.Some? ==>
              result.0.history == state.history + [state.current.value] &&
              result.0.current == Some(ApplyRules(CommandRules, state.current.value, command)) &&
              result.1 == UpdatedFormData(result.0.current.value)
  {
    if state.current.None? then (state, BadRequest(NoFormState))
    else
      var previous := state.current.value;
      var updated := ApplyRules(CommandRules, previous, command);
      (EntityState(Some(updated), state.history + [previous]), UpdatedFormData(updated))
  }

  /** The entry and the reply after `/undo`: with an empty history, a 400
      error and no change; otherwise the last version is popped and made
      current. */
  function UndoStep(state: EntityState): (result: (EntityState, Reply))
    ensures state.history == [] ==> result == (state, BadRequest(NoOlderVersion))
    ensures state.history != [] ==>
              result.0.history == state.history[..|state.history| - 1] &&
              result.0.current == Some(state.history[|state.history| - 1]) &&
              result.1 == UpdatedFormData(state.history[|state.history| - 1])
  {
    if state.history == [] then (state, BadRequest(NoOlderVersion))
    else
      var last := state.history[|state.history| - 1];
      (EntityState(Some(last), state.history[..|state.history| - 1]), UpdatedFormData(last))
  }

  /** `FORM_STATES`: the entries of the companies accessed so far; any
      other company reads as a fresh entry. */
  class FormStore {
    var states: map<int, EntityState>

    constructor()
      ensures states == map[]
    {
      states := map[];
    }

    /** `FORM_STATES[company_id]` as read, without inserting. */
    function StateOf(companyId: int): EntityState
      reads this
    {
      if companyId in states then states[companyId] else FreshState
    }

    /** `/generate`: builds the initial form, clears the company's history
        and makes the form current. When building the form raises, nothing
        changes and the server answers 500. */
    method GenerateFormEndpoint(companyId: int, memoryData: map<string, Json>) returns (reply: Reply)
      modifies this
      ensures GenerateFormDict(companyId, memoryData).None? ==> reply == ServerError && states == old(states)
      ensures GenerateFormDict(companyId, memoryData).Some? ==>
                var form := GenerateFormDict(companyId, memoryData).value;
                states == old(states)[companyId := GenerateStep(old(StateOf(companyId)), form)] &&
                reply == PdfUrl(FormUrl(companyId))
    {
      var initialForm := GenerateFormDict(companyId, memoryData);
      if initialForm.None? {
        return ServerError;
      }
      var state := StateOf(companyId);
      state := state.(history := []);
      states := states[companyId := state];
      state := state.(current := Some(initialForm.value));
      states := states[companyId := state];
      var pdfUrl := GeneratePdfAndSave(companyId, initialForm.value);
      reply := PdfUrl(pdfUrl);
    }

    /** `/update`: applies the command to the company's current form,
        pushing the previous version on its history; a 400 error when it
        has no current form. The entry is inserted on access either way. */
    method UpdateFormEndpoint(companyId: int, command: string) returns (reply: Reply)
      modifies this
      ensures states == old(states)[companyId := UpdateStep(old(StateOf(companyId)), command).0]
      ensures reply == UpdateStep(old(StateOf(companyId)), command).1
    {
      var state := StateOf(companyId);
      states := states[companyId := state];
      if state.current.None? {
        return BadRequest(NoFormState);
      }
      var oldState := state.current.value;
      state := state.(history := state.history + [oldState]);
      states := states[companyId := state];
      var updatedForm := ApplyCommandLogic(state.current.value, command);
      state := state.(current := Some(updatedForm));
      states := states[companyId := state];
      reply := UpdatedFormData(updatedForm);
    }

    /** `/undo`: makes the company's last earlier version current, popping
        it from the history; a 400 error when the history is empty. The
        entry is inserted on access either way. */
    method UndoFormEndpoint(companyId: int) returns (reply: Reply)
      modifies this
      ensures states == old(states)[companyId := UndoStep(old(StateOf(companyId))).0]
      ensures reply == UndoStep(old(StateOf(companyId))).1
    {
      var state := StateOf(companyId);
      states := states[companyId := state];
      if state.history == [] {
        return BadRequest(NoOlderVersion);
      }
      var lastVersion := state.history[|state.history| - 1];
      state := state.(history := state.history[..|state.history| - 1]);
      state := state.(current := Some(lastVersion));
      states := states[companyId := state];
      reply := UpdatedFormData(lastVersion);
    }
  }

  // ---------------------------------------------------------------------
  // Sequences of requests
  // ---------------------------------------------------------------------

  /** The entry after the updates of `commands`, in order. */
  function Updates(state: EntityState, commands: seq<string>): EntityState
    decreases |commands|
  {
    if commands == [] then state
    else UpdateStep(Updates(state, commands[..|commands| - 1]), commands[|commands| - 1]).0
  }

  /** The entry after `n` undos. */
  function Undos(state: EntityState, n: nat): EntityState
    decreases n
  {
    if n == 0 then state else Undos(UndoStep(state).0, n - 1)
  }

  /** An update followed by an undo restores the entry, current form and
      history alike, and the undo answers with the pre-update form. */
  lemma UpdateThenUndo(state: EntityState, command: string)
    requires state.current.Some?
    ensures UndoStep(UpdateStep(state, command).0) == (state, UpdatedFormData(state.current.value))
  {
    var h := state.history + [state.current.value];
    assert h[..|h| - 1] == state.history;
  }

  /** With a current form, updates only push: each adds one version and
      keeps a current form. */
  lemma {:induction false} UpdatesPush(state: EntityState, commands: seq<string>)
    requires state.current.Some?
    ensures Updates(state, commands).current.Some?
    ensures |Updates(state, commands).history| == |state.history| + |commands|
    ensures Updates(state, commands).history[..|state.history|] == state.history
    decreases |commands|
  {
    if commands != [] {
      UpdatesPush(state, commands[..|commands| - 1]);
    }
  }

  /** N updates then N undos restore the entry as it was before the
      updates. */
  lemma {:induction false} UpdatesThenUndos(state: EntityState, commands: seq<string>)
    requires state.current.Some?
    ensures Undos(Updates(state, commands), |commands|) == state
    decreases |commands|
  {
    if commands != [] {
      var init := commands[..|commands| - 1];
      var before := Updates(state, init);
      UpdatesPush(state, init);
      UpdateThenUndo(before, commands[|commands| - 1]);
      assert UndoStep(Updates(state, commands)).0 == before;
      UpdatesThenUndos(state, init);
    }
  }

  /** Right after `/generate` an undo fails with 400 and changes nothing. */
  lemma GenerateThenUndoFails(state: EntityState, form: Form)
    ensures UndoStep(GenerateStep(state, form)) == (GenerateStep(state, form), BadRequest(NoOlderVersion))
  {
  }

  /** After `/generate`, N updates and N undos bring back the generated
      form, and one more undo fails. */
  lemma GenerateUpdatesUndos(state: EntityState, form: Form, commands: seq<string>)
    ensures Undos(Updates(GenerateStep(state, form), commands), |commands|) == EntityState(Some(form), [])
    ensures UndoStep(Undos(Updates(GenerateStep(state, form), commands), |commands|)).1 == BadRequest(NoOlderVersion)
  {
    UpdatesThenUndos(GenerateStep(state, form), commands);
  }

  /** An update without a current form fails with 400 and changes
      nothing. */
  lemma UpdateWithoutFormFails(state: EntityState, command: string)
    requires state.current.None?
    ensures UpdateStep(state, command) == (state, BadRequest(NoFormState))
  {
  }
}
