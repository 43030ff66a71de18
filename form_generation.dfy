/** `generate_form` up to the Anvil call: the extraction under the default
    mapping, the fixed request sent to Anvil with its `data` block projected
    from the extracted fields, and the URL of the saved form; and
    `update_form_logic`, the single deductible rule. */
module FormGeneration {
  import opened Wrappers
  import opened JsonValues
  import opened Text
  import opened CleanMemoryService
  import opened ParseMemoryService
  import opened FieldBlocks
  import opened MemoryExtraction
  import opened FormEdits

  /** The entries of the `data` block, run by run in the order written:
      `parsed_data.get(name)` for the names of a scalar run, and
      `parsed_data.get(parent, {}).get(child)` for each child of a group. */
  const AnvilLayout: BlockList :=
    // lines 26-32
    Cons(Scalars(["billingPlanForPolicyIsDirect",
                  "applicantIsLLC",
                  "dateOfApplication",
                  "agency",
                  "carrier",
                  "naicCode",
                  "companyPolicyOrProgramName"]),
    // lines 33-39
    Cons(Scalars(["programCode",
                  "agencyCustomerId",
                  "hasBusinessOwnersAttachedSections",
                  "hasCommercialGeneralLiabilitySectionsAttached",
                  "paymentPlan",
                  "methodOfPayment",
                  "audit1"]),
    // lines 40-44
    Cons(Group("applicantName1", ["firstName", "mi", "lastName"]),
    // lines 45-48
    Cons(Scalars(["glCode1",
                  "sic1",
                  "naics1",
                  "feinOrSocSec1"]),
    // lines 49-56
    Cons(Group("websiteAddress", ["street1", "street2", "city", "state", "zip", "country"]),
    // lines 57-58
    Cons(Scalars(["contactInformationPrimary1",
                  "contactInformationSecondary1"]),
    // lines 59-66
    Cons(Group("premisesZipcode", ["street1", "street2", "city", "state", "zip", "country"]),
    // lines 67-70
    Cons(Scalars(["agencyCustomerId1",
                  "location",
                  "numberOfFullTimeEmployees",
                  "building"]),
    // lines 71-78
    Cons(Group("county", ["street1", "street2", "city", "state", "zip", "country"]),
    // lines 79-86
    Cons(Scalars(["location1",
                  "partTimeEmployeesNumber",
                  "building1",
                  "annualRevenues",
                  "location2",
                  "building2",
                  "location3",
                  "building3"]),
    // lines 87-94
    Cons(Scalars(["descriptionOfPrimaryOperations",
                  "agencyCustomerId2",
                  "priorCarrierForGeneralLiability",
                  "priorCarrierForAutomobile",
                  "priorCarrierForProperty",
                  "agencyCustomerId3",
                  "producersName",
                  "depositAmount"]),
    // lines 95-102
    Cons(Scalars(["minimumPremium",
                  "policyPremium",
                  "hasEquipmentFloaterSectionsAttached",
                  "hasElectronicDataProcSectionAttached",
                  "hasAccountsReceivableAttached",
                  "hasBoilerAndMachinery",
                  "hasBusinessAuto",
                  "hasPropertySectionsAttached"]),
    // lines 103-110
    Cons(Scalars(["hasTruckersMotorCarrierSectionsAttached",
                  "hasTransportationSectionsAttached",
                  "policyNumber",
                  "agencyContactName",
                  "agencyContactPhone",
                  "agencyEmailAddress",
                  "proposedEffectiveDate",
                  "billingPlanIsAgency"]),
    // lines 111-119
    Cons(Scalars(["field16f996340b2011f083dfd3961689d753",
                  "applicantIsNotForProfit",
                  "applicantContactName",
                  "applicantPhoneNumber",
                  "applicantEmailAddress",
                  "premisesState",
                  "hasFormalSafetyProgram",
                  "followsOsha",
                  "hasSafetyPosition"]),
    Nil))))))))))))))

  /** The `data` block is laid out run for run like the default mapping. */
  lemma AnvilLayoutIsDefault()
    ensures AnvilLayout == DefaultBlocks
    ensures Flatten(AnvilLayout) == DefaultFieldNames
  {
  }

  // ---------------------------------------------------------------------
  // The `data` block of a layout
  // ---------------------------------------------------------------------

  /** `parsed_data.get(parent, {})` as a dict: the empty dict when the key
      is missing, the object's entries when it holds an object, and None
      when it holds anything else (the following `.get` raises an
      AttributeError). */
  function NestedSource(parsed: map<string, Json>, parent: string): (source: Option<map<string, Json>>)
    ensures source.None? <==> parent in parsed && !parsed[parent].JObj?
    ensures parent !in parsed ==> source == Some(map[])
  {
    if parent !in parsed then Some(map[])
    else if parsed[parent].JObj? then Some(parsed[parent].fields)
    else None
  }

  /** The nested dict written for a group: every child, with the source's
      value for it or None when it has none. */
  function NestedValue(source: map<string, Json>, children: seq<string>): (value: Json)
    ensures value.JObj? && forall child :: child in value.fields <==> child in children
    ensures forall child :: child in children ==>
              child in value.fields && value.fields[child] == GetOr(source, child, JNull)
  {
    JObj(map child | child in children :: GetOr(source, child, JNull))
  }

  /** The entries one run writes, or None when reading it raises. A group
      without children is written as an empty dict literal and reads
      nothing. */
  function BlockEntries(block: Block, parsed: map<string, Json>): Option<map<string, Json>> {
    match block
    case Scalars(names) => Some(map name | name in names :: GetOr(parsed, name, JNull))
    case Group(parent, children) =>
      if children == [] then Some(map[parent := JObj(map[])])
      else
        match NestedSource(parsed, parent)
        case None => None
        case Some(source) => Some(map[parent := NestedValue(source, children)])
  }

  /** The dict literal: the runs' entries, a later entry replacing an
      earlier one of the same key; None when some run raises. */
  function AnvilData(layout: BlockList, parsed: map<string, Json>): Option<map<string, Json>> {
    match layout
    case Nil => Some(map[])
    case Cons(block, rest) =>
      match BlockEntries(block, parsed)
      case None => None
      case Some(entries) =>
        match AnvilData(rest, parsed)
        case None => None
        case Some(later) => Some(entries + later)
  }

  /** The parents of every group, with children or not. */
  function GroupNames(blocks: BlockList): set<string> {
    match blocks
    case Nil => {}
    case Cons(block, rest) => if block.Group? then {block.parent} + GroupNames(rest) else GroupNames(rest)
  }

  /** `key` is written by none of the runs. */
  predicate NotKeyOf(key: string, blocks: BlockList) {
    match blocks
    case Nil => true
    case Cons(Scalars(names), rest) => key !in names && NotKeyOf(key, rest)
    case Cons(Group(parent, _), rest) => key != parent && NotKeyOf(key, rest)
  }

  /** No group's key is written again later, and no scalar name is written
      again later as a group: every key keeps the kind of value its run
      gives it. */
  predicate Unshadowed(blocks: BlockList) {
    match blocks
    case Nil => true
    case Cons(Scalars(names), rest) =>
      (forall i :: 0 <= i < |names| ==> names[i] !in GroupNames(rest)) && Unshadowed(rest)
    case Cons(Group(parent, _), rest) => NotKeyOf(parent, rest) && Unshadowed(rest)
  }

  /** A key no run writes is neither a scalar name nor a group. */
  lemma {:induction false} NotKeyOfFacts(key: string, blocks: BlockList)
    requires NotKeyOf(key, blocks)
    ensures key !in ScalarSet(blocks) && key !in GroupNames(blocks)
    ensures GroupChildren(blocks, key) == []
  {
    match blocks {
      case Nil =>
      case Cons(block, rest) =>
        NotKeyOfFacts(key, rest);
    }
  }

  /** Reading the runs raises exactly when a group with children finds a
      non-object under its parent. */
  lemma {:induction false} AnvilDataDefined(layout: BlockList, parsed: map<string, Json>)
    ensures AnvilData(layout, parsed).Some? <==>
              forall parent :: parent in GroupParents(layout) ==> NestedSource(parsed, parent).Some?
  {
    match layout {
      case Nil =>
      case Cons(block, rest) =>
        AnvilDataDefined(rest, parsed);
        if block.Group? && block.children != [] {
          assert block.parent in GroupParents(layout);
        }
    }
  }

  /** The dict literal's keys are its scalar names and its groups,
      whatever the parsed data holds. */
  lemma {:induction false} AnvilDataKeys(layout: BlockList, parsed: map<string, Json>)
    requires AnvilData(layout, parsed).Some?
    ensures AnvilData(layout, parsed).value.Keys == ScalarSet(layout) + GroupNames(layout)
  {
    match layout {
      case Nil =>
      case Cons(block, rest) =>
        AnvilDataKeys(rest, parsed);
    }
  }

  /** In an unshadowed layout each scalar name holds the parsed value for
      it (None when absent) and each group with children holds its
      children's values read from the parent's object. */
  lemma {:induction false} AnvilDataValues(layout: BlockList, parsed: map<string, Json>)
    requires Unshadowed(layout) && AnvilData(layout, parsed).Some?
    ensures forall name :: name in ScalarSet(layout) ==>
              name in AnvilData(layout, parsed).value &&
              AnvilData(layout, parsed).value[name] == GetOr(parsed, name, JNull)
    ensures forall parent :: parent in GroupParents(layout) ==>
              parent in AnvilData(layout, parsed).value && NestedSource(parsed, parent).Some? &&
              AnvilData(layout, parsed).value[parent] ==
                NestedValue(NestedSource(parsed, parent).value, GroupChildren(layout, parent))
  {
    match layout {
      case Nil =>
      case Cons(block, rest) =>
        AnvilDataValues(rest, parsed);
        match block {
          case Scalars(names) => ScalarsStepValues(names, rest, parsed);
          case Group(parent, children) => GroupStepValues(parent, children, rest, parsed);
        }
    }
  }

  /** The step of `AnvilDataValues` for a scalar run in front. */
  lemma ScalarsStepValues(names: seq<string>, rest: BlockList, parsed: map<string, Json>)
    requires Unshadowed(Cons(Scalars(names), rest)) && AnvilData(Cons(Scalars(names), rest), parsed).Some?
    requires forall name :: name in ScalarSet(rest) ==>
               name in AnvilData(rest, parsed).value &&
               AnvilData(rest, parsed).value[name] == GetOr(parsed, name, JNull)
    requires forall parent :: parent in GroupParents(rest) ==>
               parent in AnvilData(rest, parsed).value && NestedSource(parsed, parent).Some? &&
               AnvilData(rest, parsed).value[parent] ==
                 NestedValue(NestedSource(parsed, parent).value, GroupChildren(rest, parent))
    ensures forall name :: name in ScalarSet(Cons(Scalars(names), rest)) ==>
              name in AnvilData(Cons(Scalars(names), rest), parsed).value &&
              AnvilData(Cons(Scalars(names), rest), parsed).value[name] == GetOr(parsed, name, JNull)
    ensures forall parent :: parent in GroupParents(Cons(Scalars(names), rest)) ==>
              parent in AnvilData(Cons(Scalars(names), rest), parsed).value && NestedSource(parsed, parent).Some? &&
              AnvilData(Cons(Scalars(names), rest), parsed).value[parent] ==
                NestedValue(NestedSource(parsed, parent).value, GroupChildren(Cons(Scalars(names), rest), parent))
  {
    var later := AnvilData(rest, parsed).value;
    AnvilDataKeys(rest, parsed);
    forall name | name in names && name !in ScalarSet(rest)
      ensures name !in later
    {
      var i :| 0 <= i < |names| && names[i] == name;
    }
  }

  /** The step of `AnvilDataValues` for a group in front. */
  lemma GroupStepValues(parent: string, children: seq<string>, rest: BlockList, parsed: map<string, Json>)
    requires Unshadowed(Cons(Group(parent, children), rest)) && AnvilData(Cons(Group(parent, children), rest), parsed).Some?
    requires forall name :: name in ScalarSet(rest) ==>
               name in AnvilData(rest, parsed).value &&
               AnvilData(rest, parsed).value[name] == GetOr(parsed, name, JNull)
    requires forall p :: p in GroupParents(rest) ==>
               p in AnvilData(rest, parsed).value && NestedSource(parsed, p).Some? &&
               AnvilData(rest, parsed).value[p] == NestedValue(NestedSource(parsed, p).value, GroupChildren(rest, p))
    ensures forall name :: name in ScalarSet(Cons(Group(parent, children), rest)) ==>
              name in AnvilData(Cons(Group(parent, children), rest), parsed).value &&
              AnvilData(Cons(Group(parent, children), rest), parsed).value[name] == GetOr(parsed, name, JNull)
    ensures forall p :: p in GroupParents(Cons(Group(parent, children), rest)) ==>
              p in AnvilData(Cons(Group(parent, children), rest), parsed).value && NestedSource(parsed, p).Some? &&
              AnvilData(Cons(Group(parent, children), rest), parsed).value[p] ==
                NestedValue(NestedSource(parsed, p).value, GroupChildren(Cons(Group(parent, children), rest), p))
  {
    AnvilDataKeys(rest, parsed);
    NotKeyOfFacts(parent, rest);
    assert children + [] == children;
  }

  /** For a well-formed, unshadowed layout without empty groups, the dict
      literal has exactly the keys of the structure grouped from the
      layout's names: a scalar entry holds the parsed value (None when
      absent), a nested entry the dict of its children's values. */
  lemma LayoutDataMatchesStructure(layout: BlockList, parsed: map<string, Json>)
    requires AllWellFormed(layout) && Unshadowed(layout) && GroupNames(layout) == GroupParents(layout)
    requires AnvilData(layout, parsed).Some?
    ensures AnvilData(layout, parsed).value.Keys == ExpectedStructure(Flatten(layout)).Keys
    ensures forall key :: key in ExpectedStructure(Flatten(layout)) ==>
              match ExpectedStructure(Flatten(layout))[key]
              case Scalar => AnvilData(layout, parsed).value[key] == GetOr(parsed, key, JNull)
              case Nested(children) =>
                NestedSource(parsed, key).Some? &&
                AnvilData(layout, parsed).value[key] == NestedValue(NestedSource(parsed, key).value, children)
  {
    BlocksGrouping(layout);
    AnvilDataKeys(layout, parsed);
    AnvilDataValues(layout, parsed);
  }

  // ---------------------------------------------------------------------
  // No key of the `data` block is written twice
  // ---------------------------------------------------------------------

  /** The runs from the first location on write no group. */
  lemma UnshadowedFromRun9()
    ensures Unshadowed(AnvilLayout.tail.tail.tail.tail.tail.tail.tail.tail.tail)
  {
  }

  lemma ApplicantNameNotInLocations()
    ensures NotKeyOf("applicantName1", AnvilLayout.tail.tail.tail.tail.tail.tail.tail.tail.tail)
  {
  }

  /** The group `applicantName1` is not written again. */
  lemma ApplicantNameNotLater()
    ensures NotKeyOf("applicantName1", AnvilLayout.tail.tail.tail)
  {
    ApplicantNameNotInLocations();
  }

  lemma WebsiteAddressNotInLocations()
    ensures NotKeyOf("websiteAddress", AnvilLayout.tail.tail.tail.tail.tail.tail.tail.tail.tail)
  {
  }

  /** The group `websiteAddress` is not written again. */
  lemma WebsiteAddressNotLater()
    ensures NotKeyOf("websiteAddress", AnvilLayout.tail.tail.tail.tail.tail)
  {
    WebsiteAddressNotInLocations();
  }

  lemma PremisesZipcodeNotInLocations()
    ensures NotKeyOf("premisesZipcode", AnvilLayout.tail.tail.tail.tail.tail.tail.tail.tail.tail)
  {
  }

  /** The group `premisesZipcode` is not written again. */
  lemma PremisesZipcodeNotLater()
    ensures NotKeyOf("premisesZipcode", AnvilLayout.tail.tail.tail.tail.tail.tail.tail)
  {
    PremisesZipcodeNotInLocations();
  }

  /** The group `county` is not written again. */
  lemma CountyNotInLocations()
    ensures NotKeyOf("county", AnvilLayout.tail.tail.tail.tail.tail.tail.tail.tail.tail)
  {
  }

  /** The names of run 0 are not written again as groups. */
  lemma Run0NotGroupLater()
    ensures forall i :: 0 <= i < |AnvilLayout.head.names| ==> AnvilLayout.head.names[i] !in GroupNames(AnvilLayout.tail)
  {
  }

  /** The names of run 1 are not written again as groups. */
  lemma Run1NotGroupLater()
    ensures forall i :: 0 <= i < |AnvilLayout.tail.head.names| ==> AnvilLayout.tail.head.names[i] !in GroupNames(AnvilLayout.tail.tail)
  {
  }

  /** The names of run 3 are not written again as groups. */
  lemma Run3NotGroupLater()
    ensures forall i :: 0 <= i < |AnvilLayout.tail.tail.tail.head.names| ==> AnvilLayout.tail.tail.tail.head.names[i] !in GroupNames(AnvilLayout.tail.tail.tail.tail)
  {
  }

  /** The names of run 5 are not written again as groups. */
  lemma Run5NotGroupLater()
    ensures forall i :: 0 <= i < |AnvilLayout.tail.tail.tail.tail.tail.head.names| ==> AnvilLayout.tail.tail.tail.tail.tail.head.names[i] !in GroupNames(AnvilLayout.tail.tail.tail.tail.tail.tail)
  {
  }

  /** The names of run 7 are not written again as groups. */
  lemma Run7NotGroupLater()
    ensures forall i :: 0 <= i < |AnvilLayout.tail.tail.tail.tail.tail.tail.tail.head.names| ==> AnvilLayout.tail.tail.tail.tail.tail.tail.tail.head.names[i] !in GroupNames(AnvilLayout.tail.tail.tail.tail.tail.tail.tail.tail)
  {
  }

  lemma UnshadowedFromRun8()
    ensures Unshadowed(AnvilLayout.tail.tail.tail.tail.tail.tail.tail.tail)
  {
    UnshadowedFromRun9();
    CountyNotInLocations();
  }

  lemma UnshadowedFromRun7()
    ensures Unshadowed(AnvilLayout.tail.tail.tail.tail.tail.tail.tail)
  {
    UnshadowedFromRun8();
    Run7NotGroupLater();
  }

  lemma UnshadowedFromRun6()
    ensures Unshadowed(AnvilLayout.tail.tail.tail.tail.tail.tail)
  {
    UnshadowedFromRun7();
    PremisesZipcodeNotLater();
  }

  lemma UnshadowedFromRun5()
    ensures Unshadowed(AnvilLayout.tail.tail.tail.tail.tail)
  {
    UnshadowedFromRun6();
    Run5NotGroupLater();
  }

  lemma UnshadowedFromRun4()
    ensures Unshadowed(AnvilLayout.tail.tail.tail.tail)
  {
    UnshadowedFromRun5();
    WebsiteAddressNotLater();
  }

  lemma UnshadowedFromRun3()
    ensures Unshadowed(AnvilLayout.tail.tail.tail)
  {
    UnshadowedFromRun4();
    Run3NotGroupLater();
  }

  lemma UnshadowedFromRun2()
    ensures Unshadowed(AnvilLayout.tail.tail)
  {
    UnshadowedFromRun3();
    ApplicantNameNotLater();
  }

  lemma UnshadowedFromRun1()
    ensures Unshadowed(AnvilLayout.tail)
  {
    UnshadowedFromRun2();
    Run1NotGroupLater();
  }

  /** No key of the `data` block is written twice with different kinds of
      value. */
  lemma AnvilLayoutUnshadowed()
    ensures Unshadowed(AnvilLayout)
  {
    UnshadowedFromRun1();
    Run0NotGroupLater();
  }

  // ---------------------------------------------------------------------
  // The `data` block under the default mapping
  // ---------------------------------------------------------------------

  /** Building the `data` block raises exactly when one of the four nested
      parents holds something other than an object. */
  lemma DefaultDataDefined(parsed: map<string, Json>)
    ensures AnvilData(AnvilLayout, parsed).Some? <==>
              NestedSource(parsed, "applicantName1").Some? && NestedSource(parsed, "websiteAddress").Some? &&
              NestedSource(parsed, "premisesZipcode").Some? && NestedSource(parsed, "county").Some?
  {
    AnvilDataDefined(AnvilLayout, parsed);
    AnvilLayoutIsDefault();
    DefaultGroupParents();
  }

  /** The `data` block has the keys of the structure grouped from the
      default mapping, whatever the reply holds; a scalar key holds the
      reply's value for it, or None when the reply lacks it. */
  lemma DefaultDataKeys(parsed: map<string, Json>)
    requires AnvilData(AnvilLayout, parsed).Some?
    ensures AnvilData(AnvilLayout, parsed).value.Keys == ExpectedStructure(DefaultFieldNames).Keys
    ensures forall key :: key in ExpectedStructure(DefaultFieldNames) && ExpectedStructure(DefaultFieldNames)[key].Scalar? ==>
              AnvilData(AnvilLayout, parsed).value[key] == GetOr(parsed, key, JNull)
  {
    AnvilLayoutIsDefault();
    DefaultBlocksWellFormed();
    AnvilLayoutUnshadowed();
    DefaultGroupNames();
    LayoutDataMatchesStructure(AnvilLayout, parsed);
  }

  /** The groups of the `data` block all have children. */
  lemma DefaultGroupNames()
    ensures GroupNames(AnvilLayout) == GroupParents(AnvilLayout)
  {
  }

  /** The four nested objects always have exactly their declared children,
      each holding the reply's value or None when the parent or the child
      is missing. */
  lemma DefaultNestedObjects(parsed: map<string, Json>)
    requires AnvilData(AnvilLayout, parsed).Some?
    ensures "applicantName1" in AnvilData(AnvilLayout, parsed).value && NestedSource(parsed, "applicantName1").Some? &&
            AnvilData(AnvilLayout, parsed).value["applicantName1"] ==
              NestedValue(NestedSource(parsed, "applicantName1").value, NameParts)
    ensures "websiteAddress" in AnvilData(AnvilLayout, parsed).value && NestedSource(parsed, "websiteAddress").Some? &&
            AnvilData(AnvilLayout, parsed).value["websiteAddress"] ==
              NestedValue(NestedSource(parsed, "websiteAddress").value, AddressParts)
    ensures "premisesZipcode" in AnvilData(AnvilLayout, parsed).value && NestedSource(parsed, "premisesZipcode").Some? &&
            AnvilData(AnvilLayout, parsed).value["premisesZipcode"] ==
              NestedValue(NestedSource(parsed, "premisesZipcode").value, AddressParts)
    ensures "county" in AnvilData(AnvilLayout, parsed).value && NestedSource(parsed, "county").Some? &&
            AnvilData(AnvilLayout, parsed).value["county"] ==
              NestedValue(NestedSource(parsed, "county").value, AddressParts)
  {
    AnvilLayoutIsDefault();
    AnvilLayoutUnshadowed();
    AnvilDataValues(AnvilLayout, parsed);
    DefaultGroupParents();
    DefaultApplicantNameChildren();
    DefaultWebsiteAddressChildren();
    DefaultPremisesZipcodeChildren();
    DefaultCountyChildren();
  }

  // ---------------------------------------------------------------------
  // generate_form
  // ---------------------------------------------------------------------

  /** The request for Anvil: a fixed title, font size and text colour
      around the `data` block. */
  function AnvilRequest(data: map<string, Json>): (request: Json)
    ensures request.JObj? && request.fields.Keys == {"title", "fontSize", "textColor", "data"}
    ensures request.fields["title"] == JStr("Acord 125")
    ensures request.fields["fontSize"] == JInt(10)
    ensures request.fields["textColor"] == JStr("#333333")
    ensures request.fields["data"] == JObj(data)
  {
    JObj(map["title" := JStr("Acord 125"), "fontSize" := JInt(10), "textColor" := JStr("#333333"),
             "data" := JObj(data)])
  }

  /** `data_for_anvil` built from the extracted fields, or None when
      building it raises: the reply is not an object, or a nested parent
      holds something other than an object. */
  function DataForAnvil(parsedData: Json): (request: Option<Json>)
    ensures request.Some? <==>
              parsedData.JObj? &&
              NestedSource(parsedData.fields, "applicantName1").Some? && NestedSource(parsedData.fields, "websiteAddress").Some? &&
              NestedSource(parsedData.fields, "premisesZipcode").Some? && NestedSource(parsedData.fields, "county").Some?
    ensures request.Some? ==>
              request.value.JObj? && "data" in request.value.fields && request.value.fields["data"].JObj? &&
              request.value.fields["data"].fields.Keys == ExpectedStructure(DefaultFieldNames).Keys
  {
    if !parsedData.JObj? then None
    else
      DefaultDataDefined(parsedData.fields);
      match AnvilData(AnvilLayout, parsedData.fields)
      case None => None
      case Some(data) =>
        DefaultDataKeys(parsedData.fields);
        Some(AnvilRequest(data))
  }

  /** A reply that passed validation under the default mapping never breaks
      the nested `.get` chains: the request for Anvil can always be built. */
  lemma ValidatedReplyFillsForm(result: Json)
    requires Conforms(ExpectedStructure(DefaultFieldNames), result)
    ensures result.JObj? && DataForAnvil(result).Some?
  {
    DefaultResultShape(result);
    DefaultDataDefined(result.fields);
  }

  /** The URL path of the saved form of a company. */
  function FormUrl(companyId: int): (url: string)
    ensures |url| > 23 && url[..19] == "/static/forms/form_" && url[|url| - 4..] == ".pdf"
  {
    "/static/forms/form_" + IntToString(companyId) + ".pdf"
  }

  /** Different companies get different files. */
  lemma FormUrlInjective(a: int, b: int)
    requires FormUrl(a) == FormUrl(b)
    ensures a == b
  {
    var ua, ub := FormUrl(a), FormUrl(b);
    assert ua[19..|ua| - 4] == IntToString(a);
    assert ub[19..|ub| - 4] == IntToString(b);
    IntToStringInjective(a, b);
  }

  /** How `generate_form` ends: it raises (no API key, no validated reply),
      or it hands the request to Anvil and returns the saved form's URL. */
  datatype Generation = Raised | Generated(anvilRequest: Json, url: string)

  /** `generate_form` up to the Anvil call, whose PDF is written to the
      returned path. The extraction uses the default mapping; a None
      extraction breaks the first `.get`. */
  method GenerateForm(
    companyId: int,
    memoryData: Memory,
    apiKey: Option<string>,
    callModel: ExtractionRequest -> Option<string>,
    parseJson: string -> Option<Json>)
    returns (outcome: Generation)
    ensures outcome.Generated? <==>
              apiKey.Some? && apiKey.value != "" &&
              Validated(RequestFor(memoryData, DefaultFieldMapping), callModel, parseJson).Some?
    ensures outcome.Generated? ==>
              outcome.url == FormUrl(companyId) &&
              Some(outcome.anvilRequest) ==
                DataForAnvil(Validated(RequestFor(memoryData, DefaultFieldMapping), callModel, parseJson).value)
  {
    var extraction := ParseMemoryData(memoryData, None, apiKey, callModel, parseJson);
    if extraction.MissingApiKey? || extraction.result.None? {
      return Raised;
    }
    var parsedData := extraction.result.value;
    assert FieldNames(DefaultFieldMapping) == DefaultFieldNames;
    ValidatedReplyFillsForm(parsedData);
    var dataForAnvil := DataForAnvil(parsedData);
    if dataForAnvil.None? {
      return Raised;
    }
    return Generated(dataForAnvil.value, FormUrl(companyId));
  }

  // ---------------------------------------------------------------------
  // update_form_logic
  // ---------------------------------------------------------------------

  /** The one rule of `update_form_logic`. */
  const DeductibleRule := EditRule("deductible", "deductible", "$5000")

  /** `update_form_logic`: sets the deductible (adding the key when absent)
      exactly when the lower-cased command mentions it, and touches nothing
      else. The dict is updated in place and returned; here the updated
      form is the result. */
  method UpdateFormLogic(formData: Form, updateCommand: string) returns (form: Form)
    ensures form == ApplyRules([DeductibleRule], formData, updateCommand)
    ensures Contains(Lower(updateCommand), "deductible") ==> form == formData["deductible" := JStr("$5000")]
    ensures !Contains(Lower(updateCommand), "deductible") ==> form == formData
  {
    form := formData;
    if Contains(Lower(updateCommand), "deductible") {
      form := form["deductible" := JStr("$5000")];
    }
    assert [DeductibleRule][..0] == [];
  }

  /** Applying the same command twice gives the form applying it once
      gives. */
  lemma UpdateFormLogicIdempotent(formData: Form, updateCommand: string)
    ensures ApplyRules([DeductibleRule], ApplyRules([DeductibleRule], formData, updateCommand), updateCommand) ==
            ApplyRules([DeductibleRule], formData, updateCommand)
  {
    ApplyRulesIdempotent([DeductibleRule], formData, updateCommand);
  }
}
