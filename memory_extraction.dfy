/** `parse_memory_data` as a whole: its default field mapping, what grouping
    makes of that mapping, and the pipeline from memory record to validated
    reply. */
module MemoryExtraction {
  import opened Wrappers
  import opened JsonValues
  import opened Text
  import opened CleanMemoryService
  import opened ParseMemoryService
  import opened FieldBlocks

  /** The children of the applicant-name parent. */
  const NameParts: seq<string> := ["firstName", "mi", "lastName"]

  /** The children of each address parent. */
  const AddressParts: seq<string> := ["street1", "street2", "city", "state", "zip", "country"]

  /** The default mapping's names, block by block in the order written:
      the scalar names as they stand, each group as the parent and the
      children it is written with (`parent.child` for each child). */
  const DefaultBlocks: BlockList :=
    // lines 28-34
    Cons(Scalars(["billingPlanForPolicyIsDirect",
                  "applicantIsLLC",
                  "dateOfApplication",
                  "agency",
                  "carrier",
                  "naicCode",
                  "companyPolicyOrProgramName"]),
    // lines 35-41
    Cons(Scalars(["programCode",
                  "agencyCustomerId",
                  "hasBusinessOwnersAttachedSections",
                  "hasCommercialGeneralLiabilitySectionsAttached",
                  "paymentPlan",
                  "methodOfPayment",
                  "audit1"]),
    // lines 42-44
    Cons(Group("applicantName1", ["firstName", "mi", "lastName"]),
    // lines 45-48
    Cons(Scalars(["glCode1",
                  "sic1",
                  "naics1",
                  "feinOrSocSec1"]),
    // lines 49-54
    Cons(Group("websiteAddress", ["street1", "street2", "city", "state", "zip", "country"]),
    // lines 55-56
    Cons(Scalars(["contactInformationPrimary1",
                  "contactInformationSecondary1"]),
    // lines 57-62
    Cons(Group("premisesZipcode", ["street1", "street2", "city", "state", "zip", "country"]),
    // lines 63-66
    Cons(Scalars(["agencyCustomerId1",
                  "location",
                  "numberOfFullTimeEmployees",
                  "building"]),
    // lines 67-72
    Cons(Group("county", ["street1", "street2", "city", "state", "zip", "country"]),
    // lines 73-80
    Cons(Scalars(["location1",
                  "partTimeEmployeesNumber",
                  "building1",
                  "annualRevenues",
                  "location2",
                  "building2",
                  "location3",
                  "building3"]),
    // lines 81-88
    Cons(Scalars(["descriptionOfPrimaryOperations",
                  "agencyCustomerId2",
                  "priorCarrierForGeneralLiability",
                  "priorCarrierForAutomobile",
                  "priorCarrierForProperty",
                  "agencyCustomerId3",
                  "producersName",
                  "depositAmount"]),
    // lines 89-96
    Cons(Scalars(["minimumPremium",
                  "policyPremium",
                  "hasEquipmentFloaterSectionsAttached",
                  "hasElectronicDataProcSectionAttached",
                  "hasAccountsReceivableAttached",
                  "hasBoilerAndMachinery",
                  "hasBusinessAuto",
                  "hasPropertySectionsAttached"]),
    // lines 97-104
    Cons(Scalars(["hasTruckersMotorCarrierSectionsAttached",
                  "hasTransportationSectionsAttached",
                  "policyNumber",
                  "agencyContactName",
                  "agencyContactPhone",
                  "agencyEmailAddress",
                  "proposedEffectiveDate",
                  "billingPlanIsAgency"]),
    // lines 105-113
    Cons(Scalars(["field16f996340b2011f083dfd3961689d753",
                  "applicantIsNotForProfit",
                  "applicantContactName",
                  "applicantPhoneNumber",
                  "applicantEmailAddress",
                  "premisesState",
                  "hasFormalSafetyProgram",
                  "followsOsha",
                  "hasSafetyPosition"]),
    Nil))))))))))))))

  /** The names of the default mapping (lines 27-114). */
  const DefaultFieldNames: seq<string> := Flatten(DefaultBlocks)

  /** The descriptions of the default mapping, in the same order. */
  const DefaultFieldDescriptions: seq<string> :=
    ["The billing plan for the policy (e.g. Agency, Direct)",
     "The business entity type (e.g. Corporation, LLC, Partnership)",
     "The date of application in YYYY-MM-DD format",
     "The agency name",
     "The insurance carrier name",
     "The NAIC code",
     "The company policy or program name",
     "The program code",
     "The agency customer ID",
     "Boolean indicating if business owners sections are attached",
     "Boolean indicating if commercial general liability sections are attached",
     "The payment plan",
     "The method of payment",
     "Audit information",
     "The first name of the main contact or applicant",
     "The middle initial of the main contact or applicant",
     "The last name of the main contact or applicant",
     "The GL code",
     "The SIC code",
     "The NAICS code",
     "The FEIN or SSN",
     "Street address line 1 for the website address",
     "Street address line 2 for the website address",
     "City for the website address",
     "State for the website address",
     "ZIP code for the website address",
     "Country for the website address",
     "The primary contact information type",
     "The secondary contact information type",
     "Street address line 1 for the premises",
     "Street address line 2 for the premises",
     "City for the premises",
     "State for the premises",
     "ZIP code for the premises",
     "Country for the premises",
     "The agency customer ID (secondary)",
     "The location number",
     "The number of full-time employees",
     "The building number",
     "Street address line 1 for the county",
     "Street address line 2 for the county",
     "City for the county",
     "State for the county",
     "ZIP code for the county",
     "Country for the county",
     "The location number (secondary)",
     "The number of part-time employees",
     "The building number (secondary)",
     "The annual revenues",
     "The location number (tertiary)",
     "The building number (tertiary)",
     "The location number (quaternary)",
     "The building number (quaternary)",
     "Description of primary operations",
     "The agency customer ID (tertiary)",
     "The prior carrier for general liability",
     "The prior carrier for automobile",
     "The prior carrier for property",
     "The agency customer ID (quaternary)",
     "The producer's name",
     "The deposit amount",
     "The minimum premium",
     "The policy premium",
     "Boolean indicating if equipment floater sections are attached",
     "Boolean indicating if electronic data processing sections are attached",
     "Boolean indicating if accounts receivable sections are attached",
     "Boolean indicating if boiler and machinery sections are attached",
     "Boolean indicating if business auto sections are attached",
     "Boolean indicating if property sections are attached",
     "Boolean indicating if truckers motor carrier sections are attached",
     "Boolean indicating if transportation sections are attached",
     "The policy number",
     "The agency contact name",
     "The agency contact phone",
     "The agency email address",
     "The proposed effective date",
     "Boolean indicating if billing plan is agency",
     "Direct field",
     "Boolean indicating if applicant is not for profit",
     "The applicant contact name",
     "The applicant phone number",
     "The applicant email address",
     "The premises state",
     "Boolean indicating if there is a formal safety program",
     "Boolean indicating if OSHA guidelines are followed",
     "Boolean indicating if there is a safety position"]

  /** The mapping used when the caller gives none. */
  const DefaultFieldMapping: FieldMapping := Zip(DefaultFieldNames, DefaultFieldDescriptions)

  // The names of the default mapping are checked for dots a few at a time.

  /** The longest name is checked through two halves of it. */
  lemma LongestNameDotFree()
    ensures '.' !in "hasCommercialGeneralLiabilitySectionsAttached"
  {
    assert "hasCommercialGeneralLiabilitySectionsAttached" == "hasCommercialGeneral" + "LiabilitySectionsAttached";
  }

  lemma PolicyNamesFrontDotFree()
    ensures DotFree(ScalarBlockAt(DefaultBlocks, 0)[0..3])
  {
  }

  lemma PolicyNamesBackDotFree()
    ensures DotFree(ScalarBlockAt(DefaultBlocks, 0)[3..7])
  {
  }

  lemma PolicyNamesDotFree()
    ensures DotFree(ScalarBlockAt(DefaultBlocks, 0))
  {
    PolicyNamesFrontDotFree();
    PolicyNamesBackDotFree();
    DotFreeJoin(ScalarBlockAt(DefaultBlocks, 0), 0, 3, 7);
  }

  lemma BillingNamesFrontDotFree()
    ensures DotFree(ScalarBlockAt(DefaultBlocks, 1)[0..3])
  {
  }

  lemma BillingNamesMiddleDotFree()
    ensures DotFree(ScalarBlockAt(DefaultBlocks, 1)[3..4])
  {
    LongestNameDotFree();
  }

  lemma BillingNamesBackDotFree()
    ensures DotFree(ScalarBlockAt(DefaultBlocks, 1)[4..7])
  {
  }

  lemma BillingNamesDotFree()
    ensures DotFree(ScalarBlockAt(DefaultBlocks, 1))
  {
    BillingNamesFrontDotFree();
    BillingNamesMiddleDotFree();
    BillingNamesBackDotFree();
    DotFreeJoin(ScalarBlockAt(DefaultBlocks, 1), 0, 3, 4);
    DotFreeJoin(ScalarBlockAt(DefaultBlocks, 1), 0, 4, 7);
  }

  lemma ClassificationNamesDotFree()
    ensures DotFree(ScalarBlockAt(DefaultBlocks, 3))
  {
  }

  lemma ContactNamesDotFree()
    ensures DotFree(ScalarBlockAt(DefaultBlocks, 5))
  {
  }

  lemma PremisesNamesDotFree()
    ensures DotFree(ScalarBlockAt(DefaultBlocks, 7))
  {
  }

  lemma LocationNamesDotFree()
    ensures DotFree(ScalarBlockAt(DefaultBlocks, 9))
  {
  }

  lemma PriorCarrierNamesFrontDotFree()
    ensures DotFree(ScalarBlockAt(DefaultBlocks, 10)[0..2])
  {
  }

  lemma PriorCarrierNamesMiddleDotFree()
    ensures DotFree(ScalarBlockAt(DefaultBlocks, 10)[2..4])
  {
  }

  lemma PriorCarrierNamesBackDotFree()
    ensures DotFree(ScalarBlockAt(DefaultBlocks, 10)[4..8])
  {
  }

  lemma PriorCarrierNamesDotFree()
    ensures DotFree(ScalarBlockAt(DefaultBlocks, 10))
  {
    PriorCarrierNamesFrontDotFree();
    PriorCarrierNamesMiddleDotFree();
    PriorCarrierNamesBackDotFree();
    DotFreeJoin(ScalarBlockAt(DefaultBlocks, 10), 0, 2, 4);
    DotFreeJoin(ScalarBlockAt(DefaultBlocks, 10), 0, 4, 8);
  }

  lemma SectionsNamesFrontDotFree()
    ensures DotFree(ScalarBlockAt(DefaultBlocks, 11)[0..3])
  {
  }

  lemma SectionsNamesMiddleDotFree()
    ensures DotFree(ScalarBlockAt(DefaultBlocks, 11)[3..5])
  {
  }

  lemma SectionsNamesBackDotFree()
    ensures DotFree(ScalarBlockAt(DefaultBlocks, 11)[5..8])
  {
  }

  lemma SectionsNamesDotFree()
    ensures DotFree(ScalarBlockAt(DefaultBlocks, 11))
  {
    SectionsNamesFrontDotFree();
    SectionsNamesMiddleDotFree();
    SectionsNamesBackDotFree();
    DotFreeJoin(ScalarBlockAt(DefaultBlocks, 11), 0, 3, 5);
    DotFreeJoin(ScalarBlockAt(DefaultBlocks, 11), 0, 5, 8);
  }

  lemma AgencyContactNamesFrontDotFree()
    ensures DotFree(ScalarBlockAt(DefaultBlocks, 12)[0..1])
  {
  }

  lemma AgencyContactNamesMiddleDotFree()
    ensures DotFree(ScalarBlockAt(DefaultBlocks, 12)[1..4])
  {
  }

  lemma AgencyContactNamesBackDotFree()
    ensures DotFree(ScalarBlockAt(DefaultBlocks, 12)[4..8])
  {
  }

  lemma AgencyContactNamesDotFree()
    ensures DotFree(ScalarBlockAt(DefaultBlocks, 12))
  {
    AgencyContactNamesFrontDotFree();
    AgencyContactNamesMiddleDotFree();
    AgencyContactNamesBackDotFree();
    DotFreeJoin(ScalarBlockAt(DefaultBlocks, 12), 0, 1, 4);
    DotFreeJoin(ScalarBlockAt(DefaultBlocks, 12), 0, 4, 8);
  }

  lemma ApplicantContactNamesFrontDotFree()
    ensures DotFree(ScalarBlockAt(DefaultBlocks, 13)[0..2])
  {
  }

  lemma ApplicantContactNamesMiddleDotFree()
    ensures DotFree(ScalarBlockAt(DefaultBlocks, 13)[2..5])
  {
  }

  lemma ApplicantContactNamesBackDotFree()
    ensures DotFree(ScalarBlockAt(DefaultBlocks, 13)[5..9])
  {
  }

  lemma ApplicantContactNamesDotFree()
    ensures DotFree(ScalarBlockAt(DefaultBlocks, 13))
  {
    ApplicantContactNamesFrontDotFree();
    ApplicantContactNamesMiddleDotFree();
    ApplicantContactNamesBackDotFree();
    DotFreeJoin(ScalarBlockAt(DefaultBlocks, 13), 0, 2, 5);
    DotFreeJoin(ScalarBlockAt(DefaultBlocks, 13), 0, 5, 9);
  }

  /** The blocks from the first location on are well formed. */
  lemma LaterBlocksWellFormed()
    ensures AllWellFormed(DefaultBlocks.tail.tail.tail.tail.tail.tail.tail.tail)
  {
    LocationNamesDotFree();
    PriorCarrierNamesDotFree();
    SectionsNamesDotFree();
    AgencyContactNamesDotFree();
    ApplicantContactNamesDotFree();
  }

  /** The blocks from the website address on are well formed. */
  lemma MiddleBlocksWellFormed()
    ensures AllWellFormed(DefaultBlocks.tail.tail.tail.tail)
  {
    ContactNamesDotFree();
    PremisesNamesDotFree();
    LaterBlocksWellFormed();
  }

  /** Every block of the default mapping is well formed. */
  lemma DefaultBlocksWellFormed()
    ensures AllWellFormed(DefaultBlocks)
  {
    PolicyNamesDotFree();
    BillingNamesDotFree();
    ClassificationNamesDotFree();
    MiddleBlocksWellFormed();
  }

  /** The groups of the default mapping, read off its blocks. */
  lemma DefaultGroupParents()
    ensures GroupParents(DefaultBlocks) == {"applicantName1", "websiteAddress", "premisesZipcode", "county"}
  {
  }

  lemma DefaultApplicantNameChildren()
    ensures GroupChildren(DefaultBlocks, "applicantName1") == NameParts
  {
    assert NameParts + [] == NameParts;
  }

  lemma DefaultWebsiteAddressChildren()
    ensures GroupChildren(DefaultBlocks, "websiteAddress") == AddressParts
  {
    assert AddressParts + [] == AddressParts;
  }

  lemma DefaultPremisesZipcodeChildren()
    ensures GroupChildren(DefaultBlocks, "premisesZipcode") == AddressParts
  {
    assert AddressParts + [] == AddressParts;
  }

  lemma DefaultCountyChildren()
    ensures GroupChildren(DefaultBlocks, "county") == AddressParts
  {
    assert AddressParts + [] == AddressParts;
  }

  /** Under the default mapping, grouping yields exactly four parents: the
      applicant name with its three parts and three addresses with their
      six parts each. */
  lemma DefaultGrouping()
    ensures Parents(DefaultFieldNames) == {"applicantName1", "websiteAddress", "premisesZipcode", "county"}
    ensures ChildrenOf(DefaultFieldNames, "applicantName1") == NameParts
    ensures ChildrenOf(DefaultFieldNames, "websiteAddress") == AddressParts
    ensures ChildrenOf(DefaultFieldNames, "premisesZipcode") == AddressParts
    ensures ChildrenOf(DefaultFieldNames, "county") == AddressParts
  {
    DefaultBlocksWellFormed();
    BlocksGrouping(DefaultBlocks);
    DefaultGroupParents();
    DefaultApplicantNameChildren();
    DefaultWebsiteAddressChildren();
    DefaultPremisesZipcodeChildren();
    DefaultCountyChildren();
  }

  // ---------------------------------------------------------------------
  // The pipeline
  // ---------------------------------------------------------------------

  /** What goes into the prompt: the sanitized record, the numbered field
      list and the expected output structure. */
  datatype ExtractionRequest = ExtractionRequest(
    data: Memory,
    fieldDescriptionText: string,
    outputStructure: map<string, Shape>)

  /** How `parse_memory_data` ends: the `ValueError` raised when no API key
      is set, or a request was sent and the validated reply (None when the
      call, the parse or the validation failed) came back. */
  datatype Extraction = MissingApiKey | Sent(request: ExtractionRequest, result: Option<Json>)

  /** The mapping in force: the caller's, or the default one when the
      caller gives none (an empty mapping is kept as it is). */
  function MappingInForce(fieldMapping: Option<FieldMapping>): (mapping: FieldMapping)
    ensures fieldMapping.Some? ==> mapping == fieldMapping.value
    ensures fieldMapping.None? ==> mapping == DefaultFieldMapping
  {
    fieldMapping.GetOr(DefaultFieldMapping)
  }

  /** The request built for `mapping`: the sanitized record, the numbered
      field list joined by newlines and the grouped structure. */
  function RequestFor(memoryData: Memory, mapping: FieldMapping): (request: ExtractionRequest)
    ensures "phone_events" !in request.data
    ensures Lookup(JObj(request.data), CompanyMdPath) == None
    ensures Lookup(JObj(request.data), CompanyFactsPath) == None
  {
    RemovedPathsAbsent(memoryData);
    ExtractionRequest(Sanitize(memoryData), Join(DescriptionLines(mapping), "\n"), ExpectedStructure(FieldNames(mapping)))
  }

  /** What comes back once the request is sent: the reply's payload parsed
      and validated, or None when the call raises, the payload is not JSON
      or the validation fails. */
  function Validated(request: ExtractionRequest, callModel: ExtractionRequest -> Option<string>,
                     parseJson: string -> Option<Json>): (validated: Option<Json>)
    ensures validated.Some? ==> Conforms(request.outputStructure, validated.value)
  {
    match callModel(request)
    case None => None
    case Some(content) =>
      match parseJson(ExtractJsonPayload(content))
      case None => None
      case Some(result) => if Conforms(request.outputStructure, result) then Some(result) else None
  }

  /** `parse_memory_data`. The environment's API key, the model call and
      `json.loads` are parameters: `callModel` gives the reply text, or None
      when the call raises; `parseJson` gives the parsed value, or None
      when the text is not JSON. */
  method ParseMemoryData(
    memoryData: Memory,
    fieldMapping: Option<FieldMapping>,
    apiKey: Option<string>,
    callModel: ExtractionRequest -> Option<string>,
    parseJson: string -> Option<Json>)
    returns (outcome: Extraction)
    ensures outcome.MissingApiKey? <==> apiKey.None? || apiKey.value == ""
    ensures outcome.Sent? ==> outcome.request == RequestFor(memoryData, MappingInForce(fieldMapping))
    ensures outcome.Sent? ==> outcome.result == Validated(outcome.request, callModel, parseJson)
    ensures outcome.Sent? ==>
              "phone_events" !in outcome.request.data &&
              Lookup(JObj(outcome.request.data), CompanyMdPath) == None &&
              Lookup(JObj(outcome.request.data), CompanyFactsPath) == None
    ensures outcome.Sent? && outcome.result.Some? && outcome.result.value.JObj? ==>
              var mapping := MappingInForce(fieldMapping);
              forall i :: 0 <= i < |mapping| ==> Lookup(outcome.result.value, FieldPath(mapping[i].0)).Some?
  {
    var mapping := if fieldMapping.None? then DefaultFieldMapping else fieldMapping.value;
    var cleanedData := CleanMemory(memoryData);
    var fieldDescriptionText := FieldDescriptionText(mapping);
    var outputStructure := GroupFields(mapping);
    var request := ExtractionRequest(cleanedData, fieldDescriptionText, outputStructure);
    if apiKey.None? || apiKey.value == "" {
      return MissingApiKey;
    }
    var reply := callModel(request);
    if reply.None? {
      return Sent(request, None);
    }
    var jsonContent := ExtractJsonPayload(reply.value);
    var parsed := parseJson(jsonContent);
    if parsed.None? {
      return Sent(request, None);
    }
    var validated := ValidateStructure(outputStructure, parsed.value);
    if validated.Some? && validated.value.JObj? {
      ValidatedResultHasEveryField(mapping, validated.value);
    }
    return Sent(request, validated);
  }

  /** `parent` is an object of `result` holding every one of `children`. */
  predicate HasObjectWith(result: Json, parent: string, children: seq<string>) {
    result.JObj? && parent in result.fields && result.fields[parent].JObj? &&
    forall child :: child in children ==> child in result.fields[parent].fields
  }

  /** Under the default mapping a reply that passed validation is an object
      holding the four nested parents as objects, each with all of its
      children. */
  lemma DefaultResultShape(result: Json)
    requires Conforms(ExpectedStructure(DefaultFieldNames), result)
    ensures HasObjectWith(result, "applicantName1", NameParts)
    ensures HasObjectWith(result, "websiteAddress", AddressParts)
    ensures HasObjectWith(result, "premisesZipcode", AddressParts)
    ensures HasObjectWith(result, "county", AddressParts)
  {
    DefaultGrouping();
    ConformingNestedEntry(DefaultFieldNames, "applicantName1", result);
    ConformingNestedEntry(DefaultFieldNames, "websiteAddress", result);
    ConformingNestedEntry(DefaultFieldNames, "premisesZipcode", result);
    ConformingNestedEntry(DefaultFieldNames, "county", result);
  }
}
