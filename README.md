# Form filling back end of harper_backend, modelled in Dafny

The back end turns a company's stored memory (a JSON document) into values for
an ACORD 125 insurance form. It works in four steps:

- `clean_memory` drops three sensitive paths from the memory.
- `parse_memory_data` asks a language model for the form fields. It sends the
  cleaned memory, a numbered list of field descriptions and the expected output
  structure. That structure is grouped from dotted field names such as
  `websiteAddress.city`. The service then pulls the JSON out of a fenced reply
  and checks that the parsed result has the expected structure.
- `generate_form` builds the request for the PDF service from the validated
  reply and names the PDF file after the company.
- The forms router keeps, for each company, the current form and an undo
  history. It updates the form with substring-triggered edit commands and
  reverts to the last saved version on undo.

The project is written in the source's own form:

- The three-step deletion, the grouping loops, the validation loop, the
  description loop and the command edits are methods, their loops carrying
  invariants. Each is proved equal to a specification function.
- The store of form states is a class whose endpoint methods update a map
  field.
- The pure parts are functions, each with lemmas giving its meaning.

Modules:

- `Wrappers` holds `Option`.
- `JsonValues` holds JSON values, path lookup and path deletion.
- `Text` holds the Python string operations used: `in`, `split`, `join`,
  `strip`, `lower` and `str` of an integer.
- `CleanMemoryService` models `services/clean_memory_service.py`.
- `ParseMemoryService` models the grouping, validation and fence stripping of
  `services/parse_memory_service.py`.
- `FieldBlocks` describes a field list as scalar runs and dotted groups.
- `MemoryExtraction` holds the default field mapping and `parse_memory_data`
  itself.
- `FormEdits` holds the substring edit rules shared by both update functions.
- `FormGeneration` models `logic/form_generation.py`.
- `FormsRouter` models `routers/forms.py`.

Several things are parameters rather than code:

- the language-model call (`callModel`, which gives `None` when the client
  raises);
- `json.loads` (`parseJson`, which gives `None` on a decoding error);
- the `ANTHROPIC_API_KEY` environment variable (`apiKey`).

Every result is stated for all values of these parameters.

## Model

| member | source | states |
|---|---|---|
| JsonValues.DeletePath | services/clean_memory_service.py:21-34 | deleting along a path gives an object exactly when it starts from one |
| JsonValues.LookupAfterDelete | services/clean_memory_service.py:21-34 | after deleting path d, every path under d is gone, every path unrelated to d reads as before, and every proper prefix of d is still present exactly when it was |
| CleanMemoryService.Sanitize | services/clean_memory_service.py:12-36 | the cleaned record loses only `phone_events` at the top level, and every top-level entry other than `company` keeps its value |
| CleanMemoryService.CleanMemory | services/clean_memory_service.py:12-36 | the three guarded `del`s on a copy give exactly the memory with `phone_events`, `company.md` and `company.json.facts` deleted |
| CleanMemoryService.DeleteTwoSteps | services/clean_memory_service.py:25-27 | the guarded `del cleaned["company"]["md"]` is the path deletion of `company.md` |
| CleanMemoryService.DeleteThreeSteps | services/clean_memory_service.py:29-34 | the guarded delete through `company_section["json"]` is the path deletion of `company.json.facts` |
| CleanMemoryService.SanitizeLookup | services/clean_memory_service.py:12-36 | every path under a removed one is absent after cleaning, every other path not on the way to one reads as before, and every ancestor of a removed path is still present exactly when it was, and is still an object exactly when it was |
| CleanMemoryService.RemovedPathsAbsent | services/clean_memory_service.py:3-6 | the cleaned memory has no `phone_events`, no `company.md` and no `company.json.facts`, whatever the input |
| CleanMemoryService.SanitizeNoOp | services/clean_memory_service.py:21-34 | memory without the three paths comes back unchanged |
| CleanMemoryService.SanitizeIdempotent | services/clean_memory_service.py:12-36 | cleaning twice is cleaning once |
| Text.IndexFrom | services/parse_memory_service.py:201 | the search returns an occurrence at or after the start, and no occurrence lies between the start and the result, or after the start at all when there is none |
| Text.IndexOfIsFirst | services/parse_memory_service.py:201 | the first occurrence is the one found |
| Text.NoOccurrenceBeforeFirst | services/parse_memory_service.py:202 | the text before the first occurrence does not contain the pattern |
| Text.Split | services/parse_memory_service.py:202-204 | `str.split(sep)`: at least one piece, two or more exactly when the separator occurs, and no piece contains it |
| Text.JoinSplit | services/parse_memory_service.py:202-204 | joining the pieces of a split with the separator gives back the text |
| Text.SplitJoin | services/parse_memory_service.py:127 | splitting lines joined by a character that none of them contains gives back the lines |
| Text.ContainsCharIff | services/parse_memory_service.py:135 | `"." in key` holds exactly when the character occurs in the key |
| Text.NotContainsChar | services/parse_memory_service.py:135 | a text without the character does not contain it as a substring |
| Text.FirstCharIndex | services/parse_memory_service.py:136 | the first occurrence of a character is at that character and none comes before it |
| Text.StripLeading | services/parse_memory_service.py:202-206 | the result is a suffix of the input, the part dropped is all whitespace, and the result does not start with whitespace |
| Text.StripTrailing | services/parse_memory_service.py:202-206 | the result is a prefix of the input, the part dropped is all whitespace, and the result does not end with whitespace |
| Text.Strip | services/parse_memory_service.py:202-206 | `str.strip()`: the result neither starts nor ends with whitespace |
| Text.StripIsSlice | services/parse_memory_service.py:202-206 | the stripped text is a slice of the input with only whitespace cut off on each side |
| Text.StripKeepsAbsence | services/parse_memory_service.py:202-206 | stripping a text that holds no fence cannot create one |
| Text.LowerIdempotent | routers/forms.py:141 | lower-casing twice is lower-casing once |
| Text.LowerHasNoCapital | routers/forms.py:141 | the lower-cased command holds no ASCII capital |
| Text.CapitalNeverInLower | routers/forms.py:141-147 | a phrase holding an ASCII capital is never found in a lower-cased command |
| Text.DigitChar | services/parse_memory_service.py:125 | a decimal digit's character is a digit with that value |
| Text.NatToString | services/parse_memory_service.py:125 | a natural number prints as a non-empty string of digits without a leading zero |
| Text.DecimalValueOfNatToString | services/parse_memory_service.py:125 | reading the printed digits back gives the number |
| Text.IntToString | logic/form_generation.py:127 | an integer prints as a non-empty string that starts with `-` exactly when the integer is negative |
| Text.IntToStringInjective | logic/form_generation.py:127 | different integers print differently |
| ParseMemoryService.DescriptionLines | services/parse_memory_service.py:123-125 | one description line per mapping entry |
| ParseMemoryService.FieldDescriptionText | services/parse_memory_service.py:123-127 | the loop with `enumerate` and the `"\n".join` give the numbered lines joined by newlines |
| ParseMemoryService.DescriptionLineNumber | services/parse_memory_service.py:125 | line i begins with the decimal number i+1 before its `". "` |
| ParseMemoryService.DescriptionLineHasNoNewline | services/parse_memory_service.py:125 | a line built from a key and description without newlines has no newline |
| ParseMemoryService.DescriptionTextLines | services/parse_memory_service.py:127 | the prompt's description block splits back into exactly the numbered lines |
| ParseMemoryService.FieldNamesIff | services/parse_memory_service.py:134 | a name is iterated by `for key in field_mapping` exactly when the mapping has an entry with that key |
| ParseMemoryService.SplitFirstDotSpec | services/parse_memory_service.py:135-136 | `key.split(".", 1)` is defined exactly when the key has a dot, and then the parent has no dot and parent + "." + child is the key |
| ParseMemoryService.SplitsAt | services/parse_memory_service.py:136 | a key built as parent.child with a dot-free parent splits into that parent and child |
| ParseMemoryService.ScalarNamesIff | services/parse_memory_service.py:140-141 | a key is a scalar of the structure exactly when it is in the mapping and has no dot |
| ParseMemoryService.ParentsIff | services/parse_memory_service.py:135-139 | a name is a parent exactly when some key splits with that parent |
| ParseMemoryService.ChildrenOfIff | services/parse_memory_service.py:137-139 | a child is listed under a parent exactly when some key splits into that parent and child |
| ParseMemoryService.ChildrenEmptyIff | services/parse_memory_service.py:137-139 | a parent has no children exactly when it is not a parent |
| ParseMemoryService.GroupingAppend | services/parse_memory_service.py:134-141 | grouping a concatenation is grouping each part: scalars and parents unite, and children lists concatenate in order |
| ParseMemoryService.GroupingStepScalar | services/parse_memory_service.py:140-141 | one loop step on a dot-free key adds it as a scalar and leaves the nested fields alone |
| ParseMemoryService.GroupingStepNested | services/parse_memory_service.py:135-139 | one loop step on a dotted key creates the parent's list when it is missing and appends the child |
| ParseMemoryService.GroupFields | services/parse_memory_service.py:129-146 | the two loops build exactly the expected structure of the mapping's keys |
| ParseMemoryService.ExpectedStructureParts | services/parse_memory_service.py:143-146 | the structure is the scalar entries overwritten by one nested entry per parent |
| ParseMemoryService.WriteNestedEntries | services/parse_memory_service.py:143-146 | the second loop writes one nested entry per parent over what the first loop wrote |
| ParseMemoryService.ValidateStructure | services/parse_memory_service.py:211-227 | the validation loop returns the result exactly when it conforms to the structure, and `None` otherwise |
| ParseMemoryService.ConformsObjectIff | services/parse_memory_service.py:211-225 | for an object result, the checks pass exactly when every expected key is present and every nested entry is an object holding all its children |
| ParseMemoryService.NonContainerFails | services/parse_memory_service.py:211-231 | a null, boolean or number result makes `key in result` raise, which ends in `None` |
| ParseMemoryService.StringResultConformsIff | services/parse_memory_service.py:212-215 | a string result passes an all-scalar structure exactly when every key occurs in it as a substring |
| ParseMemoryService.ValidatedResultHasEveryField | services/parse_memory_service.py:211-225 | a conforming object result holds every field of the mapping, at its dotted path for nested fields |
| ParseMemoryService.ConformingNestedEntry | services/parse_memory_service.py:217-225 | in a conforming result, a parent holds an object that has every one of its children |
| ParseMemoryService.NestedEntryRequiresObject | services/parse_memory_service.py:217-220 | a structure with a nested entry only accepts an object result |
| ParseMemoryService.ExtraKeysAccepted | services/parse_memory_service.py:211-227 | validation only checks for keys, so extra keys in the result are accepted |
| ParseMemoryService.ScalarStructureAcceptsKeyList | services/parse_memory_service.py:212-215 | an all-scalar structure also accepts a JSON array listing the keys, as Python's `in` on a list does |
| ParseMemoryService.SplitAtFirst | services/parse_memory_service.py:202-204 | splitting text whose first separator follows a separator-free prefix gives that prefix as the first piece |
| ParseMemoryService.ExtractJsonPayload | services/parse_memory_service.py:200-206 | whatever the reply, the extracted text holds no fence and has no whitespace at either end |
| ParseMemoryService.ExtractUnfenced | services/parse_memory_service.py:205-206 | a reply without a fence is stripped as a whole |
| ParseMemoryService.PlainFenceSecondPiece | services/parse_memory_service.py:204 | the second piece of a split on the plain fence is the text between the first two fences |
| ParseMemoryService.ExtractPlainFence | services/parse_memory_service.py:203-204 | a reply with a plain fence and no JSON fence yields the stripped text between its first two fences |
| ParseMemoryService.NoJsonFenceBeforeClosing | services/parse_memory_service.py:202 | within a fenced body followed by its closing fence, no JSON fence starts before the closing one |
| ParseMemoryService.FirstPieceIsBody | services/parse_memory_service.py:202 | the first piece of a split on the fence is the body before the closing fence |
| ParseMemoryService.JsonFenceBody | services/parse_memory_service.py:202 | the body before the closing fence is what the nested splits keep |
| ParseMemoryService.ExtractJsonFence | services/parse_memory_service.py:201-202 | a reply with a JSON fence yields the stripped text between that fence and the next closing fence |
| FieldBlocks.DottedSplits | services/parse_memory_service.py:134-139 | splitting a group's key `parent.child` at its first dot gives back that parent and child |
| FieldBlocks.ZipInverse | services/parse_memory_service.py:124 | pairing names with descriptions is undone by taking the keys and the descriptions, and pairing a mapping's own keys and descriptions gives the mapping back |
| FieldBlocks.DotFreeGrouping | services/parse_memory_service.py:140-141 | dot-free keys are all scalars, with no parents and no children |
| FieldBlocks.DottedGrouping | services/parse_memory_service.py:135-139 | one group's keys give one parent, when it has children, with exactly those children and no scalars |
| FieldBlocks.ScalarsThenGrouping | services/parse_memory_service.py:134-141 | scalar keys placed before other keys add themselves as scalars and change nothing else |
| FieldBlocks.GroupThenGrouping | services/parse_memory_service.py:134-139 | a group placed before other keys adds its parent and puts its children first |
| FieldBlocks.BlocksGrouping | services/parse_memory_service.py:129-146 | for a field list built from scalar runs and groups, the grouping yields the runs' names as scalars, the groups as parents and each group's children |
| FieldBlocks.DotFreeJoin | services/parse_memory_service.py:27-114 | two adjacent dot-free stretches of keys form a dot-free stretch |
| MemoryExtraction.DefaultBlocksWellFormed | services/parse_memory_service.py:27-114 | the default mapping is scalar runs without dots and groups with dot-free parents |
| MemoryExtraction.DefaultGroupParents | services/parse_memory_service.py:42-72 | the default mapping has the four groups `applicantName1`, `websiteAddress`, `premisesZipcode` and `county` |
| MemoryExtraction.DefaultApplicantNameChildren | services/parse_memory_service.py:42-44 | `applicantName1` groups `firstName`, `mi` and `lastName` |
| MemoryExtraction.DefaultWebsiteAddressChildren | services/parse_memory_service.py:49-54 | `websiteAddress` groups the six address parts |
| MemoryExtraction.DefaultPremisesZipcodeChildren | services/parse_memory_service.py:57-62 | `premisesZipcode` groups the six address parts |
| MemoryExtraction.DefaultCountyChildren | services/parse_memory_service.py:67-72 | `county` groups the six address parts |
| MemoryExtraction.DefaultGrouping | services/parse_memory_service.py:129-146 | grouping the default keys gives the four parents with their children in mapping order |
| MemoryExtraction.RequestFor | services/parse_memory_service.py:116-146 | the data sent to the model has none of the three cleaned paths |
| MemoryExtraction.Validated | services/parse_memory_service.py:198-231 | whatever the model answers, a result is returned only when it conforms to the expected structure |
| MemoryExtraction.ParseMemoryData | services/parse_memory_service.py:13-231 | an error is raised exactly when the key is missing or empty; otherwise the request holds the cleaned memory, the descriptions and the structure, the result is the validated reply, and an object result holds every field of the mapping in force |
| MemoryExtraction.DefaultResultShape | services/parse_memory_service.py:211-225 | a reply validated against the default mapping holds an object with all its parts under each of the four groups |
| FormEdits.ApplyRulesOverride | routers/forms.py:141-152 | applying the edit rules writes the fired rules' values over the form, and no key is removed |
| FormEdits.FiredUpdatesKeys | routers/forms.py:142-147 | a key is written exactly when a rule that names it fires |
| FormEdits.FiredUpdatesValue | routers/forms.py:142-147 | with distinct keys, a fired rule's key holds that rule's value |
| FormEdits.ApplyRulesIdempotent | routers/forms.py:136-152 | applying a command twice gives what applying it once gives |
| FormEdits.NoRuleFires | routers/forms.py:148-152 | a command that mentions no phrase leaves the form as it is |
| FormEdits.UnwrittenKeyKept | routers/forms.py:141-152 | a key that no fired rule names keeps its entry, present or absent |
| FormEdits.FiredKeyWritten | routers/forms.py:142-147 | a fired rule's key holds its value when no other rule names that key |
| FormEdits.ApplyRulesPrefix | routers/forms.py:142-147 | the rules up to rule i are rule i applied after the ones before it |
| FormEdits.FiresIgnoresCase | logic/form_generation.py:144 | a command fires a rule exactly when its lower-cased form does, so matching ignores ASCII case |
| FormEdits.CapitalPhraseNeverFires | routers/forms.py:141-147 | a rule whose phrase holds an ASCII capital never fires |
| FormGeneration.AnvilLayoutIsDefault | logic/form_generation.py:25-120 | the `data` block lists the default mapping's fields in the same order and with the same groups |
| FormGeneration.NestedSource | logic/form_generation.py:41-77 | `parsed_data.get(parent, {})` fails with `AttributeError` exactly when the parent is present and not an object, and gives the empty dict when the parent is missing |
| FormGeneration.NestedValue | logic/form_generation.py:40-78 | a group's value is an object with exactly the group's children as keys, each holding the reply's value or None when the reply lacks it |
| FormGeneration.NotKeyOfFacts | logic/form_generation.py:25-120 | a key that no later entry of the `data` literal writes is neither a later scalar nor a later group |
| FormGeneration.AnvilDataDefined | logic/form_generation.py:25-120 | the `data` block is built without raising exactly when every group's parent is absent or an object |
| FormGeneration.AnvilDataKeys | logic/form_generation.py:25-120 | the `data` block's keys are the layout's scalar names and group names |
| FormGeneration.AnvilDataValues | logic/form_generation.py:25-120 | when no later entry overwrites an earlier one, each scalar holds the reply's value or None, and each group holds its children read from the reply's object |
| FormGeneration.LayoutDataMatchesStructure | logic/form_generation.py:25-120 | for a well-formed layout, the `data` block has the keys of the structure grouped from the same field list, and each value is read from the reply according to its shape |
| FormGeneration.AnvilLayoutUnshadowed | logic/form_generation.py:25-120 | no entry of the `data` literal is overwritten by a later one |
| FormGeneration.DefaultDataDefined | logic/form_generation.py:40-78 | the default `data` block is built exactly when the four group entries are absent or objects |
| FormGeneration.DefaultDataKeys | logic/form_generation.py:25-120 | the `data` block has the keys of the structure grouped from the default mapping, and each scalar holds the reply's value or None |
| FormGeneration.DefaultGroupNames | logic/form_generation.py:40-78 | the layout's groups are the four groups of the default mapping |
| FormGeneration.DefaultNestedObjects | logic/form_generation.py:40-78 | the four groups hold their name or address parts read from the reply |
| FormGeneration.AnvilRequest | logic/form_generation.py:21-25 | the PDF request has title "Acord 125", font size 10, colour "#333333" and the `data` block, and nothing else |
| FormGeneration.DataForAnvil | logic/form_generation.py:18-121 | `data_for_anvil` is built exactly when the reply is an object whose four group entries are absent or objects, and then its `data` block has the keys of the structure grouped from the default mapping |
| FormGeneration.ValidatedReplyFillsForm | logic/form_generation.py:18-120 | a reply that passed validation against the default mapping is an object from which the `data` block is built without raising |
| FormGeneration.FormUrl | logic/form_generation.py:127-138 | the URL is `/static/forms/form_`, then the id, then `.pdf` |
| FormGeneration.FormUrlInjective | logic/form_generation.py:127-138 | different companies get different PDF paths |
| FormGeneration.GenerateForm | logic/form_generation.py:11-138 | the form is generated exactly when the API key is set and the model's reply validates; the PDF request is then built from that reply, and the URL is the company's PDF path |
| FormGeneration.UpdateFormLogic | logic/form_generation.py:140-146 | the form gets `deductible = "$5000"` exactly when the lower-cased command mentions "deductible", and is otherwise unchanged |
| FormGeneration.UpdateFormLogicIdempotent | logic/form_generation.py:140-146 | applying the same update twice gives what applying it once gives |
| FormsRouter.PyStr | routers/forms.py:123 | `str()` is modelled for null, booleans, integers and strings, and for nothing else |
| FormsRouter.CompanySection | routers/forms.py:118 | `memory_data.get("company", {})` followed by `.get` fails exactly when `company` is present and not an object |
| FormsRouter.GenerateFormDict | routers/forms.py:114-125 | the initial form fails exactly when `company` is present and not an object, or its revenue is a list or dict; otherwise it has exactly the five keys, with the fixed agency and an empty deductible |
| FormsRouter.GenerateFormDictFields | routers/forms.py:114-125 | the initial form has exactly the five keys: the fixed agency, the company name and email read with an empty default, the revenue as a string, and an empty deductible |
| FormsRouter.GenerateFormDictExample | routers/forms.py:114-125 | a memory with name, email and an integer revenue gives the expected five-field form |
| FormsRouter.GeneratePdfAndSave | routers/forms.py:127-134 | the stub returns the company's PDF path |
| FormsRouter.ApplyCommandLogic | routers/forms.py:136-152 | the sequential `if`s on the lower-cased command apply the three edit rules in order |
| FormsRouter.CommandLogicEffect | routers/forms.py:141-152 | each of `deductible`, `applicantName` and `annualRevenues` gets its value exactly when its phrase occurs, and every other key is kept |
| FormsRouter.UndoCommandChangesNothing | routers/forms.py:148-150 | the command "undo" leaves the form unchanged |
| FormsRouter.GenerateStep | routers/forms.py:40-42 | generating sets the current form and empties the history |
| FormsRouter.UpdateStep | routers/forms.py:54-66 | an update without a current form fails with "No form state for this company." and changes nothing; otherwise it pushes the old form and makes the edited form current |
| FormsRouter.UndoStep | routers/forms.py:73-79 | an undo with an empty history fails with "No older version to revert to." and changes nothing; otherwise it pops the last version and makes it current |
| FormsRouter.FormStore.constructor | routers/forms.py:18-21 | the store starts empty |
| FormsRouter.FormStore.GenerateFormEndpoint | routers/forms.py:32-46 | when the initial form can be built, the company's entry becomes that form with no history and the PDF path is returned; otherwise the endpoint fails and nothing changes |
| FormsRouter.FormStore.UpdateFormEndpoint | routers/forms.py:48-66 | the company's entry, created fresh when missing, takes one update step, and the reply is that step's reply |
| FormsRouter.FormStore.UndoFormEndpoint | routers/forms.py:68-79 | the company's entry, created fresh when missing, takes one undo step, and the reply is that step's reply |
| FormsRouter.UpdateThenUndo | routers/forms.py:48-79 | an undo right after an update restores the state before the update and returns the old form |
| FormsRouter.UpdatesPush | routers/forms.py:58-60 | n updates push n versions on top of the history and leave the older history in place |
| FormsRouter.UpdatesThenUndos | routers/forms.py:48-79 | n updates followed by n undos restore the state exactly |
| FormsRouter.GenerateThenUndoFails | routers/forms.py:40-42 | an undo right after generating fails, because generating clears the history |
| FormsRouter.GenerateUpdatesUndos | routers/forms.py:32-79 | after generating and n updates, n undos give back the generated form and one more undo fails |
| FormsRouter.UpdateWithoutFormFails | routers/forms.py:54-56 | updating a company that has no current form fails and changes nothing |

## Left out

- The language-model call, `json.loads` and the environment variable are
  parameters. The prompt's wording, `json.dumps` of the data and of the
  structure, and the model name and settings are not modelled. The request
  keeps the cleaned memory, the description text and the structure themselves.
- `print` logging in `parse_memory_data` is not modelled. It does not affect
  results.
- `Text.Lower` lower-cases ASCII letters only. Python's Unicode case mapping
  is not modelled.
- JSON floats are not part of `JsonValues.Json`. Any input holding a number
  with a fraction is outside the model: a memory record, a language-model
  reply or a stored form. For example, a float `company_annual_revenue_usd`
  prints as `"500000.0"` in `generate_form_dict`, which the model cannot
  express.
- FormsRouter.PyStr: `str()` of a list or dict is not modelled. An initial form
  whose `company_annual_revenue_usd` is a list or an object has no value in
  the model, so `GenerateFormEndpoint` reports a server error where Python
  would store the printed list or dict.
- `fill_pdf_with_anvil` and the writing of the PDF file are left out.
  `GenerateForm` returns the request it would send to the PDF service and the
  URL. The template id from `config.py` is not part of this model.
- The `/transcribe` endpoint (the Whisper call on an uploaded file) is left
  out. It is external I/O with no logic of its own.
- `services/memory_service.py` and the other routers are not part of this
  model.
- HTTP framing is modelled as `Reply` values. An `HTTPException(400)` is
  `BadRequest` with the source's detail text. An unhandled exception is
  `ServerError`.
- Concurrency between requests on the shared `FORM_STATES` is not modelled.
  Each endpoint call is one atomic step.
- Forms are values. `update_form_logic` and `apply_command_logic` change their
  argument in place and return it. The model returns the new form instead.
  The router always stores that result as the current form, and the history
  holds deep copies, so no other holder of the dictionary is visible.
- Python dictionaries keep insertion order. The model's maps do not. Key order
  only matters for the numbering of the description lines, which follows the
  mapping's sequence order.
- CleanMemoryService.CleanMemory: a `company` (or `company.json`) value that
  is not an object is left as it is. Python does otherwise at
  `services/clean_memory_service.py:26,33`. For a `null`, number or boolean
  there, the `in` test always raises `TypeError`. For a string or list, `in`
  is a substring or element test, and when it holds the following `del`
  raises `TypeError`.
- FormGeneration.AnvilDataValues: the value a key holds is proved only when no
  later entry of the layout writes the same key. For the layout of
  `generate_form` that is proved in `AnvilLayoutUnshadowed`.
