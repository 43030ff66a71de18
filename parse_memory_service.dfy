/** `parse_memory_data`: the deterministic steps around the language-model
    call that picks PDF form values out of a company's memory record — the
    numbered field list, the expected output structure built from the field
    mapping, the code-fence stripping of the reply and the structural
    validation of the parsed reply. */
module ParseMemoryService {
  import opened Wrappers
  import opened JsonValues
  import opened Text
  import opened CleanMemoryService

  /** A field mapping: (field name, description) pairs in the insertion order
      of the Python dict. A dotted name `parent.child` asks for a nested value. */
  type FieldMapping = seq<(string, string)>

  // ---------------------------------------------------------------------
  // The numbered field list
  // ---------------------------------------------------------------------

  /** The line describing the entry at 0-based position `i`. */
  function DescriptionLine(i: nat, key: string, description: string): string {
    NatToString(i + 1) + ". " + key + " - " + description
  }

  /** The lines of the field list, one per mapping entry, in mapping order. */
  function DescriptionLines(mapping: FieldMapping): (lines: seq<string>)
    ensures |lines| == |mapping|
  {
    seq(|mapping|, i requires 0 <= i < |mapping| => DescriptionLine(i, mapping[i].0, mapping[i].1))
  }

  /** Builds the field list line by line, then joins the lines with newlines. */
  method FieldDescriptionText(mapping: FieldMapping) returns (text: string)
    ensures text == Join(DescriptionLines(mapping), "\n")
  {
    var fieldDescriptions: seq<string> := [];
    var i := 0;
    while i < |mapping|
      invariant 0 <= i <= |mapping|
      invariant fieldDescriptions == DescriptionLines(mapping)[..i]
    {
      var (key, description) := mapping[i];
      fieldDescriptions := fieldDescriptions + [DescriptionLine(i, key, description)];
      i := i + 1;
    }
    assert fieldDescriptions == DescriptionLines(mapping);
    text := Join(fieldDescriptions, "\n");
  }

  /** The number at the head of a description line reads back as its
      1-based position. */
  lemma DescriptionLineNumber(i: nat, key: string, description: string)
    ensures var head := Split(DescriptionLine(i, key, description), ". ")[0];
            (forall j :: 0 <= j < |head| ==> IsDigit(head[j])) && DecimalValue(head) == i + 1
  {
    var digits := NatToString(i + 1);
    var line := DescriptionLine(i, key, description);
    assert line == digits + (". " + key + " - " + description);
    assert OccursAt(line, ". ", |digits|) by {
      assert line[|digits|..|digits| + 2] == ". ";
    }
    forall j: nat | j < |digits| ensures !OccursAt(line, ". ", j) {
      assert line[j] == digits[j];
      assert line[j..j + 2][0] == line[j];
    }
    IndexOfIsFirst(line, ". ", |digits|);
    assert line[..|digits|] == digits;
    DecimalValueOfNatToString(i + 1);
  }

  /** No newline inside a description line whose key and description have none. */
  lemma DescriptionLineHasNoNewline(i: nat, key: string, description: string)
    requires '\n' !in key && '\n' !in description
    ensures '\n' !in DescriptionLine(i, key, description)
  {
    var digits := NatToString(i + 1);
    assert forall j :: 0 <= j < |digits| ==> digits[j] != '\n';
  }

  /** Splitting the field list at newlines gives back exactly one line per
      entry, in mapping order, when no key or description holds a newline. */
  lemma DescriptionTextLines(mapping: FieldMapping)
    requires |mapping| >= 1
    requires forall i :: 0 <= i < |mapping| ==> '\n' !in mapping[i].0 && '\n' !in mapping[i].1
    ensures Split(Join(DescriptionLines(mapping), "\n"), "\n") == DescriptionLines(mapping)
  {
    var lines := DescriptionLines(mapping);
    forall k | 0 <= k < |lines| ensures '\n' !in lines[k] {
      DescriptionLineHasNoNewline(k, mapping[k].0, mapping[k].1);
    }
    SplitJoin(lines, '\n');
  }

  // ---------------------------------------------------------------------
  // The expected output structure
  // ---------------------------------------------------------------------

  /** An entry of the expected structure: a plain value, or an object whose
      listed children must be present. */
  datatype Shape = Scalar | Nested(children: seq<string>)

  /** The field names of a mapping, in order (iterating the Python dict). */
  function FieldNames(mapping: FieldMapping): (names: seq<string>)
    ensures |names| == |mapping| && forall i :: 0 <= i < |mapping| ==> names[i] == mapping[i].0
  {
    seq(|mapping|, i requires 0 <= i < |mapping| => mapping[i].0)
  }

  /** A name is a field of the mapping exactly when some entry has it as
      its key. */
  lemma FieldNamesIff(mapping: FieldMapping, name: string)
    ensures name in FieldNames(mapping) <==> exists description :: (name, description) in mapping
  {
    if name in FieldNames(mapping) {
      var i :| 0 <= i < |mapping| && FieldNames(mapping)[i] == name;
      assert (name, mapping[i].1) == mapping[i];
    }
    if exists description :: (name, description) in mapping {
      var description :| (name, description) in mapping;
      var i :| 0 <= i < |mapping| && mapping[i] == (name, description);
      assert FieldNames(mapping)[i] == name;
    }
  }

  /** Python `key.split(".", 1)` for a key holding a dot: the part before the
      first dot and the rest, which may hold further dots. None when the key
      has no dot. */
  function SplitFirstDot(key: string): Option<(string, string)> {
    match IndexOf(key, ".")
    case None => None
    case Some(i) => Some((key[..i], key[i + 1..]))
  }

  /** A key splits exactly when it holds a dot, into a dot-free parent, a dot
      and the rest. */
  lemma SplitFirstDotSpec(key: string)
    ensures SplitFirstDot(key).None? <==> '.' !in key
    ensures SplitFirstDot(key).Some? ==>
              var (parent, child) := SplitFirstDot(key).value;
              key == parent + "." + child && '.' !in parent
  {
    ContainsCharIff(key, '.');
    match IndexOf(key, ".")
    case None =>
    case Some(i) =>
      FirstCharIndex(key, '.', i);
      assert key == key[..i] + "." + key[i + 1..];
  }

  /** A key `parent + "." + child` whose parent has no dot splits into
      exactly that parent and child. */
  lemma SplitsAt(key: string, parent: string, child: string)
    requires key == parent + "." + child && '.' !in parent
    ensures SplitFirstDot(key) == Some((parent, child))
  {
    assert key[|parent|] == '.';
    SplitFirstDotSpec(key);
    var (a, b) := SplitFirstDot(key).value;
    assert forall j :: 0 <= j < |parent| ==> key[j] == parent[j];
    assert forall j :: 0 <= j < |a| ==> key[j] == a[j];
    assert |a| == |parent|;
    assert a == key[..|a|] && parent == key[..|parent|];
    assert b == key[|a| + 1..] && child == key[|parent| + 1..];
  }

  /** The names without a dot (the scalar entries). */
  function ScalarNames(names: seq<string>): set<string>
    decreases |names|
  {
    if names == [] then {}
    else
      var key := names[|names| - 1];
      ScalarNames(names[..|names| - 1]) + (if '.' in key then {} else {key})
  }

  /** The parents named by the dotted names. */
  function Parents(names: seq<string>): set<string>
    decreases |names|
  {
    if names == [] then {}
    else
      var split := SplitFirstDot(names[|names| - 1]);
      Parents(names[..|names| - 1]) + (if split.Some? then {split.value.0} else {})
  }

  /** The children of `parent`, in the order of the names. */
  function ChildrenOf(names: seq<string>, parent: string): seq<string>
    decreases |names|
  {
    if names == [] then []
    else
      var split := SplitFirstDot(names[|names| - 1]);
      ChildrenOf(names[..|names| - 1], parent) +
        (if split.Some? && split.value.0 == parent then [split.value.1] else [])
  }

  /** The expected output structure: every scalar name maps to `Scalar` and
      every parent to its children; a parent replaces a scalar of the same
      name, because the nested entries are written last. */
  function ExpectedStructure(names: seq<string>): map<string, Shape> {
    map key | key in ScalarNames(names) + Parents(names) ::
      if key in Parents(names) then Nested(ChildrenOf(names, key)) else Scalar
  }

  /** A scalar name is exactly a dot-free name of the list. */
  lemma {:induction false} ScalarNamesIff(names: seq<string>, key: string)
    ensures key in ScalarNames(names) <==> key in names && '.' !in key
    decreases |names|
  {
    if names != [] {
      var init := names[..|names| - 1];
      ScalarNamesIff(init, key);
      assert names == init + [names[|names| - 1]];
    }
  }

  /** `key` is a dotted name whose part before the first dot is `parent`. */
  predicate NamesParent(key: string, parent: string) {
    SplitFirstDot(key).Some? && SplitFirstDot(key).value.0 == parent
  }

  /** A parent is exactly the part before the first dot of some dotted name. */
  lemma {:induction false} ParentsIff(names: seq<string>, parent: string)
    ensures parent in Parents(names) <==> exists i :: 0 <= i < |names| && NamesParent(names[i], parent)
    decreases |names|
  {
    if names != [] {
      var init := names[..|names| - 1];
      ParentsIff(init, parent);
      if exists i :: 0 <= i < |init| && NamesParent(init[i], parent) {
        var i :| 0 <= i < |init| && NamesParent(init[i], parent);
        assert names[i] == init[i];
      }
      if exists i :: 0 <= i < |names| && NamesParent(names[i], parent) {
        var i :| 0 <= i < |names| && NamesParent(names[i], parent);
        if i < |init| {
          assert init[i] == names[i];
        }
      }
    }
  }

  /** A child of `parent` is exactly the rest after the first dot of a name
      made of `parent`, a dot and that rest; only parents have children. */
  lemma {:induction false} ChildrenOfIff(names: seq<string>, parent: string, child: string)
    ensures child in ChildrenOf(names, parent) <==>
              exists i :: 0 <= i < |names| && SplitFirstDot(names[i]) == Some((parent, child))
    decreases |names|
  {
    if names != [] {
      var init := names[..|names| - 1];
      var last := names[|names| - 1];
      ChildrenOfIff(init, parent, child);
      var split := SplitFirstDot(last);
      var extra := if split.Some? && split.value.0 == parent then [split.value.1] else [];
      assert ChildrenOf(names, parent) == ChildrenOf(init, parent) + extra;
      if child in ChildrenOf(init, parent) {
        var i :| 0 <= i < |init| && SplitFirstDot(init[i]) == Some((parent, child));
        assert names[i] == init[i];
      } else if split == Some((parent, child)) {
        assert child in extra;
      } else {
        assert child !in extra;
        forall i | 0 <= i < |names| ensures SplitFirstDot(names[i]) != Some((parent, child)) {
          if i < |init| {
            assert names[i] == init[i];
          }
        }
      }
    }
  }

  /** A name is a parent exactly when it has children. */
  lemma {:induction false} ChildrenEmptyIff(names: seq<string>, parent: string)
    ensures ChildrenOf(names, parent) == [] <==> parent !in Parents(names)
    decreases |names|
  {
    if names != [] {
      ChildrenEmptyIff(names[..|names| - 1], parent);
    }
  }

  /** Grouping distributes over concatenation, so children keep the order
      of the names. */
  lemma {:induction false} GroupingAppend(a: seq<string>, b: seq<string>)
    ensures ScalarNames(a + b) == ScalarNames(a) + ScalarNames(b)
    ensures Parents(a + b) == Parents(a) + Parents(b)
    ensures forall parent :: ChildrenOf(a + b, parent) == ChildrenOf(a, parent) + ChildrenOf(b, parent)
    decreases |b|
  {
    if b != [] {
      var b' := b[..|b| - 1];
      assert (a + b)[..|a + b| - 1] == a + b';
      assert (a + b)[|a + b| - 1] == b[|b| - 1];
      GroupingAppend(a, b');
      var key := b[|b| - 1];
      var split := SplitFirstDot(key);
      assert ScalarNames(a + b) == ScalarNames(a + b') + (if '.' in key then {} else {key});
      assert Parents(a + b) == Parents(a + b') + (if split.Some? then {split.value.0} else {});
      forall parent ensures ChildrenOf(a + b, parent) == ChildrenOf(a, parent) + ChildrenOf(b, parent) {
        assert ChildrenOf(a + b, parent) == ChildrenOf(a + b', parent) +
          (if split.Some? && split.value.0 == parent then [split.value.1] else []);
      }
    } else {
      assert a + b == a;
    }
  }

  /** The scalar half of the structure after the first pass over `names`. */
  function ScalarStructure(names: seq<string>): map<string, Shape> {
    map key | key in ScalarNames(names) :: Scalar
  }

  /** The parents with their children collected by the first pass. */
  function NestedFields(names: seq<string>): map<string, seq<string>> {
    map parent | parent in Parents(names) :: ChildrenOf(names, parent)
  }

  /** The scalar names after one more name. */
  lemma ScalarNamesSnoc(done: seq<string>, key: string)
    ensures ScalarNames(done + [key]) == ScalarNames(done) + (if '.' in key then {} else {key})
  {
    assert (done + [key])[..|done|] == done;
  }

  /** The parents after one more name. */
  lemma ParentsSnoc(done: seq<string>, key: string)
    ensures Parents(done + [key]) == Parents(done) +
              (if SplitFirstDot(key).Some? then {SplitFirstDot(key).value.0} else {})
  {
    assert (done + [key])[..|done|] == done;
  }

  /** The children of `p` after one more name. */
  lemma ChildrenOfSnoc(done: seq<string>, key: string, p: string)
    ensures ChildrenOf(done + [key], p) == ChildrenOf(done, p) +
              (if NamesParent(key, p) then [SplitFirstDot(key).value.1] else [])
  {
    assert (done + [key])[..|done|] == done;
  }

  /** One step of the first pass on a dot-free name: it becomes a scalar
      entry and the collected children stay as they are. */
  lemma GroupingStepScalar(done: seq<string>, key: string)
    requires '.' !in key
    ensures ScalarStructure(done + [key]) == ScalarStructure(done)[key := Scalar]
    ensures NestedFields(done + [key]) == NestedFields(done)
  {
    var m := done + [key];
    SplitFirstDotSpec(key);
    ScalarNamesSnoc(done, key);
    ParentsSnoc(done, key);
    forall p ensures ChildrenOf(m, p) == ChildrenOf(done, p) {
      ChildrenOfSnoc(done, key, p);
      assert ChildrenOf(done, p) + [] == ChildrenOf(done, p);
    }
  }

  /** One step of the first pass on a dotted name: it appends its child to
      its parent's list, starting an empty list for a new parent. */
  lemma GroupingStepNested(done: seq<string>, key: string, parent: string, child: string)
    requires SplitFirstDot(key) == Some((parent, child))
    ensures ScalarStructure(done + [key]) == ScalarStructure(done)
    ensures var before := NestedFields(done);
            NestedFields(done + [key]) == before[parent := (if parent in before then before[parent] else []) + [child]]
  {
    var m := done + [key];
    SplitFirstDotSpec(key);
    ScalarNamesSnoc(done, key);
    ParentsSnoc(done, key);
    assert Parents(m) == Parents(done) + {parent};
    var before := NestedFields(done);
    var after := before[parent := (if parent in before then before[parent] else []) + [child]];
    assert NestedFields(m).Keys == after.Keys;
    forall p | p in after ensures NestedFields(m)[p] == after[p] {
      ChildrenOfSnoc(done, key, p);
      if p == parent {
        ChildrenEmptyIff(done, parent);
      } else {
        assert ChildrenOf(done, p) + [] == ChildrenOf(done, p);
      }
    }
  }

  /** Groups the mapping the way `parse_memory_data` does: a first pass files
      dot-free names into the structure and collects each parent's children,
      a second pass writes one nested entry per parent. */
  method GroupFields(mapping: FieldMapping) returns (outputStructure: map<string, Shape>)
    ensures outputStructure == ExpectedStructure(FieldNames(mapping))
  {
    ghost var names := FieldNames(mapping);
    outputStructure := map[];
    var nestedFields: map<string, seq<string>> := map[];
    var n := 0;
    while n < |mapping|
      invariant 0 <= n <= |mapping|
      invariant outputStructure == ScalarStructure(names[..n])
      invariant nestedFields == NestedFields(names[..n])
    {
      var key := mapping[n].0;
      ghost var done := names[..n];
      assert names[..n + 1] == done + [key];
      SplitFirstDotSpec(key);
      if '.' in key {
        var (parent, child) := SplitFirstDot(key).value;
        GroupingStepNested(done, key, parent, child);
        ghost var before := nestedFields;
        if parent !in nestedFields {
          nestedFields := nestedFields[parent := []];
        }
        nestedFields := nestedFields[parent := nestedFields[parent] + [child]];
        assert nestedFields == before[parent := (if parent in before then before[parent] else []) + [child]];
      } else {
        GroupingStepScalar(done, key);
        outputStructure := outputStructure[key := Scalar];
      }
      n := n + 1;
    }
    assert names[..n] == names;
    ExpectedStructureParts(names);
    outputStructure := WriteNestedEntries(outputStructure, nestedFields);
  }

  /** One nested entry per collected parent. */
  function NestedEntries(nestedFields: map<string, seq<string>>): map<string, Shape> {
    map parent | parent in nestedFields :: Nested(nestedFields[parent])
  }

  /** The expected structure is the scalar half with the nested entries
      written over it. */
  lemma ExpectedStructureParts(names: seq<string>)
    ensures ExpectedStructure(names) == ScalarStructure(names) + NestedEntries(NestedFields(names))
  {
  }

  /** The second pass: writes a nested entry for every collected parent,
      replacing a scalar entry of the same name, in any order. */
  method WriteNestedEntries(structure: map<string, Shape>, nestedFields: map<string, seq<string>>)
    returns (outputStructure: map<string, Shape>)
    ensures outputStructure == structure + NestedEntries(nestedFields)
  {
    outputStructure := structure;
    var remaining := nestedFields.Keys;
    while remaining != {}
      invariant remaining <= nestedFields.Keys
      invariant outputStructure.Keys == structure.Keys + (nestedFields.Keys - remaining)
      invariant forall key :: key in outputStructure ==>
                  outputStructure[key] == if key in nestedFields.Keys - remaining then Nested(nestedFields[key]) else structure[key]
      decreases remaining
    {
      var parent :| parent in remaining;
      outputStructure := outputStructure[parent := Nested(nestedFields[parent])];
      remaining := remaining - {parent};
    }
  }

  // ---------------------------------------------------------------------
  // Validation of the parsed reply
  // ---------------------------------------------------------------------

  /** Python `key in container` for a parsed JSON value: a dict key, a list
      element or a substring; None where Python raises a TypeError. */
  function PyIn(key: string, container: Json): Option<bool> {
    match container
    case JObj(fields) => Some(key in fields)
    case JArr(items) => Some(JStr(key) in items)
    case JStr(s) => Some(Contains(s, key))
    case _ => None
  }

  /** The checks for one expected key: the key is in the result and, for a
      nested entry, the result is an object whose entry is an object holding
      every expected child. */
  predicate KeyConforms(key: string, shape: Shape, result: Json) {
    PyIn(key, result) == Some(true) &&
    (shape.Nested? ==>
       result.JObj? && result.fields[key].JObj? &&
       forall child :: child in shape.children ==> child in result.fields[key].fields)
  }

  /** The result passes the checks for every key of the expected structure. */
  predicate Conforms(outputStructure: map<string, Shape>, result: Json) {
    forall key :: key in outputStructure ==> KeyConforms(key, outputStructure[key], result)
  }

  /** For an object result the checks are plain key membership: every
      expected key is present and every nested entry is an object holding
      every expected child. */
  lemma ConformsObjectIff(outputStructure: map<string, Shape>, fields: map<string, Json>)
    ensures Conforms(outputStructure, JObj(fields)) <==>
              forall key :: key in outputStructure ==>
                key in fields &&
                (outputStructure[key].Nested? ==>
                   fields[key].JObj? &&
                   forall child :: child in outputStructure[key].children ==> child in fields[key].fields)
  {
  }

  /** A null, boolean or number result makes the first `in` test raise a
      TypeError, so it never passes a non-empty structure. */
  lemma NonContainerFails(outputStructure: map<string, Shape>, result: Json)
    requires outputStructure != map[]
    requires result.JNull? || result.JBool? || result.JInt?
    ensures !Conforms(outputStructure, result)
  {
    var key :| key in outputStructure;
    assert !KeyConforms(key, outputStructure[key], result);
  }

  /** A string result passes an all-scalar structure exactly when every
      expected key occurs in it as a substring, as Python's `in` on a string
      decides. */
  lemma StringResultConformsIff(outputStructure: map<string, Shape>, text: string)
    requires forall key :: key in outputStructure ==> outputStructure[key] == Scalar
    ensures Conforms(outputStructure, JStr(text)) <==> forall key :: key in outputStructure ==> Contains(text, key)
  {
  }

  /** The validation loop: the result is returned unchanged when every
      expected key passes its checks, and None as soon as one fails (a
      TypeError from `in` or from indexing a list or string is caught and
      ends in None too). */
  method ValidateStructure(outputStructure: map<string, Shape>, result: Json) returns (validated: Option<Json>)
    ensures validated == if Conforms(outputStructure, result) then Some(result) else None
  {
    var remaining := outputStructure.Keys;
    while remaining != {}
      invariant remaining <= outputStructure.Keys
      invariant forall key :: key in outputStructure.Keys - remaining ==>
                  KeyConforms(key, outputStructure[key], result)
      decreases remaining
    {
      var key :| key in remaining;
      if PyIn(key, result) != Some(true) {
        return None;
      }
      match outputStructure[key] {
        case Nested(children) =>
          if !result.JObj? || !result.fields[key].JObj? {
            return None;
          }
          var entry := result.fields[key].fields;
          var i := 0;
          while i < |children|
            invariant 0 <= i <= |children|
            invariant forall j :: 0 <= j < i ==> children[j] in entry
          {
            if children[i] !in entry {
              return None;
            }
            i := i + 1;
          }
        case Scalar =>
      }
      remaining := remaining - {key};
    }
    return Some(result);
  }

  /** The path at which a field of the mapping is read from the result. */
  function FieldPath(key: string): seq<string> {
    match SplitFirstDot(key)
    case None => [key]
    case Some((parent, child)) => [parent, child]
  }

  /** An object that passed validation against the structure grouped from a
      mapping holds a value at the path of every field of the mapping. */
  lemma ValidatedResultHasEveryField(mapping: FieldMapping, result: Json)
    requires result.JObj?
    requires Conforms(ExpectedStructure(FieldNames(mapping)), result)
    ensures forall i :: 0 <= i < |mapping| ==> Lookup(result, FieldPath(mapping[i].0)).Some?
  {
    var names := FieldNames(mapping);
    forall i | 0 <= i < |mapping| ensures Lookup(result, FieldPath(mapping[i].0)).Some? {
      var key := mapping[i].0;
      assert names[i] == key;
      SplitFirstDotSpec(key);
      match SplitFirstDot(key) {
        case None =>
          ScalarNamesIff(names, key);
          assert key in names;
          assert KeyConforms(key, ExpectedStructure(names)[key], result);
          assert key in result.fields;
          assert FieldPath(key) == [key];
          assert [key][1..] == [];
          assert Lookup(result, [key]) == Lookup(result.fields[key], []);
        case Some((parent, child)) =>
          assert NamesParent(names[i], parent);
          ParentsIff(names, parent);
          ChildrenOfIff(names, parent, child);
          assert KeyConforms(parent, ExpectedStructure(names)[parent], result);
          assert child in ExpectedStructure(names)[parent].children;
          var entry := result.fields[parent];
          assert entry.JObj? && child in entry.fields;
          assert FieldPath(key) == [parent, child];
          assert [parent, child][1..] == [child] && [child][1..] == [];
          assert Lookup(result, [parent, child]) == Lookup(entry, [child]);
          assert Lookup(entry, [child]) == Lookup(entry.fields[child], []);
      }
    }
  }

  /** A reply that conforms to the structure grouped from `names` holds
      every parent as an object with all of that parent's children. */
  lemma ConformingNestedEntry(names: seq<string>, parent: string, result: Json)
    requires Conforms(ExpectedStructure(names), result)
    requires parent in Parents(names)
    ensures result.JObj? && parent in result.fields && result.fields[parent].JObj?
    ensures forall child :: child in ChildrenOf(names, parent) ==> child in result.fields[parent].fields
  {
    var expected := ExpectedStructure(names);
    assert expected[parent] == Nested(ChildrenOf(names, parent));
    assert KeyConforms(parent, expected[parent], result);
  }

  /** A structure with a nested entry accepts only objects. */
  lemma NestedEntryRequiresObject(outputStructure: map<string, Shape>, key: string, result: Json)
    requires key in outputStructure && outputStructure[key].Nested?
    requires Conforms(outputStructure, result)
    ensures result.JObj?
  {
    assert KeyConforms(key, outputStructure[key], result);
  }

  /** `fields` holds at least the keys of `smaller`, and each of its entries
      that is an object holds at least the keys of the corresponding entry. */
  predicate ExtendsObject(fields: map<string, Json>, smaller: map<string, Json>) {
    forall key :: key in smaller ==>
      key in fields &&
      (smaller[key].JObj? ==> fields[key].JObj? && smaller[key].fields.Keys <= fields[key].fields.Keys)
  }

  /** Extra top-level or nested keys never make an object fail validation. */
  lemma ExtraKeysAccepted(outputStructure: map<string, Shape>, smaller: map<string, Json>, fields: map<string, Json>)
    requires Conforms(outputStructure, JObj(smaller))
    requires ExtendsObject(fields, smaller)
    ensures Conforms(outputStructure, JObj(fields))
  {
    forall key | key in outputStructure ensures KeyConforms(key, outputStructure[key], JObj(fields)) {
      assert KeyConforms(key, outputStructure[key], JObj(smaller));
    }
  }

  /** Validation is not limited to objects: a structure of scalar entries
      also accepts a list that holds every expected key as a string. */
  lemma ScalarStructureAcceptsKeyList(outputStructure: map<string, Shape>, items: seq<Json>)
    requires forall key :: key in outputStructure ==> outputStructure[key] == Scalar && JStr(key) in items
    ensures Conforms(outputStructure, JArr(items))
  {
  }

  // ---------------------------------------------------------------------
  // Code-fence stripping of the reply
  // ---------------------------------------------------------------------

  /** The JSON text taken from the reply: the part between the first
      "```json" and the next "```" when the reply has a JSON fence, else the
      part between the first two "```", else the whole reply; trimmed of
      surrounding whitespace in every case. Whatever the reply, the payload
      holds no fence and no whitespace at either end. */
  function ExtractJsonPayload(content: string): (payload: string)
    ensures !Contains(payload, "```")
    ensures payload == [] || (!IsSpace(payload[0]) && !IsSpace(payload[|payload| - 1]))
  {
    if Contains(content, "```json") then
      var piece := Split(Split(content, "```json")[1], "```")[0];
      StripKeepsAbsence(piece, "```");
      Strip(piece)
    else if Contains(content, "```") then
      var piece := Split(content, "```")[1];
      StripKeepsAbsence(piece, "```");
      Strip(piece)
    else
      StripKeepsAbsence(content, "```");
      Strip(content)
  }

  /** Splitting at a separator whose first occurrence directly follows `pre`:
      no occurrence ends before the one after `pre`. */
  lemma SplitAtFirst(pre: string, sep: string, rest: string)
    requires sep != []
    requires !Contains(pre + sep[..|sep| - 1], sep)
    ensures Split(pre + sep + rest, sep) == [pre] + Split(rest, sep)
  {
    var s := pre + sep + rest;
    var t := pre + sep[..|sep| - 1];
    assert s[|pre|..|pre| + |sep|] == sep;
    forall j: nat | j < |pre| ensures !OccursAt(s, sep, j) {
      assert t[j..j + |sep|] == s[j..j + |sep|];
      assert !OccursAt(t, sep, j);
    }
    IndexOfIsFirst(s, sep, |pre|);
    assert s[..|pre|] == pre;
    assert s[|pre| + |sep|..] == rest;
  }

  /** A string with no "```" that does not end in a backtick still has no
      "```" once two backticks are appended. */
  lemma NoFenceWithTail(s: string)
    requires !Contains(s, "```")
    requires s == [] || s[|s| - 1] != '`'
    ensures !Contains(s + "``", "```")
  {
    var t := s + "``";
    forall j: nat ensures !OccursAt(t, "```", j) {
      if j + 3 <= |s| {
        assert t[j..j + 3] == s[j..j + 3];
        assert !OccursAt(s, "```", j);
      } else if j + 3 <= |t| {
        assert t[j..j + 3][|s| - 1 - j] == s[|s| - 1];
      }
    }
  }

  /** "```json" cannot begin inside `pre` and run into a "```json" placed
      right after it, because no proper prefix of "```json" is also a suffix. */
  lemma JsonFenceFirstAfter(pre: string)
    requires !Contains(pre, "```json")
    ensures !Contains(pre + "```jso", "```json")
  {
    var t := pre + "```jso";
    assert t[|pre|..] == "```jso";
    forall j: nat ensures !OccursAt(t, "```json", j) {
      if j + 7 <= |pre| {
        assert t[j..j + 7] == pre[j..j + 7];
        assert !OccursAt(pre, "```json", j);
      } else if j + 7 <= |t| {
        if j + 3 >= |pre| {
          assert t[j..j + 7][3] == t[j + 3];
        } else {
          assert t[j..j + 7][|pre| - j] == t[|pre|];
        }
      }
    }
  }

  /** A reply without any fence is trimmed as a whole. */
  lemma ExtractUnfenced(content: string)
    requires !Contains(content, "```")
    ensures ExtractJsonPayload(content) == Strip(content)
  {
    if Contains(content, "```json") {
      var i := IndexOf(content, "```json").value;
      assert content[i..i + 7][..3] == content[i..i + 3];
      assert OccursAt(content, "```", i);
    }
  }

  /** Cutting `pre + "```" + body + "```" + post` at every "```" gives
      `body` as the second piece when neither `pre` nor `body` holds a fence
      or ends in a backtick. */
  lemma PlainFenceSecondPiece(pre: string, body: string, post: string)
    requires !Contains(pre, "```") && (pre == [] || pre[|pre| - 1] != '`')
    requires !Contains(body, "```") && (body == [] || body[|body| - 1] != '`')
    ensures |Split(pre + "```" + body + "```" + post, "```")| > 1
    ensures Split(pre + "```" + body + "```" + post, "```")[1] == body
  {
    var rest := body + "```" + post;
    assert pre + "```" + body + "```" + post == pre + "```" + rest;
    FenceAfterPiece(pre, rest);
    FirstPieceIsBody(body, post);
  }

  /** Splitting at a fence that follows a fence-free piece puts that piece
      first and splits the rest on its own. */
  lemma FenceAfterPiece(piece: string, rest: string)
    requires !Contains(piece, "```") && (piece == [] || piece[|piece| - 1] != '`')
    ensures Split(piece + "```" + rest, "```") == [piece] + Split(rest, "```")
  {
    NoFenceWithTail(piece);
    assert "```"[..2] == "``";
    SplitAtFirst(piece, "```", rest);
  }

  /** A reply with a plain fence and no JSON fence yields the trimmed text
      between the first two fences. */
  lemma ExtractPlainFence(pre: string, body: string, post: string)
    requires !Contains(pre, "```") && (pre == [] || pre[|pre| - 1] != '`')
    requires !Contains(body, "```") && (body == [] || body[|body| - 1] != '`')
    requires !Contains(pre + "```" + body + "```" + post, "```json")
    ensures ExtractJsonPayload(pre + "```" + body + "```" + post) == Strip(body)
  {
    var content := pre + "```" + body + "```" + post;
    PlainFenceSecondPiece(pre, body, post);
    assert OccursAt(content, "```", |pre|) by {
      assert content[|pre|..|pre| + 3] == "```";
    }
    assert Contains(content, "```");
  }

  /** Inside `body + "```" + post`, no "```json" starts before the closing
      fence or within its last two backticks. */
  lemma NoJsonFenceBeforeClosing(body: string, post: string)
    requires !Contains(body, "```") && (body == [] || body[|body| - 1] != '`')
    requires post == [] || post[0] != '`'
    ensures forall q: nat :: q < |body| + 3 && q != |body| ==> !OccursAt(body + "```" + post, "```json", q)
  {
    var rest := body + "```" + post;
    NoFenceWithTail(body);
    forall q: nat | q < |body| ensures !OccursAt(rest, "```json", q) {
      assert (body + "``")[q..q + 3] == rest[q..q + 3];
      assert !OccursAt(body + "``", "```", q);
      assert q + 7 <= |rest| ==> rest[q..q + 7][..3] == rest[q..q + 3];
    }
    forall q: nat | |body| < q < |body| + 3 ensures !OccursAt(rest, "```json", q) {
      if q + 7 <= |rest| {
        assert rest[q..q + 7][|body| + 3 - q] == rest[|body| + 3] == post[0];
      }
    }
  }

  /** Cutting `body + "```" + tail` at its first "```" gives `body`. */
  lemma FirstPieceIsBody(body: string, tail: string)
    requires !Contains(body, "```") && (body == [] || body[|body| - 1] != '`')
    ensures Split(body + "```" + tail, "```")[0] == body
  {
    NoFenceWithTail(body);
    assert "```"[..2] == "``";
    SplitAtFirst(body, "```", tail);
  }

  /** The text after a JSON fence, cut at the next "```json" and then at the
      next "```", is the body up to the closing fence. */
  lemma JsonFenceBody(body: string, post: string)
    requires !Contains(body, "```") && (body == [] || body[|body| - 1] != '`')
    requires post == [] || post[0] != '`'
    ensures Split(Split(body + "```" + post, "```json")[0], "```")[0] == body
  {
    var rest := body + "```" + post;
    NoJsonFenceBeforeClosing(body, post);
    var x := Split(rest, "```json")[0];
    match IndexOf(rest, "```json") {
      case None =>
        assert x == rest;
        FirstPieceIsBody(body, post);
      case Some(q) =>
        assert x == rest[..q];
        if q == |body| {
          assert x == body;
        } else {
          assert x == body + "```" + rest[|body| + 3..q];
          FirstPieceIsBody(body, rest[|body| + 3..q]);
        }
    }
  }

  /** A reply with a JSON fence yields the trimmed text between the first
      "```json" and the "```" that closes it, when that text holds no fence
      and neither ends nor is followed by a backtick. */
  lemma ExtractJsonFence(pre: string, body: string, post: string)
    requires !Contains(pre, "```json")
    requires !Contains(body, "```") && (body == [] || body[|body| - 1] != '`')
    requires post == [] || post[0] != '`'
    ensures ExtractJsonPayload(pre + "```json" + body + "```" + post) == Strip(body)
  {
    var rest := body + "```" + post;
    var content := pre + "```json" + rest;
    assert content == pre + "```json" + body + "```" + post;
    JsonFenceFirstAfter(pre);
    assert "```json"[..6] == "```jso";
    SplitAtFirst(pre, "```json", rest);
    assert Split(content, "```json")[1] == Split(rest, "```json")[0];
    JsonFenceBody(body, post);
    assert OccursAt(content, "```json", |pre|) by {
      assert content[|pre|..|pre| + 7] == "```json";
    }
    assert Contains(content, "```json");
  }
}
