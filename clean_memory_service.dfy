/** The memory sanitizer: a copy of a company's memory record with the phone
    event log, the company's markdown notes and the derived `facts` under
    `company.json` removed. */
module CleanMemoryService {
  import opened Wrappers
  import opened JsonValues

  /** A raw memory record: the top level is always a JSON object. */
  type Memory = map<string, Json>

  const PhoneEventsPath: seq<string> := ["phone_events"]
  const CompanyMdPath: seq<string> := ["company", "md"]
  const CompanyFactsPath: seq<string> := ["company", "json", "facts"]

  /** The three paths the sanitizer removes. */
  predicate IsRemovedPath(d: seq<string>) {
    d == PhoneEventsPath || d == CompanyMdPath || d == CompanyFactsPath
  }

  /** The sanitized record, stated as three independent path deletions. Only
      `phone_events` disappears from the top level, and every top-level entry
      other than `company` keeps its value. */
  function Sanitize(memory: Memory): (r: Memory)
    ensures r.Keys == memory.Keys - {"phone_events"}
    ensures forall key :: key in memory && key != "phone_events" && key != "company" ==> key in r && r[key] == memory[key]
  {
    DeletePath(DeletePath(DeletePath(JObj(memory), PhoneEventsPath), CompanyMdPath), CompanyFactsPath).fields
  }

  /** Deleting a two-step path `[a, b]`, spelled out. */
  lemma DeleteTwoSteps(m: Memory, a: string, b: string)
    ensures DeletePath(JObj(m), [a, b]) ==
              if a in m && m[a].JObj? && b in m[a].fields then JObj(m[a := JObj(m[a].fields - {b})]) else JObj(m)
  {
    assert [a, b][1..] == [b];
    if a in m && !(m[a].JObj? && b in m[a].fields) {
      assert m[a := m[a]] == m;
    }
  }

  /** Deleting a three-step path `[a, b, c]`, spelled out. */
  lemma DeleteThreeSteps(m: Memory, a: string, b: string, c: string)
    ensures DeletePath(JObj(m), [a, b, c]) ==
              if a in m && m[a].JObj? then JObj(m[a := DeletePath(m[a], [b, c])]) else JObj(m)
  {
    assert [a, b, c][1..] == [b, c];
  }

  /** `clean_memory`: copy the record, then delete each of the three entries
      when it is present. Values are immutable here, so the copy is the
      record itself and the caller's record can never be altered. */
  method CleanMemory(memory: Memory) returns (cleaned: Memory)
    ensures cleaned == Sanitize(memory)
  {
    DeleteTwoSteps(memory - {"phone_events"}, "company", "md");
    DeleteTwoSteps(memory, "company", "md");
    cleaned := memory;
    if "phone_events" in cleaned {
      cleaned := cleaned - {"phone_events"};
    }
    if "company" in cleaned && cleaned["company"].JObj? && "md" in cleaned["company"].fields {
      cleaned := cleaned["company" := JObj(cleaned["company"].fields - {"md"})];
    }
    ghost var afterMd := cleaned;
    DeleteThreeSteps(afterMd, "company", "json", "facts");
    if "company" in cleaned && cleaned["company"].JObj? {
      var companySection := cleaned["company"].fields;
      DeleteTwoSteps(companySection, "json", "facts");
      if "json" in companySection && companySection["json"].JObj? && "facts" in companySection["json"].fields {
        companySection := companySection["json" := JObj(companySection["json"].fields - {"facts"})];
        cleaned := cleaned["company" := JObj(companySection)];
      }
    }
  }

  /** Lookup along a path of the sanitized record: every path at or below a
      removed entry is gone, every path that is not on the way to a removed
      entry keeps its value, and the objects on the way to a removed entry
      are still there and still objects. */
  lemma {:induction false} SanitizeLookup(memory: Memory, p: seq<string>)
    ensures (PhoneEventsPath <= p || CompanyMdPath <= p || CompanyFactsPath <= p) ==>
              Lookup(JObj(Sanitize(memory)), p) == None
    ensures !(p <= PhoneEventsPath || p <= CompanyMdPath || p <= CompanyFactsPath) &&
            !(PhoneEventsPath <= p || CompanyMdPath <= p || CompanyFactsPath <= p) ==>
              Lookup(JObj(Sanitize(memory)), p) == Lookup(JObj(memory), p)
    ensures (p < PhoneEventsPath || p < CompanyMdPath || p < CompanyFactsPath) ==>
              (Lookup(JObj(Sanitize(memory)), p).Some? <==> Lookup(JObj(memory), p).Some?)
    ensures (p < PhoneEventsPath || p < CompanyMdPath || p < CompanyFactsPath) && Lookup(JObj(memory), p).Some? ==>
              Lookup(JObj(Sanitize(memory)), p).Some? &&
              (Lookup(JObj(Sanitize(memory)), p).value.JObj? <==> Lookup(JObj(memory), p).value.JObj?)
  {
    var j0 := JObj(memory);
    var j1 := DeletePath(j0, PhoneEventsPath);
    var j2 := DeletePath(j1, CompanyMdPath);
    var j3 := DeletePath(j2, CompanyFactsPath);
    LookupAfterDelete(j0, PhoneEventsPath, p);
    LookupAfterDelete(j1, CompanyMdPath, p);
    LookupAfterDelete(j2, CompanyFactsPath, p);
    assert JObj(Sanitize(memory)) == j3;
  }

  /** None of the three entries survives, whatever the record holds. */
  lemma RemovedPathsAbsent(memory: Memory)
    ensures "phone_events" !in Sanitize(memory)
    ensures Lookup(JObj(Sanitize(memory)), CompanyMdPath) == None
    ensures Lookup(JObj(Sanitize(memory)), CompanyFactsPath) == None
    ensures "company" in Sanitize(memory) && Sanitize(memory)["company"].JObj? ==>
              "md" !in Sanitize(memory)["company"].fields
  {
    SanitizeLookup(memory, PhoneEventsPath);
    SanitizeLookup(memory, CompanyMdPath);
    SanitizeLookup(memory, CompanyFactsPath);
    assert Lookup(JObj(Sanitize(memory)), PhoneEventsPath) == None;
  }

  /** A record that has none of the three entries comes back unchanged. */
  lemma {:induction false} SanitizeNoOp(memory: Memory)
    requires Lookup(JObj(memory), PhoneEventsPath) == None
    requires Lookup(JObj(memory), CompanyMdPath) == None
    requires Lookup(JObj(memory), CompanyFactsPath) == None
    ensures Sanitize(memory) == memory
  {
    assert "phone_events" !in memory;
    assert DeletePath(JObj(memory), PhoneEventsPath) == JObj(memory);
    DeleteTwoSteps(memory, "company", "md");
    DeleteThreeSteps(memory, "company", "json", "facts");
    if "company" in memory && memory["company"].JObj? {
      var company := memory["company"].fields;
      DeleteTwoSteps(company, "json", "facts");
      assert memory["company" := JObj(company)] == memory;
    }
  }

  /** Sanitizing twice is the same as sanitizing once. */
  lemma SanitizeIdempotent(memory: Memory)
    ensures Sanitize(Sanitize(memory)) == Sanitize(memory)
  {
    RemovedPathsAbsent(memory);
    SanitizeNoOp(Sanitize(memory));
  }
}
