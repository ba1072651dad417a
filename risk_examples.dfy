/** Industry-specific example risks and opportunities offered during onboarding, and the
    lookup with its general-business fallback. */
module RiskExamples {
  import opened Wrappers

  datatype RiskType = Risk | Opportunity

  datatype RiskExample = RiskExample(
    kind: RiskType,
    description: string,
    impact: string,
    likelihood: string,
    treatmentNotes: string,
    industry: string)

  const TechnologyExamples: seq<RiskExample> := [
    RiskExample(Risk, "Data breach or security incident exposing customer information",
      "High", "Medium",
      "Implement regular security audits, use encryption, train staff on security best practices",
      "Technology/Software"),
    RiskExample(Risk, "Key developer leaves the company, causing project delays",
      "High", "Medium",
      "Document processes, cross-train team members, maintain knowledge base",
      "Technology/Software"),
    RiskExample(Opportunity, "New technology could improve our service delivery efficiency",
      "Medium", "High",
      "Research new tools, pilot test with small team, evaluate ROI",
      "Technology/Software"),
    RiskExample(Risk, "Software bugs in production affecting customer satisfaction",
      "Medium", "High",
      "Implement automated testing, code reviews, staging environment",
      "Technology/Software")
  ]

  const ProfessionalServicesExamples: seq<RiskExample> := [
    RiskExample(Risk, "Client dissatisfaction leading to loss of business",
      "High", "Medium",
      "Regular client check-ins, clear communication, quality assurance processes",
      "Professional Services"),
    RiskExample(Risk, "Key consultant unavailable, impacting project delivery",
      "High", "Low",
      "Maintain backup resources, cross-train team, document project knowledge",
      "Professional Services"),
    RiskExample(Opportunity, "Expanding service offerings to new market segments",
      "High", "Medium",
      "Market research, develop new service packages, train team on new offerings",
      "Professional Services"),
    RiskExample(Risk, "Missed deadlines due to resource constraints",
      "Medium", "Medium",
      "Better project planning, resource allocation, buffer time in schedules",
      "Professional Services")
  ]

  const ManufacturingExamples: seq<RiskExample> := [
    RiskExample(Risk, "Supply chain disruption affecting production",
      "High", "Medium",
      "Diversify suppliers, maintain inventory buffers, develop alternative suppliers",
      "Manufacturing"),
    RiskExample(Risk, "Product quality issues leading to customer complaints",
      "High", "Low",
      "Quality control checks, regular equipment maintenance, staff training",
      "Manufacturing"),
    RiskExample(Opportunity, "New manufacturing process could reduce costs",
      "Medium", "High",
      "Research new technologies, pilot test, calculate cost savings",
      "Manufacturing"),
    RiskExample(Risk, "Equipment breakdown causing production delays",
      "Medium", "Medium",
      "Preventive maintenance schedule, backup equipment, maintenance contracts",
      "Manufacturing")
  ]

  const HealthcareExamples: seq<RiskExample> := [
    RiskExample(Risk, "Patient safety incident or medical error",
      "High", "Low",
      "Staff training, checklists, regular audits, incident reporting system",
      "Healthcare"),
    RiskExample(Risk, "Data privacy breach of patient information",
      "High", "Low",
      "HIPAA compliance training, secure systems, access controls, regular audits",
      "Healthcare"),
    RiskExample(Opportunity, "New treatment method could improve patient outcomes",
      "High", "Medium",
      "Research new methods, staff training, pilot program, measure outcomes",
      "Healthcare")
  ]

  const GeneralBusinessExamples: seq<RiskExample> := [
    RiskExample(Risk, "Loss of key customer affecting revenue",
      "High", "Medium",
      "Strengthen customer relationships, diversify customer base, improve service quality",
      "General Business"),
    RiskExample(Risk, "Staff turnover affecting operations",
      "Medium", "Medium",
      "Improve workplace culture, competitive compensation, career development opportunities",
      "General Business"),
    RiskExample(Opportunity, "Market expansion to new geographic areas",
      "High", "Low",
      "Market research, develop expansion plan, secure resources, pilot test",
      "General Business"),
    RiskExample(Risk, "Economic downturn affecting sales",
      "High", "Low",
      "Diversify revenue streams, build cash reserves, flexible cost structure",
      "General Business")
  ]

  /** One entry of the examples record: an industry and its list. */
  datatype IndustryExamples = IndustryExamples(industry: string, examples: seq<RiskExample>)

  const FallbackIndustry: string := "General Business"

  /** The examples record, entries in declaration order (the order `Object.keys` reports). */
  const RiskExampleTable: seq<IndustryExamples> := [
    IndustryExamples("Technology/Software", TechnologyExamples),
    IndustryExamples("Professional Services", ProfessionalServicesExamples),
    IndustryExamples("Manufacturing", ManufacturingExamples),
    IndustryExamples("Healthcare", HealthcareExamples),
    IndustryExamples(FallbackIndustry, GeneralBusinessExamples)
  ]

  /** How many entries of a list are opportunities. */
  function CountOpportunities(examples: seq<RiskExample>): (n: nat)
    ensures n <= |examples|
  {
    if examples == [] then 0
    else (if examples[0].kind == Opportunity then 1 else 0) + CountOpportunities(examples[1..])
  }

  /** The shape every list of the record has: three or four entries, exactly one opportunity,
      and every entry tagged with the industry it is stored under. */
  ghost predicate WellFormedList(industry: string, examples: seq<RiskExample>)
  {
    && 3 <= |examples| <= 4
    && CountOpportunities(examples) == 1
    && forall i :: 0 <= i < |examples| ==> examples[i].industry == industry
  }

  lemma TechnologyWellFormed()
    ensures WellFormedList("Technology/Software", TechnologyExamples)
  {
  }

  lemma ProfessionalServicesWellFormed()
    ensures WellFormedList("Professional Services", ProfessionalServicesExamples)
  {
  }

  lemma ManufacturingWellFormed()
    ensures WellFormedList("Manufacturing", ManufacturingExamples)
  {
  }

  lemma HealthcareWellFormed()
    ensures WellFormedList("Healthcare", HealthcareExamples)
  {
  }

  lemma GeneralBusinessWellFormed()
    ensures WellFormedList(FallbackIndustry, GeneralBusinessExamples)
  {
  }

  /** The list at position `i` of the record has the well-formed shape, under its own key. */
  lemma EntryWellFormed(i: nat)
    requires i < |RiskExampleTable|
    ensures WellFormedList(RiskExampleTable[i].industry, RiskExampleTable[i].examples)
  {
    if i == 0 {
      TechnologyWellFormed();
    } else if i == 1 {
      ProfessionalServicesWellFormed();
    } else if i == 2 {
      ManufacturingWellFormed();
    } else if i == 3 {
      HealthcareWellFormed();
    } else {
      GeneralBusinessWellFormed();
    }
  }

  /** The list stored under `industry` in an association list, if it has that key. */
  function Lookup(table: seq<IndustryExamples>, industry: string): (r: Option<seq<RiskExample>>)
    ensures r.None? <==> forall i :: 0 <= i < |table| ==> table[i].industry != industry
    ensures r.Some? ==> exists i :: 0 <= i < |table| && table[i].industry == industry && table[i].examples == r.value
  {
    if table == [] then None
    else if table[0].industry == industry then Some(table[0].examples)
    else
      var r := Lookup(table[1..], industry);
      assert r.Some? ==> exists i :: 0 <= i < |table| && table[i].industry == industry && table[i].examples == r.value by {
        if r.Some? {
          var i :| 0 <= i < |table[1..]| && table[1..][i].industry == industry && table[1..][i].examples == r.value;
          assert table[i + 1] == table[1..][i];
        }
      }
      assert r.None? ==> forall i :: 0 <= i < |table| ==> table[i].industry != industry by {
        if r.None? {
          forall i | 0 <= i < |table| ensures table[i].industry != industry {
            if i > 0 { assert table[i] == table[1..][i - 1]; }
          }
        }
      }
      r
  }

  /** The keys of an association list, in order. */
  function Keys(table: seq<IndustryExamples>): (r: seq<string>)
    ensures |r| == |table|
    ensures forall i :: 0 <= i < |table| ==> r[i] == table[i].industry
  {
    if table == [] then [] else [table[0].industry] + Keys(table[1..])
  }

  /** `getIndustries`: `Object.keys` of the record. */
  function GetIndustries(): seq<string>
  {
    Keys(RiskExampleTable)
  }

  /** The industries are the five keys, in declaration order. */
  lemma IndustriesInOrder()
    ensures GetIndustries() == ["Technology/Software", "Professional Services", "Manufacturing", "Healthcare", "General Business"]
  {
  }

  /** `getRiskExamples`: the list stored under `industry`, or the General Business list when
      the record has no such key. */
  function GetRiskExamples(industry: string): seq<RiskExample>
  {
    match Lookup(RiskExampleTable, industry)
    case Some(examples) => examples
    case None => GeneralBusinessExamples
  }

  /** A known industry gets its own list: three or four examples, exactly one of them an
      opportunity, all tagged with that industry. */
  lemma KnownIndustry(industry: string)
    requires industry in GetIndustries()
    ensures exists i :: (0 <= i < |RiskExampleTable| && RiskExampleTable[i].industry == industry
                         && GetRiskExamples(industry) == RiskExampleTable[i].examples)
    ensures WellFormedList(industry, GetRiskExamples(industry))
  {
    var i :| 0 <= i < |RiskExampleTable| && RiskExampleTable[i].industry == industry
      && GetRiskExamples(industry) == RiskExampleTable[i].examples;
    EntryWellFormed(i);
  }

  /** Any other name falls back to the General Business list, which is never empty. */
  lemma UnknownIndustry(industry: string)
    requires industry !in GetIndustries()
    ensures GetRiskExamples(industry) == GeneralBusinessExamples
    ensures WellFormedList(FallbackIndustry, GetRiskExamples(industry))
  {
    GeneralBusinessWellFormed();
    forall i | 0 <= i < |RiskExampleTable| ensures RiskExampleTable[i].industry != industry {
      assert GetIndustries()[i] == RiskExampleTable[i].industry;
    }
  }
}
