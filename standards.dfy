/** The ISO 9001:2015 clause catalogue (clauses 4.1 to 10.3): the evidence each clause
    requires, and the lookups the scoring engine uses over it. */
module Standards {
  import opened Wrappers

  /** The kinds of evidence a clause can require. `Other` stands for a type name outside
      the six, which the checkers meet only through their default branches. */
  datatype EvidenceKind = Policy | Procedure | Record | Review | Action | RiskThinking | Other(name: string)

  /** The wire name of a kind, as it appears in ids, links and the seeded catalogue. */
  function KindName(k: EvidenceKind): string
  {
    match k
    case Policy => "policy"
    case Procedure => "procedure"
    case Record => "record"
    case Review => "review"
    case Action => "action"
    case RiskThinking => "risk_thinking"
    case Other(name) => name
  }

  datatype Requirement = Requirement(kind: EvidenceKind, description: string)

  /** The keys of the requirement table, in declaration order. */
  const ClauseCodes: seq<string> := ["4.1", "4.2", "4.3", "4.4", "5.1", "5.2", "5.3", "6.1", "6.2", "7.1", "7.2", "7.3", "7.4", "7.5", "8.1", "8.2", "8.3", "8.4", "8.5", "8.6", "8.7", "9.1", "9.2", "9.3", "10.1", "10.2", "10.3"]

  /** The table's entries: `TableEntries[i]` is the requirement list stored under `ClauseCodes[i]`. */
  const TableEntries: seq<seq<Requirement>> := [
    [Requirement(Procedure, "Understanding the organization and its context")],
    [Requirement(Procedure, "Understanding the needs and expectations of interested parties")],
    [Requirement(Procedure, "Determining the scope of the quality management system")],
    [Requirement(Procedure, "Processes and their interactions")],
    [Requirement(Procedure, "Leadership and commitment")],
    [Requirement(Policy, "Quality Policy")],
    [Requirement(Procedure, "Organizational roles, responsibilities and authorities")],
    [Requirement(RiskThinking, "Actions to address risks and opportunities")],
    [Requirement(Procedure, "Quality objectives and planning to achieve them")],
    [Requirement(Procedure, "Resources")],
    [Requirement(Procedure, "Competence")],
    [Requirement(Procedure, "Awareness")],
    [Requirement(Procedure, "Communication")],
    [Requirement(Procedure, "Documented information")],
    [Requirement(Procedure, "Operational planning and control")],
    [Requirement(Procedure, "Requirements for products and services")],
    [Requirement(Procedure, "Design and development of products and services")],
    [Requirement(Procedure, "Control of externally provided processes, products and services")],
    [Requirement(Procedure, "Production and service provision")],
    [Requirement(Record, "Release of products and services")],
    [Requirement(Procedure, "Control of nonconforming outputs")],
    [Requirement(Record, "Monitoring, measurement, analysis and evaluation")],
    [Requirement(Review, "Internal audit")],
    [Requirement(Review, "Management review")],
    [Requirement(Action, "General - Improvement")],
    [Requirement(Action, "Nonconformity and corrective action")],
    [Requirement(Action, "Continual improvement")]
  ]

  /** A position-revealing key: for the catalogue's codes it grows strictly along the table. */
  function CodeRank(c: string): int
  {
    if c == [] then 0 else |c| * 10000 + (c[0] as int) * 100 + c[|c| - 1] as int
  }

  lemma RanksIncrease()
    ensures |ClauseCodes| == |TableEntries| == 27
    ensures forall i :: 0 < i < |ClauseCodes| ==> CodeRank(ClauseCodes[i - 1]) < CodeRank(ClauseCodes[i])
  {
  }

  /** The table's 27 keys are pairwise distinct. */
  lemma {:induction false} CodesDistinct()
    ensures |ClauseCodes| == 27
    ensures forall i, j :: 0 <= i < j < |ClauseCodes| ==> ClauseCodes[i] != ClauseCodes[j]
  {
    RanksIncrease();
    forall i, j | 0 <= i < j < |ClauseCodes| ensures CodeRank(ClauseCodes[i]) < CodeRank(ClauseCodes[j]) {
      var k := i + 1;
      while k < j
        invariant i < k <= j
        invariant CodeRank(ClauseCodes[i]) < CodeRank(ClauseCodes[k])
      {
        k := k + 1;
      }
    }
  }

  /** Every table entry holds exactly one requirement. */
  lemma OneRequirementPerCode()
    ensures |TableEntries| == 27
    ensures forall i :: 0 <= i < |TableEntries| ==> |TableEntries[i]| == 1
  {
  }

  /** The review kind is stored only under 9.2 and 9.3 (positions 22 and 23). */
  lemma ReviewEntries()
    ensures ClauseCodes[22] == "9.2" && ClauseCodes[23] == "9.3"
    ensures forall i :: 0 <= i < |TableEntries| ==> (TableEntries[i][0].kind == Review <==> i == 22 || i == 23)
  {
  }

  /** The position of `x` in `s`, if any: the first one. */
  function IndexOf<T(==)>(s: seq<T>, x: T): (r: Option<nat>)
    ensures r.None? <==> x !in s
    ensures r.Some? ==> r.value < |s| && s[r.value] == x && x !in s[..r.value]
  {
    if s == [] then None
    else if s[0] == x then Some(0)
    else
      match IndexOf(s[1..], x)
      case None => None
      case Some(k) =>
        assert s[..k + 1] == [s[0]] + s[1..][..k];
        Some(k + 1)
  }

  /** `getEvidenceRequirements`: the table entry stored under a known code (never empty, since
      every entry holds one requirement), the empty list for any other code. */
  function GetEvidenceRequirements(code: string): (r: seq<Requirement>)
    ensures code !in ClauseCodes ==> r == []
    ensures code in ClauseCodes ==> |r| == 1
  {
    match IndexOf(ClauseCodes, code)
    case None => []
    case Some(i) =>
      OneRequirementPerCode();
      TableEntries[i]
  }

  /** A known code finds the entry stored under it. */
  lemma {:induction false} LookupKnownCode(i: nat)
    requires i < |ClauseCodes|
    ensures GetEvidenceRequirements(ClauseCodes[i]) == TableEntries[i]
  {
    CodesDistinct();
    var k := IndexOf(ClauseCodes, ClauseCodes[i]);
    assert k.Some? && ClauseCodes[k.value] == ClauseCodes[i];
  }

  /** `reqs.some(req => req.type === kind)`. */
  function SomeOfKind(reqs: seq<Requirement>, kind: EvidenceKind): (r: bool)
    ensures r <==> exists i :: 0 <= i < |reqs| && reqs[i].kind == kind
  {
    if reqs == [] then false
    else if reqs[0].kind == kind then true
    else
      var r := SomeOfKind(reqs[1..], kind);
      assert r ==> exists i :: 0 <= i < |reqs| && reqs[i].kind == kind by {
        if r {
          var i :| 0 <= i < |reqs[1..]| && reqs[1..][i].kind == kind;
          assert reqs[i + 1].kind == kind;
        }
      }
      r
  }

  /** `requiresEvidenceType`: some requirement of the clause has the kind; never for an unknown code. */
  function RequiresEvidenceType(code: string, kind: EvidenceKind): (r: bool)
    ensures r <==> exists i :: 0 <= i < |GetEvidenceRequirements(code)| && GetEvidenceRequirements(code)[i].kind == kind
    ensures code !in ClauseCodes ==> !r
  {
    SomeOfKind(GetEvidenceRequirements(code), kind)
  }

  /** The review kind is required exactly by the internal-audit and management-review clauses. */
  lemma ReviewOnlyUnderAuditAndReviewClauses(code: string)
    ensures RequiresEvidenceType(code, Review) <==> code == "9.2" || code == "9.3"
  {
    match IndexOf(ClauseCodes, code)
    case Some(i) =>
      ReviewAt(i);
    case None =>
      ReviewEntries();
      assert code != ClauseCodes[22] && code != ClauseCodes[23];
  }

  lemma ReviewAt(i: nat)
    requires i < |ClauseCodes|
    ensures RequiresEvidenceType(ClauseCodes[i], Review) <==> i == 22 || i == 23
    ensures ClauseCodes[i] == "9.2" || ClauseCodes[i] == "9.3" <==> i == 22 || i == 23
  {
    ReviewEntries();
    LookupKnownCode(i);
    OneRequirementPerCode();
    CodesDistinct();
    assert RequiresEvidenceType(ClauseCodes[i], Review) <==> TableEntries[i][0].kind == Review;
  }

  /** The five built-in plain-English texts, by clause code. */
  const PlainEnglishFallbacks: map<string, string> := map[
    "4.1" := "Understand your organization and the environment it operates in",
    "5.2" := "Have a clear Quality Policy that everyone knows",
    "6.1" := "Identify and manage risks and opportunities",
    "9.2" := "Conduct internal audits to check your system",
    "9.3" := "Management reviews the system regularly"
  ]

  /** `getClausePlainEnglish`: the built-in text for the five codes that have one, otherwise
      the generic `Clause <code> requirements`. The result is never empty. */
  function GetClausePlainEnglish(code: string): (r: string)
    ensures code in PlainEnglishFallbacks ==> r == PlainEnglishFallbacks[code]
    ensures code !in PlainEnglishFallbacks ==> r == "Clause " + code + " requirements"
    ensures |r| > 0
  {
    if code in PlainEnglishFallbacks then PlainEnglishFallbacks[code] else "Clause " + code + " requirements"
  }

  /** Exactly five codes have a built-in text, all of them catalogue codes. */
  lemma FallbackCodes()
    ensures PlainEnglishFallbacks.Keys == {"4.1", "5.2", "6.1", "9.2", "9.3"}
    ensures forall c :: c in PlainEnglishFallbacks ==> c in ClauseCodes
  {
  }
}
