/** The next-best-action prioritiser: candidate actions gathered from six sources, scored,
    sorted stably by descending priority and cut to a limit. */
module Actions {
  import opened Wrappers
  import opened Seqs
  import opened Text
  import opened Sorting
  import opened Standards
  import opened Records
  import opened Compliance

  datatype NextBestAction = NextBestAction(
    id: string,
    priority: int,
    clauseCode: string,
    clauseTitle: string,
    description: string,
    ctaLink: string,
    estimatedTime: string)

  // ---------------------------------------------------------------------------
  // calculatePriority
  // ---------------------------------------------------------------------------

  /** The per-type bonus table; any other type adds nothing. */
  function TypeWeight(actionType: string): int
  {
    if actionType == "missing_evidence" then 10
    else if actionType == "overdue" then 20
    else if actionType == "pending_approval" then 15
    else if actionType == "onboarding" then 5
    else 0
  }

  /** `Math.floor(parseFloat(code))`, with NaN counted as 0, on clause codes: the value of the
      leading digit run after leading white space. A code with no leading digit contributes 0.
      This agrees with the source on codes that start with a digit or with none; a sign,
      `Infinity` or an exponent are not modelled (`-4.1` floors to -5 in the source). */
  function CodeWeight(code: string): nat
  {
    DigitsValue(LeadingDigits(TrimStart(code)))
  }

  /** `calculatePriority`: 50, plus the type's bonus, plus the clause's integer part. */
  function CalculatePriority(actionType: string, code: string): int
  {
    50 + TypeWeight(actionType) + CodeWeight(code)
  }

  /** A code `<major>.<anything>` with a decimal major weighs its major's value. */
  lemma CodeWeightOfMajor(major: string, rest: string)
    requires major != [] && forall i :: 0 <= i < |major| ==> IsDigit(major[i])
    requires rest == [] || !IsDigit(rest[0])
    ensures CodeWeight(major + rest) == DigitsValue(major)
  {
    MajorIsLeadingRun(major, rest);
  }

  lemma MajorIsLeadingRun(major: string, rest: string)
    requires major != [] && forall i :: 0 <= i < |major| ==> IsDigit(major[i])
    requires rest == [] || !IsDigit(rest[0])
    ensures LeadingDigits(TrimStart(major + rest)) == major
  {
    TrimStartKeeps(major, rest);
    LeadingDigitsOf(major, rest);
  }

  /** A code whose first `k` characters are digits, followed by a non-digit or nothing, weighs
      the value of those digits. */
  lemma CodeWeightPrefix(code: string, k: nat)
    requires 0 < k <= |code|
    requires forall i :: 0 <= i < k ==> IsDigit(code[i])
    requires k == |code| || !IsDigit(code[k])
    ensures CodeWeight(code) == DigitsValue(code[..k])
  {
    assert code == code[..k] + code[k..];
    CodeWeightOfMajor(code[..k], code[k..]);
  }

  /** Overdue problems are scored as clause 10.2: 80. */
  lemma OverduePriority()
    ensures CalculatePriority("overdue", "10.2") == 80
  {
    CodeWeightPrefix("10.2", 2);
    assert DigitsValue("10.2"[..2]) == 10;
  }

  /** Pending approvals are scored as clause 7.5: 72. */
  lemma PendingApprovalPriority()
    ensures CalculatePriority("pending_approval", "7.5") == 72
  {
    CodeWeightPrefix("7.5", 1);
    assert DigitsValue("7.5"[..1]) == 7;
  }

  /** Missing evidence on 9.2 scores 69, on 10.1 scores 70. */
  lemma MissingEvidenceExamples()
    ensures CalculatePriority("missing_evidence", "9.2") == 69
    ensures CalculatePriority("missing_evidence", "10.1") == 70
  {
    CodeWeightPrefix("9.2", 1);
    assert DigitsValue("9.2"[..1]) == 9;
    CodeWeightPrefix("10.1", 2);
    assert DigitsValue("10.1"[..2]) == 10;
  }

  /** Missing evidence scores 60 plus the clause's major number. */
  lemma MissingEvidencePriority(major: string, rest: string)
    requires major != [] && forall i :: 0 <= i < |major| ==> IsDigit(major[i])
    requires rest == [] || !IsDigit(rest[0])
    ensures CalculatePriority("missing_evidence", major + rest) == 60 + DigitsValue(major)
  {
    CodeWeightOfMajor(major, rest);
  }

  // ---------------------------------------------------------------------------
  // getActionLink and getEstimatedTime
  // ---------------------------------------------------------------------------

  /** `getActionLink`: evidence kinds link to the evidence form with the upper-cased type; risk,
      review (on 9.2 and 9.3 only) and action kinds to their own forms; anything else to the
      dashboard. */
  function GetActionLink(kind: EvidenceKind, code: string): string
  {
    match kind
    case Policy => "/evidence/new?type=" + Upper(KindName(kind)) + "&clause=" + code
    case Procedure => "/evidence/new?type=" + Upper(KindName(kind)) + "&clause=" + code
    case Record => "/evidence/new?type=" + Upper(KindName(kind)) + "&clause=" + code
    case RiskThinking => "/risks/new"
    case Review =>
      if code == "9.2" then "/audits/new"
      else if code == "9.3" then "/reviews/new"
      else "/dashboard"
    case Action => "/problems/new"
    case Other(_) => "/dashboard"
  }

  /** `getEstimatedTime`: a per-kind estimate, 15 minutes by default. */
  function GetEstimatedTime(kind: EvidenceKind): string
  {
    match kind
    case Policy => "20 min"
    case Procedure => "30 min"
    case Record => "10 min"
    case RiskThinking => "15 min"
    case Review => "20 min"
    case Action => "15 min"
    case Other(_) => "15 min"
  }

  /** Upper-casing a kind's wire name gives the evidence type it looks for. */
  lemma UpperKindName(k: EvidenceKind)
    requires k.Policy? || k.Procedure? || k.Record?
    ensures Upper(KindName(k)) == EvidenceTypeOf(k)
  {
    match k
    case Policy => UpperWord("policy", "POLICY");
    case Procedure => UpperWord("procedure", "PROCEDURE");
    case Record => UpperWord("record", "RECORD");
  }

  lemma UpperWord(w: string, u: string)
    requires |w| == |u| && forall i :: 0 <= i < |w| ==> UpperChar(w[i]) == u[i]
    ensures Upper(w) == u
  {
  }

  /** The action link agrees with the clause card's fix link wherever the card has one, except
      that evidence links spell the type in upper case (`POLICY`) where the card's link spells
      it in lower case (`policy`); where the card has no link the action points to the
      dashboard. */
  lemma ActionLinkAgreesWithFixLink(code: string, req: Requirement)
    ensures GetFixLinks(code, req) == [] ==> GetActionLink(req.kind, code) == "/dashboard"
    ensures GetFixLinks(code, req) != [] && !(req.kind.Policy? || req.kind.Procedure? || req.kind.Record?)
      ==> GetActionLink(req.kind, code) == GetFixLinks(code, req)[0].href
    ensures (req.kind.Policy? || req.kind.Procedure? || req.kind.Record?) ==>
      GetActionLink(req.kind, code) == "/evidence/new?type=" + EvidenceTypeOf(req.kind) + "&clause=" + code &&
      GetFixLinks(code, req)[0].href == "/evidence/new?type=" + KindName(req.kind) + "&clause=" + code
  {
    if req.kind.Policy? || req.kind.Procedure? || req.kind.Record? {
      UpperKindName(req.kind);
    }
  }

  /** Every estimate is one of the listed durations; unknown kinds get the 15-minute default. */
  lemma EstimatedTimeDefault(kind: EvidenceKind)
    ensures kind.Other? ==> GetEstimatedTime(kind) == "15 min"
    ensures GetEstimatedTime(kind) in {"5 min", "10 min", "15 min", "20 min", "30 min"}
  {
  }

  // ---------------------------------------------------------------------------
  // The six candidate sources
  // ---------------------------------------------------------------------------

  predicate IsOpen(p: ProblemRow)
  {
    p.status == "OPEN"
  }

  /** The description is non-empty and, lower-cased, mentions a skipped onboarding step. */
  predicate MentionsOnboarding(p: ProblemRow)
  {
    p.description != "" &&
    (Contains(Lower(p.description), "complete onboarding") || Contains(Lower(p.description), "onboarding step"))
  }

  /** `orderBy: { createdAt: 'asc' }`, as a comparator. */
  function ByCreatedAt(a: ProblemRow, b: ProblemRow): int
  {
    a.createdAt - b.createdAt
  }

  /** The OPEN problems, oldest first, that record a skipped onboarding step: at most three. */
  function SkippedOnboarding(data: TenantData): seq<ProblemRow>
  {
    Take(Filter(SortBy(Filter(data.problems, IsOpen), ByCreatedAt), MentionsOnboarding), 3)
  }

  function OnboardingAction(p: ProblemRow): NextBestAction
  {
    NextBestAction("onboarding-skipped-" + p.id, 75, "4.1", "Understanding the organization",
      p.description, "/onboarding", "15 min")
  }

  /** The candidate for an unmet requirement of a clause. */
  function MissingAction(clause: Clause, req: Requirement): NextBestAction
  {
    NextBestAction(
      "missing-" + clause.code + "-" + KindName(req.kind),
      CalculatePriority("missing_evidence", clause.code),
      clause.code,
      clause.title,
      "Missing " + req.description + " for " + clause.code,
      GetActionLink(req.kind, clause.code),
      GetEstimatedTime(req.kind))
  }

  function MissingActionFor(clause: Clause): Requirement -> NextBestAction
  {
    (req: Requirement) => MissingAction(clause, req)
  }

  /** One candidate per unmet requirement among `reqs`, in order. */
  function MissingForReqs(data: TenantData, clause: Clause, reqs: seq<Requirement>): seq<NextBestAction>
  {
    MapSeq(Filter(reqs, Unmet(data, clause.code)), MissingActionFor(clause))
  }

  /** The missing-evidence candidates of the clauses, clause by clause. */
  function MissingActions(data: TenantData, clauses: seq<Clause>): seq<NextBestAction>
  {
    if clauses == [] then []
    else
      var last := clauses[|clauses| - 1];
      MissingActions(data, clauses[..|clauses| - 1])
        + MissingForReqs(data, last, GetEvidenceRequirements(last.code))
  }

  /** An OPEN or IN_PROGRESS problem whose due date lies before `now`; a problem without a due
      date is never overdue. */
  function IsOverdue(now: int): ProblemRow -> bool
  {
    (p: ProblemRow) => (p.status == "OPEN" || p.status == "IN_PROGRESS") && p.dueDate.Some? && p.dueDate.value < now
  }

  function OverdueAction(p: ProblemRow): NextBestAction
  {
    NextBestAction("overdue-" + p.id, CalculatePriority("overdue", "10.2"), "10.2",
      "Nonconformity and corrective action",
      "Overdue corrective action: " + Take(p.description, 50) + "...",
      "/problems/" + p.id, "15 min")
  }

  predicate IsDraft(e: EvidenceRow)
  {
    e.status == "DRAFT"
  }

  function ApproveAction(e: EvidenceRow): NextBestAction
  {
    NextBestAction("approve-" + e.id, CalculatePriority("pending_approval", "7.5"), "7.5",
      "Documented information", "Approve evidence: " + e.title, "/evidence/" + e.id, "5 min")
  }

  const CompanyAction := NextBestAction("onboarding-company", 100, "4.1", "Understanding the organization",
    "Complete company profile", "/onboarding?step=1", "10 min")
  const ProcessesAction := NextBestAction("onboarding-processes", 95, "4.4", "Processes and their interactions",
    "Add your business processes", "/onboarding?step=2", "15 min")
  const RisksAction := NextBestAction("onboarding-risks", 90, "6.1", "Actions to address risks and opportunities",
    "Add 3-5 risks or opportunities", "/onboarding?step=3", "20 min")
  const ReviewAction := NextBestAction("onboarding-review", 85, "9.3", "Management review",
    "Record your first management review", "/onboarding?step=4", "10 min")
  const PolicyAction := NextBestAction("onboarding-policy", 80, "5.2", "Quality Policy",
    "Upload and approve Quality Policy", "/onboarding?step=5", "15 min")
  const RolesAction := NextBestAction("assign-roles", 70, "5.3", "Organizational roles, responsibilities and authorities",
    "Assign users to roles", "/company/roles", "10 min")

  /** `if (cond) actions.push(a)`. */
  function PushIf(s: seq<NextBestAction>, cond: bool, a: NextBestAction): seq<NextBestAction>
  {
    if cond then s + [a] else s
  }

  /** `s` after the setup and role checks, each pushing its candidate when its condition holds. */
  function WithSetup(s: seq<NextBestAction>, data: TenantData): seq<NextBestAction>
  {
    var s1 := PushIf(s, !data.hasProfile, CompanyAction);
    var s2 := PushIf(s1, data.processCount == 0, ProcessesAction);
    var s3 := PushIf(s2, data.riskCount < 3, RisksAction);
    var s4 := PushIf(s3, data.reviewCount == 0, ReviewAction);
    var s5 := PushIf(s4, !HasApproved(data, "POLICY"), PolicyAction);
    PushIf(s5, data.roleCount > 0 && data.assignmentCount == 0, RolesAction)
  }

  /** The setup and role candidates whose conditions hold, in the order they are checked. */
  function SetupActions(data: TenantData): seq<NextBestAction>
  {
    WithSetup([], data)
  }

  lemma PushIfAppend(s: seq<NextBestAction>, t: seq<NextBestAction>, cond: bool, a: NextBestAction)
    ensures PushIf(s + t, cond, a) == s + PushIf(t, cond, a)
  {
    if cond {
      AppendAssoc(s, t, [a]);
    }
  }

  /** Running the checks after earlier pushes appends the same candidates. */
  lemma WithSetupAppends(s: seq<NextBestAction>, data: TenantData)
    ensures WithSetup(s, data) == s + SetupActions(data)
  {
    var t0: seq<NextBestAction> := [];
    assert s == s + t0;
    var t1 := PushIf(t0, !data.hasProfile, CompanyAction);
    PushIfAppend(s, t0, !data.hasProfile, CompanyAction);
    var t2 := PushIf(t1, data.processCount == 0, ProcessesAction);
    PushIfAppend(s, t1, data.processCount == 0, ProcessesAction);
    var t3 := PushIf(t2, data.riskCount < 3, RisksAction);
    PushIfAppend(s, t2, data.riskCount < 3, RisksAction);
    var t4 := PushIf(t3, data.reviewCount == 0, ReviewAction);
    PushIfAppend(s, t3, data.reviewCount == 0, ReviewAction);
    var t5 := PushIf(t4, !HasApproved(data, "POLICY"), PolicyAction);
    PushIfAppend(s, t4, !HasApproved(data, "POLICY"), PolicyAction);
    PushIfAppend(s, t5, data.roleCount > 0 && data.assignmentCount == 0, RolesAction);
  }

  /** Every candidate in scan order: skipped onboarding, missing evidence, overdue problems,
      pending approvals, then the setup and role checks. */
  function Candidates(data: TenantData, clauses: seq<Clause>, now: int): seq<NextBestAction>
  {
    MapSeq(SkippedOnboarding(data), OnboardingAction)
    + MissingActions(data, clauses)
    + MapSeq(Filter(data.problems, IsOverdue(now)), OverdueAction)
    + MapSeq(Filter(data.evidence, IsDraft), ApproveAction)
    + SetupActions(data)
  }

  // ---------------------------------------------------------------------------
  // Sorting and truncation
  // ---------------------------------------------------------------------------

  /** `(a, b) => b.priority - a.priority`: higher priorities first. */
  function ByPriority(a: NextBestAction, b: NextBestAction): int
  {
    b.priority - a.priority
  }

  function PriorityOf(a: NextBestAction): int
  {
    a.priority
  }

  /** `slice(0, end)`: a negative end counts back from the end of the list. */
  function SliceTo<T>(s: seq<T>, end: int): (r: seq<T>)
    ensures r <= s
    ensures end >= 0 ==> |r| == if end < |s| then end else |s|
    ensures end < 0 ==> |r| == if |s| + end > 0 then |s| + end else 0
  {
    if end >= 0 then Take(s, end)
    else if |s| + end > 0 then s[..|s| + end]
    else []
  }

  /** The candidates sorted stably by descending priority, cut at `limit`. */
  function Ranked(cands: seq<NextBestAction>, limit: int): seq<NextBestAction>
  {
    SliceTo(SortBy(cands, ByPriority), limit)
  }

  /** `getNextBestActions`, as a value. */
  function NextBestActions(data: TenantData, clauses: seq<Clause>, limit: int, now: int): seq<NextBestAction>
  {
    Ranked(Candidates(data, clauses, now), limit)
  }

  /** Section 0 of `getNextBestActions`: one candidate per skipped onboarding step. */
  method PushSkippedOnboarding(actions: seq<NextBestAction>, data: TenantData) returns (out: seq<NextBestAction>)
    ensures out == actions + MapSeq(SkippedOnboarding(data), OnboardingAction)
  {
    out := actions;
    var skipped := SkippedOnboarding(data);
    for i := 0 to |skipped|
      invariant out == actions + MapSeq(skipped[..i], OnboardingAction)
    {
      MapSeqSnoc(skipped, OnboardingAction, i);
      AppendAssoc(actions, MapSeq(skipped[..i], OnboardingAction), [OnboardingAction(skipped[i])]);
      out := out + [OnboardingAction(skipped[i])];
    }
    assert skipped[..|skipped|] == skipped;
  }

  /** Section 1: for each clause, one candidate per requirement the tenant does not meet. */
  method PushMissingEvidence(actions: seq<NextBestAction>, data: TenantData, clauses: seq<Clause>)
    returns (out: seq<NextBestAction>)
    ensures out == actions + MissingActions(data, clauses)
  {
    out := actions;
    for i := 0 to |clauses|
      invariant out == actions + MissingActions(data, clauses[..i])
    {
      var clause := clauses[i];
      var reqs := GetEvidenceRequirements(clause.code);
      ghost var outer := out;
      ghost var unmet := Unmet(data, clause.code);
      for j := 0 to |reqs|
        invariant out == PushAllIf(outer, reqs[..j], unmet, MissingActionFor(clause))
      {
        PushAllIfStep(outer, reqs, unmet, MissingActionFor(clause), j);
        var has := CheckRequirement(data, clause.code, reqs[j]);
        assert unmet(reqs[j]) == !has;
        if !has {
          out := out + [MissingAction(clause, reqs[j])];
        }
      }
      assert reqs[..|reqs|] == reqs;
      PushAllIfIsAppend(outer, reqs, unmet, MissingActionFor(clause));
      TakeStep(clauses, i);
      AppendAssoc(actions, MissingActions(data, clauses[..i]), MissingForReqs(data, clause, reqs));
    }
    assert clauses[..|clauses|] == clauses;
  }

  /** Section 2: one candidate per overdue OPEN or IN_PROGRESS problem. */
  method PushOverdue(actions: seq<NextBestAction>, data: TenantData, now: int) returns (out: seq<NextBestAction>)
    ensures out == actions + MapSeq(Filter(data.problems, IsOverdue(now)), OverdueAction)
  {
    out := actions;
    var overdue := Filter(data.problems, IsOverdue(now));
    for i := 0 to |overdue|
      invariant out == actions + MapSeq(overdue[..i], OverdueAction)
    {
      MapSeqSnoc(overdue, OverdueAction, i);
      AppendAssoc(actions, MapSeq(overdue[..i], OverdueAction), [OverdueAction(overdue[i])]);
      out := out + [OverdueAction(overdue[i])];
    }
    assert overdue[..|overdue|] == overdue;
  }

  /** Section 3: one candidate per DRAFT evidence row. */
  method PushPendingApprovals(actions: seq<NextBestAction>, data: TenantData) returns (out: seq<NextBestAction>)
    ensures out == actions + MapSeq(Filter(data.evidence, IsDraft), ApproveAction)
  {
    out := actions;
    var pending := Filter(data.evidence, IsDraft);
    for i := 0 to |pending|
      invariant out == actions + MapSeq(pending[..i], ApproveAction)
    {
      MapSeqSnoc(pending, ApproveAction, i);
      AppendAssoc(actions, MapSeq(pending[..i], ApproveAction), [ApproveAction(pending[i])]);
      out := out + [ApproveAction(pending[i])];
    }
    assert pending[..|pending|] == pending;
  }

  /** Sections 4 and 5: the setup checks and the role-assignment check. */
  method PushSetupChecks(actions: seq<NextBestAction>, data: TenantData) returns (out: seq<NextBestAction>)
    ensures out == actions + SetupActions(data)
  {
    out := actions;
    if !data.hasProfile {
      out := out + [CompanyAction];
    }
    assert out == PushIf(actions, !data.hasProfile, CompanyAction);
    ghost var s1 := out;
    if data.processCount == 0 {
      out := out + [ProcessesAction];
    }
    assert out == PushIf(s1, data.processCount == 0, ProcessesAction);
    ghost var s2 := out;
    if data.riskCount < 3 {
      out := out + [RisksAction];
    }
    assert out == PushIf(s2, data.riskCount < 3, RisksAction);
    ghost var s3 := out;
    if data.reviewCount == 0 {
      out := out + [ReviewAction];
    }
    assert out == PushIf(s3, data.reviewCount == 0, ReviewAction);
    ghost var s4 := out;
    if !HasApproved(data, "POLICY") {
      out := out + [PolicyAction];
    }
    assert out == PushIf(s4, !HasApproved(data, "POLICY"), PolicyAction);
    ghost var s5 := out;
    if data.roleCount > 0 && data.assignmentCount == 0 {
      out := out + [RolesAction];
    }
    assert out == PushIf(s5, data.roleCount > 0 && data.assignmentCount == 0, RolesAction);
    WithSetupAppends(actions, data);
  }

  /** `getNextBestActions`: pushes the candidates of each source in turn, then sorts by
      descending priority and keeps the first `limit`. */
  method GetNextBestActions(data: TenantData, clauses: seq<Clause>, limit: int, now: int)
    returns (result: seq<NextBestAction>)
    ensures result == NextBestActions(data, clauses, limit, now)
  {
    var actions: seq<NextBestAction> := [];
    ghost var skipped := MapSeq(SkippedOnboarding(data), OnboardingAction);
    actions := PushSkippedOnboarding(actions, data);
    assert actions == skipped by {
      assert [] + skipped == skipped;
    }
    actions := PushMissingEvidence(actions, data, clauses);
    actions := PushOverdue(actions, data, now);
    actions := PushPendingApprovals(actions, data);
    actions := PushSetupChecks(actions, data);
    result := SliceTo(SortBy(actions, ByPriority), limit);
  }

  // ---------------------------------------------------------------------------
  // What the ranking promises
  // ---------------------------------------------------------------------------

  /** Any two actions compare one way or the other, and "not after" is transitive. */
  lemma ByPriorityPreorder()
    ensures PreorderOn(ByPriority, (a: NextBestAction) => true)
    ensures DescendingBy(ByPriority, PriorityOf)
  {
  }

  /** The ranked list is a prefix of the candidates sorted by priority, at most `limit` long,
      drawn from the candidates, with priorities never increasing along it. */
  lemma RankedShape(cands: seq<NextBestAction>, limit: int)
    ensures Ranked(cands, limit) <= SortBy(cands, ByPriority)
    ensures limit >= 0 ==> |Ranked(cands, limit)| == if limit < |cands| then limit else |cands|
    ensures multiset(Ranked(cands, limit)) <= multiset(cands)
    ensures forall i, j :: 0 <= i < j < |Ranked(cands, limit)| ==>
      Ranked(cands, limit)[i].priority >= Ranked(cands, limit)[j].priority
  {
    var sorted := SortBy(cands, ByPriority);
    var r := Ranked(cands, limit);
    ByPriorityPreorder();
    SortBySorted(cands, ByPriority, (a: NextBestAction) => true);
    PrefixSorted(sorted, r, ByPriority);
    assert sorted == r + sorted[|r|..];
    assert multiset(sorted) == multiset(r) + multiset(sorted[|r|..]);
    forall i, j | 0 <= i < j < |r| ensures r[i].priority >= r[j].priority {
      assert ByPriority(r[i], r[j]) <= 0;
    }
  }

  function PriorityIs(k: int): NextBestAction -> bool
  {
    (a: NextBestAction) => a.priority == k
  }

  /** Stability: the candidates of any one priority appear in the sorted list in scan order. */
  lemma RankedStable(cands: seq<NextBestAction>, k: int)
    ensures Filter(SortBy(cands, ByPriority), PriorityIs(k)) == Filter(cands, PriorityIs(k))
  {
    ByPriorityPreorder();
    SortByStable(cands, ByPriority, PriorityOf, k, PriorityIs(k));
  }

  /** At most three skipped-onboarding candidates, each taken from an OPEN problem that
      mentions onboarding, oldest first, each scored 75. */
  lemma SkippedOnboardingFacts(data: TenantData)
    ensures |SkippedOnboarding(data)| <= 3
    ensures forall i :: 0 <= i < |SkippedOnboarding(data)| ==>
      SkippedOnboarding(data)[i] in data.problems && IsOpen(SkippedOnboarding(data)[i])
        && MentionsOnboarding(SkippedOnboarding(data)[i])
    ensures forall i, j :: 0 <= i < j < |SkippedOnboarding(data)| ==>
      SkippedOnboarding(data)[i].createdAt <= SkippedOnboarding(data)[j].createdAt
    ensures forall a :: a in MapSeq(SkippedOnboarding(data), OnboardingAction) ==> a.priority == 75
  {
    var open := Filter(data.problems, IsOpen);
    var sorted := SortBy(open, ByCreatedAt);
    var mention := Filter(sorted, MentionsOnboarding);
    var skipped := SkippedOnboarding(data);
    assert PreorderOn(ByCreatedAt, (p: ProblemRow) => true);
    SortBySorted(open, ByCreatedAt, (p: ProblemRow) => true);
    FilterKeepsSorted(sorted, MentionsOnboarding, ByCreatedAt);
    PrefixSorted(mention, skipped, ByCreatedAt);
    forall i | 0 <= i < |skipped|
      ensures skipped[i] in data.problems && IsOpen(skipped[i]) && MentionsOnboarding(skipped[i])
    {
      assert skipped[i] == mention[i];
      assert mention[i] in sorted;
      assert multiset(sorted) == multiset(open);
      assert mention[i] in multiset(open);
    }
    forall i, j | 0 <= i < j < |skipped| ensures skipped[i].createdAt <= skipped[j].createdAt {
      assert ByCreatedAt(skipped[i], skipped[j]) <= 0;
    }
  }

  /** The missing-evidence candidates of a clause correspond one to one, in order, to the
      missing items of its card: same count, each described as `Missing <item> for <code>`,
      filed under the clause and scored as missing evidence. */
  lemma MissingMatchesCard(data: TenantData, clause: Clause, reqs: seq<Requirement>)
    ensures |MissingForReqs(data, clause, reqs)| == |CardFor(data, clause, reqs).missingItems|
    ensures forall i :: 0 <= i < |CardFor(data, clause, reqs).missingItems| ==>
      var a := MissingForReqs(data, clause, reqs)[i];
      a.description == "Missing " + CardFor(data, clause, reqs).missingItems[i] + " for " + clause.code
        && a.clauseCode == clause.code
        && a.priority == CalculatePriority("missing_evidence", clause.code)
  {
    MissingIsFilter(data, clause.code, reqs);
  }

  /** The total number of missing items over a list of cards. */
  function TotalMissing(cards: seq<ClauseCard>): nat
  {
    if cards == [] then 0
    else TotalMissing(cards[..|cards| - 1]) + |cards[|cards| - 1].missingItems|
  }

  /** There are exactly as many missing-evidence candidates as missing items on the clauses'
      cards. */
  lemma {:induction false} MissingActionsCount(data: TenantData, clauses: seq<Clause>)
    ensures |MissingActions(data, clauses)| == TotalMissing(CardsOf(data, clauses))
  {
    if clauses != [] {
      var init := clauses[..|clauses| - 1];
      var last := clauses[|clauses| - 1];
      MissingActionsCount(data, init);
      MissingMatchesCard(data, last, GetEvidenceRequirements(last.code));
      var cards := CardsOf(data, clauses);
      assert cards[..|cards| - 1] == CardsOf(data, init);
      assert cards[|cards| - 1] == ClauseCardOf(data, last);
    }
  }

  /** Each overdue problem yields one candidate scored 80, and each DRAFT evidence row one
      candidate scored 72, in table order. */
  lemma OverdueAndPendingScores(data: TenantData, now: int)
    ensures forall a :: a in MapSeq(Filter(data.problems, IsOverdue(now)), OverdueAction) ==> a.priority == 80
    ensures forall a :: a in MapSeq(Filter(data.evidence, IsDraft), ApproveAction) ==> a.priority == 72
  {
    OverduePriority();
    PendingApprovalPriority();
  }

  lemma InPushIf(s: seq<NextBestAction>, cond: bool, a: NextBestAction, x: NextBestAction)
    ensures x in PushIf(s, cond, a) <==> x in s || (cond && x == a)
  {
  }

  /** What it takes for an action to be among the setup candidates. */
  lemma SetupMembership(data: TenantData, x: NextBestAction)
    ensures x in SetupActions(data) <==>
      (x == CompanyAction && !data.hasProfile)
      || (x == ProcessesAction && data.processCount == 0)
      || (x == RisksAction && data.riskCount < 3)
      || (x == ReviewAction && data.reviewCount == 0)
      || (x == PolicyAction && !HasApproved(data, "POLICY"))
      || (x == RolesAction && data.roleCount > 0 && data.assignmentCount == 0)
  {
    var s1 := PushIf([], !data.hasProfile, CompanyAction);
    var s2 := PushIf(s1, data.processCount == 0, ProcessesAction);
    var s3 := PushIf(s2, data.riskCount < 3, RisksAction);
    var s4 := PushIf(s3, data.reviewCount == 0, ReviewAction);
    var s5 := PushIf(s4, !HasApproved(data, "POLICY"), PolicyAction);
    InPushIf([], !data.hasProfile, CompanyAction, x);
    InPushIf(s1, data.processCount == 0, ProcessesAction, x);
    InPushIf(s2, data.riskCount < 3, RisksAction, x);
    InPushIf(s3, data.reviewCount == 0, ReviewAction, x);
    InPushIf(s4, !HasApproved(data, "POLICY"), PolicyAction, x);
    InPushIf(s5, data.roleCount > 0 && data.assignmentCount == 0, RolesAction, x);
  }

  /** Each setup candidate is present exactly when its condition holds. */
  lemma SetupPresence(data: TenantData)
    ensures CompanyAction in SetupActions(data) <==> !data.hasProfile
    ensures ProcessesAction in SetupActions(data) <==> data.processCount == 0
    ensures RisksAction in SetupActions(data) <==> data.riskCount < 3
    ensures ReviewAction in SetupActions(data) <==> data.reviewCount == 0
    ensures PolicyAction in SetupActions(data) <==> !HasApproved(data, "POLICY")
    ensures RolesAction in SetupActions(data) <==> data.roleCount > 0 && data.assignmentCount == 0
  {
    SetupMembership(data, CompanyAction);
    SetupMembership(data, ProcessesAction);
    SetupMembership(data, RisksAction);
    SetupMembership(data, ReviewAction);
    SetupMembership(data, PolicyAction);
    SetupMembership(data, RolesAction);
  }
}
