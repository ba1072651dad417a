/** The dashboard projection: from the catalogue, the tenant's scope rows and the tenant's
    records it selects the applicable clauses, scores them, counts the card statuses, ranks the
    next actions and lists the items needing attention. */
module Dashboard {
  import opened Wrappers
  import opened Seqs
  import opened Text
  import opened Records
  import opened Compliance
  import opened Actions

  /** A tenant's scope row: whether the clause with id `clauseId` applies to it. */
  datatype ScopeRow = ScopeRow(clauseId: string, applicable: bool)

  datatype AttentionType = OverdueItem | PendingApprovalItem

  datatype AttentionItem = AttentionItem(
    id: string,
    itemType: AttentionType,
    title: string,
    description: string,
    dueDate: Option<int>,
    link: string)

  datatype DashboardView = DashboardView(
    percentage: int,
    greenCount: nat,
    amberCount: nat,
    redCount: nat,
    totalClauses: nat,
    clauseCards: seq<ClauseCard>,
    nextActions: seq<NextBestAction>,
    attentionItems: seq<AttentionItem>,
    isEmpty: bool)

  /** The ids of the clauses marked applicable. */
  function ApplicableIds(scopes: seq<ScopeRow>): set<string>
  {
    set s | s in scopes && s.applicable :: s.clauseId
  }

  function InIds(ids: set<string>): Clause -> bool
  {
    (c: Clause) => c.id in ids
  }

  /** The catalogue clauses, in catalogue order, that some scope row marks applicable. */
  function ApplicableClauses(clauses: seq<Clause>, scopes: seq<ScopeRow>): seq<Clause>
  {
    Filter(clauses, InIds(ApplicableIds(scopes)))
  }

  /** Applicability is opt-in: a clause is kept exactly when a scope row with its id says
      `applicable`, so a clause without a scope row is left out; and the kept clauses keep
      the catalogue order. */
  lemma ApplicableIsOptIn(clauses: seq<Clause>, scopes: seq<ScopeRow>)
    ensures forall c :: c in ApplicableClauses(clauses, scopes) <==>
      c in clauses && exists s :: s in scopes && s.applicable && s.clauseId == c.id
    ensures IsSubsequence(ApplicableClauses(clauses, scopes), clauses)
  {
    FilterIsSubsequence(clauses, InIds(ApplicableIds(scopes)));
  }

  predicate IsAmberCard(c: ClauseCard)
  {
    c.status == Amber
  }

  predicate IsRedCard(c: ClauseCard)
  {
    c.status == Red
  }

  /** Every card is counted under exactly one status. */
  lemma {:induction false} StatusCountsAddUp(cards: seq<ClauseCard>)
    ensures |Filter(cards, IsGreenCard)| + |Filter(cards, IsAmberCard)| + |Filter(cards, IsRedCard)|
         == |cards|
  {
    if cards != [] {
      StatusCountsAddUp(cards[1..]);
    }
  }

  /** An attention item for an overdue corrective action. */
  function OverdueItemFor(p: ProblemRow): AttentionItem
  {
    AttentionItem("overdue-" + p.id, OverdueItem,
      "Corrective Action: " + Take(p.description, 50) + "...",
      p.description, p.dueDate, "/problems/" + p.id)
  }

  /** An attention item for evidence awaiting approval. */
  function PendingItemFor(e: EvidenceRow): AttentionItem
  {
    AttentionItem("approve-" + e.id, PendingApprovalItem,
      "Evidence: " + e.title,
      "Pending approval for " + Lower(e.evType), None, "/evidence/" + e.id)
  }

  /** The first ten open or in-progress problems due before `now`, in table order. */
  function OverdueShown(data: TenantData, now: int): (r: seq<ProblemRow>)
    ensures |r| <= 10
    ensures forall p :: p in r ==> p in data.problems && IsOverdue(now)(p)
  {
    var all := Filter(data.problems, IsOverdue(now));
    var r := Take(all, 10);
    assert forall p :: p in r ==> p in all;
    r
  }

  /** The first ten DRAFT evidence rows, in table order. */
  function PendingShown(data: TenantData): (r: seq<EvidenceRow>)
    ensures |r| <= 10
    ensures forall e :: e in r ==> e in data.evidence && e.status == "DRAFT"
  {
    var all := Filter(data.evidence, IsDraft);
    var r := Take(all, 10);
    assert forall e :: e in r ==> e in all;
    r
  }

  /** The overdue items, then the pending-approval items. */
  function AttentionItems(data: TenantData, now: int): seq<AttentionItem>
  {
    MapSeq(OverdueShown(data, now), OverdueItemFor) + MapSeq(PendingShown(data), PendingItemFor)
  }

  /** At most twenty items: first one per shown overdue problem, then one per shown DRAFT
      evidence row, each in table order. */
  lemma AttentionItemsShape(data: TenantData, now: int)
    ensures var items := AttentionItems(data, now);
      var overdue := OverdueShown(data, now);
      var pending := PendingShown(data);
      && |items| == |overdue| + |pending| <= 20
      && (forall i :: 0 <= i < |overdue| ==>
            items[i] == OverdueItemFor(overdue[i]) && items[i].itemType == OverdueItem)
      && (forall i :: |overdue| <= i < |items| ==>
            items[i] == PendingItemFor(pending[i - |overdue|]) && items[i].itemType == PendingApprovalItem)
  {
  }

  /** The dashboard for one tenant at instant `now`. */
  function DashboardOf(data: TenantData, clauses: seq<Clause>, scopes: seq<ScopeRow>, now: int)
    : DashboardView
  {
    var applicable := ApplicableClauses(clauses, scopes);
    var cards := CardsOf(data, applicable);
    DashboardView(
      Percent(GreenCount(cards), |applicable|),
      |Filter(cards, IsGreenCard)|,
      |Filter(cards, IsAmberCard)|,
      |Filter(cards, IsRedCard)|,
      |applicable|,
      cards,
      NextBestActions(data, applicable, 5, now),
      AttentionItems(data, now),
      !data.hasProfile && data.processCount == 0)
  }

  /** The counts add up to the number of applicable clauses, the percentage is the rounded
      share of the green count, at most five actions are proposed, and the dashboard is empty
      exactly when there is neither a company profile nor a process. */
  lemma DashboardConsistent(data: TenantData, clauses: seq<Clause>, scopes: seq<ScopeRow>, now: int)
    ensures var v := DashboardOf(data, clauses, scopes, now);
      && v.greenCount + v.amberCount + v.redCount == v.totalClauses
      && v.totalClauses == |ApplicableClauses(clauses, scopes)| == |v.clauseCards|
      && v.percentage == Percent(v.greenCount, v.totalClauses)
      && 0 <= v.percentage <= 100
      && |v.nextActions| <= 5
      && (v.isEmpty <==> !data.hasProfile && data.processCount == 0)
  {
    var applicable := ApplicableClauses(clauses, scopes);
    var cards := CardsOf(data, applicable);
    StatusCountsAddUp(cards);
    GreenCountIsFilter(cards);
    ReadinessBounds(cards);
    RankedShape(Candidates(data, applicable, now), 5);
  }

  /** The route's `GET`: the same steps in the same order, through the engine's methods. */
  method Get(data: TenantData, clauses: seq<Clause>, scopes: seq<ScopeRow>, now: int)
    returns (view: DashboardView)
    ensures view == DashboardOf(data, clauses, scopes, now)
  {
    var applicable := ApplicableClauses(clauses, scopes);
    var percentage := CalculateReadinessPercentage(data, applicable);
    var cards := GetAllClauseCards(data, applicable);
    var green := |Filter(cards, IsGreenCard)|;
    var amber := |Filter(cards, IsAmberCard)|;
    var red := |Filter(cards, IsRedCard)|;
    var next := GetNextBestActions(data, applicable, 5, now);
    var attention := AttentionItems(data, now);
    var isEmpty := !data.hasProfile && data.processCount == 0;
    view := DashboardView(percentage, green, amber, red, |applicable|, cards, next, attention, isEmpty);
  }
}
