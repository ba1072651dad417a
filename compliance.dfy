/** The readiness-scoring engine: whether a tenant's records meet each requirement of a clause,
    the clause's traffic-light status with its missing items, fix links and explanation, and the
    readiness percentage over a list of clauses. */
module Compliance {
  import opened Wrappers
  import opened Seqs
  import opened Text
  import opened Standards
  import opened Records

  datatype ClauseStatus = Green | Amber | Red

  /** A link `{ label, href }`; `label` is a reserved word here, hence `caption`. */
  datatype FixLink = FixLink(caption: string, href: string)

  datatype ClauseCard = ClauseCard(
    clauseCode: string,
    clauseTitle: string,
    status: ClauseStatus,
    plainEnglishWhy: string,
    missingItems: seq<string>,
    fixLinks: seq<FixLink>)

  /** The evidence type an evidence-backed requirement kind looks for. */
  function EvidenceTypeOf(k: EvidenceKind): string
    requires k.Policy? || k.Procedure? || k.Record?
  {
    match k
    case Policy => "POLICY"
    case Procedure => "PROCEDURE"
    case Record => "RECORD"
  }

  predicate IsApprovedOfType(evType: string, e: EvidenceRow)
  {
    e.evType == evType && e.status == "APPROVED"
  }

  /** `evidence.findMany({ where: { type, status: 'APPROVED' } }).length > 0`. */
  function HasApproved(data: TenantData, evType: string): (r: bool)
    ensures r <==> exists e :: e in data.evidence && IsApprovedOfType(evType, e)
  {
    var approved := Filter(data.evidence, (e: EvidenceRow) => IsApprovedOfType(evType, e));
    assert |approved| > 0 ==> approved[0] in approved;
    |approved| > 0
  }

  /** `checkRequirement`: whether the tenant's records meet one requirement of clause `code`. */
  function CheckRequirement(data: TenantData, code: string, req: Requirement): bool
  {
    match req.kind
    case Policy => HasApproved(data, "POLICY")
    case Procedure => HasApproved(data, "PROCEDURE")
    case Record => HasApproved(data, "RECORD")
    case RiskThinking => data.riskCount > 0
    case Review =>
      if code == "9.2" then data.auditCount > 0
      else if code == "9.3" then data.reviewCount > 0
      else false
    case Action => |data.problems| > 0
    case Other(_) => false
  }

  /** What each kind of requirement asks of the tenant's records: approved evidence of the
      matching type (whatever clause it is linked to), any risk, any problem, an internal audit
      under 9.2 or a management review under 9.3; nothing satisfies a review elsewhere or an
      unknown kind. */
  lemma CheckRequirementMeaning(data: TenantData, code: string, req: Requirement)
    ensures (req.kind.Policy? || req.kind.Procedure? || req.kind.Record?) ==>
      (CheckRequirement(data, code, req) <==>
        exists e :: e in data.evidence && e.evType == EvidenceTypeOf(req.kind) && e.status == "APPROVED")
    ensures req.kind.RiskThinking? ==> (CheckRequirement(data, code, req) <==> data.riskCount > 0)
    ensures req.kind.Action? ==> (CheckRequirement(data, code, req) <==> |data.problems| > 0)
    ensures req.kind.Review? ==> (CheckRequirement(data, code, req) <==>
      (code == "9.2" && data.auditCount > 0) || (code == "9.3" && data.reviewCount > 0))
    ensures req.kind.Other? ==> !CheckRequirement(data, code, req)
  {
  }

  /** Only the review kind looks at the clause: every other kind gets the same answer under
      any two clause codes. */
  lemma CheckIgnoresClause(data: TenantData, c1: string, c2: string, req: Requirement)
    requires !req.kind.Review?
    ensures CheckRequirement(data, c1, req) == CheckRequirement(data, c2, req)
  {
  }

  /** `getFixLinks`: one link per missing requirement, except a review outside 9.2/9.3 or an
      unknown kind, which get none. */
  function GetFixLinks(code: string, req: Requirement): (r: seq<FixLink>)
    ensures |r| <= 1
    ensures r == [] <==> req.kind.Other? || (req.kind.Review? && code != "9.2" && code != "9.3")
    ensures (req.kind.Policy? || req.kind.Procedure? || req.kind.Record?) ==>
      r[0].caption == "Add Evidence" && EndsWith(r[0].href, "&clause=" + code)
  {
    match req.kind
    case Policy => [EvidenceLink(code, req.kind)]
    case Procedure => [EvidenceLink(code, req.kind)]
    case Record => [EvidenceLink(code, req.kind)]
    case RiskThinking => [FixLink("Add Risk", "/risks/new")]
    case Review =>
      if code == "9.2" then [FixLink("Record Audit", "/audits/new")]
      else if code == "9.3" then [FixLink("Record Review", "/reviews/new")]
      else []
    case Action => [FixLink("Log Problem", "/problems/new")]
    case Other(_) => []
  }

  function EvidenceLink(code: string, k: EvidenceKind): (r: FixLink)
    ensures r.caption == "Add Evidence" && EndsWith(r.href, "&clause=" + code)
  {
    var href := "/evidence/new?type=" + KindName(k) + "&clause=" + code;
    assert href == ("/evidence/new?type=" + KindName(k)) + ("&clause=" + code);
    FixLink("Add Evidence", href)
  }

  /** The descriptions of the unmet requirements among `reqs`, in catalogue order: the
      `missingItems` the loop builds. */
  function Missing(data: TenantData, code: string, reqs: seq<Requirement>): (r: seq<string>)
    ensures |r| <= |reqs|
  {
    if reqs == [] then []
    else
      var last := reqs[|reqs| - 1];
      Missing(data, code, reqs[..|reqs| - 1])
        + (if CheckRequirement(data, code, last) then [] else [last.description])
  }

  /** The fix links of the unmet requirements, in catalogue order. */
  function Links(data: TenantData, code: string, reqs: seq<Requirement>): seq<FixLink>
  {
    if reqs == [] then []
    else
      var last := reqs[|reqs| - 1];
      Links(data, code, reqs[..|reqs| - 1])
        + (if CheckRequirement(data, code, last) then [] else GetFixLinks(code, last))
  }

  function Descriptions(reqs: seq<Requirement>): (r: seq<string>)
    ensures |r| == |reqs|
    ensures forall i :: 0 <= i < |reqs| ==> r[i] == reqs[i].description
  {
    if reqs == [] then [] else [reqs[0].description] + Descriptions(reqs[1..])
  }

  lemma DescriptionsAppend(a: seq<Requirement>, b: seq<Requirement>)
    ensures Descriptions(a + b) == Descriptions(a) + Descriptions(b)
  {
  }

  /** The filter "not met" for one clause. */
  function Unmet(data: TenantData, code: string): Requirement -> bool
  {
    (q: Requirement) => !CheckRequirement(data, code, q)
  }

  /** `missingItems` is exactly the descriptions of the requirements the filter "not met" keeps. */
  lemma {:induction false} MissingIsFilter(data: TenantData, code: string, reqs: seq<Requirement>)
    ensures Missing(data, code, reqs)
         == Descriptions(Filter(reqs, Unmet(data, code)))
  {
    if reqs != [] {
      var init := reqs[..|reqs| - 1];
      var last := reqs[|reqs| - 1];
      var unmet := Unmet(data, code);
      MissingIsFilter(data, code, init);
      SplitLast(reqs);
      FilterAppend(init, [last], unmet);
      FilterSingle(last, unmet);
      if CheckRequirement(data, code, last) {
        assert Filter([last], unmet) == [];
        assert Filter(reqs, unmet) == Filter(init, unmet);
      } else {
        assert Filter([last], unmet) == [last];
        DescriptionsAppend(Filter(init, unmet), [last]);
      }
    }
  }

  /** Nothing is missing exactly when every requirement is met; everything is missing exactly
      when no requirement is met. */
  lemma {:induction false} MissingCount(data: TenantData, code: string, reqs: seq<Requirement>)
    ensures |Missing(data, code, reqs)| == 0 <==>
      forall i :: 0 <= i < |reqs| ==> CheckRequirement(data, code, reqs[i])
    ensures |Missing(data, code, reqs)| == |reqs| <==>
      forall i :: 0 <= i < |reqs| ==> !CheckRequirement(data, code, reqs[i])
  {
    if reqs != [] {
      var init := reqs[..|reqs| - 1];
      MissingCount(data, code, init);
      assert forall i :: 0 <= i < |init| ==> init[i] == reqs[i];
    }
  }

  /** Each missing requirement contributes at most one link. */
  lemma {:induction false} LinksAtMostMissing(data: TenantData, code: string, reqs: seq<Requirement>)
    ensures |Links(data, code, reqs)| <= |Missing(data, code, reqs)|
  {
    if reqs != [] {
      LinksAtMostMissing(data, code, reqs[..|reqs| - 1]);
    }
  }

  /** The status rule: green with nothing missing, red with everything missing, amber between. */
  function StatusFor(missing: nat, total: nat): ClauseStatus
  {
    if missing == 0 then Green
    else if missing == total then Red
    else Amber
  }

  /** `generatePlainEnglishWhy`: the status's template followed by the clause's own text. */
  function GeneratePlainEnglishWhy(status: ClauseStatus, missing: seq<string>, clause: Clause): string
  {
    WhyHead(status, missing, clause.code) + (". " + clause.plainEnglish)
  }

  /** The status-specific first sentence of the explanation. */
  function WhyHead(status: ClauseStatus, missing: seq<string>, code: string): string
  {
    match status
    case Green => "All requirements for " + code + " are met"
    case Red => "Missing all required items for " + code + ". You need: " + Join(missing, ", ")
    case Amber => "Partially compliant. Missing: " + Join(missing, ", ")
  }

  /** Every explanation ends with the clause's own plain-English text. */
  lemma WhyEndsWithPlainEnglish(status: ClauseStatus, missing: seq<string>, clause: Clause)
    ensures EndsWith(GeneratePlainEnglishWhy(status, missing, clause), ". " + clause.plainEnglish)
  {
    var head := WhyHead(status, missing, clause.code);
    var tail := ". " + clause.plainEnglish;
    assert (head + tail)[|head + tail| - |tail|..] == tail;
  }

  /** The opening words of each status's template. */
  function Opening(status: ClauseStatus): string
  {
    match status
    case Green => "All requirements for "
    case Red => "Missing all required items for "
    case Amber => "Partially compliant. Missing: "
  }

  /** Every explanation starts with its status's opening words. */
  lemma WhyStartsWithOpening(status: ClauseStatus, missing: seq<string>, clause: Clause)
    ensures StartsWith(GeneratePlainEnglishWhy(status, missing, clause), Opening(status))
  {
    var p := Opening(status);
    var head := WhyHead(status, missing, clause.code);
    match status
    case Green =>
      StartsWithExtend(p, p, clause.code);
    case Red =>
      StartsWithExtend(p, p, clause.code);
      StartsWithExtend(p + clause.code, p, ". You need: ");
      StartsWithExtend(p + clause.code + ". You need: ", p, Join(missing, ", "));
    case Amber =>
      StartsWithExtend(p, p, Join(missing, ", "));
    StartsWithExtend(head, p, ". " + clause.plainEnglish);
  }

  /** The three templates are told apart by their opening words. */
  lemma WhyOpening(status: ClauseStatus, missing: seq<string>, clause: Clause)
    ensures status == Green <==> StartsWith(GeneratePlainEnglishWhy(status, missing, clause), "All requirements for ")
    ensures status == Red <==> StartsWith(GeneratePlainEnglishWhy(status, missing, clause), "Missing all required items for ")
    ensures status == Amber <==> StartsWith(GeneratePlainEnglishWhy(status, missing, clause), "Partially compliant. Missing: ")
  {
    var r := GeneratePlainEnglishWhy(status, missing, clause);
    WhyStartsWithOpening(status, missing, clause);
    FirstChar(r, Opening(status));
    if StartsWith(r, Opening(Green)) {
      FirstChar(r, Opening(Green));
    }
    if StartsWith(r, Opening(Red)) {
      FirstChar(r, Opening(Red));
    }
    if StartsWith(r, Opening(Amber)) {
      FirstChar(r, Opening(Amber));
    }
  }

  /** A prefix of `s` stays a prefix of anything `s` is extended to. */
  lemma StartsWithExtend(s: string, p: string, t: string)
    requires StartsWith(s, p)
    ensures StartsWith(s + t, p)
  {
    assert (s + t)[..|p|] == s[..|p|];
  }

  lemma FirstChar(s: string, p: string)
    requires p != [] && StartsWith(s, p)
    ensures s[0] == p[0]
  {
    assert s[..|p|][0] == s[0];
  }

  /** The red and amber explanations list the missing items, joined by commas. */
  lemma WhyListsMissing(status: ClauseStatus, missing: seq<string>, clause: Clause)
    requires status != Green
    ensures Contains(GeneratePlainEnglishWhy(status, missing, clause), Join(missing, ", "))
  {
    var head := WhyHead(status, missing, clause.code);
    var r := head + (". " + clause.plainEnglish);
    var j := Join(missing, ", ");
    var k := |head| - |j|;
    assert head[k..] == j;
    assert r[k..k + |j|] == j;
    ContainsIff(r, j);
    assert OccursAt(r, j, k);
  }

  /** The card `calculateClauseStatus` builds for a clause with requirement list `reqs`. */
  function CardFor(data: TenantData, clause: Clause, reqs: seq<Requirement>): ClauseCard
  {
    var missing := Missing(data, clause.code, reqs);
    var status := StatusFor(|missing|, |reqs|);
    ClauseCard(clause.code, clause.title, status, GeneratePlainEnglishWhy(status, missing, clause),
      missing, Links(data, clause.code, reqs))
  }

  /** The card for a clause, with its requirements taken from the catalogue. */
  function ClauseCardOf(data: TenantData, clause: Clause): ClauseCard
  {
    CardFor(data, clause, GetEvidenceRequirements(clause.code))
  }

  /** A card is green exactly when every requirement is met, red exactly when there is at least
      one requirement and none is met, and amber otherwise; it never has more links than missing
      items, nor more missing items than requirements. */
  lemma CardStatus(data: TenantData, clause: Clause, reqs: seq<Requirement>)
    ensures CardFor(data, clause, reqs).status == Green <==>
      forall i :: 0 <= i < |reqs| ==> CheckRequirement(data, clause.code, reqs[i])
    ensures CardFor(data, clause, reqs).status == Red <==>
      reqs != [] && forall i :: 0 <= i < |reqs| ==> !CheckRequirement(data, clause.code, reqs[i])
    ensures |CardFor(data, clause, reqs).fixLinks| <= |CardFor(data, clause, reqs).missingItems| <= |reqs|
  {
    MissingCount(data, clause.code, reqs);
    LinksAtMostMissing(data, clause.code, reqs);
  }

  /** A code outside the catalogue has no requirements, so its card is green with nothing missing. */
  lemma UnknownClauseGreen(data: TenantData, clause: Clause)
    requires clause.code !in ClauseCodes
    ensures ClauseCardOf(data, clause).status == Green
    ensures ClauseCardOf(data, clause).missingItems == []
  {
  }

  /** `calculateClauseStatus`: checks each requirement in turn, collecting the missing ones and
      their fix links, then classifies the clause. */
  method CalculateClauseStatus(data: TenantData, clause: Clause) returns (card: ClauseCard)
    ensures card == ClauseCardOf(data, clause)
  {
    var reqs := GetEvidenceRequirements(clause.code);
    var missing: seq<string> := [];
    var links: seq<FixLink> := [];
    for i := 0 to |reqs|
      invariant missing == Missing(data, clause.code, reqs[..i])
      invariant links == Links(data, clause.code, reqs[..i])
    {
      assert reqs[..i + 1][..i] == reqs[..i];
      var met := CheckRequirement(data, clause.code, reqs[i]);
      if !met {
        missing := missing + [reqs[i].description];
        links := links + GetFixLinks(clause.code, reqs[i]);
      }
    }
    assert reqs[..|reqs|] == reqs;
    var status := StatusFor(|missing|, |reqs|);
    card := ClauseCard(clause.code, clause.title, status,
      GeneratePlainEnglishWhy(status, missing, clause), missing, links);
  }

  /** `Math.round((green / n) * 100)`, 0 for no clauses, in integer arithmetic. */
  function Percent(green: nat, n: nat): (r: int)
  {
    if n == 0 then 0 else (200 * green + n) / (2 * n)
  }

  /** For a non-empty list the percentage is 100·green/n rounded half up: the integer within
      one half of it, taking the upper one on a tie. */
  lemma PercentRoundsHalfUp(green: nat, n: nat)
    requires n > 0
    ensures 2 * n * Percent(green, n) - n <= 200 * green < 2 * n * Percent(green, n) + n
  {
    DivBounds(200 * green + n, 2 * n);
  }

  /** The quotient of Euclidean division brackets the dividend. */
  lemma DivBounds(q: int, d: int)
    requires d > 0
    ensures d * (q / d) <= q < d * (q / d) + d
  {
  }

  /** A positive factor can be cancelled from a strict inequality. */
  lemma CancelLess(d: int, x: int, y: int)
    requires d > 0 && d * x < d * y
    ensures x < y
  {
  }

  /** The percentage lies in 0..100, is 100 when every clause is green and 0 when none is. */
  lemma PercentBounds(green: nat, n: nat)
    requires green <= n
    ensures 0 <= Percent(green, n) <= 100
    ensures n > 0 && green == n ==> Percent(green, n) == 100
    ensures green == 0 ==> Percent(green, n) == 0
  {
    if n > 0 {
      var d := 2 * n;
      var q := 200 * green + n;
      var p := q / d;
      DivBounds(q, d);
      assert q < d * 101;
      CancelLess(d, p, 101);
      assert d * 0 <= q;
      assert -d < d * p;
      assert d * (-1) < d * p;
      CancelLess(d, -1, p);
      if green == n {
        assert d * 100 < d * (p + 1);
        CancelLess(d, 100, p + 1);
      }
      if green == 0 {
        assert d * p < d * 1;
        CancelLess(d, p, 1);
      }
    }
  }

  /** The card of each clause, as a function value. */
  function CardMaker(data: TenantData): Clause -> ClauseCard
  {
    (c: Clause) => ClauseCardOf(data, c)
  }

  /** The cards of a list of clauses, in list order: one per clause, the i-th being the i-th
      clause's card. */
  function CardsOf(data: TenantData, clauses: seq<Clause>): (r: seq<ClauseCard>)
    ensures |r| == |clauses|
    ensures forall i :: 0 <= i < |clauses| ==> r[i] == ClauseCardOf(data, clauses[i])
  {
    MapSeq(clauses, CardMaker(data))
  }

  predicate IsGreenCard(c: ClauseCard)
  {
    c.status == Green
  }

  /** The number of green cards, counted as the loop counts them. */
  function GreenCount(cards: seq<ClauseCard>): (r: nat)
    ensures r <= |cards|
  {
    if cards == [] then 0
    else GreenCount(cards[..|cards| - 1]) + (if IsGreenCard(cards[|cards| - 1]) then 1 else 0)
  }

  /** One more clause adds one to the green count exactly when its card is green. */
  lemma GreenCountStep(data: TenantData, clauses: seq<Clause>, i: nat)
    requires i < |clauses|
    ensures GreenCount(CardsOf(data, clauses[..i + 1])) == GreenCount(CardsOf(data, clauses[..i]))
      + (if ClauseCardOf(data, clauses[i]).status == Green then 1 else 0)
  {
    MapSeqSnoc(clauses, CardMaker(data), i);
    GreenCountSnoc(CardsOf(data, clauses[..i]), ClauseCardOf(data, clauses[i]));
  }

  lemma GreenCountSnoc(cards: seq<ClauseCard>, c: ClauseCard)
    ensures GreenCount(cards + [c]) == GreenCount(cards) + (if IsGreenCard(c) then 1 else 0)
  {
    assert (cards + [c])[..|cards|] == cards;
  }

  /** The loop's count is the size of the green filter. */
  lemma {:induction false} GreenCountIsFilter(cards: seq<ClauseCard>)
    ensures GreenCount(cards) == |Filter(cards, IsGreenCard)|
  {
    if cards != [] {
      var n := |cards| - 1;
      GreenCountIsFilter(cards[..n]);
      assert cards == cards[..n] + [cards[n]];
      FilterAppend(cards[..n], [cards[n]], IsGreenCard);
      assert [cards[n]][1..] == [];
    }
  }

  /** `calculateReadinessPercentage`: counts the green clauses and rounds their share. */
  method CalculateReadinessPercentage(data: TenantData, clauses: seq<Clause>) returns (p: int)
    ensures p == Percent(GreenCount(CardsOf(data, clauses)), |clauses|)
  {
    if |clauses| == 0 {
      return 0;
    }
    var compliant := 0;
    for i := 0 to |clauses|
      invariant compliant == GreenCount(CardsOf(data, clauses[..i]))
    {
      var card := CalculateClauseStatus(data, clauses[i]);
      GreenCountStep(data, clauses, i);
      if card.status == Green {
        compliant := compliant + 1;
      }
    }
    assert clauses[..|clauses|] == clauses;
    p := Percent(compliant, |clauses|);
  }

  /** The readiness percentage of a list of cards lies in 0..100: 100 when every card is
      green, 0 when none is. */
  lemma ReadinessBounds(cards: seq<ClauseCard>)
    ensures 0 <= Percent(GreenCount(cards), |cards|) <= 100
    ensures cards != [] && (forall i :: 0 <= i < |cards| ==> IsGreenCard(cards[i]))
      ==> Percent(GreenCount(cards), |cards|) == 100
    ensures (forall i :: 0 <= i < |cards| ==> !IsGreenCard(cards[i]))
      ==> Percent(GreenCount(cards), |cards|) == 0
  {
    GreenCountIsFilter(cards);
    PercentBounds(GreenCount(cards), |cards|);
    if forall i :: 0 <= i < |cards| ==> IsGreenCard(cards[i]) {
      AllKept(cards, IsGreenCard);
    }
    if forall i :: 0 <= i < |cards| ==> !IsGreenCard(cards[i]) {
      NoneKept(cards, IsGreenCard);
    }
  }

  /** `getAllClauseCards`: one card per clause, in the order given. */
  method GetAllClauseCards(data: TenantData, clauses: seq<Clause>) returns (cards: seq<ClauseCard>)
    ensures cards == CardsOf(data, clauses)
  {
    cards := [];
    for i := 0 to |clauses|
      invariant cards == MapSeq(clauses[..i], CardMaker(data))
    {
      var card := CalculateClauseStatus(data, clauses[i]);
      MapSeqSnoc(clauses, CardMaker(data), i);
      assert CardMaker(data)(clauses[i]) == card;
      cards := cards + [card];
    }
    assert clauses[..|clauses|] == clauses;
  }
}
