/** The clause catalogue as the seeding script writes it into the clause table, and the
    upsert-by-code loop that writes it. */
module Seed {
  import opened Wrappers
  import opened Standards

  datatype SeedClause = SeedClause(
    code: string,
    title: string,
    plainEnglish: string,
    auditorExpectation: string,
    requiredEvidenceTypes: seq<EvidenceKind>,
    moduleLinks: seq<string>)

  /** The clauses the seed writes, in order. */
  const SeedClauses: seq<SeedClause> := [
    SeedClause("4.1", "Understanding the organization and its context",
      "Understand your organization and the environment it operates in",
      "Organization has identified internal and external factors relevant to its purpose",
      [Procedure], ["company"]),
    SeedClause("4.2", "Understanding the needs and expectations of interested parties",
      "Identify who cares about your quality and what they need",
      "Organization has identified interested parties and their requirements",
      [Procedure], ["company"]),
    SeedClause("4.3", "Determining the scope of the quality management system",
      "Define what parts of your business the QMS covers",
      "Scope statement is documented and justified",
      [Procedure], ["company"]),
    SeedClause("4.4", "Processes and their interactions",
      "Map out your key business processes and how they connect",
      "Processes are identified, defined, and their interactions understood",
      [Procedure], ["processes"]),
    SeedClause("5.1", "Leadership and commitment",
      "Top management shows they care about quality",
      "Top management demonstrates leadership and commitment",
      [Procedure], ["company"]),
    SeedClause("5.2", "Quality Policy",
      "Have a clear Quality Policy that everyone knows",
      "Quality policy is established, communicated, and maintained",
      [Policy], ["evidence"]),
    SeedClause("5.3", "Organizational roles, responsibilities and authorities",
      "Everyone knows their role in quality management",
      "Roles and responsibilities are assigned and communicated",
      [Procedure], ["company"]),
    SeedClause("6.1", "Actions to address risks and opportunities",
      "Identify and manage risks and opportunities",
      "Risks and opportunities are identified and actions planned",
      [RiskThinking], ["risks"]),
    SeedClause("6.2", "Quality objectives and planning to achieve them",
      "Set quality goals and plan how to achieve them",
      "Quality objectives are established and plans made to achieve them",
      [Procedure], ["objectives"]),
    SeedClause("7.1", "Resources",
      "Make sure you have what you need to deliver quality",
      "Resources needed for the QMS are determined and provided",
      [Procedure], []),
    SeedClause("7.2", "Competence",
      "People have the skills they need",
      "Competence requirements are determined and met",
      [Procedure], []),
    SeedClause("7.3", "Awareness",
      "Everyone understands the quality policy and objectives",
      "Personnel are aware of the quality policy and objectives",
      [Procedure], []),
    SeedClause("7.4", "Communication",
      "Quality information is shared effectively",
      "Internal and external communications are planned and implemented",
      [Procedure], []),
    SeedClause("7.5", "Documented information",
      "Keep the right documents and records",
      "Documented information is controlled and maintained",
      [Procedure], ["evidence"]),
    SeedClause("8.1", "Operational planning and control",
      "Plan and control your operations",
      "Operations are planned and controlled",
      [Procedure], ["processes"]),
    SeedClause("8.2", "Requirements for products and services",
      "Understand what customers want",
      "Customer requirements are determined and reviewed",
      [Procedure], ["processes"]),
    SeedClause("8.3", "Design and development of products and services",
      "Design products and services properly",
      "Design and development processes are planned and controlled",
      [Procedure], ["processes"]),
    SeedClause("8.4", "Control of externally provided processes, products and services",
      "Manage suppliers and external providers",
      "External providers are evaluated and controlled",
      [Procedure], ["processes"]),
    SeedClause("8.5", "Production and service provision",
      "Deliver products and services consistently",
      "Production and service provision is controlled",
      [Procedure], ["processes"]),
    SeedClause("8.6", "Release of products and services",
      "Check products before releasing them",
      "Products and services are verified before release",
      [Record], ["processes"]),
    SeedClause("8.7", "Control of nonconforming outputs",
      "Handle problems when things go wrong",
      "Nonconforming outputs are identified and controlled",
      [Procedure], ["problems"]),
    SeedClause("9.1", "Monitoring, measurement, analysis and evaluation",
      "Measure how well you are doing",
      "Performance is monitored and measured",
      [Record], ["objectives"]),
    SeedClause("9.2", "Internal audit",
      "Conduct internal audits to check your system",
      "Internal audits are conducted at planned intervals",
      [Review], ["audits"]),
    SeedClause("9.3", "Management review",
      "Management reviews the system regularly",
      "Management reviews are conducted at planned intervals",
      [Review], ["reviews"]),
    SeedClause("10.1", "General - Improvement",
      "Continuously improve your system",
      "Opportunities for improvement are identified and acted upon",
      [Action], ["problems"]),
    SeedClause("10.2", "Nonconformity and corrective action",
      "Fix problems and prevent them from happening again",
      "Nonconformities are addressed with corrective actions",
      [Action], ["problems"]),
    SeedClause("10.3", "Continual improvement",
      "Keep getting better",
      "Continual improvement is demonstrated",
      [Action], ["problems"])
  ]

  /** The seed lists the requirement table's codes in the table's order; so it lists 27
      clauses with pairwise distinct codes. */
  lemma SeedCodes()
    ensures |SeedClauses| == |ClauseCodes| == 27
    ensures forall i :: 0 <= i < |SeedClauses| ==> SeedClauses[i].code == ClauseCodes[i]
  {
  }

  /** Each seeded clause names exactly one evidence type, one of the six known kinds. */
  lemma SeedOneKnownType()
    ensures forall i :: 0 <= i < |SeedClauses| ==>
      |SeedClauses[i].requiredEvidenceTypes| == 1 && !SeedClauses[i].requiredEvidenceTypes[0].Other?
  {
  }

  /** The clause at seed position `i` names the kind of the table entry at position `i` (the
      entry stored under the same code, by `SeedCodes` and `LookupKnownCode`), and its title
      is that entry's description. */
  ghost predicate AgreesWithTable(i: nat)
  {
    && i < |SeedClauses| && i < |TableEntries| && |TableEntries[i]| == 1
    && SeedClauses[i].requiredEvidenceTypes == [TableEntries[i][0].kind]
    && SeedClauses[i].title == TableEntries[i][0].description
  }

  /** Seed positions 0 to 8 (clauses 4.1 to 6.2) agree with the requirement table. */
  lemma SeedAgreesWithStandardsA()
    ensures forall i :: 0 <= i < 9 ==> AgreesWithTable(i)
  {
  }

  /** Seed positions 9 to 17 (clauses 7.1 to 8.5) agree with the requirement table. */
  lemma SeedAgreesWithStandardsB()
    ensures forall i :: 9 <= i < 18 ==> AgreesWithTable(i)
  {
  }

  /** Seed positions 18 to 26 (clauses 8.6 to 10.3) agree with the requirement table. */
  lemma SeedAgreesWithStandardsC()
    ensures forall i :: 18 <= i < 27 ==> AgreesWithTable(i)
  {
  }

  /** Where the catalogue has a built-in plain-English text, the seed carries the same text. */
  lemma SeedAgreesWithFallbacks()
    ensures SeedClauses[0].code == "4.1" && SeedClauses[0].plainEnglish == PlainEnglishFallbacks["4.1"]
    ensures SeedClauses[5].code == "5.2" && SeedClauses[5].plainEnglish == PlainEnglishFallbacks["5.2"]
    ensures SeedClauses[7].code == "6.1" && SeedClauses[7].plainEnglish == PlainEnglishFallbacks["6.1"]
    ensures SeedClauses[22].code == "9.2" && SeedClauses[22].plainEnglish == PlainEnglishFallbacks["9.2"]
    ensures SeedClauses[23].code == "9.3" && SeedClauses[23].plainEnglish == PlainEnglishFallbacks["9.3"]
  {
  }

  /** Pairwise distinct codes: the unique constraint on the clause table's `code` column. */
  ghost predicate UniqueCodes(rows: seq<SeedClause>)
  {
    forall i, j :: 0 <= i < j < |rows| ==> rows[i].code != rows[j].code
  }

  /** The position of the row carrying `code`, if any. */
  function FindCode(rows: seq<SeedClause>, code: string): (r: Option<nat>)
    ensures r.Some? ==> r.value < |rows| && rows[r.value].code == code
    ensures r.None? ==> forall i :: 0 <= i < |rows| ==> rows[i].code != code
  {
    if rows == [] then None
    else if rows[0].code == code then Some(0)
    else
      match FindCode(rows[1..], code)
      case None => None
      case Some(k) => Some(k + 1)
  }

  /** `isoClause.upsert({where: {code}, update: c, create: c})`: the row carrying `c`'s code is
      overwritten by `c`, or `c` is appended when there is none. */
  function UpsertByCode(rows: seq<SeedClause>, c: SeedClause): seq<SeedClause>
  {
    match FindCode(rows, c.code)
    case Some(i) => rows[i := c]
    case None => rows + [c]
  }

  /** After an upsert `c` is stored, rows with other codes are untouched, no row is lost and,
      when codes were unique, they still are, so exactly one row carries `c`'s code. */
  lemma UpsertByCodeSpec(rows: seq<SeedClause>, c: SeedClause)
    requires UniqueCodes(rows)
    ensures var r := UpsertByCode(rows, c);
      && c in r
      && UniqueCodes(r)
      && (forall d :: d in rows && d.code != c.code ==> d in r)
      && (forall d :: d in r ==> d == c || d in rows)
      && |r| == (if FindCode(rows, c.code).Some? then |rows| else |rows| + 1)
  {
    var r := UpsertByCode(rows, c);
    match FindCode(rows, c.code)
    case Some(i) =>
      assert r[i] == c;
      forall d | d in rows && d.code != c.code ensures d in r {
        var k :| 0 <= k < |rows| && rows[k] == d;
        assert r[k] == d;
      }
      forall d | d in r ensures d == c || d in rows {
        var k :| 0 <= k < |r| && r[k] == d;
        if k != i { assert rows[k] == d; }
      }
    case None =>
      assert r[|rows|] == c;
      forall d | d in rows ensures d in r {
        var k :| 0 <= k < |rows| && rows[k] == d;
        assert r[k] == d;
      }
  }

  /** An upsert of a clause already stored changes nothing. */
  lemma UpsertStored(rows: seq<SeedClause>, c: SeedClause)
    requires UniqueCodes(rows) && c in rows
    ensures UpsertByCode(rows, c) == rows
  {
    var k :| 0 <= k < |rows| && rows[k] == c;
    match FindCode(rows, c.code)
    case Some(i) =>
      assert i == k;
    case None =>
      assert false;
  }

  /** Dropping the first clause of a distinct-coded list keeps it distinct-coded, and the
      rest no longer carries the first clause's code. */
  lemma UniqueTail(cs: seq<SeedClause>)
    requires UniqueCodes(cs) && cs != []
    ensures UniqueCodes(cs[1..])
    ensures forall i :: 0 <= i < |cs[1..]| ==> cs[1..][i].code != cs[0].code
  {
    var tail := cs[1..];
    forall i, j | 0 <= i < j < |tail| ensures tail[i].code != tail[j].code {
      assert tail[i] == cs[i + 1] && tail[j] == cs[j + 1];
    }
  }

  /** The seeding loop as a fold: upsert each clause of `cs` in turn. */
  function SeedAll(rows: seq<SeedClause>, cs: seq<SeedClause>): seq<SeedClause>
    decreases |cs|
  {
    if cs == [] then rows else SeedAll(UpsertByCode(rows, cs[0]), cs[1..])
  }

  /** Seeding distinct-coded clauses into a table with unique codes stores every clause, keeps
      codes unique, keeps every row whose code the seed does not list, and adds nothing else. */
  lemma {:induction false} SeedAllSpec(rows: seq<SeedClause>, cs: seq<SeedClause>)
    requires UniqueCodes(rows) && UniqueCodes(cs)
    ensures var r := SeedAll(rows, cs);
      && UniqueCodes(r)
      && (forall c :: c in cs ==> c in r)
      && (forall d :: d in rows && FindCode(cs, d.code).None? ==> d in r)
      && (forall d :: d in r ==> d in cs || d in rows)
    decreases |cs|
  {
    if cs != [] {
      var rows1 := UpsertByCode(rows, cs[0]);
      var tail := cs[1..];
      UpsertByCodeSpec(rows, cs[0]);
      UniqueTail(cs);
      SeedAllSpec(rows1, tail);
      UnlistedInTail(cs, rows);
      ListedInTail(cs);
    }
  }

  /** A row whose code `cs` does not list carries neither the first clause's code nor one the
      rest lists. */
  lemma UnlistedInTail(cs: seq<SeedClause>, rows: seq<SeedClause>)
    requires cs != []
    ensures forall d :: d in rows && FindCode(cs, d.code).None? ==>
      d.code != cs[0].code && FindCode(cs[1..], d.code).None?
  {
    forall d | d in rows && FindCode(cs, d.code).None?
      ensures d.code != cs[0].code && FindCode(cs[1..], d.code).None?
    {
      forall i | 0 <= i < |cs[1..]| ensures cs[1..][i].code != d.code {
        assert cs[1..][i] == cs[i + 1];
      }
    }
  }

  /** Every clause of `cs` is its first one or one of the rest, and every clause of the rest is
      a clause of `cs`. */
  lemma ListedInTail(cs: seq<SeedClause>)
    requires cs != []
    ensures forall c :: c in cs ==> c == cs[0] || c in cs[1..]
    ensures forall c :: c in cs[1..] ==> c in cs
  {
    assert cs == [cs[0]] + cs[1..];
  }

  /** Seeding clauses that are all already stored changes nothing. */
  lemma {:induction false} SeedAllStored(rows: seq<SeedClause>, cs: seq<SeedClause>)
    requires UniqueCodes(rows) && forall c :: c in cs ==> c in rows
    ensures SeedAll(rows, cs) == rows
    decreases |cs|
  {
    if cs != [] {
      UpsertStored(rows, cs[0]);
      SeedAllStored(rows, cs[1..]);
    }
  }

  /** Re-running the seed changes nothing. */
  lemma SeedAllIdempotent(rows: seq<SeedClause>, cs: seq<SeedClause>)
    requires UniqueCodes(rows) && UniqueCodes(cs)
    ensures SeedAll(SeedAll(rows, cs), cs) == SeedAll(rows, cs)
  {
    SeedAllSpec(rows, cs);
    SeedAllStored(SeedAll(rows, cs), cs);
  }

  /** Seeding clauses whose codes are all new appends them in order. */
  lemma {:induction false} SeedAllFresh(rows: seq<SeedClause>, cs: seq<SeedClause>)
    requires UniqueCodes(cs)
    requires forall i, j :: 0 <= i < |rows| && 0 <= j < |cs| ==> rows[i].code != cs[j].code
    ensures SeedAll(rows, cs) == rows + cs
    decreases |cs|
  {
    if cs != [] {
      FreshStep(rows, cs);
      UniqueTail(cs);
      SeedAllFresh(rows + [cs[0]], cs[1..]);
      AppendFirst(rows, cs);
    }
  }

  /** Upserting the first of the fresh clauses appends it, and the rest stay fresh with
      respect to the longer table. */
  lemma FreshStep(rows: seq<SeedClause>, cs: seq<SeedClause>)
    requires cs != [] && UniqueCodes(cs)
    requires forall i, j :: 0 <= i < |rows| && 0 <= j < |cs| ==> rows[i].code != cs[j].code
    ensures UpsertByCode(rows, cs[0]) == rows + [cs[0]]
    ensures forall i, j :: 0 <= i < |rows + [cs[0]]| && 0 <= j < |cs[1..]| ==>
      (rows + [cs[0]])[i].code != cs[1..][j].code
  {
    assert FindCode(rows, cs[0].code).None? by {
      assert forall i :: 0 <= i < |rows| ==> rows[i].code != cs[0].code;
    }
    var rows1 := rows + [cs[0]];
    var tail := cs[1..];
    forall i, j | 0 <= i < |rows1| && 0 <= j < |tail| ensures rows1[i].code != tail[j].code {
      assert tail[j] == cs[j + 1];
      if i < |rows| {
        assert rows1[i] == rows[i];
      }
    }
  }

  lemma AppendFirst(rows: seq<SeedClause>, cs: seq<SeedClause>)
    requires cs != []
    ensures rows + [cs[0]] + cs[1..] == rows + cs
  {
    assert cs == [cs[0]] + cs[1..];
  }

  /** The clause table, as the seed script sees it through the database client. */
  class ClauseTable {
    var rows: seq<SeedClause>

    constructor ()
      ensures rows == []
    {
      rows := [];
    }

    /** One `isoClause.upsert` keyed on the clause code. */
    method Upsert(c: SeedClause)
      modifies this
      ensures rows == UpsertByCode(old(rows), c)
    {
      var found := FindCode(rows, c.code);
      match found
      case Some(i) =>
        rows := rows[i := c];
      case None =>
        rows := rows + [c];
    }

    /** The seed's `for (const clause of clauses)` loop of upserts. */
    method SeedCatalogue(clauses: seq<SeedClause>)
      modifies this
      ensures rows == SeedAll(old(rows), clauses)
    {
      var i := 0;
      while i < |clauses|
        invariant 0 <= i <= |clauses|
        invariant SeedAll(rows, clauses[i..]) == SeedAll(old(rows), clauses)
      {
        assert clauses[i..][1..] == clauses[i + 1..];
        Upsert(clauses[i]);
        i := i + 1;
      }
    }
  }

  /** The seed lists distinct codes. */
  lemma SeedClausesUnique()
    ensures UniqueCodes(SeedClauses)
  {
    SeedCodes();
    CodesDistinct();
  }

  /** Seeding an empty table with distinct-coded clauses stores exactly those clauses, in
      order; seeding again leaves the table as it is. */
  lemma SeedEmpty(cs: seq<SeedClause>)
    requires UniqueCodes(cs)
    ensures SeedAll([], cs) == cs
    ensures SeedAll(SeedAll([], cs), cs) == cs
  {
    SeedAllFresh([], cs);
    assert [] + cs == cs;
    SeedAllIdempotent([], cs);
  }

  /** Run on an empty clause table, the seed stores exactly the 27 listed clauses; re-running
      it changes nothing. */
  lemma SeedEmptyTable()
    ensures SeedAll([], SeedClauses) == SeedClauses
    ensures SeedAll(SeedAll([], SeedClauses), SeedClauses) == SeedClauses
  {
    SeedClausesUnique();
    SeedEmpty(SeedClauses);
  }
}
