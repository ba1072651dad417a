/** The rows the scoring engine reads for one tenant. Each field is the result of a scoped
    query, so every row here already belongs to the tenant; dates are instants in
    milliseconds. */
module Records {
  import opened Wrappers

  /** A catalogue clause as the routes pass it to the engine. */
  datatype Clause = Clause(id: string, code: string, title: string, plainEnglish: string)

  /** An evidence row: `evType` is one of POLICY, PROCEDURE, RECORD, ..., and `status` one of
      DRAFT, APPROVED, .... */
  datatype EvidenceRow = EvidenceRow(id: string, title: string, evType: string, status: string)

  /** A problem (nonconformity or improvement) row; `status` is OPEN, IN_PROGRESS, CLOSED, .... */
  datatype ProblemRow = ProblemRow(
    id: string,
    description: string,
    status: string,
    dueDate: Option<int>,
    createdAt: int)

  /** What the engine reads about one tenant: whether a company profile exists, the number of
      rows of the tables it only counts, and the problem and evidence rows in table order. */
  datatype TenantData = TenantData(
    hasProfile: bool,
    processCount: nat,
    riskCount: nat,
    problems: seq<ProblemRow>,
    evidence: seq<EvidenceRow>,
    auditCount: nat,
    reviewCount: nat,
    roleCount: nat,
    assignmentCount: nat)
}
