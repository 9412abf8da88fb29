/** The records the GraphQL queries return, reduced to the fields the dashboard reads. */
module Records {
  import opened Seqs

  /** A `transaction` row. `kind` is the row's `type` field: `None` when the query did
      not select it, so that `t.type` reads as `undefined`. `createdAt` is the
      timestamp in milliseconds since the epoch; `objectName` is `t.object.name`. */
  datatype Transaction = Transaction(
    amount: int,
    createdAt: int,
    path: string,
    kind: Option<string>,
    objectName: Option<string>)

  function Amount(t: Transaction): int
  {
    t.amount
  }

  function SumAmounts(s: seq<Transaction>): int
  {
    SumBy(s, Amount)
  }

  /** `t.type === 'xp'` */
  predicate IsXP(t: Transaction)
  {
    t.kind == Some("xp")
  }

  /** `t.object ? t.object.name : 'Unknown'` */
  function ProjectName(t: Transaction): string
  {
    match t.objectName
    case Some(name) => name
    case None => "Unknown"
  }

  /** A `result` or `progress` row: `grade` is `None` when it is `null`. */
  datatype GradeRecord = GradeRecord(grade: Option<real>, path: string)
}
