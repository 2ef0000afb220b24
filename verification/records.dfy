/** The records the analysis layer receives from its database views.
    Each is a read-only projection of one row; none is mutated after it is built.
    Timing values are seconds, counts are whole numbers.
 */
module Records {

  /** One row of the per-variant statistics view: the pre-aggregated figures of one
      experiment arm. `variant` is the arm's code, normally "A" or "B", but nothing
      in the analysis code guarantees it. */
  datatype VariantStat = VariantStat(
    variant: string,
    totalCompletions: int,
    uniqueUsers: int,
    avgCompletionTime: real,
    medianCompletionTime: real,
    minCompletionTime: real,
    maxCompletionTime: real,
    p25CompletionTime: real,
    p75CompletionTime: real,
    p90CompletionTime: real,
    p95CompletionTime: real
  )

  /** One row of the conversion funnel view: one (variant, stage) pair, where the stage
      is "Started", "Completed" or "Repeated" and `stageOrder` is its ordinal 1, 2 or 3. */
  datatype FunnelStage = FunnelStage(
    variant: string,
    stage: string,
    stageOrder: int,
    eventCount: int,
    uniqueUsers: int
  )

  /** One puzzle completion event, with its timestamp already rendered as text. */
  datatype CompletionEvent = CompletionEvent(
    variant: string,
    completionTimeSeconds: real,
    correctWordsCount: int,
    totalGuessesCount: int,
    timestamp: string,
    userId: string
  )
}
