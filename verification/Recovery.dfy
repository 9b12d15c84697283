/** Durable boundaries of a turn and the restart decision table (recovery/coordinator.py). */
module Recovery {
  import opened Messages

  datatype ResumePoint =
    | BeforeModel | ModelInFlight | AfterModel | WaitingApproval | BeforeTool | ToolInFlight | AfterTool
    | WaitingSubagent | BeforeFinalize | Paused | RecoveryRequired | Terminal

  datatype DurableStatus = DurableRunning | DurableCompleted | DurableFailed | DurableCancelled

  datatype ToolRecoveryPolicy = RetrySafe | VerifyThenRetry | VerifyThenSynthesize | ManualReconciliation | NeverRetry

  datatype Disposition = Continue | Retry | Manual | TurnOver

  datatype RecoveryPlan = RecoveryPlan(disposition: Disposition, resumePoint: ResumePoint)

  function Plan(point: ResumePoint, policy: Option<ToolRecoveryPolicy>): RecoveryPlan {
    match point
    case Terminal => RecoveryPlan(TurnOver, point)
    case WaitingApproval => RecoveryPlan(Continue, point)
    case WaitingSubagent => RecoveryPlan(Manual, point)
    case Paused => RecoveryPlan(Manual, point)
    case RecoveryRequired => RecoveryPlan(Manual, point)
    case ToolInFlight =>
      if policy == Some(RetrySafe) then RecoveryPlan(Retry, point)
      else if policy in {Some(VerifyThenRetry), Some(VerifyThenSynthesize)} then RecoveryPlan(Manual, point)
      else RecoveryPlan(Manual, RecoveryRequired)
    case ModelInFlight => RecoveryPlan(Retry, point)
    case _ => RecoveryPlan(Continue, point)
  }

  /** Whether session resume lets the loop run again; it plans without a tool policy. */
  predicate Resumable(point: ResumePoint) {
    Plan(point, None).disposition in {Continue, Retry}
  }

  /** The points from which the loop reuses the committed model response. */
  predicate ContinuesPass(point: ResumePoint) {
    point in {AfterModel, WaitingApproval, BeforeTool, AfterTool}
  }
}
