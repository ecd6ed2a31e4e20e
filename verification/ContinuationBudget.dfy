/** The clean-turn budget: the orchestrator carries a count of clean turns from one session of an
    issue to the next, and the runner limits each session to what is left. Together they bound the
    whole chain. */
module ContinuationBudget {
  import opened Prelude
  import opened Backoff
  import opened ClaimState

  const DEFAULT_MAX_TURNS: int := 20

  /** effectiveTurnLimit: a positive budget can only lower the configured limit. */
  function EffectiveTurnLimit(maxTurns: int, cleanTurnBudget: int): (limit: nat)
    ensures 0 < limit && (cleanTurnBudget > 0 ==> limit <= cleanTurnBudget)
    ensures limit <= if maxTurns <= 0 then 20 else maxTurns
    ensures limit == cleanTurnBudget || limit == if maxTurns <= 0 then 20 else maxTurns
  {
    var turns := if maxTurns <= 0 then DEFAULT_MAX_TURNS else maxTurns;
    if 0 < cleanTurnBudget <= turns then cleanTurnBudget else turns
  }

  /** How a turn ends: the tracker still wants the issue worked on, or not, or the turn failed. */
  datatype TurnEnd = KeepGoing | CleanStop | TurnError

  /** The runner's turn loop. `ends(n)` is how turn n would end; `facts` is what it reports to the
      orchestrator, one completed turn at a time. */
  method RunTurns(maxTurns: int, cleanTurnBudget: int, ends: nat -> TurnEnd) returns (facts: seq<RunFact>, ok: bool)
    ensures |facts| <= EffectiveTurnLimit(maxTurns, cleanTurnBudget) && forall f :: f in facts ==> f == TurnCompleted
    ensures forall n :: 1 <= n < |facts| ==> ends(n) == KeepGoing
    ensures ok ==> |facts| > 0 && ends(|facts|) != TurnError
    ensures ok && ends(|facts|) == KeepGoing ==> |facts| == EffectiveTurnLimit(maxTurns, cleanTurnBudget)
    ensures !ok ==> ends(|facts| + 1) == TurnError && |facts| < EffectiveTurnLimit(maxTurns, cleanTurnBudget)
    ensures !ok && facts != [] ==> ends(|facts|) == KeepGoing
  {
    var limit := EffectiveTurnLimit(maxTurns, cleanTurnBudget);
    facts := [];
    var turn: nat := 1;
    while turn <= limit
      invariant |facts| == turn - 1 <= limit && forall f :: f in facts ==> f == TurnCompleted
      invariant forall n :: 1 <= n <= |facts| ==> ends(n) == KeepGoing
    {
      match ends(turn)
      case TurnError =>
        return facts, false;
      case CleanStop =>
        return facts + [TurnCompleted], true;
      case KeepGoing =>
        facts, turn := facts + [TurnCompleted], turn + 1;
    }
    ok := true;
  }

  /** A chain that used its last turn and saw no handoff is parked at once; one whose session ended on
      an observed non-terminal state is parked when its continuation comes to be dispatched. */
  lemma SpentChainParks(cfg: Config, id: IssueId, slot: Slot, latch: Latch, run: RunEntry, result: WorkerResult)
    requires IsCurrentRun(slot, run) && result.err.NoError? && !result.inputRequired
    requires !(run.reconcileCleanup && run.turnCount > 0) && (result.exit.Some? ==> !result.exit.value.terminal)
    requires BudgetSpent(cfg.maxContinuationTurns, run.continuationTurns + TurnDelta(run))
    ensures var out := Finalize(cfg, id, slot, latch, run, result);
            || out.slot.blocked.Some?
            || (out.followup.DoReschedule? &&
                forall queued: Slot, entry, issue, attempt, full ::
                  queued.retry == Some(entry) && entry.continuationTurns == out.followup.reschedule.continuationTurns ==>
                    Accept(cfg, queued, latch, issue, attempt, full).out.slot.blocked.Some?)
  {
  }
}
