/** The lifecycle states of a request, the table of allowed transitions, and the rank every transition raises. */
module RequestStates {

  datatype RequestState =
    | Received
    | Validated
    | Admitted
    | Queued
    | Scheduled
    | Batched
    | Submitted
    | Prefilling
    | Decoding
    | Streaming
    | Completed
    | Failed
    | TimedOut
    | Rejected
    | Cancelled

  datatype FailureReason = QueueFull | QueueTimeout | AdapterError | InternalError

  predicate IsTerminal(state: RequestState) {
    state in {Completed, Failed, TimedOut, Rejected, Cancelled}
  }

  function AllowedTargets(from: RequestState): set<RequestState> {
    match from
    case Received => {Validated, Cancelled, Failed}
    case Validated => {Admitted, Rejected, Cancelled}
    case Admitted => {Queued, Scheduled, Rejected, Cancelled, Failed}
    case Queued => {Scheduled, Rejected, TimedOut, Cancelled, Failed}
    case Scheduled => {Batched, Prefilling, Failed, TimedOut, Cancelled}
    case Batched => {Submitted, Rejected, Failed, Cancelled}
    case Submitted => {Streaming, Decoding, RequestState.Completed, Failed, Cancelled}
    case Prefilling => {Decoding, Failed, TimedOut, Cancelled}
    case Decoding => {Streaming, RequestState.Completed, Failed, TimedOut, Cancelled}
    case Streaming => {RequestState.Completed, Cancelled, Failed}
    case _ => {}
  }

  predicate IsAllowed(from: RequestState, to: RequestState) {
    !IsTerminal(from) && to in AllowedTargets(from)
  }

  function Rank(state: RequestState): nat {
    match state
    case Received => 0
    case Validated => 1
    case Admitted => 2
    case Queued => 3
    case Scheduled => 4
    case Batched => 5
    case Prefilling => 5
    case Submitted => 6
    case Decoding => 7
    case Streaming => 8
    case _ => 9
  }

  const MAX_RANK: nat := 9

  lemma EdgesRaiseRank(from: RequestState, to: RequestState)
    requires IsAllowed(from, to)
    ensures Rank(from) < Rank(to) <= MAX_RANK
  {
    match from case _ =>
  }

  /** The table read by target: from which states each state can be entered. */
  lemma EntriesIntoStates(from: RequestState)
    ensures !IsAllowed(from, Received)
    ensures IsAllowed(from, Validated) <==> from == Received
    ensures IsAllowed(from, Admitted) <==> from == Validated
    ensures IsAllowed(from, Queued) <==> from == Admitted
    ensures IsAllowed(from, Scheduled) <==> from in {Admitted, Queued}
    ensures IsAllowed(from, Batched) <==> from == Scheduled
    ensures IsAllowed(from, Submitted) <==> from == Batched
    ensures IsAllowed(from, Prefilling) <==> from == Scheduled
    ensures IsAllowed(from, Decoding) <==> from in {Submitted, Prefilling}
    ensures IsAllowed(from, Streaming) <==> from in {Submitted, Decoding}
    ensures IsAllowed(from, RequestState.Completed) <==> from in {Submitted, Decoding, Streaming}
    ensures IsAllowed(from, Failed)
       <==> from in {Received, Admitted, Queued, Scheduled, Batched, Submitted, Prefilling, Decoding, Streaming}
    ensures IsAllowed(from, TimedOut) <==> from in {Queued, Scheduled, Prefilling, Decoding}
    ensures IsAllowed(from, Rejected) <==> from in {Validated, Admitted, Queued, Batched}
    ensures IsAllowed(from, Cancelled) <==> from !in {RequestState.Completed, Failed, TimedOut, Rejected, Cancelled}
  {
    match from case _ =>
  }

  /** A state has no way out exactly when it is terminal. */
  lemma TerminalHasNoWayOut(state: RequestState)
    ensures IsTerminal(state) <==> forall to :: !IsAllowed(state, to)
  {
    assert IsAllowed(Received, Cancelled) && IsAllowed(Validated, Cancelled) && IsAllowed(Admitted, Cancelled)
        && IsAllowed(Queued, Cancelled) && IsAllowed(Scheduled, Cancelled) && IsAllowed(Batched, Cancelled)
        && IsAllowed(Submitted, Cancelled) && IsAllowed(Prefilling, Cancelled) && IsAllowed(Decoding, Cancelled)
        && IsAllowed(Streaming, Cancelled);
  }

  /** A history in which each state follows from the one before by an allowed transition. */
  ghost predicate FollowsTable(history: seq<RequestState>) {
    forall i :: 0 < i < |history| ==> IsAllowed(history[i - 1], history[i])
  }

  lemma {:induction false} RankGrowsAlong(history: seq<RequestState>)
    requires history != [] && FollowsTable(history)
    ensures Rank(history[|history| - 1]) >= Rank(history[0]) + |history| - 1
  {
    if |history| > 1 {
      RankGrowsAlong(history[..|history| - 1]);
      EdgesRaiseRank(history[|history| - 2], history[|history| - 1]);
    }
  }

  /** No request changes state more than nine times, and the bound is met. */
  lemma HistoriesAreShort(history: seq<RequestState>)
    requires history != [] && FollowsTable(history)
    ensures |history| - 1 <= MAX_RANK
  {
    RankGrowsAlong(history);
  }

  lemma NineChangesHappen()
    ensures var history := [Received, Validated, Admitted, Queued, Scheduled, Batched, Submitted, Decoding, Streaming,
                            RequestState.Completed];
      FollowsTable(history) && |history| - 1 == MAX_RANK
  {
  }
}
