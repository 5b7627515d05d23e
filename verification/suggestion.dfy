/** The status machine of a suggestion, internal/domain/suggestion.go. */
module SuggestionStatus {

  datatype ItemStatus =
    | StatusRegistered
    | StatusAdjudicated
    | StatusInProgress
    | StatusReturned
    | StatusEscalated
    | StatusCompleted
    | StatusCancelled
  {
    predicate IsTerminal() {
      StatusCompleted? || StatusCancelled?
    }
  }

  function TransitionTable(from: ItemStatus): set<ItemStatus> {
    match from
    case StatusRegistered => {StatusAdjudicated, StatusCancelled, StatusReturned}
    case StatusAdjudicated => {StatusInProgress, StatusCancelled, StatusReturned, StatusEscalated}
    case StatusInProgress => {StatusCompleted, StatusCancelled, StatusEscalated}
    case StatusReturned => {StatusRegistered, StatusCancelled}
    case StatusEscalated => {StatusInProgress, StatusCompleted, StatusCancelled}
    case StatusCompleted => {}
    case StatusCancelled => {}
  }

  predicate CanTransition(from: ItemStatus, to: ItemStatus) {
    to in TransitionTable(from)
  }

  /** Staying put is always allowed, even in a terminal status. */
  predicate ValidTransition(from: ItemStatus, to: ItemStatus) {
    from == to || CanTransition(from, to)
  }
}
