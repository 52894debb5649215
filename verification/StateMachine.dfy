/** The status state machine of a service order. */
module StateMachine {
  import opened Entities

  const VALID_TRANSITIONS: map<Status, set<Status>> := map[
    Received := {Diagnosis, Cancelled},
    Diagnosis := {WaitingApproval},
    WaitingApproval := {Approved, Rejected, Cancelled},
    Approved := {Paid, Cancelled},
    Paid := {Execution},
    Execution := {Finished},
    Finished := {Delivered},
    Delivered := {},
    Rejected := {},
    Cancelled := {}
  ]

  predicate CanTransition(from: Status, to: Status) {
    from in VALID_TRANSITIONS && to in VALID_TRANSITIONS[from]
  }

  /** The order still holds its reservation. */
  predicate Live(s: Status) {
    s.Received? || s.Diagnosis? || s.WaitingApproval? || s.Approved?
  }

  /** The order's reservation was consumed. */
  predicate PaidFor(s: Status) {
    s.Paid? || s.Execution? || s.Finished? || s.Delivered?
  }

  /** The saga undid the order. */
  predicate Undone(s: Status) {
    s.Rejected? || s.Cancelled?
  }

  /** How many transitions an order in this status can still make, at most. */
  function Rank(s: Status): nat {
    match s
    case Received => 7
    case Diagnosis => 6
    case WaitingApproval => 5
    case Approved => 4
    case Paid => 3
    case Execution => 2
    case Finished => 1
    case Delivered | Rejected | Cancelled => 0
  }

  lemma TransitionsLowerTheRank(from: Status, to: Status)
    requires CanTransition(from, to)
    ensures Rank(to) < Rank(from)
    ensures PaidFor(from) ==> PaidFor(to)
    ensures Undone(to) ==> Live(from)
    ensures PaidFor(to) ==> from.Approved? || PaidFor(from)
  {
  }
}
