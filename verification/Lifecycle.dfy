/** The status table, and what a path through it can do. */
module Lifecycle {

  import opened Contracts

  function LegalTargets(s: Status): set<Status> {
    match s
    case Proposed => {Tentative, Accepted, Rejected, Revised}
    case Tentative => {Accepted, Rejected, Revised, Superseded}
    case Accepted => {Superseded}
    case Rejected => {}
    case Superseded => {}
    case Revised => {}
  }

  predicate IsLegalTransition(from: Status, to: Status) {
    to in LegalTargets(from)
  }

  predicate IsTerminal(s: Status) {
    s in {Rejected, Superseded, Revised}
  }

  /** Every consecutive pair of a status history is either no change or an edge of the table. */
  ghost predicate IsHistory(h: seq<Status>) {
    forall i | 0 <= i < |h| - 1 :: h[i] == h[i + 1] || IsLegalTransition(h[i], h[i + 1])
  }

  /** How far along its life a status is; every edge of the table climbs. */
  function Rank(s: Status): nat {
    match s
    case Proposed => 0
    case Tentative => 1
    case Accepted => 2
    case Rejected => 3
    case Superseded => 3
    case Revised => 3
  }

  /** A history never leaves a terminal status, never comes back to one it left, and changes
      status at most three times. */
  lemma {:induction false} HistoryNeverReturns(h: seq<Status>, i: nat, j: nat)
    requires IsHistory(h) && i <= j < |h|
    ensures IsTerminal(h[i]) ==> h[j] == h[i]
    ensures Rank(h[i]) <= Rank(h[j])
    ensures Rank(h[i]) == Rank(h[j]) ==> h[j] == h[i]
    decreases j - i
  {
    if i < j {
      HistoryNeverReturns(h, i, j - 1);
      assert h[j - 1] == h[j - 1 + 1] || IsLegalTransition(h[j - 1], h[j - 1 + 1]);
    }
  }
}
