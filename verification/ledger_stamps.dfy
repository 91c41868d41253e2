/**
 Timestamps of ledger rows, as they are compared and kept.
 */
module LedgerStamps {
  import opened FirstBest

  /** A timestamp keeps its text; different texts may name the same instant, counted from year 1. */
  datatype Stamp = Stamp(text: nat, at: nat) | Unparsable(text: nat)

  function Instant(s: Stamp): int { if s.Stamp? then s.at else 0 }

  function Earlier(s: Stamp): Rank { (-Instant(s), 0) }

  function Later(s: Stamp): Rank { (Instant(s), 0) }
}
