/** The values that flow through the pipeline: transactions, verdicts and the constants of the rules.
    Amounts are whole counts of the smallest unit the transactions table stores (four decimal places);
    instants are epoch milliseconds. */
module Domain {
  type AccountId = string

  const UNIT: nat := 10_000
  const LIMIT: nat := 100_000 * UNIT
  const SPIKE_THRESHOLD: nat := 50_000 * UNIT
  const MAX_COUNTERPARTIES: nat := 10
  const MAX_P2P_RATIO: real := 0.80

  const DAY: int := 86_400_000
  const THIRTY_DAYS: int := 30 * DAY
  const HOUR: int := 3_600_000

  datatype Option<+T> = None | Some(value: T)

  datatype Tx = Tx(
    id: nat, from: AccountId, to: AccountId, amount: nat, currency: string, mccCode: string,
    isP2p: bool, createdAt: nat)

  datatype TransactionStatus = APPROVED | FLAGGED | REJECTED

  datatype RuleStatus = RulePassed | RuleFlagged | RuleBlocked

  datatype RuleResult = RuleResult(ruleId: string, ruleVersion: nat, status: RuleStatus, isHard: bool)

  datatype RiskLevel = LOW | MEDIUM | HIGH | CRITICAL

  datatype AccountContext = AccountContext(
    volume24h: nat, txCount24h: nat, uniqueCounterparties24h: nat, p2pRatio30d: real, isDormantAccount: bool)

  /** What the relay carries: one evaluated transaction. */
  datatype Event = Event(tx: Tx, status: TransactionStatus, results: seq<RuleResult>, evaluatedAt: nat)
}
