/** Evaluations of one account within 24 hours of each other, with nothing lost: the race test for any
    number of transactions and any amounts. */
module Burst {
  import opened Domain
  import opened Sums
  import opened History
  import opened Window
  import opened Account
  import opened Limit

  ghost predicate OneDay(ts: seq<nat>) { forall t, u | t in ts && u in ts :: t <= u + DAY }

  // A transaction passes exactly while the running total of all committed amounts, flagged ones
  // included, fits the limit.
  ghost predicate Fits(txs: seq<Tx>, verdicts: seq<bool>) {
    |verdicts| == |txs| && forall i | 0 <= i < |txs| :: verdicts[i] <==> Total(txs[..i + 1]) <= LIMIT
  }

  ghost predicate Exact(c: Acct, phase: Phase) {
    c.faults == 0 && c.flushes == 0 && OneDay(c.seen) ==>
      && c.window.marker.None? && c.txs == c.window.live + Pending(phase)
      && (forall u | u in c.txs :: u.createdAt in c.seen)
      && (phase.Reads? ==> phase.m.volume == Total(c.txs))
      && Fits(c.txs, c.verdicts)
  }

  lemma ExactByRead(c: Acct, tx: Tx, h: Table, now: int)
    requires Exact(c, Out) && Backed(h, tx.from, c.txs)
    ensures var (d, m) := OnRead(c, tx, h, now); Exact(d, Reads(tx, m))
  {
    hide OnRead, Fits, Recovered, Unrecovered, TrimmedBy, Kept, Backed, SumAmount;
    var t := tx.createdAt;
    ReadShape(c, tx, h, now);
    if c.faults == 0 && c.flushes == 0 && OneDay(c.seen + [t]) {
      assert t in c.seen + [t] && forall x | x in c.seen :: x in c.seen + [t];
      assert c.txs == c.window.live;
      KeptAll(c.window.live, t - DAY);
      SumAtMostCommitted(h, tx.from, c.txs, t - DAY, t);
      assert c.txs == [] ==> Within(c.txs, t - DAY, t) == 0;
    }
  }

  lemma FitsSnoc(txs: seq<Tx>, verdicts: seq<bool>, tx: Tx, passed: bool)
    requires Fits(txs, verdicts) && (passed <==> Total(txs) + tx.amount <= LIMIT)
    ensures Fits(txs + [tx], verdicts + [passed])
  {
    var q := txs + [tx];
    TotalSnoc(txs, tx);
    forall i | 0 <= i < |q| ensures (verdicts + [passed])[i] <==> Total(q[..i + 1]) <= LIMIT {
      assert q[..i + 1] == if i < |txs| then txs[..i + 1] else q;
    }
  }

  lemma ExactByCommit(c: Acct, tx: Tx, m: Metrics, status: TransactionStatus)
    requires Exact(c, Reads(tx, m)) && Current(c, Reads(tx, m))
    ensures Exact(OnCommit(c, tx, m, status), Committed(tx, m))
  {
    hide OnCommit, Fits, Total, OneDay;
    CommitShape(c, tx, m, status);
    if Fits(c.txs, c.verdicts) && m.volume == Total(c.txs) {
      FitsSnoc(c.txs, c.verdicts, tx, Passes(tx, m));
    }
  }

  lemma ExactByAdd(c: Acct, tx: Tx, m: Metrics, now: int)
    requires Exact(c, Committed(tx, m))
    ensures Exact(OnAdd(c, tx, now), Settled(tx, m, true))
  {
    hide Fits, OneDay;
  }

  lemma ExactByClose(c: Acct, phase: Phase)
    requires Exact(c, phase) && (phase.Reads? || phase.Settled?)
    ensures Exact(OnClose(c, phase), Out)
  {
    hide Fits, OneDay;
  }

  // --- What the pattern of verdicts says -----------------------------------------------

  lemma {:induction false} TotalGrows(txs: seq<Tx>, i: nat, j: nat)
    requires i <= j <= |txs|
    ensures Total(txs[..i]) <= Total(txs[..j])
  {
    if i < j {
      TotalGrows(txs, i, j - 1);
      assert txs[..j] == txs[..j - 1] + [txs[j - 1]];
      TotalSnoc(txs[..j - 1], txs[j - 1]);
    }
  }

  // The passing transactions come first.
  lemma FitsIsPrefix(txs: seq<Tx>, verdicts: seq<bool>, i: nat, j: nat)
    requires Fits(txs, verdicts) && i <= j < |verdicts| && verdicts[j]
    ensures verdicts[i]
  {
    TotalGrows(txs, i + 1, j + 1);
  }

  function PassCount(verdicts: seq<bool>): nat {
    if verdicts == [] then 0
    else PassCount(verdicts[..|verdicts| - 1]) + if verdicts[|verdicts| - 1] then 1 else 0
  }

  lemma {:induction false} EqualTotal(txs: seq<Tx>, amount: nat)
    requires forall u | u in txs :: u.amount == amount
    ensures Total(txs) == |txs| * amount
  {
    if txs != [] {
      EqualTotal(txs[..|txs| - 1], amount);
      assert |txs| * amount == (|txs| - 1) * amount + amount;
    }
  }

  lemma QuotientTest(n: nat, amount: nat)
    requires amount > 0
    ensures n * amount <= LIMIT <==> n <= LIMIT / amount
  {
    var q := LIMIT / amount;
    assert LIMIT == q * amount + LIMIT % amount;
    if n <= q {
      assert n * amount <= q * amount;
    } else {
      assert n * amount >= (q + 1) * amount;
      assert (q + 1) * amount == q * amount + amount;
    }
  }

  lemma {:induction false} QuotaCount(verdicts: seq<bool>, quota: nat)
    requires forall i | 0 <= i < |verdicts| :: verdicts[i] <==> i + 1 <= quota
    ensures PassCount(verdicts) == if |verdicts| <= quota then |verdicts| else quota
  {
    if verdicts != [] {
      QuotaCount(verdicts[..|verdicts| - 1], quota);
    }
  }

  // n equal amounts pass exactly min(n, LIMIT / amount) times.
  lemma RaceTest(txs: seq<Tx>, verdicts: seq<bool>, amount: nat)
    requires Fits(txs, verdicts) && amount > 0 && forall u | u in txs :: u.amount == amount
    ensures PassCount(verdicts) == if |txs| <= LIMIT / amount then |txs| else LIMIT / amount
  {
    forall i | 0 <= i < |verdicts| ensures verdicts[i] <==> i + 1 <= LIMIT / amount {
      EqualTotal(txs[..i + 1], amount);
      QuotientTest(i + 1, amount);
    }
    QuotaCount(verdicts, LIMIT / amount);
  }
}
