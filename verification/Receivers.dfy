/** The set of senders held for one receiver. It is written outside any lock of the receiver. */
module Receivers {
  import opened Domain

  // The record of the run: when each sender was last added and last approved; all senders ever approved,
  // and of them the `recent` ones; which senders the set does not show although it was to show them,
  // `failed` leaving out those that went by expiry; whether the set was lost other than by expiry.
  datatype Receiver = Receiver(
    senders: set<AccountId>, deadline: int,
    lastAdd: map<AccountId, int>, approvedAt: map<AccountId, int>,
    approved: set<AccountId>, missing: set<AccountId>,
    recent: set<AccountId>, failed: set<AccountId>, dropped: bool)

  const UNKNOWN: Receiver := Receiver({}, 0, map[], map[], {}, {}, {}, {}, false)

  function OnAddSender(r: Receiver, x: AccountId, now: int): Receiver {
    r.(senders := r.senders + {x}, deadline := now + DAY, lastAdd := r.lastAdd[x := now])
  }

  function OnMissSender(r: Receiver, x: AccountId): Receiver {
    r.(missing := r.missing + {x}, failed := r.failed + {x})
  }

  function OnApprove(r: Receiver, x: AccountId, now: int): Receiver {
    r.(approved := r.approved + {x}, recent := r.recent + {x}, approvedAt := r.approvedAt[x := now])
  }

  // `unsettled` are the senders whose committed transaction is still to be added.
  function OnFlushSenders(r: Receiver, expired: bool, unsettled: set<AccountId>): Receiver {
    r.(senders := {}, missing := r.missing + r.senders,
       recent := if expired then r.recent - (r.senders - unsettled - r.failed) else r.recent,
       failed := if expired then r.failed else r.failed + r.senders,
       dropped := r.dropped || !expired)
  }

  // Every sender added within the last 24 hours is in the set: each add renews the expiry for all.
  ghost predicate Covers(r: Receiver, now: int) {
    && r.deadline <= now + DAY
    && (forall x | x in r.lastAdd :: r.lastAdd[x] + DAY <= r.deadline)
    && (!r.dropped ==> forall x | x in r.lastAdd && now < r.lastAdd[x] + DAY :: x in r.senders)
  }

  // Every sender approved within the last 24 hours counts as recent.
  ghost predicate Remembers(r: Receiver, now: int) {
    && (forall x | x in r.approvedAt :: r.approvedAt[x] <= now)
    && (forall x | x in r.approvedAt && now < r.approvedAt[x] + DAY :: x in r.recent)
  }

  // Every approval has led to an add or a failed one, or is still `unsettled`.
  ghost predicate Accounted(r: Receiver, unsettled: set<AccountId>) {
    forall x | x in r.approvedAt ::
      x in unsettled || x in r.failed || (x in r.lastAdd && r.approvedAt[x] <= r.lastAdd[x])
  }

  lemma RemembersAfterExpiry(r: Receiver, now: int, unsettled: set<AccountId>)
    requires Covers(r, now) && Remembers(r, now) && Accounted(r, unsettled) && r.deadline <= now
    ensures Remembers(OnFlushSenders(r, true, unsettled), now)
  {
  }
}
