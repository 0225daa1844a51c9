/**
 Where the policy decides about providers: opening, confirming and leasing.

 A provider is allowed if it is not denied and, with an allowlist, is listed.  Each decision is characterised in
 both directions, with the policy written out on its fields.
 */
module ProviderPolicy {
  import opened Options
  import opened SessionRows
  import opened Protocol
  import opened WalletSafety
  import opened UncertainOutcome

  // ---------------------------------------------------------------- opening

  /** The largest stake that the session limit, the budget and the liquid reserve all allow. */
  predicate Largest(policy: Policy, reserved: int, quote: Quote, limit: int) {
    && limit <= policy.maxSessionStake
    && reserved + quote.hold + quote.available + limit <= policy.maxTotalStake
    && policy.minLiquid + limit <= quote.mor
    && (|| limit == policy.maxSessionStake
        || reserved + quote.hold + quote.available + limit == policy.maxTotalStake
        || policy.minLiquid + limit == quote.mor)
  }

  /**
   After the quote an open is submitted if and only if the estimate fits under the largest stake allowed, there
   is gas, the policy is unchanged and admits it, and the provider is allowed.  It is stored first.
   */
  lemma SubmitsIff(s: State, quote: Quote, newId: Id, now: int, limit: int)
    requires s.lock.OpenQuoting? && Largest(s.lock.policy, s.lock.reserved, quote, limit)
    ensures var t := OpenSubmit(s, Ok(quote), newId, now);
            if (&& 0 < quote.estimate <= limit && quote.eth >= s.lock.policy.minEth
                && s.policy.revision == s.lock.policy.revision && !s.policy.paused && !s.mem.maintenance
                && quote.provider !in s.policy.deny && (s.policy.allowlistOnly ==> quote.provider in s.policy.allow))
            then
              && t.calls == s.calls + [CallOpen(newId, limit)]
              && newId in t.rows && t.rows[newId].state.Opening? && t.rows[newId].stake == limit
              && t.rows[newId].model == s.lock.model && t.rows[newId].provider == quote.provider
              && t.rows[newId].bid == quote.bid && t.rows[newId].createdAt == now
              && t.lock == OpenSubmitted(s.lock.model, s.lock.attempt, t.rows[newId])
            else t == s.(lock := Free)
  {
  }

  /** Whichever step asks the node for a session, its provider is allowed at that instant. */
  lemma OpensAllowedOnly(cfg: Config, s: State, step: Step, id: Id, limit: int)
    requires Enabled(s, step) && Apply(cfg, s, step).calls == s.calls + [CallOpen(id, limit)]
    ensures var t := Apply(cfg, s, step);
            && id in t.rows && t.rows[id].stake == limit && !s.policy.paused && !s.mem.maintenance
            && t.rows[id].provider !in s.policy.deny
            && (s.policy.allowlistOnly ==> t.rows[id].provider in s.policy.allow)
  {
    var call := CallOpen(id, limit);
    assert (s.calls + [call])[|s.calls|] == call;
    if !Submission(step) {
      CallsFrame(cfg, s, step);
    } else {
      var calls := Apply(cfg, s, step).calls;
      assert calls[|calls| - 1] == call;
    }
  }

  /** A confirmed session is kept open if and only if the policy still allows it; otherwise it is to be closed. */
  lemma ConfirmsAs(cfg: Config, s: State, truth: Truth, now: int)
    requires s.lock.OpenConfirming? && About(cfg, s.lock.row, truth)
    ensures var row := s.lock.row;
            var allowed := !s.policy.paused && s.lock.model in s.policy.models && row.provider !in s.policy.deny
                           && (s.policy.allowlistOnly ==> row.provider in s.policy.allow);
            var t := OpenConfirm(cfg, s, Ok(truth), now);
            && t.lock.Free? && row.id in t.rows && t.rows[row.id].stake == truth.stake && t.rows[row.id].endsAt == truth.endsAt
            && t.rows[row.id].state == (if !allowed then Draining else if truth.closedAt == 0 then Open else Closed)
  {
  }

  // ---------------------------------------------------------------- leasing

  /** The read of a reserved row failed for the row's sake, or was about another session. */
  predicate Suspect(cfg: Config, row: Row, read: Reply<Truth>) {
    (read.Err? && !read.failure.code.Admission?) || (read.Ok? && !About(cfg, row, read.value))
  }

  predicate StillOpen(s: State, id: Id) {
    id in s.rows && s.rows[id].state.Open?
  }

  /**
   A reserved row is leased if and only if the chain confirms it as running long enough, it is still open, and
   the policy admits its model and its provider.
   */
  lemma GrantsIff(cfg: Config, s: State, model: Id, row: Row, read: Reply<Truth>, now: int)
    ensures Judge(cfg, s, model, row, read, now).Grant? <==>
            && read.Ok? && About(cfg, row, read.value) && StillOpen(s, row.id)
            && read.value.closedAt == 0 && read.value.endsAt > now + cfg.requestTimeout + 15
            && !s.policy.paused && !s.mem.maintenance && model in s.policy.models
            && s.rows[row.id].provider !in s.policy.deny
            && (s.policy.allowlistOnly ==> s.rows[row.id].provider in s.policy.allow)
    ensures Judge(cfg, s, model, row, read, now).Grant? ==>
              var granted := Judge(cfg, s, model, row, read, now).row;
              granted == s.rows[row.id].(lastUsed := now, endsAt := read.value.endsAt)
  {
  }

  /** What is written when it is not leased: suspects are quarantined, ended sessions closed, expiring ones drained. */
  lemma SkipsWith(cfg: Config, s: State, model: Id, row: Row, read: Reply<Truth>, now: int)
    requires Keyed(s) && Judge(cfg, s, model, row, read, now).Skip?
    ensures var write := Judge(cfg, s, model, row, read, now).write;
            if Suspect(cfg, row, read) then
              write.Some? && write.value.id == row.id && write.value.state.Quarantined? && write.value.failures == row.failures + 1
            else if !StillOpen(s, row.id) then write.None?
            else
              && write.Some? && write.value.id == row.id
              && write.value.state == (if read.value.closedAt != 0 then Closed else Draining)
              && (read.value.closedAt == 0 ==> read.value.endsAt <= now + cfg.requestTimeout + 15)
  {
  }

  /** The borrower gives up instead if it was cancelled or turned away, or if policy or maintenance forbid the lease. */
  lemma QuitsIff(cfg: Config, s: State, model: Id, row: Row, read: Reply<Truth>, now: int)
    ensures Judge(cfg, s, model, row, read, now).Quit? <==>
            || read.Cancelled? || (read.Err? && read.failure.code.Admission?)
            || (&& read.Ok? && About(cfg, row, read.value) && StillOpen(s, row.id)
                && read.value.closedAt == 0 && read.value.endsAt > now + cfg.requestTimeout + 15
                && (|| s.policy.paused || s.mem.maintenance || model !in s.policy.models
                    || s.rows[row.id].provider in s.policy.deny
                    || (s.policy.allowlistOnly && s.rows[row.id].provider !in s.policy.allow)))
  {
  }
}
