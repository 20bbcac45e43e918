/** Whether the subscription's own credits may be spent. */
module SubscriptionState {

  datatype Window = NoWindow | Until(time: int)

  /** The subscription facts of an account: `active` is status "active", `revoked` the
      entitlement flag, `window` the stored credit expiry. */
  datatype Plan = Plan(active: bool, revoked: bool, window: Window)

  predicate SubscriptionSpendable(plan: Plan, now: int) {
    plan.active && !plan.revoked && plan.window.Until? && plan.window.time > now
  }

  function SpendableSubscription(plan: Plan, balance: int, now: int): int {
    if SubscriptionSpendable(plan, now) then balance else 0
  }
}
