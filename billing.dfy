/** The billing page: the button of each subscription tier, and the subscribe and cancel
    handlers with their guards, error messages and success transition. */
module Billing {
  import opened JsValues

  /** A subscription tier; `priceId` is the payment processor's price, absent for Free. */
  datatype Tier = Tier(name: string, priceId: Option<string>)

  const Free := Tier("Free", None)
  const Basic := Tier("Basic", Some("price_1Q4RU0Ai61MmRtb3fTMwEQBr"))
  const Pro := Tier("Pro", Some("price_1Q4RUNAi61MmRtb3p98xZBb7"))

  /** The tiers in the order the page shows them. */
  const Tiers: seq<Tier> := [Free, Basic, Pro]

  const NotAuthenticatedError := "User not authenticated. Please log in and try again."
  const SubscriptionErrorPrefix := "Failed to create subscription: "
  const NothingToCancelError := "No active subscription to cancel"
  const CancelFailedError := "Failed to cancel subscription"
  const CancelledSuccess := "Subscription successfully cancelled"

  /** What a tier's button does when clicked. */
  datatype Action = Subscribe(tierName: string, priceId: string) | CancelSubscription

  /** The button is disabled exactly on the current tier. */
  predicate ButtonDisabled(tier: Tier, currentTier: Option<string>) {
    currentTier == Some(tier.name)
  }

  /** The button's label: "Current Tier" on the current tier, "Cancel Subscription" on Free
      while some tier is current, and "Select <name> Plan" otherwise. */
  function ButtonLabel(tier: Tier, currentTier: Option<string>): (r: string)
    ensures r == "Current Tier" <==> ButtonDisabled(tier, currentTier)
    ensures !ButtonDisabled(tier, currentTier) && tier.name == "Free" && TruthyOpt(currentTier) ==> r == "Cancel Subscription"
    ensures !ButtonDisabled(tier, currentTier) && !(tier.name == "Free" && TruthyOpt(currentTier)) ==> r == "Select " + tier.name + " Plan"
  {
    if ButtonDisabled(tier, currentTier) then "Current Tier"
    else if tier.name == "Free" && TruthyOpt(currentTier) then "Cancel Subscription"
    else
      var r := "Select " + tier.name + " Plan";
      assert r[0] == 'S';
      r
  }

  /** The button's click: subscribe when the tier has a (non-empty) price id, cancel otherwise. */
  function ClickAction(tier: Tier): (r: Action)
    ensures r.Subscribe? <==> TruthyOpt(tier.priceId)
    ensures r.Subscribe? ==> r.tierName == tier.name && Some(r.priceId) == tier.priceId
  {
    if TruthyOpt(tier.priceId) then Subscribe(tier.name, tier.priceId.value) else CancelSubscription
  }

  /** Of the page's tiers only Free cancels; Basic and Pro subscribe with their own price. */
  lemma TierActions()
    ensures ClickAction(Free) == CancelSubscription
    ensures ClickAction(Basic) == Subscribe("Basic", Basic.priceId.value)
    ensures ClickAction(Pro) == Subscribe("Pro", Pro.priceId.value)
    ensures forall t :: t in Tiers ==> (ClickAction(t).Subscribe? <==> t.name != "Free")
  {
  }

  /** At most one of the page's buttons is disabled, and none is while no tier is current. */
  lemma AtMostOneDisabled(currentTier: Option<string>)
    ensures forall i, j :: 0 <= i < j < |Tiers| ==> !(ButtonDisabled(Tiers[i], currentTier) && ButtonDisabled(Tiers[j], currentTier))
    ensures currentTier == None ==> forall t :: t in Tiers ==> !ButtonDisabled(t, currentTier)
  {
  }

  /** How the checkout attempt of `handleSubscription` ends, as the network, the server and the
      payment processor's browser library decide it. */
  datatype CheckoutOutcome =
    | Rejected(thrown: Thrown)                                  // the request or a library call rejects
    | Unparseable(responseText: string)                         // the body is not JSON
    | HttpFailure(status: nat, message: Option<string>)         // parsed, but the response is not ok
    | ProcessorUnavailable                                      // the library did not load
    | RedirectFailed(thrown: Thrown)                            // the redirect reports an error
    | Redirected                                                // the browser leaves for checkout

  const InvalidResponsePrefix := "Invalid server response: "
  const HttpErrorPrefix := "HTTP error! status: "
  const ProcessorUnavailableError := "Failed to load Stripe"

  /** The message shown for an unparseable response quotes at most its first 100 characters. */
  lemma UnparseableMessageQuotesPrefix(text: string)
    ensures var m := ThrownMessage(CheckoutThrown(Unparseable(text)).value);
            var shown := m[|InvalidResponsePrefix|..|m| - 3];
            && StartsWith(m, InvalidResponsePrefix)
            && |shown| <= 100
            && StartsWith(text, shown)
            && (|text| <= 100 ==> shown == text)
  {
    var shown := Prefix(text, 100);
    var m := InvalidResponsePrefix + shown + "...";
    assert m[|InvalidResponsePrefix|..|m| - 3] == shown;
    assert m[..|InvalidResponsePrefix|] == InvalidResponsePrefix;
  }

  /** `error instanceof Error ? error.message : 'Unknown error'`. */
  function ThrownMessage(t: Thrown): string {
    match t
    case ErrorObject(m) => m
    case RangeError => "RangeError"
    case NonError => "Unknown error"
  }

  /** The value the `try` block throws on a failed checkout, or none on success. */
  function CheckoutThrown(o: CheckoutOutcome): (r: Option<Thrown>)
    ensures r.None? <==> o.Redirected?
    ensures o.Rejected? || o.RedirectFailed? ==> r == Some(o.thrown)
    ensures o.Unparseable? ==> r == Some(ErrorObject(InvalidResponsePrefix + Prefix(o.responseText, 100) + "..."))
    ensures o.HttpFailure? && TruthyOpt(o.message) ==> r == Some(ErrorObject(o.message.value))
    ensures o.HttpFailure? && !TruthyOpt(o.message) ==> r == Some(ErrorObject(HttpErrorPrefix + DecimalString(o.status)))
    ensures o.ProcessorUnavailable? ==> r == Some(ErrorObject(ProcessorUnavailableError))
  {
    match o
    case Rejected(t) => Some(t)
    case Unparseable(text) => Some(ErrorObject(InvalidResponsePrefix + Prefix(text, 100) + "..."))
    case HttpFailure(status, message) =>
      Some(ErrorObject(if TruthyOpt(message) then message.value else HttpErrorPrefix + DecimalString(status)))
    case ProcessorUnavailable => Some(ErrorObject(ProcessorUnavailableError))
    case RedirectFailed(t) => Some(t)
    case Redirected => None
  }

  /** A checkout request the page sends to its server. */
  datatype CheckoutRequest = CheckoutRequest(priceId: string, userId: string)

  /** How `handleCancelSubscription`'s work ends: no active subscription row is found, the
      subscription is cancelled and marked so, or a call throws. */
  datatype CancelOutcome = NoActiveRow | Cancelled(subscriptionId: string) | CancelThrew

  /** The billing page's state, with the checkout requests and processor cancellations made. */
  class BillingPage {
    var currentTier: Option<string>
    var userId: Option<string>
    var error: Option<string>
    var success: Option<string>
    var checkoutRequests: seq<CheckoutRequest>
    var cancelledSubscriptions: seq<string>

    constructor ()
      ensures currentTier == None && userId == None && error == None && success == None
      ensures checkoutRequests == [] && cancelledSubscriptions == []
    {
      currentTier, userId, error, success := None, None, None, None;
      checkoutRequests, cancelledSubscriptions := [], [];
    }

    /** The mount effect: with a signed-in user, remember the id, and the tier of the user's
        active subscription when the lookup finds one. */
    method LoadSubscription(user: Option<string>, activeTier: Option<string>)
      modifies this
      ensures userId == (if user.Some? then user else old(userId))
      ensures currentTier == (if user.Some? && activeTier.Some? then activeTier else old(currentTier))
      ensures error == old(error) && success == old(success)
      ensures checkoutRequests == old(checkoutRequests) && cancelledSubscriptions == old(cancelledSubscriptions)
    {
      if user.Some? {
        userId := user;
        if activeTier.Some? {
          currentTier := activeTier;
        }
      }
    }

    /** `handleSubscription`. Without a user id it only reports the missing sign-in and sends no
        request. Otherwise it clears both messages, sends one checkout request, and a failure
        ends with an error starting "Failed to create subscription: ". */
    method HandleSubscription(tierName: string, priceId: string, outcome: CheckoutOutcome)
      modifies this
      ensures !TruthyOpt(old(userId)) ==>
        && error == Some(NotAuthenticatedError) && success == old(success)
        && checkoutRequests == old(checkoutRequests)
      ensures TruthyOpt(old(userId)) ==>
        && success == None
        && checkoutRequests == old(checkoutRequests) + [CheckoutRequest(priceId, old(userId).value)]
        && (outcome.Redirected? ==> error == None)
        && (!outcome.Redirected? ==> error == Some(SubscriptionErrorPrefix + ThrownMessage(CheckoutThrown(outcome).value)))
      ensures currentTier == old(currentTier) && userId == old(userId)
      ensures cancelledSubscriptions == old(cancelledSubscriptions)
    {
      if !TruthyOpt(userId) {
        error := Some(NotAuthenticatedError);
        return;
      }
      error := None;
      success := None;
      checkoutRequests := checkoutRequests + [CheckoutRequest(priceId, userId.value)];
      var thrown := CheckoutThrown(outcome);
      if thrown.Some? {
        error := Some(SubscriptionErrorPrefix + ThrownMessage(thrown.value));
      }
    }

    /** `handleCancelSubscription`. Without a user id or a current tier it only reports that
        there is nothing to cancel; a successful cancel clears the current tier and reports
        success; a thrown call reports the failure. */
    method HandleCancelSubscription(outcome: CancelOutcome)
      modifies this
      ensures !TruthyOpt(old(userId)) || !TruthyOpt(old(currentTier)) ==>
        && error == Some(NothingToCancelError)
        && currentTier == old(currentTier) && success == old(success)
        && cancelledSubscriptions == old(cancelledSubscriptions)
      ensures TruthyOpt(old(userId)) && TruthyOpt(old(currentTier)) ==>
        match outcome
        case NoActiveRow =>
          currentTier == old(currentTier) && error == old(error) && success == old(success)
          && cancelledSubscriptions == old(cancelledSubscriptions)
        case Cancelled(id) =>
          currentTier == None && success == Some(CancelledSuccess) && error == old(error)
          && cancelledSubscriptions == old(cancelledSubscriptions) + [id]
        case CancelThrew =>
          currentTier == old(currentTier) && error == Some(CancelFailedError) && success == old(success)
          && cancelledSubscriptions == old(cancelledSubscriptions)
      ensures userId == old(userId) && checkoutRequests == old(checkoutRequests)
    {
      if !TruthyOpt(userId) || !TruthyOpt(currentTier) {
        error := Some(NothingToCancelError);
        return;
      }
      match outcome
      case NoActiveRow =>
      case Cancelled(id) =>
        cancelledSubscriptions := cancelledSubscriptions + [id];
        currentTier := None;
        success := Some(CancelledSuccess);
      case CancelThrew =>
        error := Some(CancelFailedError);
    }

    /** A click on the button of `tier` while it is enabled: the handler its action names. */
    method ClickTier(tier: Tier, checkout: CheckoutOutcome, cancel: CancelOutcome)
      requires !ButtonDisabled(tier, currentTier)
      modifies this
      ensures ClickAction(tier).Subscribe? ==>
        && cancelledSubscriptions == old(cancelledSubscriptions) && currentTier == old(currentTier)
        && (!TruthyOpt(old(userId)) ==>
              error == Some(NotAuthenticatedError) && success == old(success)
              && checkoutRequests == old(checkoutRequests))
        && (TruthyOpt(old(userId)) ==>
              && success == None
              && checkoutRequests == old(checkoutRequests) + [CheckoutRequest(tier.priceId.value, old(userId).value)]
              && (checkout.Redirected? ==> error == None)
              && (!checkout.Redirected? ==> error == Some(SubscriptionErrorPrefix + ThrownMessage(CheckoutThrown(checkout).value))))
      ensures ClickAction(tier).CancelSubscription? ==>
        && checkoutRequests == old(checkoutRequests)
        && (!TruthyOpt(old(userId)) || !TruthyOpt(old(currentTier)) ==>
              error == Some(NothingToCancelError) && currentTier == old(currentTier) && success == old(success)
              && cancelledSubscriptions == old(cancelledSubscriptions))
        && (TruthyOpt(old(userId)) && TruthyOpt(old(currentTier)) ==>
              match cancel
              case NoActiveRow =>
                currentTier == old(currentTier) && error == old(error) && success == old(success)
                && cancelledSubscriptions == old(cancelledSubscriptions)
              case Cancelled(id) =>
                currentTier == None && success == Some(CancelledSuccess) && error == old(error)
                && cancelledSubscriptions == old(cancelledSubscriptions) + [id]
              case CancelThrew =>
                currentTier == old(currentTier) && error == Some(CancelFailedError) && success == old(success)
                && cancelledSubscriptions == old(cancelledSubscriptions))
      ensures userId == old(userId)
    {
      match ClickAction(tier)
      case Subscribe(name, priceId) => HandleSubscription(name, priceId, checkout);
      case CancelSubscription => HandleCancelSubscription(cancel);
    }
  }
}
