/** When the router takes a replayed request for the payment it already holds, and why reposting
    the stored request is never a conflict (cmd/payment-router/main.go:118-136, 178-181, 208, 291). */
module Replay {
  import opened Payments

  /** A row written by the current code holds the digest of the canonical request. It accepts
      exactly the requests with that canonical form, whatever their casing or padding. */
  lemma CurrentRowAcceptsExactly(first: RouterPaymentRequest, replay: RouterPaymentRequest)
    requires ValidRouterRequest(Canon(first)) && ValidRouterRequest(Canon(replay))
    ensures Accepts(RequestHash(Canon(first)), replay) <==> Canon(replay) == Canon(first)
  {
    CanonFacts(first);
    CanonFacts(replay);
    CurrencyIsThreeLetters(first);
    CurrencyIsThreeLetters(replay);
    assert IsUpper(Canon(first).currency[0]) && IsLower(LowerCurrency(Canon(replay)).currency[0]);
  }

  lemma CurrencyIsThreeLetters(req: RouterPaymentRequest)
    requires ValidRouterRequest(Canon(req))
    ensures |Canon(req).currency| == 3
    ensures forall i :: 0 <= i < 3 ==> IsUpper(Canon(req).currency[i])
  {
    CanonFacts(req);
    UpperIsTight(req.currency);
  }

  /** A legacy row holds the digest of the request as it was sent. Acceptance still means that the
      two requests have one canonical form. */
  lemma LegacyRowAcceptsOnlyEqual(first: RouterPaymentRequest, replay: RouterPaymentRequest)
    requires ValidRouterRequest(Canon(replay))
    requires Accepts(RequestHash(first), replay)
    ensures Canon(replay) == Canon(first)
  {
    CanonFacts(replay);
  }

  /** Store, look up, repost, canonicalise again: the stored request comes back, and its digest is
      the stored one. */
  lemma FrozenRequestRoundTrip(first: RouterPaymentRequest)
    requires ValidRouterRequest(Canon(first))
    ensures Canon(Columns(Canon(first))) == Canon(first)
    ensures Accepts(RequestHash(Canon(first)), Columns(Canon(first)))
    ensures GatewayFor(Columns(Canon(first)).instrument) == GatewayFor(Canon(first).instrument)
  {
    CanonFacts(first);
  }

  /** A recovery repost of a legacy row passes exactly when the digest was taken over the canonical
      request or over the canonical request with its currency in lower case. */
  lemma LegacyRepostAcceptedIff(first: RouterPaymentRequest)
    requires ValidRouterRequest(Canon(first))
    ensures Accepts(RequestHash(first), Columns(Canon(first))) <==>
            first == Canon(first) || first == LowerCurrency(Canon(first))
  {
    CanonFacts(first);
  }

  /** A client that resends what it sent first is never refused, however the digest of the first
      request was taken: over the request as sent, its canonical form, or that in small letters. */
  lemma ResendIsNoConflict(first: RouterPaymentRequest)
    ensures Accepts(RequestHash(first), first)
    ensures Accepts(RequestHash(Canon(first)), first)
    ensures Accepts(RequestHash(LowerCurrency(Canon(first))), first)
  {
  }

  /** Exactly which replays a legacy row takes: those of the same payment, if the first request was
      sent in canonical form, or in that form with its currency in small letters, or if the replay is
      written exactly as the first request was. */
  lemma LegacyRowAcceptsExactly(first: RouterPaymentRequest, replay: RouterPaymentRequest)
    requires ValidRouterRequest(Canon(replay))
    ensures Accepts(RequestHash(first), replay) <==>
              StoredAsSent(Canon(replay), first)
              && (first == Canon(first) || first == LowerCurrency(Canon(first)) || replay == first)
  {
    CanonIsAsSent(Canon(replay), first);
    CanonFacts(replay);
    hide StoredAsSent, ValidRouterRequest, Canon, LowerCurrency, Canonical;
  }

  /** The exclusion is real: a legacy digest over a mixed-case currency makes the router refuse the
      operator's own recovery repost, although both requests are the same payment. */
  lemma MixedCaseLegacyRowRefusesItsOwnRepost() returns (first: RouterPaymentRequest)
    ensures ValidRouterRequest(Canon(first)) && ValidRouterRequest(first)
    ensures Canon(Columns(Canon(first))) == Canon(first)
    ensures !Accepts(RequestHash(first), Columns(Canon(first)))
  {
    first := RouterPaymentRequest("d", "c", 100, "Usd", "r", "card");
    CurrencyFacts("Usd");
    CurrencyFacts(ToUpper("Usd"));
    TrimKeepsTight("card");
    TrimKeepsTight("d");
    TrimKeepsTight("c");
    TrimKeepsTight("r");
    assert ToLower("card") == "card";
    LegacyRepostAcceptedIff(first);
    CanonFacts(first);
    assert first.currency[1] == 's' && Canon(first).currency[1] == 'S';
    assert first.currency[0] == 'U' && LowerCurrency(Canon(first)).currency[0] == 'u';
  }
}
