/** How the router reads a provider's answer (internal/payments/adapters.go). The two providers
    speak different contracts; both are normalised to one result. */
module Adapters {
  import opened Payments

  /** The decoded part of an answer the adapters look at. */
  datatype Body = Unparsable | Decoded(verdict: string, ref: string)

  /** No answer at all covers a refused connection, a timeout and a cancelled call. */
  datatype Answer = NoAnswer | Http(code: int, body: Body)

  datatype ProviderResult = ProviderResult(status: Status, ref: string, error: string)

  /** What the router makes of a call that the breaker refuses. */
  const CIRCUIT_OPEN := ProviderResult(Pending, "", "gateway circuit open")

  const REJECTED_REQUEST := "provider rejected request"

  function ApprovedVerdict(g: GatewayName): string {
    match g case GatewayCard => "AUTHORIZED" case GatewayBank => "ACCEPTED"
  }

  function RefusedVerdict(g: GatewayName): string {
    match g case GatewayCard => "DECLINED" case GatewayBank => "REJECTED"
  }

  function RefusedText(g: GatewayName): string {
    match g case GatewayCard => "card authorization declined" case GatewayBank => "bank transfer rejected"
  }

  function Normalize(g: GatewayName, body: Body): ProviderResult {
    match body
    case Unparsable => ProviderResult(Pending, "", "provider response invalid")
    case Decoded(verdict, ref) =>
      if ToUpper(verdict) == ApprovedVerdict(g) then ProviderResult(Succeeded, ref, "")
      else if ToUpper(verdict) == RefusedVerdict(g) then ProviderResult(Failed, ref, RefusedText(g))
      else ProviderResult(Pending, "", "provider response pending")
  }

  function CallProvider(g: GatewayName, answer: Answer): ProviderResult {
    match answer
    case NoAnswer => ProviderResult(Pending, "", "provider unavailable")
    case Http(code, body) =>
      if code >= 500 || code == 408 || code == 504 then ProviderResult(Pending, "", "provider unavailable")
      else if code >= 400 then ProviderResult(Failed, "", REJECTED_REQUEST)
      else Normalize(g, body)
  }

  /** The words by which each provider approves and refuses, in whatever casing. */
  predicate Approves(g: GatewayName, verdict: string) {
    SameLetters(if g.GatewayCard? then "AUTHORIZED" else "ACCEPTED", verdict)
  }

  predicate Refuses(g: GatewayName, verdict: string) {
    SameLetters(if g.GatewayCard? then "DECLINED" else "REJECTED", verdict)
  }

  lemma VerdictWords(g: GatewayName, verdict: string)
    ensures ToUpper(verdict) == ApprovedVerdict(g) <==> Approves(g, verdict)
    ensures ToUpper(verdict) == RefusedVerdict(g) <==> Refuses(g, verdict)
    ensures !(Approves(g, verdict) && Refuses(g, verdict))
  {
    assert ApprovedVerdict(g)[0] == 'A' && RefusedVerdict(g)[0] != 'A';
    WordsAreCapitals(g);
    hide SameLetters, NoSmallLetter, NoCapital, ToUpper, ToLower;
    CaseIsDetermined(verdict, ApprovedVerdict(g));
    CaseIsDetermined(verdict, RefusedVerdict(g));
  }

  lemma WordsAreCapitals(g: GatewayName)
    ensures NoSmallLetter(ApprovedVerdict(g)) && NoSmallLetter(RefusedVerdict(g))
  {
  }

  /** Money is reported as taken only on the provider's own approval, and as not taken only on its
      own refusal or on a 4xx answer other than 408; the error text tells the last two apart. Anything
      else is PENDING, and its error text says why. */
  lemma VerdictsAreTheProviders(g: GatewayName, answer: Answer)
    ensures var r := CallProvider(g, answer);
            var decided := answer.Http? && answer.code < 400 && answer.body.Decoded?;
            && (r.status.Succeeded? <==> decided && Approves(g, answer.body.verdict))
            && (r.status.Failed? <==>
                  || (answer.Http? && 400 <= answer.code < 500 && answer.code != 408)
                  || (decided && Refuses(g, answer.body.verdict)))
            && r.ref == (if decided && !r.status.Pending? then answer.body.ref else "")
            && r.error ==
                 match r.status {
                   case Succeeded => ""
                   case Failed =>
                     if !decided then "provider rejected request"
                     else if g.GatewayCard? then "card authorization declined" else "bank transfer rejected"
                   case Pending =>
                     if answer.NoAnswer? || answer.code >= 400 then "provider unavailable"
                     else if !decided then "provider response invalid" else "provider response pending"
                 }
  {
    if answer.Http? && answer.body.Decoded? {
      VerdictWords(g, answer.body.verdict);
    }
    hide ToUpper, Approves, Refuses, ApprovedVerdict, RefusedVerdict;
  }
}
