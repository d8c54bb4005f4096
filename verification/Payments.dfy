/** The vocabulary the services share: statuses, the internal payment request and its canonical
    form, the request digest, and the conflict test a replay has to pass
    (internal/payments/types.go and the request handling of cmd/payment-router/main.go).
    Text is ASCII. */
module Payments {

  datatype Option<+T> = None | Some(value: T)

  datatype Status = Succeeded | Failed | Pending

  predicate Terminal(s: Status) { !s.Pending? }

  /******* ASCII text *******/

  predicate IsSpace(c: char) { c == ' ' || '\t' <= c <= '\r' }
  predicate IsUpper(c: char) { 'A' <= c <= 'Z' }
  predicate IsLower(c: char) { 'a' <= c <= 'z' }
  predicate IsLetter(c: char) { IsUpper(c) || IsLower(c) }

  function UpperChar(c: char): char { if IsLower(c) then c - 'a' + 'A' else c }
  function LowerChar(c: char): char { if IsUpper(c) then c - 'A' + 'a' else c }

  function ToUpper(s: string): string { seq(|s|, i requires 0 <= i < |s| => UpperChar(s[i])) }
  function ToLower(s: string): string { seq(|s|, i requires 0 <= i < |s| => LowerChar(s[i])) }

  function TrimLeft(s: string): string {
    if s != [] && IsSpace(s[0]) then TrimLeft(s[1..]) else s
  }

  function TrimRight(s: string): string {
    if s != [] && IsSpace(s[|s| - 1]) then TrimRight(s[..|s| - 1]) else s
  }

  function TrimSpace(s: string): string { TrimRight(TrimLeft(s)) }

  predicate Blank(c: char) { c == ' ' || 9 <= c as int <= 13 }

  /** Trimming cuts off exactly the blanks at both ends. */
  lemma TrimCutsBlanks(s: string) returns (from: nat, to: nat)
    ensures from <= to <= |s| && TrimSpace(s) == s[from..to]
    ensures forall i :: 0 <= i < from || to <= i < |s| ==> Blank(s[i])
    ensures from < to ==> !Blank(s[from]) && !Blank(s[to - 1])
  {
    from := LeftBlanks(s);
    var kept := RightBlanks(s[from..]);
    to := from + kept;
    assert s[from..][..kept] == s[from..to];
    forall i | to <= i < |s| ensures Blank(s[i]) {
      assert s[i] == s[from..][i - from];
    }
  }

  lemma {:induction false} LeftBlanks(s: string) returns (from: nat)
    ensures from <= |s| && TrimLeft(s) == s[from..]
    ensures forall i :: 0 <= i < from ==> Blank(s[i])
    ensures from < |s| ==> !Blank(s[from])
  {
    from := 0;
    if s != [] && IsSpace(s[0]) {
      var rest := LeftBlanks(s[1..]);
      from := rest + 1;
      assert forall i :: 1 <= i < from ==> s[i] == s[1..][i - 1];
    }
  }

  lemma {:induction false} RightBlanks(s: string) returns (to: nat)
    ensures to <= |s| && TrimRight(s) == s[..to]
    ensures forall i :: to <= i < |s| ==> Blank(s[i])
    ensures to > 0 ==> !Blank(s[to - 1])
  {
    to := |s|;
    if s != [] && IsSpace(s[|s| - 1]) {
      to := RightBlanks(s[..|s| - 1]);
    }
  }

  predicate SameLetter(c: char, d: char) {
    || c == d
    || ('A' <= c <= 'Z' && d as int == c as int + 32)
    || ('A' <= d <= 'Z' && c as int == d as int + 32)
  }

  /** Equal apart from the case of letters. */
  predicate SameLetters(a: string, b: string) {
    |a| == |b| && forall i :: 0 <= i < |a| ==> SameLetter(a[i], b[i])
  }

  predicate NoSmallLetter(s: string) { forall i :: 0 <= i < |s| ==> !('a' <= s[i] <= 'z') }
  predicate NoCapital(s: string) { forall i :: 0 <= i < |s| ==> !('A' <= s[i] <= 'Z') }

  /** Upper-casing is the one text without small letters that is equal apart from case; lower-casing
      the one without capitals. */
  lemma CaseIsDetermined(s: string, t: string)
    ensures t == ToUpper(s) <==> SameLetters(t, s) && NoSmallLetter(t)
    ensures t == ToLower(s) <==> SameLetters(t, s) && NoCapital(t)
  {
  }

  /******* Requests *******/

  datatype GatewayName = GatewayCard | GatewayBank

  datatype RouterPaymentRequest = RouterPaymentRequest(
    debtor: string, creditor: string, amountMinor: int, currency: string, reference: string, instrument: string)

  predicate ValidCurrency(currency: string) {
    var c := TrimSpace(currency);
    |c| == 3 && forall i :: 0 <= i < |c| ==> IsLetter(c[i])
  }

  /** The letter-by-letter loop decides ValidCurrency. */
  method CheckCurrency(currency: string) returns (ok: bool)
    ensures ok <==> ValidCurrency(currency)
  {
    var c := TrimSpace(currency);
    if |c| != 3 {
      return false;
    }
    for i := 0 to |c|
      invariant forall j :: 0 <= j < i ==> IsLetter(c[j])
    {
      if c[i] < 'A' || c[i] > 'Z' {
        if c[i] < 'a' || c[i] > 'z' {
          return false;
        }
      }
    }
    return true;
  }

  predicate ValidInstrument(instrument: string) {
    && instrument == TrimSpace(instrument)
    && instrument == ToLower(instrument)
    && (instrument == "card" || instrument == "bank_transfer" || instrument == "wallet")
  }

  predicate ValidRouterRequest(req: RouterPaymentRequest) {
    && req.amountMinor > 0
    && ValidCurrency(req.currency)
    && ValidInstrument(req.instrument)
    && TrimSpace(req.debtor) != ""
    && TrimSpace(req.creditor) != ""
    && TrimSpace(req.reference) != ""
  }

  function GatewayFor(instrument: string): GatewayName {
    var i := ToLower(instrument);
    if i == "bank_transfer" || i == "bank" || i == "pse" then GatewayBank else GatewayCard
  }

  /** Which instruments go to the bank, whatever their casing; all others go to the card gateway. */
  lemma BankInstruments(instrument: string)
    ensures GatewayFor(instrument).GatewayBank? <==>
              SameLetters("bank_transfer", instrument) || SameLetters("bank", instrument)
                  || SameLetters("pse", instrument)
  {
    hide ToLower, SameLetters;
    CaseIsDetermined(instrument, "bank_transfer");
    CaseIsDetermined(instrument, "bank");
    CaseIsDetermined(instrument, "pse");
  }

  /** The one internal representation the router validates, hashes and stores. */
  function Canon(req: RouterPaymentRequest): RouterPaymentRequest {
    req.(currency := ToUpper(TrimSpace(req.currency)), instrument := ToLower(TrimSpace(req.instrument)))
  }

  function LowerCurrency(req: RouterPaymentRequest): RouterPaymentRequest {
    req.(currency := ToLower(req.currency))
  }

  /** stored is what was sent, with blanks trimmed around currency and instrument, the currency in
      capitals and the instrument without. */
  predicate StoredAsSent(stored: RouterPaymentRequest, sent: RouterPaymentRequest) {
    && stored.debtor == sent.debtor && stored.creditor == sent.creditor
    && stored.amountMinor == sent.amountMinor && stored.reference == sent.reference
    && SameLetters(stored.currency, TrimSpace(sent.currency)) && NoSmallLetter(stored.currency)
    && SameLetters(stored.instrument, TrimSpace(sent.instrument)) && NoCapital(stored.instrument)
  }

  /** A request the router serves: a positive amount, a currency of three letters, one of three
      instruments, and parties and reference that are not blank. */
  predicate Payable(req: RouterPaymentRequest) {
    var currency, instrument := TrimSpace(req.currency), TrimSpace(req.instrument);
    && req.amountMinor > 0
    && |currency| == 3 && (forall i :: 0 <= i < 3 ==> 'A' <= currency[i] <= 'Z' || 'a' <= currency[i] <= 'z')
    && (SameLetters("card", instrument) || SameLetters("bank_transfer", instrument)
       || SameLetters("wallet", instrument))
    && TrimSpace(req.debtor) != "" && TrimSpace(req.creditor) != "" && TrimSpace(req.reference) != ""
  }

  /** What the inserted columns give back on a lookup: the currency column is written upper case. */
  function Columns(req: RouterPaymentRequest): RouterPaymentRequest {
    req.(currency := ToUpper(req.currency))
  }

  /** A digest stands for SHA-256 over the JSON encoding, taken to be injective. */
  datatype Digest = Digest(of: RouterPaymentRequest)

  function RequestHash(req: RouterPaymentRequest): Digest { Digest(req) }

  /** The conflict test of a replay against the stored digest. */
  predicate Accepts(stored: Digest, req: RouterPaymentRequest) {
    || stored == RequestHash(Canon(req))
    || stored == RequestHash(req)
    || stored == RequestHash(LowerCurrency(Canon(req)))
  }

  /******* Canonicalisation *******/

  /** The requests a stored row may carry: canonical and validated. */
  predicate Canonical(req: RouterPaymentRequest) { ValidRouterRequest(req) && Canon(req) == req }

  lemma TrimKeepsTight(s: string)
    requires s != "" && !IsSpace(s[0]) && !IsSpace(s[|s| - 1])
    ensures TrimSpace(s) == s
  {
  }

  lemma CurrencyFacts(c: string)
    requires |c| == 3 && forall i :: 0 <= i < 3 ==> IsLetter(c[i])
    ensures TrimSpace(c) == c
    ensures ToUpper(ToUpper(c)) == ToUpper(c) == ToUpper(ToLower(c)) != ToLower(c)
    ensures TrimSpace(ToUpper(c)) == ToUpper(c) && TrimSpace(ToLower(c)) == ToLower(c)
    ensures forall i :: 0 <= i < 3 ==> IsUpper(ToUpper(c)[i])
  {
    TrimKeepsTight(c);
    TrimKeepsTight(ToUpper(c));
    TrimKeepsTight(ToLower(c));
    assert ToUpper(c)[0] != ToLower(c)[0];
  }

  /** A validated currency with only upper-case letters is what canonicalisation of any casing and
      padding of it yields, and lower-casing it loses nothing. */
  lemma CanonFacts(req: RouterPaymentRequest)
    requires ValidRouterRequest(Canon(req))
    ensures Canonical(Canon(req))
    ensures Canon(LowerCurrency(Canon(req))) == Canon(req)
    ensures LowerCurrency(Canon(req)).currency != Canon(req).currency
    ensures Columns(Canon(req)) == Canon(req)
    ensures StoredAsSent(Canon(req), req)
    ensures forall i :: 0 <= i < |Canon(req).currency| ==> IsUpper(Canon(req).currency[i])
  {
    CanonIsAsSent(Canon(req), req);
    hide StoredAsSent;
    var up := ToUpper(TrimSpace(req.currency));
    UpperIsTight(req.currency);
    assert forall i :: 0 <= i < |up| ==> IsLetter(up[i]);
    CurrencyFacts(up);
    assert ToUpper(up) == up;
  }

  lemma TrimLeftTight(s: string)
    ensures TrimLeft(s) != "" ==> !IsSpace(TrimLeft(s)[0])
  {
  }

  lemma TrimRightTight(s: string)
    ensures TrimRight(s) != "" ==> TrimRight(s)[0] == s[0] && !IsSpace(TrimRight(s)[|TrimRight(s)| - 1])
  {
  }

  lemma TrimIdempotent(s: string)
    ensures TrimSpace(TrimSpace(s)) == TrimSpace(s)
  {
    if TrimSpace(s) != "" {
      TrimLeftTight(s);
      TrimRightTight(TrimLeft(s));
      TrimKeepsTight(TrimSpace(s));
    }
  }

  /** Upper-casing a trimmed text leaves nothing to trim. */
  lemma UpperIsTight(s: string)
    ensures TrimSpace(ToUpper(TrimSpace(s))) == ToUpper(TrimSpace(s))
  {
    if TrimSpace(s) != "" {
      TrimLeftTight(s);
      TrimRightTight(TrimLeft(s));
      TrimKeepsTight(ToUpper(TrimSpace(s)));
    }
  }

  lemma LowerIsTight(s: string)
    ensures TrimSpace(ToLower(TrimSpace(s))) == ToLower(TrimSpace(s))
  {
    if TrimSpace(s) != "" {
      TrimLeftTight(s);
      TrimRightTight(TrimLeft(s));
      TrimKeepsTight(ToLower(TrimSpace(s)));
    }
  }

  /** Canonicalisation changes nothing but the casing and padding of currency and instrument, and
      there is only one such form. */
  lemma CanonIsAsSent(stored: RouterPaymentRequest, sent: RouterPaymentRequest)
    ensures stored == Canon(sent) <==> StoredAsSent(stored, sent)
  {
    CaseIsDetermined(TrimSpace(sent.currency), stored.currency);
    CaseIsDetermined(TrimSpace(sent.instrument), stored.instrument);
  }

  /** The router's validation of the canonical form accepts exactly the payable requests. */
  lemma ValidIffPayable(req: RouterPaymentRequest)
    ensures ValidRouterRequest(Canon(req)) <==> Payable(req)
  {
    ThreeLetters(req.currency);
    InstrumentIsKnown(req.instrument);
    hide ValidCurrency, ValidInstrument, ToUpper, ToLower, TrimSpace, SameLetters;
  }

  lemma ThreeLetters(currency: string)
    ensures var c := TrimSpace(currency);
            ValidCurrency(ToUpper(c)) <==>
            |c| == 3 && forall i :: 0 <= i < 3 ==> 'A' <= c[i] <= 'Z' || 'a' <= c[i] <= 'z'
  {
    UpperIsTight(currency);
    UpperLetters(TrimSpace(currency));
  }

  lemma TightInstruments(i: string)
    requires TrimSpace(i) == i && ToLower(i) == i
    ensures ValidInstrument(i) <==> i == "card" || i == "bank_transfer" || i == "wallet"
  {
    hide TrimSpace, ToLower;
  }

  lemma LowerTwice(s: string)
    ensures ToLower(ToLower(s)) == ToLower(s)
  {
  }

  lemma NoCapitals()
    ensures NoCapital("card") && NoCapital("bank_transfer") && NoCapital("wallet")
  {
  }

  lemma InstrumentIsKnown(instrument: string)
    ensures var i := TrimSpace(instrument);
            ValidInstrument(ToLower(i)) <==>
            SameLetters("card", i) || SameLetters("bank_transfer", i) || SameLetters("wallet", i)
  {
    hide TrimSpace, ToLower, SameLetters, NoCapital, NoSmallLetter, ValidInstrument;
    var i := TrimSpace(instrument);
    LowerIsTight(instrument);
    LowerTwice(i);
    TightInstruments(ToLower(i));
    NoCapitals();
    CaseIsDetermined(i, "card");
    CaseIsDetermined(i, "bank_transfer");
    CaseIsDetermined(i, "wallet");
  }

  lemma UpperLetters(s: string)
    ensures (forall i :: 0 <= i < |s| ==> IsLetter(ToUpper(s)[i])) <==>
            (forall i :: 0 <= i < |s| ==> 'A' <= s[i] <= 'Z' || 'a' <= s[i] <= 'z')
  {
    if forall i :: 0 <= i < |s| ==> IsLetter(ToUpper(s)[i]) {
      forall i | 0 <= i < |s| ensures 'A' <= s[i] <= 'Z' || 'a' <= s[i] <= 'z' {
        assert IsLetter(ToUpper(s)[i]);
      }
    }
  }
}
