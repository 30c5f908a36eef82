/**
 * The phone sign-in screen: a 10-character number is sent to the identity
 * provider with the `+91` country prefix, and a 6-character code confirms
 * the sign-in. Nothing else about the text is checked.
 */
module PhoneAuth {
  import opened Wrappers

  const CountryPrefix: string := "+91"
  const PhoneLength: nat := 10
  const CodeLength: nat := 6

  /**
   * The number `signInWithPhoneNumber` sends for what the user typed, or
   * `None` when the typed text is refused.
   */
  function InternationalNumber(phone: string): (r: Option<string>)
    ensures r.Some? <==> |phone| == PhoneLength
    ensures r.Some? ==> |r.value| == |CountryPrefix| + PhoneLength
    ensures r.Some? ==> r.value[..|CountryPrefix|] == CountryPrefix && r.value[|CountryPrefix|..] == phone
  {
    if |phone| != PhoneLength then None else Some(CountryPrefix + phone)
  }

  /** Reads the typed number back out of an international one. */
  function LocalNumber(number: string): (r: Option<string>)
  {
    if |number| == |CountryPrefix| + PhoneLength && number[..|CountryPrefix|] == CountryPrefix
    then Some(number[|CountryPrefix|..])
    else None
  }

  /** The prefixed number gives back exactly what was typed. */
  lemma LocalOfInternational(phone: string)
    requires |phone| == PhoneLength
    ensures LocalNumber(InternationalNumber(phone).value) == Some(phone)
  {
  }

  /** Every international number with the prefix is the prefixing of one typed number. */
  lemma InternationalOfLocal(number: string)
    requires LocalNumber(number).Some?
    ensures InternationalNumber(LocalNumber(number).value) == Some(number)
  {
    assert number == number[..|CountryPrefix|] + number[|CountryPrefix|..];
  }

  /** Two different typed numbers are never sent as the same number. */
  lemma InternationalInjective(p: string, q: string)
    requires InternationalNumber(p).Some? && InternationalNumber(p) == InternationalNumber(q)
    ensures p == q
  {
    LocalOfInternational(p);
    LocalOfInternational(q);
  }

  /** `confirmCode` goes to the provider only with a code of this length. */
  predicate CodeAccepted(code: string) {
    |code| == CodeLength
  }

  /** The handle `signInWithPhoneNumber` resolves to. */
  datatype Confirmation = Confirmation(verificationId: string)

  /** Calls made to the identity provider. */
  datatype AuthCall = SendCode(number: string) | ConfirmCode(verificationId: string, code: string)

  /** The alerts the screen raises. */
  datatype AuthAlert = InvalidNumber | SendFailed | InvalidCode | CodeRejected

  /** How the provider answers a send. */
  datatype SendOutcome = CodeSent(confirmation: Confirmation) | SendRejected

  /** How the provider answers a confirmation. */
  datatype ConfirmOutcome = Confirmed | ConfirmRejected

  class PhoneAuthScreen {
    var phone: string
    var code: string
    var confirm: Option<Confirmation>
    var loading: bool
    /** Every call made to the identity provider, in order. */
    ghost var calls: seq<AuthCall>
    /** Every alert raised, in order. */
    ghost var alerts: seq<AuthAlert>

    constructor ()
      ensures phone == "" && code == "" && confirm.None? && !loading
      ensures calls == [] && alerts == []
    {
      phone, code, confirm, loading := "", "", None, false;
      calls, alerts := [], [];
    }

    method SetPhone(text: string)
      modifies this`phone
      ensures phone == text
    {
      phone := text;
    }

    method SetCode(text: string)
      modifies this`code
      ensures code == text
    {
      code := text;
    }

    /**
     * "Send OTP". A number of the wrong length is refused with an alert and
     * no call; otherwise the prefixed number is sent, and the screen moves to
     * code entry when the provider answers with a confirmation handle.
     */
    method SignInWithPhoneNumber(outcome: SendOutcome)
      modifies this`confirm, this`loading, this`calls, this`alerts
      ensures InternationalNumber(phone).None? ==>
                calls == old(calls) && alerts == old(alerts) + [InvalidNumber]
                && confirm == old(confirm) && loading == old(loading)
      ensures InternationalNumber(phone).Some? ==>
                calls == old(calls) + [SendCode(InternationalNumber(phone).value)] && !loading
      ensures InternationalNumber(phone).Some? && outcome.CodeSent? ==>
                confirm == Some(outcome.confirmation) && alerts == old(alerts)
      ensures InternationalNumber(phone).Some? && outcome.SendRejected? ==>
                confirm == old(confirm) && alerts == old(alerts) + [SendFailed]
    {
      if |phone| != PhoneLength {
        alerts := alerts + [InvalidNumber];
        return;
      }
      loading := true;
      calls := calls + [SendCode(CountryPrefix + phone)];
      match outcome {
        case CodeSent(c) =>
          confirm := Some(c);
        case SendRejected =>
          alerts := alerts + [SendFailed];
      }
      loading := false;
    }

    /**
     * "Confirm OTP". A code of the wrong length is refused with an alert and
     * no call. Without a confirmation handle the call throws before reaching
     * the provider and ends in the "invalid code" alert. `signedIn` reports a
     * confirmation the provider accepted.
     */
    method ConfirmCode(outcome: ConfirmOutcome) returns (signedIn: bool)
      modifies this`loading, this`calls, this`alerts
      ensures signedIn <==> CodeAccepted(code) && confirm.Some? && outcome == Confirmed
      ensures !CodeAccepted(code) ==>
                calls == old(calls) && alerts == old(alerts) + [InvalidCode] && loading == old(loading)
      ensures CodeAccepted(code) && confirm.None? ==>
                calls == old(calls) && alerts == old(alerts) + [CodeRejected] && !loading
      ensures CodeAccepted(code) && confirm.Some? ==>
                calls == old(calls) + [AuthCall.ConfirmCode(confirm.value.verificationId, code)] && !loading
                && alerts == old(alerts) + (if outcome == Confirmed then [] else [CodeRejected])
    {
      signedIn := false;
      if |code| != CodeLength {
        alerts := alerts + [InvalidCode];
        return;
      }
      loading := true;
      if confirm.None? {
        // `confirm.confirm(code)` on null throws; the catch raises the alert.
        alerts := alerts + [CodeRejected];
      } else {
        calls := calls + [AuthCall.ConfirmCode(confirm.value.verificationId, code)];
        if outcome == Confirmed {
          signedIn := true;
        } else {
          alerts := alerts + [CodeRejected];
        }
      }
      loading := false;
    }
  }
}
