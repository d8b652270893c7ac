/** The input validator of the backend's send-SMS endpoint: required fields, phone format,
    message length, then removal of angle brackets from the message before the request moves on. */
module SmsValidation {
  import opened Common
  import opened Text
  import opened PhoneFormat

  /** The fields of the request body; None is an absent field. */
  class SmsRequestBody {
    var to: Option<string>
    var message: Option<string>

    constructor(to: Option<string>, message: Option<string>)
      ensures this.to == to && this.message == message
    {
      this.to := to;
      this.message := message;
    }
  }

  /** A 400 answer with `success: false` and the error text. */
  datatype Rejection = Rejection(status: int, error: string)

  const MaxMessageLength: nat := 1600

  const MissingFields: Rejection := Rejection(400, "Câmpurile \"to\" și \"message\" sunt obligatorii.")
  const InvalidPhone: Rejection := Rejection(400, "Formatul numărului de telefon este invalid. Folosiți formatul internațional (ex: +40712345678).")
  const MessageTooLong: Rejection := Rejection(400, "Mesajul este prea lung. Lungimea maximă este de 1600 de caractere.")

  /** JavaScript truthiness of a string field: present and not empty. */
  predicate Truthy(field: Option<string>) {
    field.Some? && |field.value| > 0
  }

  /** The checks of the validator, in their order: presence, phone format, message length in
      UTF-16 code units, the first failing check deciding the answer. */
  function CheckSmsInput(to: Option<string>, message: Option<string>): (r: Option<Rejection>)
    ensures r.None? <==> Truthy(to) && Truthy(message) && IsE164(to.value) && Utf16Length(message.value) <= MaxMessageLength
    ensures !(Truthy(to) && Truthy(message)) ==> r == Some(MissingFields)
    ensures Truthy(to) && Truthy(message) && !IsE164(to.value) ==> r == Some(InvalidPhone)
    ensures Truthy(to) && Truthy(message) && IsE164(to.value) && Utf16Length(message.value) > MaxMessageLength ==> r == Some(MessageTooLong)
  {
    if !Truthy(to) || !Truthy(message) then Some(MissingFields)
    else if !IsE164(to.value) then Some(InvalidPhone)
    else if Utf16Length(message.value) > MaxMessageLength then Some(MessageTooLong)
    else None
  }

  predicate IsAngle(c: char) {
    c == '<' || c == '>'
  }

  /** `message.replace(/[<>]/g, '')`. */
  function StripAngles(s: string): (r: string)
    ensures |r| <= |s|
    ensures forall i :: 0 <= i < |r| ==> !IsAngle(r[i])
  {
    if |s| == 0 then ""
    else (if IsAngle(s[0]) then "" else [s[0]]) + StripAngles(s[1..])
  }

  /** Removal works piece by piece, so the remaining characters keep their order. */
  lemma {:induction false} StripAnglesOfConcat(a: string, b: string)
    ensures StripAngles(a + b) == StripAngles(a) + StripAngles(b)
    decreases |a|
  {
    if |a| > 0 {
      assert (a + b)[1..] == a[1..] + b;
      StripAnglesOfConcat(a[1..], b);
    } else {
      assert a + b == b;
    }
  }

  /** Every character other than '<' and '>' occurs as often after removal as before. */
  lemma {:induction false} StripAnglesKeepsOthers(s: string, c: char)
    requires !IsAngle(c)
    ensures multiset(StripAngles(s))[c] == multiset(s)[c]
    decreases |s|
  {
    if |s| > 0 {
      StripAnglesKeepsOthers(s[1..], c);
      assert s == [s[0]] + s[1..];
    }
  }

  /** A string without angle brackets is left as it is; in particular removal is idempotent. */
  lemma {:induction false} StripAnglesFixesClean(s: string)
    requires forall i :: 0 <= i < |s| ==> !IsAngle(s[i])
    ensures StripAngles(s) == s
    decreases |s|
  {
    if |s| > 0 {
      StripAnglesFixesClean(s[1..]);
      assert s == [s[0]] + s[1..];
    }
  }

  lemma StripAnglesIdempotent(s: string)
    ensures StripAngles(StripAngles(s)) == StripAngles(s)
  {
    StripAnglesFixesClean(StripAngles(s));
  }

  /** `validateSMSInput`: answers with the first failing check's rejection, leaving the body as
      it was, or rewrites `message` without angle brackets and calls the next handler. */
  method ValidateSmsInput(body: SmsRequestBody) returns (rejection: Option<Rejection>, nextCalled: bool)
    modifies body
    ensures nextCalled <==> rejection.None?
    ensures rejection == CheckSmsInput(old(body.to), old(body.message))
    ensures body.to == old(body.to)
    ensures nextCalled ==> body.message == Some(StripAngles(old(body.message).value))
    ensures !nextCalled ==> body.message == old(body.message)
  {
    var to, message := body.to, body.message;
    if !Truthy(to) || !Truthy(message) {
      return Some(MissingFields), false;
    }
    if !IsE164(to.value) {
      return Some(InvalidPhone), false;
    }
    if Utf16Length(message.value) > MaxMessageLength {
      return Some(MessageTooLong), false;
    }
    body.message := Some(StripAngles(message.value));
    return None, true;
  }
}
