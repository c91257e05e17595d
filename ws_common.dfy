/**
 * What the websocket command handlers share: the claims of a verified login
 * token and the phone-number pattern `/^[1-9]\d{1,14}$/` that the message
 * and group handlers check numbers against (at most 15 digits, as in ITU-T
 * E.164).
 */
module WsCommon {
  import opened Optional
  import opened JsSemantics

  /**
   * The payload of a login token that verified; `checkLogin` answers the
   * socket itself and yields nothing when verification fails, which the
   * handlers receive as `None`.
   */
  datatype Claims = Claims(username: JsValue, id: JsValue)

  /** The frame `checkLogin` sends when a token does not verify. */
  const LoginRequired: string := "Anda harus login terlebih dahulu untuk menggunakan fitur ini."

  /** `/^[1-9]\d{1,14}$/` on a string: a digit 1-9, then 1 to 14 digits, and nothing else. */
  predicate MatchesPhonePattern(s: string) {
    |s| >= 1 && '1' <= s[0] <= '9' && 1 <= |s[1..]| <= 14 && AllDigits(s[1..])
  }

  /** `isValidPhoneNumber(number)`: `RegExp.prototype.test` converts its argument with `String` first. */
  predicate IsValidPhoneNumber(v: JsValue) {
    MatchesPhonePattern(ToString(v))
  }

  /** A valid number is a string of 2 to 15 decimal digits whose first digit is not 0. */
  lemma PhonePatternIsShortNumeral(s: string)
    ensures MatchesPhonePattern(s) <==> 2 <= |s| <= 15 && AllDigits(s) && s[0] != '0'
  {
    if 2 <= |s| <= 15 && AllDigits(s) && s[0] != '0' {
      assert IsDigit(s[0]);
      forall k | 0 <= k < |s[1..]|
        ensures IsDigit(s[1..][k])
      {
        assert s[1..][k] == s[k + 1];
      }
    }
    if MatchesPhonePattern(s) {
      forall k | 0 <= k < |s|
        ensures IsDigit(s[k])
      {
        if k > 0 {
          assert s[k] == s[1..][k - 1];
        }
      }
    }
  }

  function Pow10(k: nat): (p: nat)
    ensures p >= 1
  {
    if k == 0 then 1 else 10 * Pow10(k - 1)
  }

  /** A natural number has at most `k` decimal digits exactly when it is below 10^k. */
  lemma {:induction false} NatToStringLength(n: nat, k: nat)
    requires k >= 1
    ensures |NatToString(n)| <= k <==> n < Pow10(k)
    decreases n
  {
    if n >= 10 {
      assert |NatToString(n)| == |NatToString(n / 10)| + 1;
      if k == 1 {
        assert Pow10(1) == 10;
      } else {
        NatToStringLength(n / 10, k - 1);
        assert n / 10 < Pow10(k - 1) <==> n < 10 * Pow10(k - 1);
      }
    } else {
      assert Pow10(k) == 10 * Pow10(k - 1);
    }
  }

  /**
   * A phone number sent as a JSON number is accepted exactly when it lies
   * between 10 and 10^15 - 1, that is, when it has 2 to 15 digits.
   */
  lemma NumericPhoneNumber(n: int)
    ensures IsValidPhoneNumber(Num(n)) <==> 10 <= n < Pow10(15)
  {
    if n < 0 {
      assert ToString(Num(n))[0] == '-';
    } else {
      var s := NatToString(n);
      PhonePatternIsShortNumeral(s);
      NatToStringLength(n, 15);
      NatToStringLength(n, 1);
      assert Pow10(1) == 10;
      if n == 0 {
        assert s == "0";
      }
    }
  }
}
