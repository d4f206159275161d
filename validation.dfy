/**
 * Input validation: the Chilean RUT check digit, the password and phone rules
 * and defaults of the request schemas, and the shape of the validation error
 * response. The schema library's email check is the function `isEmail`.
 */
module Validation {
  import opened Common
  import opened Store
  import opened Auth
  import opened Profiles

  /* ---------------------------------------------------------------------- */
  /* RUT                                                                    */
  /* ---------------------------------------------------------------------- */

  /** The RUT with every '.' and every '-' removed. */
  function Clean(s: string): (r: string)
    ensures |r| <= |s|
    ensures forall c :: c in r <==> c in s && c != '.' && c != '-'
  {
    if s == [] then []
    else
      assert s == [s[0]] + s[1..];
      (if s[0] == '.' || s[0] == '-' then [] else [s[0]]) + Clean(s[1..])
  }

  lemma {:induction false} CleanAppend(a: string, b: string)
    ensures Clean(a + b) == Clean(a) + Clean(b)
  {
    if a != [] {
      assert (a + b)[1..] == a[1..] + b;
      CleanAppend(a[1..], b);
    } else {
      assert a + b == b;
    }
  }

  lemma {:induction false} CleanKeepsPlain(s: string)
    requires '.' !in s && '-' !in s
    ensures Clean(s) == s
  {
    if s != [] {
      assert '.' !in s[1..] && '-' !in s[1..];
      CleanKeepsPlain(s[1..]);
    }
  }

  /** The weight of the n-th body digit counted from the right: 2, 3, 4, 5, 6, 7, 2, 3, ... */
  function Weight(n: nat): nat
  {
    2 + n % 6
  }

  lemma WeightNext(n: nat)
    ensures Weight(n + 1) == if Weight(n) == 7 then 2 else Weight(n) + 1
  {
  }

  /** The weighted sum of the n rightmost digits of the body. */
  function RutSum(body: string, n: nat): nat
    requires AllDigits(body) && n <= |body|
  {
    if n == 0 then 0 else RutSum(body, n - 1) + DigitValue(body[|body| - n]) * Weight(n - 1)
  }

  /** `11 - sum % 11`, written as '0' for 11 and 'K' for 10. */
  function CheckDigit(body: string): (c: char)
    requires AllDigits(body)
    ensures c == 'K' || IsDigit(c)
  {
    var e := 11 - RutSum(body, |body|) % 11;
    if e == 11 then '0' else if e == 10 then 'K' else DigitChar(e)
  }

  /** validateRUT: None stands for an input that is not a string. */
  predicate ValidRut(rut: Option<string>)
  {
    && rut.Some? && rut.value != ""
    && var clean := Clean(rut.value);
    && |clean| >= 2
    && AllDigits(clean[..|clean| - 1])
    && UpperChar(clean[|clean| - 1]) == CheckDigit(clean[..|clean| - 1])
  }

  /** validateRUT, with the weighted sum accumulated from the rightmost digit as the source does. */
  method ValidateRut(rut: Option<string>) returns (ok: bool)
    ensures ok == ValidRut(rut)
  {
    if rut.None? || rut.value == "" {
      return false;
    }
    var clean := Clean(rut.value);
    if |clean| < 2 {
      return false;
    }
    var body := clean[..|clean| - 1];
    var verifier := UpperChar(clean[|clean| - 1]);
    if !(forall k :: 0 <= k < |body| ==> IsDigit(body[k])) {
      return false;
    }
    var sum := 0;
    var multiplier := 2;
    var i := |body| - 1;
    while i >= 0
      invariant -1 <= i < |body|
      invariant sum == RutSum(body, |body| - 1 - i)
      invariant multiplier == Weight(|body| - 1 - i)
    {
      WeightNext(|body| - 1 - i);
      sum := sum + DigitValue(body[i]) * multiplier;
      multiplier := if multiplier == 7 then 2 else multiplier + 1;
      i := i - 1;
    }
    var expected := 11 - sum % 11;
    var calculated := if expected == 11 then '0' else if expected == 10 then 'K' else DigitChar(expected);
    ok := verifier == calculated;
  }

  /**
   * For every digit body exactly one verifier is accepted, in either letter
   * case: a verifier other than '.' and '-' is accepted iff it is the check digit.
   */
  lemma OneVerifierPerBody(body: string, v: char)
    requires body != [] && AllDigits(body) && v != '.' && v != '-'
    ensures ValidRut(Some(body + [v])) <==> UpperChar(v) == CheckDigit(body)
  {
    assert '.' !in body && '-' !in body by {
      assert forall k :: 0 <= k < |body| ==> IsDigit(body[k]);
    }
    CleanAppend(body, [v]);
    CleanKeepsPlain(body);
    CleanKeepsPlain([v]);
    assert (body + [v])[..|body|] == body;
  }

  /** Dots and hyphens are ignored wherever they stand. */
  lemma SeparatorsIgnored(a: string, sep: char, b: string)
    requires sep == '.' || sep == '-'
    ensures ValidRut(Some(a + [sep] + b)) <==> ValidRut(Some(a + b))
  {
    CleanAppend(a + [sep], b);
    CleanAppend(a, [sep]);
    CleanAppend(a, b);
    assert Clean([sep]) == [];
    assert Clean(a + [sep] + b) == Clean(a + b);
    if a + b == [] {
      assert Clean(a + b) == [];
    }
  }

  /** The check digit of the body 12345678 is 5 (weighted sum 138). */
  lemma ExampleCheckDigit()
    ensures AllDigits("12345678") && CheckDigit("12345678") == '5'
  {
    var body := "12345678";
    assert AllDigits(body);
    assert RutSum(body, 1) == 16;
    assert RutSum(body, 2) == 37;
    assert RutSum(body, 3) == 61;
    assert RutSum(body, 4) == 86;
    assert RutSum(body, 5) == 110;
    assert RutSum(body, 6) == 131;
    assert RutSum(body, 7) == 135;
    assert RutSum(body, 8) == 138;
  }

  /** "12345678-5" is a valid RUT and "12345678-9" is not. */
  lemma RutExamples()
    ensures ValidRut(Some("12345678-5"))
    ensures !ValidRut(Some("12345678-9"))
  {
    var body := "12345678";
    ExampleCheckDigit();
    OneVerifierPerBody(body, '5');
    OneVerifierPerBody(body, '9');
    SeparatorsIgnored(body, '-', "5");
    SeparatorsIgnored(body, '-', "9");
    assert body + ['-'] + "5" == "12345678-5";
    assert body + ['-'] + "9" == "12345678-9";
    assert body + "5" == body + ['5'];
    assert body + "9" == body + ['9'];
  }

  /** Too short after cleaning, or a non-digit body, is never a RUT. */
  lemma RutRejections(body: string, v: char)
    requires !AllDigits(body) && v != '.' && v != '-' && '.' !in body && '-' !in body
    ensures !ValidRut(Some([v]))
    ensures !ValidRut(Some("-.-"))
    ensures !ValidRut(Some(body + [v]))
  {
    CleanKeepsPlain([v]);
    assert Clean("-.-") == [] by {
      assert "-.-"[1..] == ".-";
      assert ".-"[1..] == "-";
      assert "-"[1..] == [];
    }
    CleanAppend(body, [v]);
    CleanKeepsPlain(body);
    assert (body + [v])[..|body|] == body;
  }

  /* ---------------------------------------------------------------------- */
  /* Password and phone                                                     */
  /* ---------------------------------------------------------------------- */

  /** The special characters a password must draw one from. */
  const Specials: string := "!@#$%^&*(),.?\":{}|<>"

  /** The registration password rule: eight characters with an upper, a lower, a digit and a special. */
  predicate StrongPassword(p: string)
  {
    && |p| >= 8
    && (exists i :: 0 <= i < |p| && IsUpper(p[i]))
    && (exists i :: 0 <= i < |p| && IsLower(p[i]))
    && (exists i :: 0 <= i < |p| && IsDigit(p[i]))
    && (exists i :: 0 <= i < |p| && p[i] in Specials)
  }

  /** Surrounding a strong password with more characters keeps it strong. */
  lemma StrongPasswordExtends(p: string, before: string, after: string)
    requires StrongPassword(p)
    ensures StrongPassword(before + p + after)
  {
    var q := before + p + after;
    assert forall i :: 0 <= i < |p| ==> q[|before| + i] == p[i];
    var u :| 0 <= u < |p| && IsUpper(p[u]);
    var l :| 0 <= l < |p| && IsLower(p[l]);
    var d :| 0 <= d < |p| && IsDigit(p[d]);
    var s :| 0 <= s < |p| && p[s] in Specials;
    assert IsUpper(q[|before| + u]) && IsLower(q[|before| + l]);
    assert IsDigit(q[|before| + d]) && q[|before| + s] in Specials;
  }

  lemma PasswordExamples()
    ensures StrongPassword("Passw0rd!")
    ensures !StrongPassword("passw0rd!")
    ensures !StrongPassword("Pa0!")
  {
    assert IsUpper("Passw0rd!"[0]) && IsLower("Passw0rd!"[1]);
    assert IsDigit("Passw0rd!"[5]) && "Passw0rd!"[8] in Specials;
    var p := "passw0rd!";
    assert forall i :: 0 <= i < |p| ==> !IsUpper(p[i]);
  }

  /** The digits of a phone number: a first digit 1-9 and 1 to 14 more. */
  predicate PhoneDigits(d: string)
  {
    2 <= |d| <= 15 && '1' <= d[0] <= '9' && AllDigits(d)
  }

  /** `^\+?[1-9]\d{1,14}$`. */
  predicate ValidPhone(s: string)
  {
    if |s| > 0 && s[0] == '+' then PhoneDigits(s[1..]) else PhoneDigits(s)
  }

  /**
   * A phone number is 2 to 15 digits, not starting with 0, with an optional
   * leading '+': the '+' neither helps nor hurts.
   */
  lemma PhoneForms(d: string)
    ensures ValidPhone("+" + d) <==> PhoneDigits(d)
    ensures PhoneDigits(d) ==> ValidPhone(d)
    ensures d != [] && d[0] != '+' ==> (ValidPhone(d) <==> PhoneDigits(d))
  {
    assert ("+" + d)[1..] == d;
  }

  lemma PhoneExamples()
    ensures ValidPhone("+56912345678")
    ensures !ValidPhone("0912345678")
    ensures !ValidPhone("+5")
    ensures !ValidPhone("1234567890123456")
  {
    var d := "56912345678";
    assert "+56912345678"[1..] == d;
    assert AllDigits(d) by {
      assert forall i :: 0 <= i < |d| ==> IsDigit(d[i]);
    }
  }

  /* ---------------------------------------------------------------------- */
  /* Schemas                                                                */
  /* ---------------------------------------------------------------------- */

  /** The languages the schemas accept. */
  const Languages: seq<string> := ["ES", "EN", "FR", "DE", "PT", "ZH", "HI"]

  /** A registration body as received; None is a missing field. */
  datatype RawRegistration = RawRegistration(
    email: Option<string>, password: Option<string>, firstName: Option<string>, lastName: Option<string>,
    phone: Option<string>, customerType: Option<string>, taxId: Option<string>, preferredLanguage: Option<string>)

  predicate NameOk(s: Option<string>)
  {
    s.Some? && 1 <= |s.value| <= 100
  }

  /** registerSchema: the accepted bodies, with customer type INDIVIDUAL and language ES by default. */
  function ParseRegistration(raw: RawRegistration, isEmail: string -> bool): (r: Option<Registration>)
    ensures r.Some? <==>
      && raw.email.Some? && isEmail(raw.email.value)
      && raw.password.Some? && StrongPassword(raw.password.value)
      && NameOk(raw.firstName) && NameOk(raw.lastName)
      && (raw.phone.None? || ValidPhone(raw.phone.value))
      && (raw.customerType.None? || raw.customerType.value in ["INDIVIDUAL", "BUSINESS"])
      && (raw.preferredLanguage.None? || raw.preferredLanguage.value in Languages)
    ensures r.Some? ==>
      && r.value.email == raw.email.value && r.value.password == raw.password.value
      && r.value.firstName == raw.firstName.value && r.value.lastName == raw.lastName.value
      && r.value.phone == raw.phone && r.value.taxId == raw.taxId
      && (raw.customerType.None? ==> r.value.customerType == CustomerType.INDIVIDUAL)
      && (raw.customerType == Some("BUSINESS") <==> r.value.customerType == CustomerType.BUSINESS)
      && r.value.preferredLanguage == (if raw.preferredLanguage.Some? then raw.preferredLanguage.value else "ES")
  {
    if && raw.email.Some? && isEmail(raw.email.value)
       && raw.password.Some? && StrongPassword(raw.password.value)
       && NameOk(raw.firstName) && NameOk(raw.lastName)
       && (raw.phone.None? || ValidPhone(raw.phone.value))
       && (raw.customerType.None? || raw.customerType.value in ["INDIVIDUAL", "BUSINESS"])
       && (raw.preferredLanguage.None? || raw.preferredLanguage.value in Languages)
    then
      var customerType := if raw.customerType == Some("BUSINESS") then CustomerType.BUSINESS else CustomerType.INDIVIDUAL;
      Some(Registration(raw.email.value, raw.password.value, raw.firstName.value, raw.lastName.value, raw.phone,
                        customerType, raw.taxId, if raw.preferredLanguage.Some? then raw.preferredLanguage.value else "ES"))
    else None
  }

  /** An address body as received; None is a missing field. */
  datatype RawAddress = RawAddress(
    addressType: Option<string>, street: Option<string>, city: Option<string>, region: Option<string>,
    postalCode: Option<string>, country: Option<string>, isDefault: Option<bool>)

  predicate TextOk(s: Option<string>, max: nat)
  {
    s.Some? && 1 <= |s.value| <= max
  }

  /** addressSchema: the accepted bodies, with country Chile and isDefault false by default. */
  function ParseAddress(raw: RawAddress): (r: Option<AddressInput>)
    ensures r.Some? <==>
      && (raw.addressType == Some("SHIPPING") || raw.addressType == Some("BILLING"))
      && TextOk(raw.street, 255) && TextOk(raw.city, 100) && TextOk(raw.region, 100)
      && TextOk(raw.postalCode, 20) && (raw.country.None? || TextOk(raw.country, 100))
    ensures r.Some? ==>
      && r.value.street == raw.street.value && r.value.city == raw.city.value
      && r.value.region == raw.region.value && r.value.postalCode == raw.postalCode.value
      && r.value.country == (if raw.country.Some? then raw.country.value else "Chile")
      && r.value.isDefault == (raw.isDefault == Some(true))
      && (r.value.addressType == AddressType.SHIPPING <==> raw.addressType == Some("SHIPPING"))
  {
    if && (raw.addressType == Some("SHIPPING") || raw.addressType == Some("BILLING"))
       && TextOk(raw.street, 255) && TextOk(raw.city, 100) && TextOk(raw.region, 100)
       && TextOk(raw.postalCode, 20) && (raw.country.None? || TextOk(raw.country, 100))
    then
      var addressType := if raw.addressType == Some("SHIPPING") then AddressType.SHIPPING else AddressType.BILLING;
      Some(AddressInput(addressType, raw.street.value, raw.city.value, raw.region.value, raw.postalCode.value,
                        if raw.country.Some? then raw.country.value else "Chile",
                        if raw.isDefault.Some? then raw.isDefault.value else false))
    else None
  }

  /* ---------------------------------------------------------------------- */
  /* validateRequest                                                        */
  /* ---------------------------------------------------------------------- */

  /** One schema issue: the path of the offending field (None if the issue has none) and its message. */
  datatype Issue = Issue(path: Option<seq<string>>, message: string)

  datatype Detail = Detail(field: string, message: string)

  /** The result of a schema's safe parse. */
  datatype Parsed<T> = Success(data: T) | Failure(issues: seq<Issue>)

  /** validateRequest's end: `next()` with the parsed body in place of the original, or a 400. */
  datatype Validated<T> = Proceed(body: T) | Reject(status: nat, code: string, details: seq<Detail>)

  function DetailOf(issue: Issue): Detail
  {
    Detail(if issue.path.Some? then Join(issue.path.value, '.') else "unknown", issue.message)
  }

  function ValidateRequest<T>(parsed: Parsed<T>): (v: Validated<T>)
    ensures parsed.Success? ==> v == Proceed(parsed.data)
    ensures parsed.Failure? ==>
      && v.Reject? && v.status == 400 && v.code == "VALIDATION_ERROR"
      && |v.details| == |parsed.issues|
      && forall k :: 0 <= k < |parsed.issues| ==>
           v.details[k].message == parsed.issues[k].message
           && (parsed.issues[k].path.None? ==> v.details[k].field == "unknown")
  {
    match parsed
    case Success(data) => Proceed(data)
    case Failure(issues) => Reject(400, "VALIDATION_ERROR", seq(|issues|, k requires 0 <= k < |issues| => DetailOf(issues[k])))
  }

  /** A detail's field names its path: splitting it at '.' gives the path back when no key contains '.'. */
  lemma DetailFieldNamesPath(issue: Issue)
    requires issue.path.Some? && |issue.path.value| >= 1
    requires forall i :: 0 <= i < |issue.path.value| ==> '.' !in issue.path.value[i]
    ensures Split(DetailOf(issue).field, '.') == issue.path.value
  {
    SplitJoin(issue.path.value, '.');
  }
}
