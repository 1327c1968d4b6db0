/** The stateless validators of core/validators.py: the inclusive range check,
    the rule patterns, the password-strength check and the CPF (Brazilian
    taxpayer number) check-digit algorithm, with the `CpfValidator` object
    that runs it. */
module Validators {
  import opened Exceptions
  import opened DomainRules

  // ---------------------------------------------------------------------------
  // Character classes (ASCII)
  // ---------------------------------------------------------------------------

  predicate IsDigit(c: char) { '0' <= c <= '9' }
  predicate IsUpper(c: char) { 'A' <= c <= 'Z' }
  predicate IsLower(c: char) { 'a' <= c <= 'z' }
  predicate IsLetter(c: char) { IsUpper(c) || IsLower(c) }
  predicate IsPasswordSymbol(c: char) { c in "!@#$%^&*()_+" }

  predicate AllDigits(s: string) { forall i :: 0 <= i < |s| ==> IsDigit(s[i]) }

  /** `c` belongs to one of the classes of a rule pattern. */
  predicate InClasses(c: char, cs: set<CharClass>) {
    || (UpperLetter in cs && IsUpper(c))
    || (LowerLetter in cs && IsLower(c))
    || (Digit in cs && IsDigit(c))
    || (Underscore in cs && c == '_')
    || (Space in cs && c == ' ')
    || (PasswordSymbol in cs && IsPasswordSymbol(c))
  }

  /** regex_validator on the pattern shapes the rules use. `strict` selects
      re.match (anchored at the start) over re.search; a `Whole` pattern is
      anchored at both ends either way. */
  predicate RegexValidator(p: Pattern, s: string, strict: bool) {
    match p
    case Search(cs) =>
      if strict then |s| > 0 && InClasses(s[0], cs)
      else exists i :: 0 <= i < |s| && InClasses(s[i], cs)
    case Whole(cs, lo, hi) =>
      && lo <= |s|
      && (hi.None? || |s| <= hi.value)
      && forall i :: 0 <= i < |s| ==> InClasses(s[i], cs)
  }

  // ---------------------------------------------------------------------------
  // min_max_validator
  // ---------------------------------------------------------------------------

  /** min_max_validator with a numeric maximum: inclusive at both ends. */
  predicate MinMaxValidator(lo: int, hi: int, value: int) {
    lo <= value <= hi
  }

  /** `min_ <= value <= max_` exactly as Python evaluates it when `max_` may be
      None: a false first comparison ends the chain; otherwise comparing the
      value with None raises TypeError. */
  function MinMaxValidatorAsWritten(lo: int, hi: Option<int>, value: int): (r: Result<bool>)
    ensures hi.Some? ==> r == Ok(MinMaxValidator(lo, hi.value, value))
    ensures hi.None? ==> (r.Err? <==> lo <= value)
  {
    if !(lo <= value) then Ok(false)
    else match hi
      case Some(h) => Ok(value <= h)
      case None =>
        Err(Error(TypeMismatch,
                  "'<=' not supported between instances of 'decimal.Decimal' and 'NoneType'",
                  InternalServerError))
  }

  /** The range check the rules intend: an absent maximum is no upper bound. */
  predicate InRange(lo: int, hi: Option<int>, value: int) {
    lo <= value && (hi.None? || value <= hi.value)
  }

  /** The intended check agrees with the source's chained comparison on every
      input where that comparison does not raise, and with min_max_validator
      whenever a maximum is configured. */
  lemma InRangeAgreesWithSource(lo: int, hi: Option<int>, value: int)
    ensures MinMaxValidatorAsWritten(lo, hi, value).Ok? ==>
              MinMaxValidatorAsWritten(lo, hi, value).value == InRange(lo, hi, value)
    ensures hi.Some? ==> InRange(lo, hi, value) == MinMaxValidator(lo, hi.value, value)
    ensures hi.None? ==> (InRange(lo, hi, value) <==> lo <= value)
  {
  }

  /** With the deposit rules as configured, the chained comparison raises for
      every value that reaches the minimum, e.g. a deposit of 10.00. */
  lemma DepositRangeRaisesAsWritten(value: int)
    requires value >= MinDepositValue
    ensures MinMaxValidatorAsWritten(MinDepositValue, MaxDepositValue, value).Err?
    ensures InRange(MinDepositValue, MaxDepositValue, value)
  {
  }

  // ---------------------------------------------------------------------------
  // strong_password_validator
  // ---------------------------------------------------------------------------

  /** strong_password_validator: four pattern searches and a length range. */
  function StrongPasswordValidator(password: string): (r: bool)
    ensures r <==>
      && (exists i :: 0 <= i < |password| && IsUpper(password[i]))
      && (exists i :: 0 <= i < |password| && IsLower(password[i]))
      && (exists i :: 0 <= i < |password| && IsDigit(password[i]))
      && (exists i :: 0 <= i < |password| && IsPasswordSymbol(password[i]))
      && MinPasswordSize <= |password| <= MaxPasswordSize
  {
    var up := RegexValidator(Search({UpperLetter}), password, false);
    var low := RegexValidator(Search({LowerLetter}), password, false);
    var num := RegexValidator(Search({Digit}), password, false);
    var sym := RegexValidator(Search({PasswordSymbol}), password, false);
    var length := MinMaxValidator(MinPasswordSize, MaxPasswordSize, |password|);
    up && low && num && sym && length
  }

  /** Passwords the validator accepts. */
  lemma StrongPasswordExamples()
    ensures StrongPasswordValidator("StrongPassword@123")
    ensures StrongPasswordValidator("2C270a3@05c11E49")
  {
    var s := "StrongPassword@123";
    assert IsUpper(s[0]) && IsLower(s[1]) && IsDigit(s[15]) && IsPasswordSymbol(s[14]);
    var t := "2C270a3@05c11E49";
    assert IsUpper(t[1]) && IsLower(t[5]) && IsDigit(t[0]) && IsPasswordSymbol(t[7]);
  }

  /** A strong password of the maximum length, 20 characters. */
  lemma LongStrongPasswordExample()
    ensures StrongPasswordValidator("8bc5fa9df07DD22f1$d2")
  {
    var v := "8bc5fa9df07DD22f1$d2";
    assert IsUpper(v[11]) && IsLower(v[1]) && IsDigit(v[0]) && IsPasswordSymbol(v[17]);
  }

  /** A password without digits is weak. */
  lemma NoDigitPasswordIsWeak()
    ensures !StrongPasswordValidator("Without@numbers")
  {
    var n := "Without@numbers";
    assert !(exists i :: 0 <= i < |n| && IsDigit(n[i])) by {
      forall i | 0 <= i < |n| ensures !IsDigit(n[i]) { }
    }
  }

  /** A password without one of the listed symbols is weak. */
  lemma NoSymbolPasswordIsWeak()
    ensures !StrongPasswordValidator("WithoutS1mb0ls")
  {
    var m := "WithoutS1mb0ls";
    forall i | 0 <= i < |m| ensures !IsPasswordSymbol(m[i]) { }
  }

  /** Passwords missing a letter case are weak. */
  lemma OneCasePasswordsAreWeak()
    ensures !StrongPasswordValidator("without@upperc4s3")
    ensures !StrongPasswordValidator("WITHOUT@LOWERC4S3")
  {
    var l := "without@upperc4s3";
    forall i | 0 <= i < |l| ensures !IsUpper(l[i]) { }
    var w := "WITHOUT@LOWERC4S3";
    forall i | 0 <= i < |w| ensures !IsLower(w[i]) { }
  }

  /** Passwords outside 8..20 characters are weak. */
  lemma PasswordSizeBounds()
    ensures !StrongPasswordValidator("Wk@size")
    ensures !StrongPasswordValidator("BiggestSize@1BiggestSize@1BiggestSize@1")
  {
  }

  // ---------------------------------------------------------------------------
  // CPF check digits
  // ---------------------------------------------------------------------------

  /** The value of a decimal digit. */
  function DigitValue(c: char): (d: nat)
    requires IsDigit(c)
    ensures d <= 9
  {
    (c as int) - ('0' as int)
  }

  /** The digit character of a value 0..9 (Python's `str` of a one-digit int). */
  function DigitChar(d: nat): (c: char)
    requires d <= 9
    ensures IsDigit(c) && DigitValue(c) == d
  {
    (('0' as int) + d) as char
  }

  /** The `cpf` property's filter: keeps the digit characters, in order. */
  function StripNonDigits(s: string): (r: string)
    ensures |r| <= |s|
    ensures AllDigits(r)
  {
    if |s| == 0 then "" else (if IsDigit(s[0]) then [s[0]] else "") + StripNonDigits(s[1..])
  }

  /** Filtering distributes over concatenation, so order is kept. */
  lemma {:induction false} StripAppend(a: string, b: string)
    ensures StripNonDigits(a + b) == StripNonDigits(a) + StripNonDigits(b)
  {
    if |a| == 0 {
      assert a + b == b;
    } else {
      var ab := a + b;
      var head: string := if IsDigit(a[0]) then [a[0]] else "";
      assert ab[0] == a[0] && ab[1..] == a[1..] + b;
      StripAppend(a[1..], b);
      calc {
        StripNonDigits(ab);
        head + StripNonDigits(a[1..] + b);
        head + (StripNonDigits(a[1..]) + StripNonDigits(b));
        (head + StripNonDigits(a[1..])) + StripNonDigits(b);
      }
    }
  }

  /** A string of digits is left as it is. */
  lemma {:induction false} StripKeepsDigitStrings(s: string)
    requires AllDigits(s)
    ensures StripNonDigits(s) == s
  {
    if |s| > 0 {
      StripKeepsDigitStrings(s[1..]);
    }
  }

  /** Reading the `cpf` property twice gives what reading it once gives. */
  lemma StripIdempotent(s: string)
    ensures StripNonDigits(StripNonDigits(s)) == StripNonDigits(s)
  {
    StripKeepsDigitStrings(StripNonDigits(s));
  }

  /** Every digit keeps its number of occurrences and every other character
      disappears. */
  lemma {:induction false} StripCounts(s: string, c: char)
    ensures multiset(StripNonDigits(s))[c] == if IsDigit(c) then multiset(s)[c] else 0
  {
    if |s| > 0 {
      StripCounts(s[1..], c);
      assert s == [s[0]] + s[1..];
    }
  }

  /** Σ value(ds[i]) * (weight - i), the accumulation of the digit loops. */
  function WeightedSum(ds: string, weight: int): int
    requires AllDigits(ds)
  {
    if |ds| == 0 then 0 else DigitValue(ds[0]) * weight + WeightedSum(ds[1..], weight - 1)
  }

  /** One more loop step adds the next digit times the next weight. */
  lemma {:induction false} WeightedSumSnoc(ds: string, weight: int, c: char)
    requires AllDigits(ds) && IsDigit(c)
    ensures AllDigits(ds + [c])
    ensures WeightedSum(ds + [c], weight) == WeightedSum(ds, weight) + DigitValue(c) * (weight - |ds|)
  {
    if |ds| > 0 {
      assert (ds + [c])[1..] == ds[1..] + [c];
      WeightedSumSnoc(ds[1..], weight - 1, c);
    }
  }

  /** `11 - sum % 11`, replaced by 0 above 9: the digit that makes the weighted
      sum a multiple of 11, or 0 when that digit would be 10 or 11. */
  function CheckDigit(sum: int): (d: nat)
    ensures d <= 9
    ensures sum % 11 >= 2 ==> (sum + d) % 11 == 0
    ensures sum % 11 < 2 ==> d == 0
  {
    var r := 11 - sum % 11;
    if r <= 9 then r else 0
  }

  /** Python's `s[:-2]`. */
  function DropLastTwo(s: string): string {
    if |s| >= 2 then s[..|s| - 2] else ""
  }

  /** calculate_first_digit on a digit string: weights 10, 9, ... over all but
      the last two digits. */
  function FirstCheckDigit(cpf: string): (c: char)
    requires AllDigits(cpf)
    ensures IsDigit(c)
  {
    DigitChar(CheckDigit(WeightedSum(DropLastTwo(cpf), 10)))
  }

  /** calculate_second_digit on a digit string: weights 11, 10, ... over all but
      the last two digits followed by the first check digit. */
  function SecondCheckDigit(cpf: string): (c: char)
    requires AllDigits(cpf)
    ensures IsDigit(c)
  {
    DigitChar(CheckDigit(WeightedSum(DropLastTwo(cpf) + [FirstCheckDigit(cpf)], 11)))
  }

  /** is_sequence on a non-empty digit string: its first digit repeated 11 times. */
  function RepeatsFirstDigit(cpf: string): (r: bool)
    requires |cpf| > 0
    ensures r ==> |cpf| == 11 && forall i :: 0 <= i < |cpf| ==> cpf[i] == cpf[0]
    ensures |cpf| == 11 && (forall i :: 0 <= i < |cpf| ==> cpf[i] == cpf[0]) ==> r
  {
    cpf == seq(11, _ => cpf[0])
  }

  /** validate on a digit string: "" for an empty, repeated or wrong-length
      CPF, otherwise its first nine digits followed by the two computed ones. */
  function ExpectedCpf(cpf: string): (v: string)
    requires AllDigits(cpf)
    ensures v != "" <==> |cpf| == 11 && !RepeatsFirstDigit(cpf)
    ensures v != "" ==> |v| == 11 && v[..9] == cpf[..9]
                        && v[9] == FirstCheckDigit(cpf) && v[10] == SecondCheckDigit(cpf)
  {
    if |cpf| == 0 || RepeatsFirstDigit(cpf) || |cpf| != 11 then ""
    else DropLastTwo(cpf) + [FirstCheckDigit(cpf), SecondCheckDigit(cpf)]
  }

  /** is_valid: the stripped CPF is non-empty and equals its expected form. */
  predicate IsValidCpf(raw: string) {
    var d := StripNonDigits(raw);
    |d| > 0 && d == ExpectedCpf(d)
  }

  /** A CPF is valid exactly when, punctuation ignored, it has eleven digits,
      not all the same, whose last two are the computed check digits. */
  lemma IsValidCpfCharacterization(raw: string)
    ensures IsValidCpf(raw) <==>
      var d := StripNonDigits(raw);
      && |d| == 11
      && !RepeatsFirstDigit(d)
      && d[9] == FirstCheckDigit(d)
      && d[10] == SecondCheckDigit(d)
  {
    var d := StripNonDigits(raw);
    if |d| == 11 && !RepeatsFirstDigit(d) && d[9] == FirstCheckDigit(d) && d[10] == SecondCheckDigit(d) {
      var e := ExpectedCpf(d);
      assert |e| == 11 && e[..9] == d[..9] && e[9] == d[9] && e[10] == d[10];
      assert forall i :: 0 <= i < 11 ==> e[i] == d[i] by {
        forall i | 0 <= i < 9 ensures e[i] == d[i] {
          assert e[i] == e[..9][i];
        }
      }
      assert e == d;
    }
  }

  /** Inserting a non-digit character anywhere leaves the verdict unchanged,
      so formatted and unformatted CPFs are judged alike. */
  lemma PunctuationIgnored(a: string, c: char, b: string)
    requires !IsDigit(c)
    ensures StripNonDigits(a + [c] + b) == StripNonDigits(a + b)
    ensures IsValidCpf(a + [c] + b) == IsValidCpf(a + b)
  {
    StripAppend(a + [c], b);
    StripAppend(a, [c]);
    StripAppend(a, b);
    assert StripNonDigits([c]) == "";
  }

  /** A CPF from the test suite, 979.820.400-04, whose check digits match. */
  const SampleCpf: string := "97982040004"
  /** The same CPF with its last check digit changed. */
  const WrongDigitCpf: string := "97982040005"
  /** A CPF from the test suite with a letter in it: ten digits remain. */
  const LetterCpf: string := "6a497369099"

  /** The weighted sums of the check digit computations for SampleCpf. */
  lemma FirstWeightedSumExample()
    ensures AllDigits("979820400") && WeightedSum("979820400", 10) == 309
  {
  }

  lemma SecondWeightedSumExample()
    ensures AllDigits("9798204000") && WeightedSum("9798204000", 11) == 348
  {
  }

  /** The first check digit of SampleCpf: the weighted sum 309 leaves 1, so
      the digit is 0. */
  lemma FirstCheckDigitExample()
    ensures AllDigits(SampleCpf) && FirstCheckDigit(SampleCpf) == '0'
  {
    assert DropLastTwo(SampleCpf) == "979820400";
    FirstWeightedSumExample();
    assert CheckDigit(309) == 0;
  }

  /** The second check digit of SampleCpf: the weighted sum 348 leaves 7, so
      the digit is 4. */
  lemma SecondCheckDigitExample()
    ensures AllDigits(SampleCpf) && SecondCheckDigit(SampleCpf) == '4'
  {
    FirstCheckDigitExample();
    assert DropLastTwo(SampleCpf) + [FirstCheckDigit(SampleCpf)] == "9798204000";
    SecondWeightedSumExample();
    assert CheckDigit(348) == 4;
  }

  /** On a string of digits, which punctuation stripping leaves alone, the
      verdict depends only on the length, the repetition and the two check
      digits. */
  lemma DigitStringCpf(d: string)
    requires AllDigits(d)
    ensures IsValidCpf(d) <==>
      |d| == 11 && !RepeatsFirstDigit(d) && d[9] == FirstCheckDigit(d) && d[10] == SecondCheckDigit(d)
  {
    StripKeepsDigitStrings(d);
    IsValidCpfCharacterization(d);
  }

  /** A CPF whose check digits match is accepted. */
  lemma ValidCpfExample()
    ensures IsValidCpf(SampleCpf)
  {
    assert |SampleCpf| == 11 && SampleCpf[1] != SampleCpf[0];
    assert SampleCpf[9] == FirstCheckDigit(SampleCpf) by { FirstCheckDigitExample(); }
    assert SampleCpf[10] == SecondCheckDigit(SampleCpf) by { SecondCheckDigitExample(); }
    DigitStringCpf(SampleCpf);
  }

  /** Changing the last check digit makes it invalid. */
  lemma WrongCheckDigitCpfExample()
    ensures !IsValidCpf(WrongDigitCpf)
  {
    assert AllDigits(WrongDigitCpf);
    assert DropLastTwo(WrongDigitCpf) == DropLastTwo(SampleCpf);
    SecondCheckDigitExample();
    DigitStringCpf(WrongDigitCpf);
  }

  /** A repeated digit is rejected whatever its check digits. */
  lemma RepeatedCpfExample()
    ensures !IsValidCpf("11111111111")
  {
    var d := "11111111111";
    assert AllDigits(d);
    assert RepeatsFirstDigit(d);
    DigitStringCpf(d);
  }

  /** On eleven digits, not all equal, the verdict comes down to the two
      weighted sums: the CPF is valid iff its tenth and eleventh digits are
      the check digits of the sums over the nine and ten digits before them. */
  lemma CpfBySums(d: string)
    requires AllDigits(d) && |d| == 11 && d[1] != d[0]
    ensures IsValidCpf(d) <==>
      && d[9] == DigitChar(CheckDigit(WeightedSum(d[..9], 10)))
      && d[10] == DigitChar(CheckDigit(WeightedSum(d[..10], 11)))
  {
    assert DropLastTwo(d) == d[..9];
    assert !RepeatsFirstDigit(d);
    if d[9] == FirstCheckDigit(d) {
      assert d[..10] == DropLastTwo(d) + [FirstCheckDigit(d)];
    }
    DigitStringCpf(d);
  }

  /** More CPFs of the test suite: 152.780.530-11 and 644.973.690-99 are
      valid; 252.780.530-11 is not, its first check digit being 2. */
  const SecondValidCpf: string := "15278053011"
  const ThirdValidCpf: string := "64497369099"
  const WrongFirstDigitCpf: string := "25278053011"

  lemma SecondValidCpfFirstSum()
    ensures AllDigits("152780530") && WeightedSum("152780530", 10) == 197
  {
  }

  lemma SecondValidCpfSecondSum()
    ensures AllDigits("1527805301") && WeightedSum("1527805301", 11) == 230
  {
  }

  lemma SecondValidCpfExample()
    ensures IsValidCpf(SecondValidCpf)
  {
    assert AllDigits(SecondValidCpf) && SecondValidCpf[..9] == "152780530" && SecondValidCpf[..10] == "1527805301";
    SecondValidCpfFirstSum();
    SecondValidCpfSecondSum();
    CpfBySums(SecondValidCpf);
  }

  lemma ThirdValidCpfFirstSum()
    ensures AllDigits("644973690") && WeightedSum("644973690", 10) == 299
  {
  }

  lemma ThirdValidCpfSecondSum()
    ensures AllDigits("6449736909") && WeightedSum("6449736909", 11) == 365
  {
  }

  lemma ThirdValidCpfExample()
    ensures IsValidCpf(ThirdValidCpf)
  {
    assert AllDigits(ThirdValidCpf) && ThirdValidCpf[..9] == "644973690" && ThirdValidCpf[..10] == "6449736909";
    ThirdValidCpfFirstSum();
    ThirdValidCpfSecondSum();
    CpfBySums(ThirdValidCpf);
  }

  lemma WrongFirstDigitCpfExample()
    ensures !IsValidCpf(WrongFirstDigitCpf)
  {
    assert AllDigits(WrongFirstDigitCpf) && WrongFirstDigitCpf[..9] == "252780530";
    assert WeightedSum("252780530", 10) == 207;
    CpfBySums(WrongFirstDigitCpf);
  }

  /** Whatever the check digits, a CPF without exactly eleven digits is
      rejected. */
  lemma WrongLengthCpf(raw: string)
    requires |StripNonDigits(raw)| != 11
    ensures !IsValidCpf(raw)
  {
    IsValidCpfCharacterization(raw);
  }

  /** Ten digits are too few. */
  lemma ShortCpfExample()
    ensures !IsValidCpf(LetterCpf)
  {
    assert |StripNonDigits(LetterCpf)| == 10;
    WrongLengthCpf(LetterCpf);
  }

  /** The accumulation loop shared by calculate_first_digit and
      calculate_second_digit: each digit times a weight that starts at
      `weight` and drops by one per digit. */
  method WeightedSumLoop(ds: string, weight: int) returns (sum: int)
    requires AllDigits(ds)
    ensures sum == WeightedSum(ds, weight)
  {
    sum := 0;
    var m := weight;
    for i := 0 to |ds|
      invariant sum == WeightedSum(ds[..i], weight)
      invariant m == weight - i
    {
      assert ds[..i + 1] == ds[..i] + [ds[i]];
      WeightedSumSnoc(ds[..i], weight, ds[i]);
      sum := sum + DigitValue(ds[i]) * m;
      m := m - 1;
    }
    assert ds[..|ds|] == ds;
  }

  /** The CpfValidator object: `text` is `self._cpf`, which every read of the
      `cpf` property replaces by its digits; `verifiedCpf` is computed once at
      construction. */
  class CpfValidator {
    var text: string
    var verifiedCpf: string
    /** The string the validator was built from. */
    ghost const input: string

    ghost predicate Valid()
      reads this
    {
      && text == StripNonDigits(input)
      && AllDigits(text)
      && verifiedCpf == ExpectedCpf(text)
    }

    constructor (cpf: string)
      ensures Valid() && input == cpf
    {
      input := cpf;
      text := cpf;
      new;
      verifiedCpf := Validate();
    }

    /** The `cpf` property: strips the stored text to its digits and returns it. */
    method Cpf() returns (s: string)
      modifies this`text
      ensures s == StripNonDigits(old(text)) && text == s
    {
      text := StripNonDigits(text);
      s := text;
    }

    method CalculateFirstDigit() returns (d: char)
      modifies this`text
      ensures text == StripNonDigits(old(text))
      ensures d == FirstCheckDigit(text)
    {
      var digits := Cpf();
      var result := WeightedSumLoop(DropLastTwo(digits), 10);
      d := DigitChar(CheckDigit(result));
    }

    method CalculateSecondDigit() returns (d: char)
      modifies this`text
      ensures text == StripNonDigits(old(text))
      ensures d == SecondCheckDigit(text)
    {
      var digits := Cpf();
      var first := CalculateFirstDigit();
      StripIdempotent(old(text));
      var ac := WeightedSumLoop(DropLastTwo(digits) + [first], 11);
      d := DigitChar(CheckDigit(ac));
    }

    /** validate: the expected CPF of the stripped text, "" when rejected. */
    method Validate() returns (v: string)
      modifies this`text
      ensures text == StripNonDigits(old(text))
      ensures v == ExpectedCpf(text)
    {
      var c := Cpf();
      StripIdempotent(old(text));
      if |c| == 0 {
        return "";
      }
      var sequence := IsSequence();
      if sequence {
        return "";
      }
      var validLength := HasValidLength();
      if !validLength {
        return "";
      }
      var again := Cpf();
      var base := DropLastTwo(again);
      var first := CalculateFirstDigit();
      var second := CalculateSecondDigit();
      v := base + [first, second];
    }

    /** is_valid: the stripped text is non-empty and equals the verified CPF. */
    method IsValid() returns (b: bool)
      requires Valid()
      modifies this`text
      ensures Valid() && text == old(text)
      ensures b == IsValidCpf(input)
    {
      StripIdempotent(input);
      var c := Cpf();
      b := |c| > 0 && c == verifiedCpf;
    }

    /** is_sequence: the stripped text is its first digit repeated 11 times.
        The source indexes the first character, so the text must have a digit. */
    method IsSequence() returns (b: bool)
      requires |StripNonDigits(text)| > 0
      modifies this`text
      ensures text == StripNonDigits(old(text))
      ensures b == RepeatsFirstDigit(text)
    {
      var c := Cpf();
      var verify := seq(11, _ => c[0]);
      b := verify == c;
    }

    /** has_valid_length: the stripped text has 11 digits. */
    method HasValidLength() returns (b: bool)
      modifies this`text
      ensures text == StripNonDigits(old(text))
      ensures b == (|text| == 11)
    {
      var c := Cpf();
      b := |c| == 11;
    }
  }
}
