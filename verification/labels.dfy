/** The scaling labels of a function as the provider query reads them (gateway/plugin/external.go). */
module Labels {

  import opened Wrappers
  import opened Service
  import opened Ranges

  const MAX_INT: int := 0x7fff_ffff_ffff_ffff

  predicate IsDigit(c: char) {
    '0' <= c <= '9'
  }

  predicate AllDigits(s: string) {
    forall i :: 0 <= i < |s| ==> IsDigit(s[i])
  }

  function DigitsValue(s: string): nat
    requires AllDigits(s)
  {
    if s == "" then 0 else 10 * DigitsValue(s[..|s| - 1]) + (s[|s| - 1] as int - '0' as int)
  }

  /** `strconv.Atoi`: an optional sign and decimal digits, within 64 bits. */
  function Atoi(s: string): Option<int> {
    var signed := s != "" && (s[0] == '+' || s[0] == '-');
    var digits := if signed then s[1..] else s;
    if digits == "" || !AllDigits(digits) then None
    else
      var n: int := DigitsValue(digits);
      if signed && s[0] == '-' then (if n <= MAX_INT + 1 then Some(-n) else None)
      else (if n <= MAX_INT then Some(n) else None)
  }

  /** The decimal digits of a number, as a reference for `Atoi`. */
  function Digits(n: nat): (s: string)
    ensures s != "" && AllDigits(s)
  {
    var last := ['0' + (n % 10) as char];
    if n < 10 then last else Digits(n / 10) + last
  }

  function Itoa(n: int): string {
    if n < 0 then "-" + Digits(-n) else Digits(n)
  }

  lemma {:induction false} DigitsValueOfDigits(n: nat)
    ensures DigitsValue(Digits(n)) == n
  {
    var s := Digits(n);
    if n < 10 {
      assert DigitsValue(s[..|s| - 1]) == 0;
    } else {
      DigitsValueOfDigits(n / 10);
      assert s[..|s| - 1] == Digits(n / 10);
    }
  }

  /** A number, if it fits 64 bits. */
  function Fitting(n: int): Option<int> {
    if -MAX_INT - 1 <= n <= MAX_INT then Some(n) else None
  }

  lemma AtoiDigits(n: nat)
    ensures Atoi(Digits(n)) == Fitting(n)
  {
    DigitsValueOfDigits(n);
    assert IsDigit(Digits(n)[0]);
  }

  lemma AtoiMinus(digits: string)
    requires digits != "" && AllDigits(digits)
    ensures Atoi("-" + digits) == Fitting(-(DigitsValue(digits) as int))
  {
    assert ("-" + digits)[1..] == digits;
  }

  lemma AtoiNegative(n: int)
    requires n < 0
    ensures Atoi("-" + Digits(-n)) == Fitting(n)
  {
    DigitsValueOfDigits(-n);
    AtoiMinus(Digits(-n));
  }

  /** A number in decimal is parsed back exactly when it fits 64 bits. */
  lemma AtoiItoa(n: int)
    ensures Atoi(Itoa(n)) == Fitting(n)
  {
    if n < 0 {
      AtoiNegative(n);
    } else {
      AtoiDigits(n);
    }
  }

  function ExtractLabelValue(rawLabelValue: string, fallback: uint64): uint64 {
    if rawLabelValue == "" then fallback
    else
      match Atoi(rawLabelValue)
      case None => fallback
      case Some(value) => Wrap(value)
  }

  /** Reading digits from the left, as a reference for their value. */
  function Horner(value: nat, digits: string): nat
    requires AllDigits(digits)
    decreases |digits|
  {
    if digits == "" then value else Horner(10 * value + (digits[0] as int - '0' as int), digits[1..])
  }

  lemma {:induction false} HornerLast(value: nat, digits: string)
    requires AllDigits(digits) && digits != ""
    ensures var n := |digits| - 1;
            Horner(value, digits) == 10 * Horner(value, digits[..n]) + (digits[n] as int - '0' as int)
    decreases |digits|
  {
    var n := |digits| - 1;
    if n > 0 {
      HornerLast(10 * value + (digits[0] as int - '0' as int), digits[1..]);
      assert digits[1..][..n - 1] == digits[..n][1..];
    }
  }

  lemma {:induction false} DigitsValueIsHorner(digits: string)
    requires AllDigits(digits)
    ensures DigitsValue(digits) == Horner(0, digits)
  {
    if digits != "" {
      DigitsValueIsHorner(digits[..|digits| - 1]);
      HornerLast(0, digits);
    }
  }

  /** A text that is a number: an optional sign, and digits. */
  predicate Numeral(s: string, sign: string, digits: string) {
    s == sign + digits && (sign == "" || sign == "+" || sign == "-") && digits != "" && AllDigits(digits)
  }

  /** Every label that is no number counts as the default. */
  lemma LabelOfOtherText(fallback: uint64, s: string)
    requires forall sign, digits :: !Numeral(s, sign, digits)
    ensures ExtractLabelValue(s, fallback) == fallback
  {
    if s != "" {
      assert s == s[..1] + s[1..];
      assert s == "" + s;
      assert !Numeral(s, s[..1], s[1..]) && !Numeral(s, "", s);
    }
  }

  /** The number that a sign and digits stand for. */
  function NumberOf(sign: string, digits: string): int
    requires AllDigits(digits)
  {
    if sign == "-" then -(Horner(0, digits) as int) else Horner(0, digits)
  }

  lemma AtoiUnsigned(digits: string)
    requires digits != "" && AllDigits(digits)
    ensures Atoi(digits) == Fitting(Horner(0, digits))
  {
    DigitsValueIsHorner(digits);
    assert IsDigit(digits[0]);
  }

  lemma AtoiSigned(sign: string, digits: string)
    requires (sign == "+" || sign == "-") && digits != "" && AllDigits(digits)
    ensures Atoi(sign + digits) == Fitting(NumberOf(sign, digits))
  {
    DigitsValueIsHorner(digits);
    assert (sign + digits)[0] == sign[0] && (sign + digits)[1..] == digits;
  }

  lemma AtoiOfNumeral(s: string, sign: string, digits: string)
    requires Numeral(s, sign, digits)
    ensures Atoi(s) == Fitting(NumberOf(sign, digits))
  {
    if sign == "" {
      assert s == digits;
      AtoiUnsigned(digits);
    } else {
      AtoiSigned(sign, digits);
    }
  }

  /** Every label that is one counts as its number, wrapped when negative, unless it does not fit 64 bits. */
  lemma LabelOfNumeral(fallback: uint64, s: string, sign: string, digits: string)
    requires Numeral(s, sign, digits)
    ensures var n := NumberOf(sign, digits);
            ExtractLabelValue(s, fallback) ==
            if n < -MAX_INT - 1 || n > MAX_INT then fallback else if n < 0 then n + TWO_TO_THE_64 else n
  {
    AtoiOfNumeral(s, sign, digits);
  }

  /** The part of the provider's reply that `GetReplicas` uses. */
  datatype FunctionStatus = FunctionStatus(
    replicas: uint64,
    availableReplicas: uint64,
    labels: Option<map<string, string>>,
    annotations: Option<map<string, string>>)

  datatype Reply = Unreachable(err: Error) | BadStatus(code: int) | Malformed(err: Error) | Ok(function_: FunctionStatus)

  const STATUS_ERROR: Error := "server returned non-200 status code"
  const FACTOR_ERROR: Error := "bad scaling factor"

  /** The value that a function's label stands for, whether or not it has labels. */
  function LabelValue(status: FunctionStatus, name: string, fallback: uint64): uint64 {
    if status.labels.Some? && name in status.labels.value then ExtractLabelValue(status.labels.value[name], fallback)
    else fallback
  }

  /** `map[string]string` lookup: a missing label reads as the empty string. */
  function Read(labels: map<string, string>, name: string): string {
    if name in labels then labels[name] else ""
  }

  /**
   `ExternalServiceQuery.GetReplicas` from the reply on. A response is a struct even when there
   is an error; without an error it carries the counts of the reply and the values of its labels.
   */
  method GetReplicas(reply: Reply) returns (response: ServiceQueryResponse, err: Option<Error>)
    ensures err.None? <==> reply.Ok? && 1 <= LabelValue(reply.function_, "com.openfaas.scale.factor", 10) <= 100
    ensures err.Some? ==> response == EMPTY_RESPONSE
    ensures err.None? ==>
              && response.replicas == reply.function_.replicas
              && response.availableReplicas == reply.function_.availableReplicas
              && response.annotations == reply.function_.annotations
              && response.minReplicas == LabelValue(reply.function_, "com.openfaas.scale.min", 1)
              && response.maxReplicas == LabelValue(reply.function_, "com.openfaas.scale.max", 5)
              && response.scalingFactor == LabelValue(reply.function_, "com.openfaas.scale.factor", 10)
              && 1 <= response.scalingFactor <= 100
  {
    if reply.Unreachable? {
      return EMPTY_RESPONSE, Some(reply.err);
    }
    if reply.BadStatus? {
      return EMPTY_RESPONSE, Some(STATUS_ERROR);
    }
    if reply.Malformed? {
      return EMPTY_RESPONSE, Some(reply.err);
    }
    var function_ := reply.function_;
    var minReplicas := DEFAULT_MIN_REPLICAS;
    var maxReplicas := DEFAULT_MAX_REPLICAS;
    var scalingFactor := DEFAULT_SCALING_FACTOR;
    if function_.labels.Some? {
      var labels := function_.labels.value;
      minReplicas := ExtractLabelValue(Read(labels, MIN_SCALE_LABEL), minReplicas);
      maxReplicas := ExtractLabelValue(Read(labels, MAX_SCALE_LABEL), maxReplicas);
      var extractedScalingFactor := ExtractLabelValue(Read(labels, SCALING_FACTOR_LABEL), scalingFactor);
      if extractedScalingFactor > 0 && extractedScalingFactor <= 100 {
        scalingFactor := extractedScalingFactor;
      } else {
        return EMPTY_RESPONSE, Some(FACTOR_ERROR);
      }
    }
    return ServiceQueryResponse(function_.replicas, maxReplicas, minReplicas, scalingFactor,
                                function_.availableReplicas, function_.annotations), None;
  }

  /** A decimal label counts as its number, wrapped when negative, and as the default when it does not fit 64 bits. */
  lemma LabelOfNumber(fallback: uint64, n: int)
    ensures ExtractLabelValue(Itoa(n), fallback) ==
            if n < -MAX_INT - 1 || n > MAX_INT then fallback
            else if n < 0 then n + TWO_TO_THE_64
            else n
  {
    AtoiItoa(n);
    assert Itoa(n) != "";
  }

  lemma {:induction false} AtoiRange(s: string)
    ensures Atoi(s).Some? ==> -MAX_INT - 1 <= Atoi(s).value <= MAX_INT
  {
  }

  /**
   The maximum as alerts see it, capped, is 0 exactly for a label that parses to 0: a negative
   label wraps to a huge number, which the cap takes down.
   */
  lemma CappedMaxIsZero(status: FunctionStatus, cap: uint64)
    requires cap >= 1
    ensures Min(LabelValue(status, MAX_SCALE_LABEL, DEFAULT_MAX_REPLICAS), cap) == 0 <==>
            && status.labels.Some? && MAX_SCALE_LABEL in status.labels.value
            && Atoi(status.labels.value[MAX_SCALE_LABEL]) == Some(0)
    ensures status.labels.Some? && MAX_SCALE_LABEL in status.labels.value ==>
              var n := Atoi(status.labels.value[MAX_SCALE_LABEL]);
              n.Some? && n.value < 0 && cap <= MAX_INT ==>
                Min(LabelValue(status, MAX_SCALE_LABEL, DEFAULT_MAX_REPLICAS), cap) == cap
  {
    if status.labels.Some? && MAX_SCALE_LABEL in status.labels.value {
      AtoiRange(status.labels.value[MAX_SCALE_LABEL]);
    }
  }
}
