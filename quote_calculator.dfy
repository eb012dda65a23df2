/**
  The instant quote calculator: per-word base prices by document type,
  complexity multipliers by target language class, timeline multipliers,
  and a flat certification fee; plus the word-count field, whose text is
  read with `parseInt(text) || 0`.
 */
module QuoteCalculator {
  import opened JsValues

  datatype DocumentType = General | Legal | Medical | Technical
  datatype LanguageType = Common | Uncommon | Rare
  datatype TimelineType = Standard | Rush | Urgent

  /** `basePrices`: price per word. */
  function BasePrice(d: DocumentType): real
  {
    match d
    case General => 0.08
    case Legal => 0.12
    case Medical => 0.14
    case Technical => 0.13
  }

  /** `languageComplexity` */
  function LanguageComplexity(l: LanguageType): real
  {
    match l
    case Common => 1.0
    case Uncommon => 1.3
    case Rare => 1.5
  }

  /** `timelineMultipliers` */
  function TimelineMultiplier(t: TimelineType): real
  {
    match t
    case Standard => 1.0
    case Rush => 1.5
    case Urgent => 2.0
  }

  const CertificationFee: real := 25.0

  /** The calculator's inputs (its state apart from the computed total). */
  datatype QuoteInputs = QuoteInputs(
    documentType: DocumentType,
    sourceLanguage: LanguageType,
    targetLanguage: LanguageType,
    wordCount: int,
    timeline: TimelineType,
    certification: bool)

  /** The initial state of the form. */
  const InitialInputs := QuoteInputs(General, Common, Uncommon, 500, Standard, false)

  /** The price shown before any input changes: 500 general words into an uncommon language, standard timeline. */
  lemma InitialPrice()
    ensures InitialInputs.wordCount == 500 && !InitialInputs.certification
    ensures Price(InitialInputs) == 52.0
  {
  }

  /** The total computed by the effect, before rounding to cents. */
  function Price(q: QuoteInputs): (p: real)
    ensures q.wordCount >= 0 ==> p >= if q.certification then CertificationFee else 0.0
  {
    var basePrice := BasePrice(q.documentType) * q.wordCount as real;
    var price := basePrice * LanguageComplexity(q.targetLanguage) * TimelineMultiplier(q.timeline);
    assert q.wordCount >= 0 ==> price >= 0.0 by {
      if q.wordCount >= 0 {
        assert basePrice >= 0.0;
        assert basePrice * LanguageComplexity(q.targetLanguage) >= 0.0;
      }
    }
    if q.certification then price + CertificationFee else price
  }

  /** The source language is never read. */
  lemma SourceLanguageIrrelevant(q: QuoteInputs, source: LanguageType)
    ensures Price(q.(sourceLanguage := source)) == Price(q)
  {
  }

  /** Certification adds exactly the fee and nothing else. */
  lemma CertificationAddsFee(q: QuoteInputs)
    ensures Price(q.(certification := true)) == Price(q.(certification := false)) + CertificationFee
  {
  }

  /** Without words, the price is only the fee, if any. */
  lemma NoWordsOnlyFee(q: QuoteInputs)
    requires q.wordCount == 0
    ensures Price(q) == if q.certification then CertificationFee else 0.0
  {
  }

  /** Ordering of language classes by complexity. */
  predicate LanguageAtMost(a: LanguageType, b: LanguageType)
  {
    a == Common || b == Rare || a == b
  }

  /** Ordering of timelines by speed. */
  predicate TimelineAtMost(a: TimelineType, b: TimelineType)
  {
    a == Standard || b == Urgent || a == b
  }

  /** Every multiplier is at least 1 and the tables follow the orderings. */
  lemma MultipliersOrdered(l1: LanguageType, l2: LanguageType, t1: TimelineType, t2: TimelineType)
    ensures LanguageComplexity(l1) >= 1.0 && TimelineMultiplier(t1) >= 1.0
    ensures LanguageAtMost(l1, l2) ==> LanguageComplexity(l1) <= LanguageComplexity(l2)
    ensures TimelineAtMost(t1, t2) ==> TimelineMultiplier(t1) <= TimelineMultiplier(t2)
  {
  }

  lemma MulMonotone(a: real, b: real, c: real, d: real)
    requires 0.0 <= a <= b && 0.0 <= c <= d
    ensures a * c <= b * d
  {
    assert a * c <= b * c;
    assert b * c <= b * d;
  }

  lemma ProductMonotone(b: real, w1: real, w2: real, l1: real, l2: real, t1: real, t2: real)
    requires 0.0 <= b && 0.0 <= w1 <= w2 && 0.0 <= l1 <= l2 && 0.0 <= t1 <= t2
    ensures b * w1 * l1 * t1 <= b * w2 * l2 * t2
  {
    MulMonotone(b, b, w1, w2);
    MulMonotone(b * w1, b * w2, l1, l2);
    MulMonotone(b * w1 * l1, b * w2 * l2, t1, t2);
  }

  /** More words, a rarer target language or a faster timeline never lower the price. */
  lemma PriceMonotone(q1: QuoteInputs, q2: QuoteInputs)
    requires 0 <= q1.wordCount <= q2.wordCount
    requires q1.documentType == q2.documentType && q1.certification == q2.certification
    requires LanguageAtMost(q1.targetLanguage, q2.targetLanguage)
    requires TimelineAtMost(q1.timeline, q2.timeline)
    ensures Price(q1) <= Price(q2)
  {
    MultipliersOrdered(q1.targetLanguage, q2.targetLanguage, q1.timeline, q2.timeline);
    ProductMonotone(BasePrice(q1.documentType), q1.wordCount as real, q2.wordCount as real,
      LanguageComplexity(q1.targetLanguage), LanguageComplexity(q2.targetLanguage),
      TimelineMultiplier(q1.timeline), TimelineMultiplier(q2.timeline));
  }

  // The word-count field: `parseInt(e.target.value) || 0`.

  predicate IsDigit(c: char) { '0' <= c <= '9' }

  predicate IsSpace(c: char) { c == ' ' || c == '\t' || c == '\n' || c == '\r' }

  function DigitValue(c: char): nat
    requires IsDigit(c)
  {
    c as int - '0' as int
  }

  /** The value of a string of decimal digits. */
  function DecimalValue(ds: string): nat
    requires forall i :: 0 <= i < |ds| ==> IsDigit(ds[i])
  {
    if ds == [] then 0 else DecimalValue(ds[..|ds| - 1]) * 10 + DigitValue(ds[|ds| - 1])
  }

  /** The leading whitespace that `parseInt` skips. */
  function TrimStart(s: string): (r: string)
    ensures |r| <= |s| && r == s[|s| - |r|..]
    ensures forall j :: 0 <= j < |s| - |r| ==> IsSpace(s[j])
    ensures r != [] ==> !IsSpace(r[0])
  {
    if s != [] && IsSpace(s[0]) then TrimStart(s[1..]) else s
  }

  /** The longest prefix made of decimal digits. */
  function DigitPrefix(s: string): (r: string)
    ensures r <= s
    ensures forall i :: 0 <= i < |r| ==> IsDigit(r[i])
    ensures |r| < |s| ==> !IsDigit(s[|r|])
  {
    if s != [] && IsDigit(s[0]) then [s[0]] + DigitPrefix(s[1..]) else []
  }

  /** `parseInt(s)` in base 10: `None` stands for `NaN`. */
  function ParseInt(s: string): (r: Option<int>)
    ensures r.None? <==>
      var t := TrimStart(s);
      var rest := if t != [] && (t[0] == '-' || t[0] == '+') then t[1..] else t;
      rest == [] || !IsDigit(rest[0])
  {
    var t := TrimStart(s);
    var negative := t != [] && t[0] == '-';
    var rest := if t != [] && (t[0] == '-' || t[0] == '+') then t[1..] else t;
    var digits := DigitPrefix(rest);
    if digits == [] then None
    else Some(if negative then -(DecimalValue(digits) as int) else DecimalValue(digits))
  }

  /** `parseInt(text) || 0`: `NaN` (and zero) become 0. */
  function WordCountOf(text: string): (n: int)
    ensures ParseInt(text).None? ==> n == 0
    ensures ParseInt(text).Some? ==> n == ParseInt(text).value
  {
    match ParseInt(text)
    case None => 0
    case Some(v) => v
  }

  /** A field whose text does not start with a number gives the fee alone as price. */
  lemma NonNumericWordCount(q: QuoteInputs, text: string)
    requires var t := TrimStart(text); t == [] || (!IsDigit(t[0]) && t[0] != '-' && t[0] != '+')
    ensures WordCountOf(text) == 0
    ensures Price(q.(wordCount := WordCountOf(text))) == if q.certification then CertificationFee else 0.0
  {
    NoWordsOnlyFee(q.(wordCount := 0));
  }

  /** The decimal text of a natural number, as the field displays it. */
  function NatToString(n: nat): (s: string)
    ensures |s| > 0
    ensures forall i :: 0 <= i < |s| ==> IsDigit(s[i])
  {
    var d := ['0' + (n % 10) as char];
    if n < 10 then d else NatToString(n / 10) + d
  }

  /** The decimal text of an integer. */
  function IntToString(n: int): string
  {
    if n < 0 then "-" + NatToString(-n) else NatToString(n)
  }

  lemma {:induction false} DecimalOfNatToString(n: nat)
    ensures DecimalValue(NatToString(n)) == n
  {
    var s := NatToString(n);
    if n >= 10 {
      DecimalOfNatToString(n / 10);
      assert s[..|s| - 1] == NatToString(n / 10);
    }
  }

  lemma DigitPrefixOfDigits(s: string)
    requires forall i :: 0 <= i < |s| ==> IsDigit(s[i])
    ensures DigitPrefix(s) == s
  {
  }

  /** The largest integer a JavaScript number holds exactly, `Number.MAX_SAFE_INTEGER`. */
  const MaxSafeInteger: int := 9007199254740991

  /**
    Reading back the number the field displays gives that number, for the
    integers a JavaScript number holds exactly (well below `1e21`, from
    where the field would display exponent notation).
   */
  lemma WordCountRoundTrip(n: int)
    requires -MaxSafeInteger <= n <= MaxSafeInteger
    ensures WordCountOf(IntToString(n)) == n
  {
    var m: nat := if n < 0 then -n else n;
    var digits := NatToString(m);
    var s := IntToString(n);
    DigitPrefixOfDigits(digits);
    DecimalOfNatToString(m);
    assert !IsSpace(s[0]);
    assert TrimStart(s) == s;
    if n < 0 {
      assert s[0] == '-' && s[1..] == digits;
      assert ParseInt(s) == Some(-(DecimalValue(digits) as int));
    } else {
      assert s == digits && IsDigit(s[0]);
      assert ParseInt(s) == Some(DecimalValue(digits) as int);
    }
  }
}
