/** `_normalize_salary_range` of backend/app/services/recommendation_service.py. */
module SalaryRange {
  import opened Wrappers
  import opened Text
  import opened Json
  import opened NumberText
  import opened Rounding

  datatype Salary = Salary(min: Option<int>, max: Option<int>, median: Option<int>, currency: Json)

  /** `float(s)` for a plain decimal literal with an optional sign. */
  function ParseFloat(s: string): Option<real> {
    var t := Strip(s);
    var m := NumberAt(t, {'-', '+'});
    if m.Some? && NumText(m.value) == t then Some(Value(m.value)) else None
  }

  /** `_coerce_numeric` */
  function CoerceNumeric(v: Json): Option<int> {
    match v
    case JInt(i) => Some(i)
    case JBool(b) => Some(if b then 1 else 0)
    case JFloat(x) => Some(RoundHalfEven(x))
    case JStr(s) => (match ParseFloat(s) case Some(x) => Some(RoundHalfEven(x)) case None => None)
    case _ => None
  }

  /** The dict branch of `_normalize_salary_range`. */
  function SalaryFromDict(fields: map<string, Json>): (r: Option<Salary>)
    ensures r.Some? <==>
      (CoerceNumeric(GetField(fields, "min")).Some? || CoerceNumeric(GetField(fields, "max")).Some?
       || CoerceNumeric(GetField(fields, "median")).Some?)
    ensures r.Some? ==> Truthy(r.value.currency) || r.value.currency == JStr("USD")
  {
    var lo := CoerceNumeric(GetField(fields, "min"));
    var hi := CoerceNumeric(GetField(fields, "max"));
    var med := CoerceNumeric(GetField(fields, "median"));
    if lo.Some? || hi.Some? || med.Some? then
      Some(Salary(lo, hi, med, Or(GetField(fields, "currency"), Or(GetField(fields, "unit"), JStr("USD")))))
    else None
  }

  function Sum(xs: seq<int>): int {
    if xs == [] then 0 else xs[0] + Sum(xs[1..])
  }

  function Min(xs: seq<int>): (m: int)
    requires xs != []
    ensures m in xs && forall i :: 0 <= i < |xs| ==> m <= xs[i]
  {
    if |xs| == 1 then xs[0]
    else
      var r := Min(xs[1..]);
      assert forall i :: 1 <= i < |xs| ==> xs[i] == xs[1..][i - 1];
      if xs[0] <= r then xs[0] else r
  }

  function Max(xs: seq<int>): (m: int)
    requires xs != []
    ensures m in xs && forall i :: 0 <= i < |xs| ==> xs[i] <= m
  {
    if |xs| == 1 then xs[0]
    else
      var r := Max(xs[1..]);
      assert forall i :: 1 <= i < |xs| ==> xs[i] == xs[1..][i - 1];
      if xs[0] >= r then xs[0] else r
  }

  lemma {:induction false} SumBounds(xs: seq<int>, lo: int, hi: int)
    requires forall i :: 0 <= i < |xs| ==> lo <= xs[i] <= hi
    ensures |xs| * lo <= Sum(xs) <= |xs| * hi
    decreases |xs|
  {
    if xs != [] {
      SumBounds(xs[1..], lo, hi);
    }
  }

  /** A mean of values between lo and hi lies between them. */
  lemma MeanBetween(total: int, n: nat, lo: int, hi: int)
    requires n > 0 && n * lo <= total <= n * hi
    ensures lo as real <= total as real / n as real <= hi as real
  {
    var m := total as real / n as real;
    var k := n as real;
    assert m * k == total as real;
    assert (n * lo) as real == k * lo as real;
    assert (n * hi) as real == k * hi as real;
  }

  /** `{"min": min, "max": max, "median": int(round(mean)), "currency": "USD"}` */
  function SalaryFromNumbers(xs: seq<int>): (r: Salary)
    requires xs != []
    ensures r.min.Some? && r.max.Some? && r.median.Some?
    ensures r.min.value <= r.median.value <= r.max.value
    ensures r.min.value in xs && r.max.value in xs
    ensures forall i :: 0 <= i < |xs| ==> r.min.value <= xs[i] <= r.max.value
  {
    var lo, hi := Min(xs), Max(xs);
    var mean := Sum(xs) as real / |xs| as real;
    SumBounds(xs, lo, hi);
    MeanBetween(Sum(xs), |xs|, lo, hi);
    RoundBetween(mean, lo, hi);
    Salary(Some(lo), Some(hi), Some(RoundHalfEven(mean)), JStr("USD"))
  }

  /** The numeric items of a list, each rounded. */
  function NumericItems(items: seq<Json>): seq<int> {
    if items == [] then []
    else
      var rest := NumericItems(items[1..]);
      match items[0]
      case JInt(i) => [i] + rest
      case JBool(b) => [if b then 1 else 0] + rest
      case JFloat(x) => [RoundHalfEven(x)] + rest
      case _ => rest
  }

  /** `re.findall(r"\d+", s)` read as integers. */
  function DigitRuns(s: string): seq<int>
    decreases |s|
  {
    if s == [] then []
    else if IsDigit(s[0]) then
      var w := DigitRun(s);
      [ParseNat(w)] + DigitRuns(s[|w|..])
    else DigitRuns(s[1..])
  }

  /** A range with all three figures, min <= median <= max, in USD. */
  predicate OrderedUsd(s: Salary) {
    && s.min.Some? && s.max.Some? && s.median.Some?
    && s.min.value <= s.median.value <= s.max.value
    && s.currency == JStr("USD")
  }

  /** `not cleaned or cleaned.lower() in {"none", "null", "nan"}` */
  predicate NullText(cleaned: string) {
    var low := Lower(cleaned);
    cleaned == "" || low == "none" || low == "null" || low == "nan"
  }

  /** The range read from the numbers of a list or a text, None without any number. */
  function RangeOf(xs: seq<int>): (r: Option<Salary>)
    ensures r.Some? <==> xs != []
    ensures r.Some? ==> OrderedUsd(r.value)
  {
    if xs != [] then Some(SalaryFromNumbers(xs)) else None
  }

  /**
   * `_normalize_salary_range`.  `loads` is `json.loads` (None when the text
   * is not JSON).
   */
  function NormalizeSalaryRange(raw: Json, loads: string -> Option<Json>): (r: Option<Salary>)
    ensures !Truthy(raw) ==> r.None?
    ensures raw.JObj? ==> r == SalaryFromDict(raw.fields)
    ensures raw.JList? ==> r == RangeOf(NumericItems(raw.items))
    ensures raw.JStr? ==> r == SalaryFromString(raw.s, loads)
    ensures !(raw.JObj? || raw.JList? || raw.JStr?) ==> r.None?
  {
    if !Truthy(raw) then None
    else if raw.JObj? then SalaryFromDict(raw.fields)
    else if raw.JList? then RangeOf(NumericItems(raw.items))
    else if raw.JStr? then SalaryFromString(raw.s, loads)
    else None
  }

  /** A list gives a range exactly when it has numeric items, and that range is ordered and in USD. */
  lemma ListRangeOrdered(items: seq<Json>, loads: string -> Option<Json>)
    ensures NormalizeSalaryRange(JList(items), loads).Some? <==> NumericItems(items) != []
    ensures NormalizeSalaryRange(JList(items), loads).Some? ==> OrderedUsd(NormalizeSalaryRange(JList(items), loads).value)
  {
  }

  /**
   * The string branch: the stripped text is None for a blank or null
   * spelling, the dict of a JSON object, and otherwise the range of its digit
   * runs.
   */
  function SalaryFromString(s: string, loads: string -> Option<Json>): (r: Option<Salary>)
    ensures NullText(Strip(s)) ==> r.None?
    ensures !NullText(Strip(s)) ==> r == SalaryFromText(Strip(s), loads)
    ensures !NullText(Strip(s)) ==>
      var parsed := loads(Strip(s));
      r == if parsed.Some? && parsed.value.JObj? then SalaryFromDict(parsed.value.fields)
           else RangeOf(DigitRuns(Strip(s)))
    ensures r.Some? && !(loads(Strip(s)).Some? && loads(Strip(s)).value.JObj?) ==> OrderedUsd(r.value)
  {
    var cleaned := Strip(s);
    if NullText(cleaned) then None else SalaryFromText(cleaned, loads)
  }

  /**
   * The string branch after the null spellings: a JSON object is read as a
   * dict (an empty one is falsy), anything else by its digit runs.
   */
  function SalaryFromText(cleaned: string, loads: string -> Option<Json>): (r: Option<Salary>)
    ensures loads(cleaned).Some? && loads(cleaned).value.JObj? ==> r == SalaryFromDict(loads(cleaned).value.fields)
    ensures !(loads(cleaned).Some? && loads(cleaned).value.JObj?) ==> r == RangeOf(DigitRuns(cleaned))
    ensures r.Some? && !(loads(cleaned).Some? && loads(cleaned).value.JObj?) ==> OrderedUsd(r.value)
  {
    var parsed := loads(cleaned);
    if parsed.Some? && parsed.value.JObj? then
      if parsed.value.fields == map[] then None else SalaryFromDict(parsed.value.fields)
    else RangeOf(DigitRuns(cleaned))
  }
}
