/**
 * Price parsing of the Niimi listing scraper: the sale-price text of a card
 * ("300万円", "1,200千円", "応相談") becomes a whole number of yen.
 *
 * The source does this in four steps: take the first match of the regular
 * expression `[\d,.]+`, delete its commas, convert the rest with Python's
 * `float`, and multiply by 10000 when the text contains 万 (else by 1000 when
 * it contains 千), truncating with `int`. Here the match is an explicit
 * leftmost-longest search, `float` is an exact decimal (digits and a count of
 * fractional places) and `int` is the floor of a non-negative rational.
 */
module Price {
  import opened Wrappers

  /** The unit marker for ten thousand yen. */
  const Man: char := '万'
  /** The unit marker for a thousand yen. */
  const Sen: char := '千'

  const ManScale: nat := 10000
  const SenScale: nat := 1000

  /** A character matched by `\d`: ASCII or full-width decimal digits. */
  predicate IsDigit(c: char) {
    '0' <= c <= '9' || '０' <= c <= '９'
  }

  function DigitValue(c: char): (d: nat)
    requires IsDigit(c)
    ensures d < 10
  {
    if '0' <= c <= '9' then c as int - '0' as int else c as int - '０' as int
  }

  /** A character of the class `[\d,.]`. */
  predicate IsTokenChar(c: char) {
    IsDigit(c) || c == ',' || c == '.'
  }

  // ---------------------------------------------------------------------------
  // re.search(r'([\d,.]+)', text)
  // ---------------------------------------------------------------------------

  /** The position of a match: `text[start..end]`. */
  datatype Span = Span(start: nat, end: nat)

  /** `text[start..end]` is the leftmost, longest run of token characters. */
  ghost predicate IsFirstRun(text: string, m: Span) {
    m.start < m.end <= |text| &&
    (forall k :: 0 <= k < m.start ==> !IsTokenChar(text[k])) &&
    (forall k :: m.start <= k < m.end ==> IsTokenChar(text[k])) &&
    (m.end == |text| || !IsTokenChar(text[m.end]))
  }

  /** The first position at or after `i` that holds a token character, or `|text|`. */
  function SkipToToken(text: string, i: nat): (j: nat)
    requires i <= |text|
    ensures i <= j <= |text|
    ensures forall k :: i <= k < j ==> !IsTokenChar(text[k])
    ensures j < |text| ==> IsTokenChar(text[j])
    decreases |text| - i
  {
    if i == |text| || IsTokenChar(text[i]) then i else SkipToToken(text, i + 1)
  }

  /** The first position at or after `i` that does not hold a token character, or `|text|`. */
  function SkipTokenRun(text: string, i: nat): (j: nat)
    requires i <= |text|
    ensures i <= j <= |text|
    ensures forall k :: i <= k < j ==> IsTokenChar(text[k])
    ensures j < |text| ==> !IsTokenChar(text[j])
    decreases |text| - i
  {
    if i == |text| || !IsTokenChar(text[i]) then i else SkipTokenRun(text, i + 1)
  }

  /** The greedy search for `[\d,.]+`: no match exactly when no character is in the class. */
  function Search(text: string): (m: Option<Span>)
    ensures m.None? <==> forall k :: 0 <= k < |text| ==> !IsTokenChar(text[k])
    ensures m.Some? ==> IsFirstRun(text, m.value)
  {
    var start := SkipToToken(text, 0);
    if start == |text| then None else Some(Span(start, SkipTokenRun(text, start)))
  }

  // ---------------------------------------------------------------------------
  // float(token.replace(',', ''))
  // ---------------------------------------------------------------------------

  /** `token.replace(',', '')`. */
  function StripCommas(token: string): (u: string)
    ensures ',' !in u
    ensures |u| <= |token|
  {
    if token == [] then []
    else if token[0] == ',' then StripCommas(token[1..])
    else [token[0]] + StripCommas(token[1..])
  }

  /** Every character other than a comma is kept, as often as it occurs. */
  lemma {:induction false} StripCommasKeeps(token: string)
    ensures forall c :: c != ',' ==> multiset(StripCommas(token))[c] == multiset(token)[c]
  {
    if token != [] {
      assert token == [token[0]] + token[1..];
      StripCommasKeeps(token[1..]);
    }
  }

  /** Removing separators from a concatenation removes them from each part, keeping the parts in order. */
  lemma {:induction false} StripCommasAppend(a: string, b: string)
    ensures StripCommas(a + b) == StripCommas(a) + StripCommas(b)
    decreases |a|
  {
    if a == [] {
      assert a + b == b;
    } else {
      assert (a + b)[0] == a[0];
      assert (a + b)[1..] == a[1..] + b;
      StripCommasAppend(a[1..], b);
    }
  }

  /**
   * A single character: a comma disappears, anything else stays. With
   * StripCommasAppend this fixes the result on every string, order included.
   */
  lemma StripCommasOne(c: char)
    ensures StripCommas([c]) == if c == ',' then [] else [c]
  {
    assert [c][1..] == [];
  }

  /** A run of `[\d,.]` loses its commas and keeps only digits and periods. */
  lemma StripCommasOfRun(token: string)
    requires forall k :: 0 <= k < |token| ==> IsTokenChar(token[k])
    ensures forall k :: 0 <= k < |StripCommas(token)| ==>
      IsDigit(StripCommas(token)[k]) || StripCommas(token)[k] == '.'
  {
    var u := StripCommas(token);
    StripCommasKeeps(token);
    forall k | 0 <= k < |u| ensures IsDigit(u[k]) || u[k] == '.' {
      assert u[k] != ',';
      assert multiset(u)[u[k]] > 0;
      assert u[k] in token;
    }
  }

  function Pow10(n: nat): (p: nat)
    ensures p >= 1
  {
    if n == 0 then 1 else 10 * Pow10(n - 1)
  }

  /** The number written by a string of decimal digits (0 for the empty string). */
  function DigitsValue(ds: string): nat
    requires forall k :: 0 <= k < |ds| ==> IsDigit(ds[k])
  {
    if ds == [] then 0 else 10 * DigitsValue(ds[..|ds| - 1]) + DigitValue(ds[|ds| - 1])
  }

  /** An exact decimal number: `digits / 10^places`. */
  datatype Decimal = Decimal(digits: nat, places: nat)

  ghost function Value(d: Decimal): real {
    d.digits as real / Pow10(d.places) as real
  }

  predicate AllDigits(s: string) {
    forall k :: 0 <= k < |s| ==> IsDigit(s[k])
  }

  /** What `float` accepts of a string of digits and periods: at most one period and at least one digit. */
  ghost predicate IsFloatLiteral(u: string) {
    AtMostOnePeriod(u) && exists k :: 0 <= k < |u| && IsDigit(u[k])
  }

  /** No period is followed, anywhere later, by another. */
  ghost predicate AtMostOnePeriod(u: string) {
    forall i, j :: 0 <= i < j < |u| && u[i] == '.' ==> u[j] != '.'
  }

  /** Having at most one period is having a period count of at most one. */
  lemma {:induction false} PeriodsCounted(u: string)
    ensures AtMostOnePeriod(u) <==> multiset(u)['.'] <= 1
  {
    if u != [] {
      var r := u[1..];
      assert u == [u[0]] + r;
      PeriodsCounted(r);
      assert multiset(u)['.'] == (if u[0] == '.' then 1 else 0) + multiset(r)['.'];
      if AtMostOnePeriod(u) {
        assert AtMostOnePeriod(r) by {
          forall i, j | 0 <= i < j < |r| && r[i] == '.' ensures r[j] != '.' {
            assert u[i + 1] == r[i] && u[j + 1] == r[j];
          }
        }
        if u[0] == '.' {
          assert '.' !in r by {
            forall j | 0 <= j < |r| ensures r[j] != '.' { assert u[j + 1] == r[j]; }
          }
        }
      }
      if multiset(u)['.'] <= 1 {
        forall i, j | 0 <= i < j < |u| && u[i] == '.' ensures u[j] != '.' {
          if i == 0 {
            assert multiset(r)['.'] == 0;
            assert u[j] == r[j - 1];
          } else {
            assert u[i] == r[i - 1] && u[j] == r[j - 1];
          }
        }
      }
    }
  }

  /** The index of the first period of `u`, or `|u|`. */
  function DotIndex(u: string): (i: nat)
    ensures i <= |u|
    ensures forall k :: 0 <= k < i ==> u[k] != '.'
    ensures i < |u| ==> u[i] == '.'
  {
    if u == [] || u[0] == '.' then 0 else 1 + DotIndex(u[1..])
  }

  /**
   * Python's `float` applied to a string of digits and periods; `None`
   * stands for the ValueError it raises.
   */
  function ParseFloat(u: string): (r: Option<Decimal>)
    requires forall k :: 0 <= k < |u| ==> IsDigit(u[k]) || u[k] == '.'
    ensures r.Some? <==> IsFloatLiteral(u)
  {
    var i := DotIndex(u);
    var whole := u[..i];
    var frac := if i < |u| then u[i + 1..] else [];
    if DotIndex(frac) < |frac| then
      NoSecondDotNoLiteral(u, i, DotIndex(frac));
      None
    else if whole + frac == [] then
      None
    else
      assert AllDigits(whole + frac);
      FloatLiteralShape(u, i);
      Some(Decimal(DigitsValue(whole + frac), |frac|))
  }

  lemma NoSecondDotNoLiteral(u: string, i: nat, j: nat)
    requires i < |u| && u[i] == '.' && j < |u[i + 1..]| && u[i + 1..][j] == '.'
    ensures !IsFloatLiteral(u)
  {
    assert u[i + 1 + j] == '.';
  }

  lemma FloatLiteralShape(u: string, i: nat)
    requires forall k :: 0 <= k < |u| ==> IsDigit(u[k]) || u[k] == '.'
    requires i == DotIndex(u)
    requires i < |u| ==> DotIndex(u[i + 1..]) == |u[i + 1..]|
    requires u[..i] + (if i < |u| then u[i + 1..] else []) != []
    ensures IsFloatLiteral(u)
  {
    forall a, b | 0 <= a < b < |u| && u[a] == '.' ensures u[b] != '.' {
      assert a == i;
      assert u[i + 1..][b - i - 1] == u[b];
    }
    if i > 0 {
      assert IsDigit(u[0]);
    } else {
      assert u[i + 1..][0] == u[i + 1];
      assert IsDigit(u[i + 1]);
    }
  }

  // ---------------------------------------------------------------------------
  // Unit scaling and truncation
  // ---------------------------------------------------------------------------

  /** The multiplier the unit markers select; 万 is tested first. */
  function UnitScale(text: string): (scale: nat)
    ensures scale == ManScale <==> Man in text
    ensures scale == SenScale <==> Man !in text && Sen in text
    ensures scale == 1 <==> Man !in text && Sen !in text
  {
    if Man in text then ManScale else if Sen in text then SenScale else 1
  }

  /** `int(value * scale)` on an exact decimal: the floor of the product. */
  function Truncate(d: Decimal, scale: nat): (n: nat)
    ensures IsFloorOf(n, Value(d) * scale as real)
  {
    var n := FloorQuotient(d.digits * scale, Pow10(d.places));
    TruncateIsFloor(d, scale, n);
    n
  }

  function FloorQuotient(a: nat, p: nat): nat
    requires p >= 1
  {
    a / p
  }

  /** `n` is the integer part of the non-negative `x`. */
  ghost predicate IsFloorOf(n: nat, x: real) {
    n as real <= x < n as real + 1.0
  }

  lemma TruncateIsFloor(d: Decimal, scale: nat, n: nat)
    requires n == FloorQuotient(d.digits * scale, Pow10(d.places))
    ensures IsFloorOf(n, Value(d) * scale as real)
  {
    FloorDiv(d.digits * scale, Pow10(d.places), n);
    ValueTimesScale(d, scale);
  }

  lemma FloorDiv(a: nat, p: nat, n: nat)
    requires p >= 1 && n == a / p
    ensures IsFloorOf(n, a as real / p as real)
  {
    var pr := p as real;
    assert n * p <= a < (n + 1) * p;
    assert (n as real) * pr <= a as real;
    assert (a as real) < (n as real + 1.0) * pr;
    assert a as real / pr * pr == a as real;
    ScaleBack(n as real, a as real / pr, pr);
    ScaleBack(a as real / pr, n as real + 1.0, pr);
  }

  /** Dividing both sides by a positive `p` keeps the order. */
  lemma ScaleBack(x: real, y: real, p: real)
    requires p > 0.0
    ensures x * p <= y * p ==> x <= y
    ensures x * p < y * p ==> x < y
  {
  }

  lemma ValueTimesScale(d: Decimal, scale: nat)
    ensures Value(d) * scale as real == (d.digits * scale) as real / Pow10(d.places) as real
  {
  }

  // ---------------------------------------------------------------------------
  // The whole price step
  // ---------------------------------------------------------------------------

  /** The token `float` rejected (its ValueError). */
  datatype PriceError = NotANumber(token: string)

  /** A run of `[\d,.]` that `float` reads once its commas are gone: at most one period and some digit. */
  ghost predicate IsNumberToken(token: string) {
    multiset(token)['.'] <= 1 && exists k :: 0 <= k < |token| && IsDigit(token[k])
  }

  /**
   * The number `float` reads from the first token of `text`, or `None` when it
   * raises: it raises exactly when the token has two periods or no digit.
   */
  function TokenNumber(text: string, m: Span): (r: Option<Decimal>)
    requires m.start <= m.end <= |text|
    requires forall k :: m.start <= k < m.end ==> IsTokenChar(text[k])
    ensures r.Some? <==> IsNumberToken(text[m.start..m.end])
  {
    var token := text[m.start..m.end];
    assert forall k :: 0 <= k < |token| ==> IsTokenChar(token[k]);
    StripCommasOfRun(token);
    FloatOfToken(token);
    ParseFloat(StripCommas(token))
  }

  /** Commas change neither the periods nor the digits `float` looks at. */
  lemma FloatOfToken(token: string)
    ensures IsFloatLiteral(StripCommas(token)) <==> IsNumberToken(token)
  {
    var u := StripCommas(token);
    StripCommasKeeps(token);
    PeriodsCounted(u);
    assert multiset(u)['.'] == multiset(token)['.'];
    if k :| 0 <= k < |u| && IsDigit(u[k]) {
      assert u[k] != ',' && multiset(u)[u[k]] > 0;
      assert u[k] in token;
      var k' :| 0 <= k' < |token| && token[k'] == u[k];
      assert IsDigit(token[k']);
    }
    if k :| 0 <= k < |token| && IsDigit(token[k]) {
      assert token[k] != ',' && multiset(token)[token[k]] > 0;
      assert token[k] in u;
      var k' :| 0 <= k' < |u| && u[k'] == token[k];
      assert IsDigit(u[k']);
    }
  }

  /**
   * The price in yen of a sale-price text: 0 when the text holds no digit,
   * comma or period, otherwise what the first such run says (see ParsePriceOfRun).
   */
  function ParsePrice(text: string): (r: Result<nat, PriceError>)
    ensures (forall k :: 0 <= k < |text| ==> !IsTokenChar(text[k])) ==> r == Ok(0)
  {
    match Search(text)
    case None => Ok(0)
    case Some(m) =>
      match TokenNumber(text, m)
      case None => Err(NotANumber(text[m.start..m.end]))
      case Some(d) => Ok(Truncate(d, UnitScale(text)))
  }

  /**
   * When the first run of `[\d,.]` in `text` is `text[m.start..m.end]`, the
   * price is an error exactly when `float` rejects that run, and otherwise
   * the truncated product of its value and the unit.
   */
  lemma ParsePriceOfRun(text: string, m: Span)
    requires IsFirstRun(text, m)
    ensures var r := ParsePrice(text);
      (r.Err? <==> TokenNumber(text, m).None?) &&
      (r.Err? ==> r.error == NotANumber(text[m.start..m.end])) &&
      (r.Ok? ==> IsFloorOf(r.value, Value(TokenNumber(text, m).value) * UnitScale(text) as real))
  {
    assert IsTokenChar(text[m.start]);
    FirstRunUnique(text, Search(text).value);
  }

  /** The leftmost longest run is unique. */
  lemma FirstRunUnique(text: string, m: Span)
    requires IsFirstRun(text, m)
    ensures forall m' :: IsFirstRun(text, m') ==> m' == m
  {
    forall m' | IsFirstRun(text, m') ensures m' == m {
      assert IsTokenChar(text[m'.start]) && IsTokenChar(text[m.start]);
      assert m'.start == m.start;
      assert m'.end < |text| ==> !IsTokenChar(text[m'.end]);
      assert m.end < |text| ==> !IsTokenChar(text[m.end]);
    }
  }

  // ---------------------------------------------------------------------------
  // What the parsed number means
  // ---------------------------------------------------------------------------

  /** Reading digits left to right: the digits of `b` fill the low places. */
  lemma {:induction false} DigitsValueAppend(a: string, b: string)
    requires AllDigits(a) && AllDigits(b)
    ensures AllDigits(a + b)
    ensures DigitsValue(a + b) == DigitsValue(a) * Pow10(|b|) + DigitsValue(b)
    decreases |b|
  {
    if b == [] {
      assert a + b == a;
    } else {
      var b' := b[..|b| - 1];
      var last := DigitValue(b[|b| - 1]);
      assert (a + b)[..|a + b| - 1] == a + b';
      assert (a + b)[|a + b| - 1] == b[|b| - 1];
      DigitsValueAppend(a, b');
      assert DigitsValue(b) == 10 * DigitsValue(b') + last;
      ShiftDigit(DigitsValue(a), DigitsValue(b'), Pow10(|b'|), last);
    }
  }

  lemma ShiftDigit(x: nat, y: nat, p: nat, d: nat)
    ensures 10 * (x * p + y) + d == x * (10 * p) + (10 * y + d)
  {
  }

  /** A string of digits holds no period. */
  lemma {:induction false} DigitsHaveNoDot(w: string)
    requires AllDigits(w)
    ensures DotIndex(w) == |w|
  {
    if w != [] {
      assert AllDigits(w[1..]) by {
        forall k | 0 <= k < |w[1..]| ensures IsDigit(w[1..][k]) { assert w[1..][k] == w[k + 1]; }
      }
      DigitsHaveNoDot(w[1..]);
    }
  }

  /** `float` of a string of digits is that whole number. */
  lemma ParseFloatWhole(w: string)
    requires AllDigits(w) && w != []
    ensures ParseFloat(w) == Some(Decimal(DigitsValue(w), 0))
    ensures Value(ParseFloat(w).value) == DigitsValue(w) as real
  {
    DigitsHaveNoDot(w);
    assert w[..|w|] + [] == w;
  }

  /** `float` of `w.f` is `w + f / 10^|f|`, as long as there is a digit. */
  lemma ParseFloatFraction(w: string, f: string)
    requires AllDigits(w) && AllDigits(f) && w + f != []
    ensures ParseFloat(w + "." + f) == Some(Decimal(DigitsValue(w + f), |f|))
    ensures Value(ParseFloat(w + "." + f).value) ==
      DigitsValue(w) as real + DigitsValue(f) as real / Pow10(|f|) as real
  {
    FractionSplit(w, f);
    FractionValue(w, f);
  }

  lemma FractionValue(w: string, f: string)
    requires AllDigits(w) && AllDigits(f)
    ensures AllDigits(w + f)
    ensures Value(Decimal(DigitsValue(w + f), |f|)) ==
      DigitsValue(w) as real + DigitsValue(f) as real / Pow10(|f|) as real
  {
    DigitsValueAppend(w, f);
    PlaceValue(DigitsValue(w + f), DigitsValue(w), Pow10(|f|), DigitsValue(f));
  }

  lemma PlaceValue(n: nat, x: nat, p: nat, y: nat)
    requires p >= 1 && n == x * p + y
    ensures n as real / p as real == x as real + y as real / p as real
  {
    CastProduct(x, p);
    assert n as real == x as real * p as real + y as real;
    ShiftPlaces(x as real, y as real, p as real);
  }

  lemma CastProduct(x: nat, p: nat)
    ensures (x * p) as real == x as real * p as real
  {
  }

  lemma FractionSplit(w: string, f: string)
    requires AllDigits(w) && AllDigits(f) && w + f != []
    ensures AllDigits(w + f)
    ensures ParseFloat(w + "." + f) == Some(Decimal(DigitsValue(w + f), |f|))
  {
    var u := w + ("." + f);
    assert u == w + "." + f;
    assert DotIndex(u) == |w| by {
      DotIndexAfterDigits(w, "." + f);
      assert ("." + f)[0] == '.';
    }
    assert u[..|w|] == w;
    assert u[|w| + 1..] == f;
    assert DotIndex(f) == |f| by {
      DigitsHaveNoDot(f);
    }
    assert AllDigits(w + f);
  }

  /** Digits in front of a string shift its first period. */
  lemma {:induction false} DotIndexAfterDigits(w: string, rest: string)
    requires AllDigits(w)
    ensures DotIndex(w + rest) == |w| + DotIndex(rest)
  {
    if w != [] {
      assert (w + rest)[1..] == w[1..] + rest;
      assert AllDigits(w[1..]) by {
        forall k | 0 <= k < |w[1..]| ensures IsDigit(w[1..][k]) { assert w[1..][k] == w[k + 1]; }
      }
      DotIndexAfterDigits(w[1..], rest);
    } else {
      assert w + rest == rest;
    }
  }

  lemma ShiftPlaces(x: real, y: real, p: real)
    requires p > 0.0
    ensures (x * p + y) / p == x + y / p
  {
  }

  /** `text[|pre|..|pre| + |token|]` is the first run of `[\d,.]` in `pre + token + post`. */
  lemma FirstRunBetween(pre: string, token: string, post: string)
    requires forall k :: 0 <= k < |pre| ==> !IsTokenChar(pre[k])
    requires token != [] && forall k :: 0 <= k < |token| ==> IsTokenChar(token[k])
    requires post == [] || !IsTokenChar(post[0])
    ensures var text := pre + token + post;
      Search(text) == Some(Span(|pre|, |pre| + |token|)) && text[|pre|..|pre| + |token|] == token
  {
    var text := pre + token + post;
    var m := Span(|pre|, |pre| + |token|);
    assert text[m.start..m.end] == token;
    assert forall k :: 0 <= k < |pre| ==> text[k] == pre[k];
    assert forall k :: 0 <= k < |token| ==> text[|pre| + k] == token[k];
    assert m.end < |text| ==> text[m.end] == post[0];
    assert IsFirstRun(text, m);
    assert IsTokenChar(text[m.start]);
    FirstRunUnique(text, m);
  }

  /** Digits and thousands separators with at least one digit lose only their separators. */
  lemma StripCommasOfAmount(amount: string)
    requires forall k :: 0 <= k < |amount| ==> IsDigit(amount[k]) || amount[k] == ','
    requires exists k :: 0 <= k < |amount| && IsDigit(amount[k])
    ensures AllDigits(StripCommas(amount)) && StripCommas(amount) != []
  {
    var u := StripCommas(amount);
    StripCommasKeeps(amount);
    forall k | 0 <= k < |u| ensures IsDigit(u[k]) {
      assert u[k] != ',';
      assert multiset(u)[u[k]] > 0;
      assert u[k] in amount;
    }
    var k :| 0 <= k < |amount| && IsDigit(amount[k]);
    assert multiset(u)[amount[k]] > 0;
  }

  /**
   * A price written as an amount of digits and thousands separators (no
   * period) between text that holds none: the amount read without its
   * commas, times the unit the whole text names.
   */
  lemma PriceOfAmount(pre: string, amount: string, post: string)
    requires forall k :: 0 <= k < |pre| ==> !IsTokenChar(pre[k])
    requires forall k :: 0 <= k < |amount| ==> IsDigit(amount[k]) || amount[k] == ','
    requires exists k :: 0 <= k < |amount| && IsDigit(amount[k])
    requires post == [] || !IsTokenChar(post[0])
    ensures AllDigits(StripCommas(amount))
    ensures ParsePrice(pre + amount + post) ==
      Ok(DigitsValue(StripCommas(amount)) * UnitScale(pre + amount + post))
  {
    FirstRunBetween(pre, amount, post);
    StripCommasOfAmount(amount);
    ParseFloatWhole(StripCommas(amount));
  }

  /** Appending one digit shifts the number up one place. */
  lemma DigitsValueSnoc(s: string, c: char)
    requires AllDigits(s) && IsDigit(c)
    ensures AllDigits(s + [c])
    ensures DigitsValue(s + [c]) == 10 * DigitsValue(s) + DigitValue(c)
  {
    assert (s + [c])[..|s|] == s;
  }

  /** A string without separators is left as it is. */
  lemma {:induction false} StripCommasNoComma(s: string)
    requires ',' !in s
    ensures StripCommas(s) == s
  {
    if s != [] {
      assert s == [s[0]] + s[1..];
      StripCommasAppend([s[0]], s[1..]);
      StripCommasOne(s[0]);
      StripCommasNoComma(s[1..]);
    }
  }

  /** Whole digits followed by 万円 are that many ten thousands of yen. */
  lemma PriceInMan(amount: string)
    requires amount != [] && AllDigits(amount)
    ensures ParsePrice(amount + "万円") == Ok(DigitsValue(amount) * ManScale)
  {
    var text := amount + "万円";
    assert "" + amount + "万円" == text;
    assert IsDigit(amount[0]);
    assert ',' !in amount by {
      forall k | 0 <= k < |amount| ensures amount[k] != ',' { assert IsDigit(amount[k]); }
    }
    StripCommasNoComma(amount);
    PriceOfAmount("", amount, "万円");
    assert text[|amount|] == Man;
  }

  /** "300万円" is three million yen. */
  lemma ManExample()
    ensures ParsePrice("300万円") == Ok(3000000)
  {
    ThreeDigits('3', '0', '0');
    PriceInMan("300");
    assert "300" + "万円" == "300万円";
  }

  /** Three digits read as hundreds, tens and units. */
  lemma ThreeDigits(a: char, b: char, c: char)
    requires IsDigit(a) && IsDigit(b) && IsDigit(c)
    ensures AllDigits([a, b, c])
    ensures DigitsValue([a, b, c]) == 100 * DigitValue(a) + 10 * DigitValue(b) + DigitValue(c)
  {
    DigitsValueSnoc([], a);
    assert [] + [a] == [a];
    DigitsValueSnoc([a], b);
    assert [a] + [b] == [a, b];
    DigitsValueSnoc([a, b], c);
    assert [a, b] + [c] == [a, b, c];
  }

  /** "1,200千円" is one million two hundred thousand yen: the comma is a separator. */
  lemma SenExample()
    ensures ParsePrice("1,200千円") == Ok(1200000)
  {
    var amount := "1,200";
    assert "" + amount + "千円" == "1,200千円";
    assert forall k :: 0 <= k < |amount| ==> IsDigit(amount[k]) || amount[k] == ',';
    Amount1200();
    SenUnit();
    PriceOfAmount("", amount, "千円");
  }

  lemma SenUnit()
    ensures UnitScale("1,200千円") == SenScale
  {
    assert Man !in "1,200千円";
    assert "1,200千円"[5] == Sen;
  }

  lemma Amount1200()
    ensures IsDigit("1,200"[0]) && StripCommas("1,200") == "1200" && DigitsValue("1200") == 1200
  {
    StripCommas1200();
    Digits1200();
  }

  lemma StripCommas1200()
    ensures StripCommas("1,200") == "1200"
  {
    assert "1,200" == (['1'] + [',']) + "200";
    StripCommasAppend(['1'] + [','], "200");
    StripCommasAppend(['1'], [',']);
    StripCommasOne('1');
    StripCommasOne(',');
    StripCommasNoComma("200");
    assert ['1'] + "200" == "1200";
  }

  lemma Digits1200()
    ensures DigitsValue("1200") == 1200
  {
    DigitsValueSnoc("", '1');
    assert [] + ['1'] == "1";
    DigitsValueSnoc("1", '2');
    assert "1" + ['2'] == "12";
    DigitsValueSnoc("12", '0');
    assert "12" + ['0'] == "120";
    DigitsValueSnoc("120", '0');
    assert "120" + ['0'] == "1200";
  }

  /** A text with no digit, comma or period ("応相談", price on request) is 0 yen. */
  lemma NoAmountExample()
    ensures ParsePrice("応相談") == Ok(0)
  {
    var text := "応相談";
    assert forall k :: 0 <= k < |text| ==> !IsTokenChar(text[k]);
  }

  /** `float` rejects "1.2.3", so the text fails instead of giving a price. */
  lemma TwoPeriodsExample()
    ensures ParsePrice("1.2.3万円").Err?
  {
    var text := "1.2.3万円";
    assert "" + "1.2.3" + "万円" == text;
    FirstRunBetween("", "1.2.3", "万円");
    TwoPeriods();
  }

  lemma TwoPeriods()
    ensures StripCommas("1.2.3") == "1.2.3" && !IsFloatLiteral("1.2.3")
  {
    StripCommasNoComma("1.2.3");
    assert "1.2.3"[1] == '.' && "1.2.3"[3] == '.';
  }

  /** A lone comma is a run of `[\d,.]` that `float` rejects once the comma is gone. */
  lemma LoneCommaExample()
    ensures ParsePrice("価格,未定").Err?
  {
    FirstRunBetween("価格", ",", "未定");
    assert "価格" + "," + "未定" == "価格,未定";
    StripCommasOne(',');
    assert [','] == ",";
  }

  /** "2.5万円" is twenty-five thousand yen: the period is a decimal point. */
  lemma DecimalExample()
    ensures ParsePrice("2.5万円") == Ok(25000)
  {
    assert "2.5万円" == "" + "2.5" + "万円";
    FirstRunBetween("", "2.5", "万円");
    assert "2.5万円"[0..3] == "2.5";
    TwoPointFive();
    assert UnitScale("2.5万円") == ManScale by { assert "2.5万円"[3] == Man; }
    assert Pow10(1) == 10;
    assert Truncate(Decimal(25, 1), ManScale) == 25000;
  }

  lemma TwoPointFive()
    ensures StripCommas("2.5") == "2.5" && ParseFloat("2.5") == Some(Decimal(25, 1))
  {
    StripCommasNoComma("2.5");
    assert "2" + "." + "5" == "2.5";
    FractionSplit("2", "5");
    Digits25();
  }

  lemma Digits25()
    ensures DigitsValue("2" + "5") == 25
  {
    DigitsValueSnoc("", '2');
    assert [] + ['2'] == "2";
    DigitsValueSnoc("2", '5');
    assert "2" + ['5'] == "2" + "5";
  }

  /** Full-width digits are digits to `\d` and to `float`: "３００万円" is three million yen. */
  lemma FullWidthExample()
    ensures ParsePrice("３００万円") == Ok(3000000)
  {
    ThreeDigits('３', '０', '０');
    PriceInMan("３００");
    assert "３００" + "万円" == "３００万円";
  }
}
