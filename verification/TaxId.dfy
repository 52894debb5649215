/** CPF and CNPJ check digits: what they accept, which single-digit errors they catch, and how many completions a
    prefix has. */
module TaxId {

  datatype TaxType = CPF | CNPJ

  // ----- the validators

  predicate IsDigit(c: char) {
    '0' <= c <= '9'
  }

  /** The digits of a text, everything else removed. */
  function DigitsOf(text: string): (digits: seq<int>)
    ensures AllDigits(digits)
  {
    if text == "" then []
    else if IsDigit(text[0]) then [text[0] as int - '0' as int] + DigitsOf(text[1..])
    else DigitsOf(text[1..])
  }

  predicate AllDigits(d: seq<int>) {
    forall k :: 0 <= k < |d| ==> 0 <= d[k] <= 9
  }

  predicate Uniform(d: seq<int>) {
    forall k :: 0 <= k < |d| ==> d[k] == d[0]
  }

  function Weighted(d: seq<int>, w: seq<int>): int
    requires |d| == |w|
  {
    if d == [] then 0 else d[0] * w[0] + Weighted(d[1..], w[1..])
  }

  function Descending(factor: int, n: nat): seq<int> {
    seq(n, k => factor - k)
  }

  const CPF_FIRST: seq<int> := [10, 9, 8, 7, 6, 5, 4, 3, 2]
  const CPF_SECOND: seq<int> := [11, 10, 9, 8, 7, 6, 5, 4, 3, 2]
  const CNPJ_FIRST: seq<int> := [5, 4, 3, 2, 9, 8, 7, 6, 5, 4, 3, 2]
  const CNPJ_SECOND: seq<int> := [6, 5, 4, 3, 2, 9, 8, 7, 6, 5, 4, 3, 2]

  function CpfCheck(sum: int): int {
    var rem := (sum * 10) % 11;
    if rem >= 10 then 0 else rem
  }

  function CnpjCheck(sum: int): int {
    var rem := sum % 11;
    if rem < 2 then 0 else 11 - rem
  }

  /** Two rows of weights, one digit checked by each. */
  predicate Accepts(d: seq<int>, first: seq<int>, second: seq<int>)
    requires |second| == |first| + 1
  {
    var n := |first|;
    && |d| == n + 2
    && !Uniform(d)
    && CnpjCheck(Weighted(d[..n], first)) == d[n]
    && CnpjCheck(Weighted(d[..n + 1], second)) == d[n + 1]
  }

  predicate AcceptsCpf(d: seq<int>) {
    Accepts(d, CPF_FIRST, CPF_SECOND)
  }

  predicate AcceptsCnpj(d: seq<int>) {
    Accepts(d, CNPJ_FIRST, CNPJ_SECOND)
  }

  /** The two formulas give the same check digit. */
  lemma SameFormula(sum: int)
    ensures CpfCheck(sum) == CnpjCheck(sum)
  {
    var q, r := sum / 11, sum % 11;
    assert sum == 11 * q + r;
    assert sum * 10 == 11 * (10 * q + r) - r;
    if r == 0 {
      assert (sum * 10) % 11 == 0;
    } else {
      assert sum * 10 == 11 * (10 * q + r - 1) + (11 - r);
      assert (sum * 10) % 11 == 11 - r;
    }
  }

  lemma {:induction false} WeightedAppend(d: seq<int>, w: seq<int>, x: int, y: int)
    requires |d| == |w|
    ensures Weighted(d + [x], w + [y]) == Weighted(d, w) + x * y
  {
    if d == [] {
      assert d + [x] == [x] && w + [y] == [y];
      assert Weighted([x], [y]) == x * y + Weighted([], []);
    } else {
      assert (d + [x])[1..] == d[1..] + [x] && (w + [y])[1..] == w[1..] + [y];
      WeightedAppend(d[1..], w[1..], x, y);
    }
  }

  method CalcCpfDigit(slice: seq<int>, factor: int) returns (digit: int)
    ensures digit == CnpjCheck(Weighted(slice, Descending(factor, |slice|)))
  {
    var sum := 0;
    ghost var w := Descending(factor, |slice|);
    var i := 0;
    while i < |slice|
      invariant 0 <= i <= |slice|
      invariant sum == Weighted(slice[..i], w[..i])
    {
      WeightedAppend(slice[..i], w[..i], slice[i], w[i]);
      assert slice[..i + 1] == slice[..i] + [slice[i]] && w[..i + 1] == w[..i] + [w[i]];
      sum := sum + slice[i] * (factor - i);
      i := i + 1;
    }
    assert slice[..i] == slice && w[..i] == w;
    SameFormula(sum);
    var rem := (sum * 10) % 11;
    digit := if rem >= 10 then 0 else rem;
  }

  method CalcCnpjDigit(slice: seq<int>, weights: seq<int>) returns (digit: int)
    requires |slice| == |weights|
    ensures digit == CnpjCheck(Weighted(slice, weights))
  {
    var sum := 0;
    var i := 0;
    while i < |weights|
      invariant 0 <= i <= |weights|
      invariant sum == Weighted(slice[..i], weights[..i])
    {
      WeightedAppend(slice[..i], weights[..i], slice[i], weights[i]);
      assert slice[..i + 1] == slice[..i] + [slice[i]] && weights[..i + 1] == weights[..i] + [weights[i]];
      sum := sum + slice[i] * weights[i];
      i := i + 1;
    }
    assert slice[..i] == slice && weights[..i] == weights;
    var rem := sum % 11;
    digit := if rem < 2 then 0 else 11 - rem;
  }

  method ValidateCpf(cpf: string) returns (ok: bool)
    ensures ok == AcceptsCpf(DigitsOf(cpf))
  {
    var digits := DigitsOf(cpf);
    if |digits| != 11 || Uniform(digits) {
      return false;
    }
    var first := CalcCpfDigit(digits[..9], 10);
    var second := CalcCpfDigit(digits[..10], 11);
    assert Descending(10, 9) == CPF_FIRST && Descending(11, 10) == CPF_SECOND;
    ok := first == digits[9] && second == digits[10];
  }

  method ValidateCnpj(cnpj: string) returns (ok: bool)
    ensures ok == AcceptsCnpj(DigitsOf(cnpj))
  {
    var digits := DigitsOf(cnpj);
    if |digits| != 14 || Uniform(digits) {
      return false;
    }
    var first := CalcCnpjDigit(digits[..12], CNPJ_FIRST);
    var second := CalcCnpjDigit(digits[..13], CNPJ_SECOND);
    ok := first == digits[12] && second == digits[13];
  }

  predicate AcceptsTaxId(text: string, kind: TaxType) {
    match kind
    case CPF => AcceptsCpf(DigitsOf(text))
    case CNPJ => AcceptsCnpj(DigitsOf(text))
  }

  method ValidateTaxId(value: string, kind: TaxType) returns (ok: bool)
    ensures ok == AcceptsTaxId(value, kind)
  {
    match kind
    case CPF => ok := ValidateCpf(value);
    case CNPJ => ok := ValidateCnpj(value);
  }

  // ----- punctuation

  lemma {:induction false} DigitsConcat(a: string, b: string)
    ensures DigitsOf(a + b) == DigitsOf(a) + DigitsOf(b)
  {
    if a == "" {
      assert a + b == b;
    } else {
      assert (a + b)[1..] == a[1..] + b;
      DigitsConcat(a[1..], b);
    }
  }

  /** Reading back written digits gives them again. */
  function Written(digits: seq<int>): string
    requires AllDigits(digits)
  {
    seq(|digits|, k requires 0 <= k < |digits| => "0123456789"[digits[k]])
  }

  lemma {:induction false} WrittenDigits(digits: seq<int>)
    requires AllDigits(digits)
    ensures DigitsOf(Written(digits)) == digits
  {
    if digits == [] {
    } else {
      WrittenDigits(digits[1..]);
      assert Written(digits)[1..] == Written(digits[1..]);
      assert digits == [digits[0]] + digits[1..];
    }
  }

  lemma {:induction false} NoDigits(x: string)
    requires forall k :: 0 <= k < |x| ==> !IsDigit(x[k])
    ensures DigitsOf(x) == []
  {
    if x != "" {
      NoDigits(x[1..]);
    }
  }

  /** Inserting characters that are not digits, anywhere, never changes the answer. */
  lemma PunctuationIsIgnored(before: string, x: string, after: string, kind: TaxType)
    requires forall k :: 0 <= k < |x| ==> !IsDigit(x[k])
    ensures AcceptsTaxId(before + x + after, kind) == AcceptsTaxId(before + after, kind)
  {
    DigitsConcat(before + x, after);
    DigitsConcat(before, x);
    DigitsConcat(before, after);
    NoDigits(x);
    assert DigitsOf(before) + [] == DigitsOf(before);
  }

  // ----- one wrong digit

  /** The only two different remainders with one check digit are 0 and 1. */
  predicate Flips(sum: int, other: int) {
    (sum % 11 == 0 && other % 11 == 1) || (sum % 11 == 1 && other % 11 == 0)
  }

  lemma SameCheck(a: int, b: int)
    ensures CnpjCheck(a) == CnpjCheck(b) <==> a % 11 == b % 11 || Flips(a, b)
  {
  }

  lemma {:induction false} WeightedUpdate(d: seq<int>, w: seq<int>, p: nat, v: int)
    requires |d| == |w| && p < |d|
    ensures Weighted(d[p := v], w) == Weighted(d, w) + (v - d[p]) * w[p]
  {
    if p == 0 {
      assert d[p := v][1..] == d[1..];
      assert v * w[0] == d[0] * w[0] + (v - d[0]) * w[0];
    } else {
      assert d[p := v][1..] == d[1..][p - 1 := v];
      WeightedUpdate(d[1..], w[1..], p - 1, v);
    }
  }

  /** A factor with an inverse modulo eleven can be cancelled. */
  lemma Cancelled(size: int, inverse: int, m: int, weight: int, q: int)
    requires size * inverse == 11 * m + 1 && size * weight == 11 * q
    ensures weight % 11 == 0
  {
    calc {
      weight;
      (size * inverse - 11 * m) * weight;
      inverse * (size * weight) - 11 * (m * weight);
      11 * (inverse * q) - 11 * (m * weight);
      11 * (inverse * q - m * weight);
    }
  }

  /** Eleven is prime: a nonzero digit difference times a weight is a multiple of eleven only if the weight is. */
  lemma Prime(delta: int, weight: int)
    requires -9 <= delta <= 9 && delta != 0 && (delta * weight) % 11 == 0
    ensures weight % 11 == 0
  {
    var size := if delta < 0 then -delta else delta;
    var q := if delta < 0 then -(delta * weight / 11) else delta * weight / 11;
    assert size * weight == 11 * q;
    match size
    case 1 => Cancelled(1, 1, 0, weight, q);
    case 2 => Cancelled(2, 6, 1, weight, q);
    case 3 => Cancelled(3, 4, 1, weight, q);
    case 4 => Cancelled(4, 3, 1, weight, q);
    case 5 => Cancelled(5, 9, 4, weight, q);
    case 6 => Cancelled(6, 2, 1, weight, q);
    case 7 => Cancelled(7, 8, 5, weight, q);
    case 8 => Cancelled(8, 7, 5, weight, q);
    case 9 => Cancelled(9, 5, 4, weight, q);
  }

  lemma DifferenceShows(sum: int, delta: int, weight: int)
    requires -9 <= delta <= 9 && delta != 0 && weight % 11 != 0
    ensures (sum + delta * weight) % 11 != sum % 11
  {
    if (sum + delta * weight) % 11 == sum % 11 {
      MultipleOfDifference(sum, sum + delta * weight);
      Prime(delta, weight);
    }
  }

  lemma MultipleOfDifference(a: int, b: int)
    requires a % 11 == b % 11
    ensures (b - a) % 11 == 0
  {
  }

  lemma FlipByOne(sum: int, k: int)
    requires Flips(sum, sum + k)
    ensures k % 11 == 1 || k % 11 == 10
  {
  }

  lemma OnesCancel(k1: int, k2: int)
    requires k1 % 11 == 1 || k1 % 11 == 10
    requires k2 % 11 == 1 || k2 % 11 == 10
    ensures (k1 + k2) % 11 == 0 || (k1 - k2) % 11 == 0
  {
    var a, b := k1 / 11, k2 / 11;
    if k1 % 11 == k2 % 11 {
      assert k1 - k2 == 11 * (a - b);
    } else {
      assert k1 + k2 == 11 * (a + b + 1);
    }
  }

  /** Both remainders flip only where the two weights of the digit are equal or add up to a multiple of eleven. */
  lemma BothFlip(s1: int, s2: int, delta: int, w1: int, w2: int)
    requires -9 <= delta <= 9 && delta != 0
    requires Flips(s1, s1 + delta * w1) && Flips(s2, s2 + delta * w2)
    ensures (w1 + w2) % 11 == 0 || (w1 - w2) % 11 == 0
  {
    var k1, k2 := delta * w1, delta * w2;
    FlipByOne(s1, k1);
    FlipByOne(s2, k2);
    OnesCancel(k1, k2);
    assert delta * (w1 + w2) == k1 + k2 && delta * (w1 - w2) == k1 - k2;
    if (k1 + k2) % 11 == 0 {
      Prime(delta, w1 + w2);
    } else {
      Prime(delta, w1 - w2);
    }
  }

  /** Changing digit `p` leaves a check digit as it is exactly when it leaves the remainder or flips it. */
  lemma ChangedSum(d: seq<int>, w: seq<int>, p: nat, v: int)
    requires |d| == |w| && p < |d|
    ensures var delta := v - d[p];
      CnpjCheck(Weighted(d[p := v], w)) == CnpjCheck(Weighted(d, w)) <==>
        (Weighted(d, w) + delta * w[p]) % 11 == Weighted(d, w) % 11
          || Flips(Weighted(d, w), Weighted(d, w) + delta * w[p])
  {
    WeightedUpdate(d, w, p, v);
    SameCheck(Weighted(d[p := v], w), Weighted(d, w));
  }

  /** The change of digit `p` to `v` flips the remainder of the sum. */
  predicate FlipsSum(d: seq<int>, w: seq<int>, p: nat, v: int)
    requires |d| == |w| && p < |d|
  {
    Flips(Weighted(d, w), Weighted(d, w) + (v - d[p]) * w[p])
  }

  /** What a changed digit before the check digits does to both checks, for any pair of weight tables. */
  lemma ChangedDigit(d: seq<int>, first: seq<int>, second: seq<int>, p: nat, v: int)
    requires |second| == |first| + 1 && Accepts(d, first, second) && AllDigits(d)
    requires p < |first| && 0 <= v <= 9 && v != d[p] && first[p] % 11 != 0
    ensures var n := |first|;
      Accepts(d[p := v], first, second) <==>
        && !Uniform(d[p := v])
        && FlipsSum(d[..n], first, p, v)
        && (second[p] % 11 == 0 || FlipsSum(d[..n + 1], second, p, v))
  {
    var n, e := |first|, d[p := v];
    assert e[..n] == d[..n][p := v] && e[..n + 1] == d[..n + 1][p := v];
    ChangedSum(d[..n], first, p, v);
    ChangedSum(d[..n + 1], second, p, v);
    DifferenceShows(Weighted(d[..n], first), v - d[p], first[p]);
    if second[p] % 11 != 0 {
      DifferenceShows(Weighted(d[..n + 1], second), v - d[p], second[p]);
    } else {
      MultipleAdds(Weighted(d[..n + 1], second), v - d[p], second[p]);
    }
  }

  lemma MultipleAdds(sum: int, delta: int, weight: int)
    requires weight % 11 == 0
    ensures (sum + delta * weight) % 11 == sum % 11
  {
    var q := weight / 11;
    assert delta * weight == 11 * (delta * q);
  }

  /** A changed check digit is always caught. */
  lemma ChangedCheckDigit(d: seq<int>, first: seq<int>, second: seq<int>, p: nat, v: int)
    requires |second| == |first| + 1 && Accepts(d, first, second)
    requires |first| <= p < |d| && v != d[p]
    ensures !Accepts(d[p := v], first, second)
  {
  }

  lemma {:induction false} WeightedZeros(d: seq<int>, w: seq<int>)
    requires |d| == |w| && forall k :: 0 <= k < |d| ==> d[k] == 0
    ensures Weighted(d, w) == 0
  {
    if d == [] {
    } else {
      WeightedZeros(d[1..], w[1..]);
    }
  }

  /** When zeroing one digit leaves only zeros, that digit was the whole sum. */
  lemma OnlyDigit(d: seq<int>, w: seq<int>, p: nat)
    requires |d| == |w| && p < |d| && forall k :: 0 <= k < |d| && k != p ==> d[k] == 0
    ensures Weighted(d, w) == d[p] * w[p]
  {
    WeightedUpdate(d, w, p, 0);
    WeightedZeros(d[p := 0], w);
  }

  lemma UniformLeavesZeros(d: seq<int>, n: nat, p: nat, v: int)
    requires p < n < |d| && d[n] == 0 && Uniform(d[p := v])
    ensures v == 0 && forall k :: 0 <= k < |d| && k != p ==> d[k] == 0
  {
    var e := d[p := v];
    assert e[n] == e[0] == 0;
    assert forall k :: 0 <= k < |d| && k != p ==> d[k] == e[k];
    assert e[p] == v;
  }

  /** A sum that flips to zero leaves remainder one. */
  lemma FlipsToNothing(d: seq<int>, w: seq<int>, p: nat)
    requires |d| == |w| && p < |d| && Weighted(d, w) == d[p] * w[p] && FlipsSum(d, w, p, 0)
    ensures (d[p] * w[p]) % 11 == 1
  {
  }

  /** A change that flips the remainders cannot end in a number of equal digits: that digit would be zero, and the digit
      that changed would alone have made both sums. */
  lemma NeverUniform(d: seq<int>, first: seq<int>, second: seq<int>, p: nat, v: int)
    requires |second| == |first| + 1 && Accepts(d, first, second)
    requires p < |first| && FlipsSum(d[..|first|], first, p, v)
    requires second[p] % 11 == 0 || FlipsSum(d[..|first| + 1], second, p, v)
    requires (d[p] * first[p]) % 11 == 1 ==> second[p] % 11 != 0 && (d[p] * second[p]) % 11 != 1
    ensures !Uniform(d[p := v])
  {
    if Uniform(d[p := v]) {
      var n, e := |first|, d[..|first| + 1];
      UniformLeavesZeros(d, n, p, v);
      assert d[..n][p] == d[p] && e[p] == d[p];
      OnlyDigit(d[..n], first, p);
      FlipsToNothing(d[..n], first, p);
      OnlyDigit(e, second, p);
      FlipsToNothing(e, second, p);
    }
  }

  // positions are counted from zero here: digit 1 is position 0

  predicate CpfBlind(d: seq<int>, p: nat, v: int)
    requires |d| == 11 && p < 11
  {
    || (p == 0 && FlipsSum(d[..9], CPF_FIRST, 0, v))
    || (p == 5 && FlipsSum(d[..9], CPF_FIRST, 5, v) && FlipsSum(d[..10], CPF_SECOND, 5, v))
  }

  lemma CpfSafeDigit(d: seq<int>, p: nat, v: int)
    requires AllDigits(d) && AcceptsCpf(d) && p < 9 && p != 0 && p != 5 && 0 <= v <= 9 && v != d[p]
    ensures !AcceptsCpf(d[p := v])
  {
    ChangedDigit(d, CPF_FIRST, CPF_SECOND, p, v);
    if FlipsSum(d[..9], CPF_FIRST, p, v) && FlipsSum(d[..10], CPF_SECOND, p, v) {
      BothFlip(Weighted(d[..9], CPF_FIRST), Weighted(d[..10], CPF_SECOND), v - d[p], CPF_FIRST[p], CPF_SECOND[p]);
    }
  }

  lemma CpfWeakDigit(d: seq<int>, p: nat, v: int)
    requires AllDigits(d) && AcceptsCpf(d) && (p == 0 || p == 5) && 0 <= v <= 9 && v != d[p]
    ensures AcceptsCpf(d[p := v]) <==> CpfBlind(d, p, v)
  {
    ChangedDigit(d, CPF_FIRST, CPF_SECOND, p, v);
    if CpfBlind(d, p, v) {
      NeverUniform(d, CPF_FIRST, CPF_SECOND, p, v);
    }
  }

  /** One wrong digit in a CPF goes unnoticed exactly when it is digit 1, flipping the first remainder between 0 and 1,
      or digit 6, flipping both. */
  lemma CpfCatchesOneDigit(d: seq<int>, p: nat, v: int)
    requires AllDigits(d) && AcceptsCpf(d) && p < 11 && 0 <= v <= 9 && v != d[p]
    ensures AcceptsCpf(d[p := v]) <==> CpfBlind(d, p, v)
  {
    if p >= 9 {
      ChangedCheckDigit(d, CPF_FIRST, CPF_SECOND, p, v);
    } else if p == 0 || p == 5 {
      CpfWeakDigit(d, p, v);
    } else {
      CpfSafeDigit(d, p, v);
    }
  }

  predicate CnpjBlind(d: seq<int>, p: nat, v: int)
    requires |d| == 14 && p < 14
  {
    (p == 0 || p == 4 || p == 8) && FlipsSum(d[..12], CNPJ_FIRST, p, v) && FlipsSum(d[..13], CNPJ_SECOND, p, v)
  }

  lemma CnpjSafeDigit(d: seq<int>, p: nat, v: int)
    requires AllDigits(d) && AcceptsCnpj(d) && p < 12 && p != 0 && p != 4 && p != 8 && 0 <= v <= 9 && v != d[p]
    ensures !AcceptsCnpj(d[p := v])
  {
    ChangedDigit(d, CNPJ_FIRST, CNPJ_SECOND, p, v);
    if FlipsSum(d[..12], CNPJ_FIRST, p, v) && FlipsSum(d[..13], CNPJ_SECOND, p, v) {
      BothFlip(Weighted(d[..12], CNPJ_FIRST), Weighted(d[..13], CNPJ_SECOND), v - d[p], CNPJ_FIRST[p], CNPJ_SECOND[p]);
    }
  }

  lemma CnpjWeakDigit(d: seq<int>, p: nat, v: int)
    requires AllDigits(d) && AcceptsCnpj(d) && (p == 0 || p == 4 || p == 8) && 0 <= v <= 9 && v != d[p]
    ensures AcceptsCnpj(d[p := v]) <==> CnpjBlind(d, p, v)
  {
    ChangedDigit(d, CNPJ_FIRST, CNPJ_SECOND, p, v);
    if CnpjBlind(d, p, v) {
      NeverUniform(d, CNPJ_FIRST, CNPJ_SECOND, p, v);
    }
  }

  /** One wrong digit in a CNPJ goes unnoticed exactly when it is digit 1, 5 or 9 and flips both remainders between 0
      and 1. */
  lemma CnpjCatchesOneDigit(d: seq<int>, p: nat, v: int)
    requires AllDigits(d) && AcceptsCnpj(d) && p < 14 && 0 <= v <= 9 && v != d[p]
    ensures AcceptsCnpj(d[p := v]) <==> CnpjBlind(d, p, v)
  {
    if p >= 12 {
      ChangedCheckDigit(d, CNPJ_FIRST, CNPJ_SECOND, p, v);
    } else if p == 0 || p == 4 || p == 8 {
      CnpjWeakDigit(d, p, v);
    } else {
      CnpjSafeDigit(d, p, v);
    }
  }

  // ----- completions of a prefix

  /** The two check digits of a prefix. */
  function Completion(prefix: seq<int>, first: seq<int>, second: seq<int>): seq<int>
    requires |prefix| == |first| && |second| == |first| + 1
  {
    var a := CnpjCheck(Weighted(prefix, first));
    [a, CnpjCheck(Weighted(prefix + [a], second))]
  }

  /** Two digits complete a prefix exactly when they are its check digits and the whole number is not uniform. */
  lemma CompletionIsForced(prefix: seq<int>, first: seq<int>, second: seq<int>, a: int, b: int)
    requires |prefix| == |first| && |second| == |first| + 1
    ensures Accepts(prefix + [a, b], first, second) <==>
      [a, b] == Completion(prefix, first, second) && !Uniform(prefix + [a, b])
  {
    var n, d := |first|, prefix + [a, b];
    assert d[..n] == prefix && d[..n + 1] == prefix + [a];
    assert [a, b][0] == a && [a, b][1] == b;
  }

  function Sum(w: seq<int>): int {
    if w == [] then 0 else w[0] + Sum(w[1..])
  }

  lemma {:induction false} UniformWeighted(d: seq<int>, w: seq<int>, c: int)
    requires |d| == |w| && forall k :: 0 <= k < |d| ==> d[k] == c
    ensures Weighted(d, w) == c * Sum(w)
  {
    if d == [] {
    } else {
      UniformWeighted(d[1..], w[1..], c);
      assert c * Sum(w) == c * w[0] + c * Sum(w[1..]);
    }
  }

  lemma SumStep(w: seq<int>, k: nat)
    requires k < |w|
    ensures Sum(w[k..]) == w[k] + Sum(w[k + 1..])
  {
  }

  lemma {:induction false} SumTo(w: seq<int>, k: nat, total: int)
    requires k <= |w| && Sum(w[k..]) == total
    ensures Sum(w) == SumOfFirst(w, k) + total
    decreases k
  {
    if k == 0 {
      assert w[0..] == w;
    } else {
      SumStep(w, k - 1);
      SumTo(w, k - 1, total + w[k - 1]);
    }
  }

  function SumOfFirst(w: seq<int>, k: nat): int
    requires k <= |w|
  {
    if k == 0 then 0 else SumOfFirst(w, k - 1) + w[k - 1]
  }

  lemma SumOfTail(w: seq<int>)
    requires |w| >= 8 && w[|w| - 8..] == [9, 8, 7, 6, 5, 4, 3, 2]
    ensures Sum(w[|w| - 8..]) == 44
  {
    assert Sum([5, 4, 3, 2]) == 14;
    assert [9, 8, 7, 6, 5, 4, 3, 2][4..] == [5, 4, 3, 2];
  }

  lemma SumOfWeights()
    ensures Sum(CPF_FIRST) == 54 && Sum(CPF_SECOND) == 65 && Sum(CNPJ_FIRST) == 58
  {
    SumOfTail(CPF_FIRST);
    SumTo(CPF_FIRST, 1, 44);
    SumOfTail(CPF_SECOND);
    SumTo(CPF_SECOND, 2, 44);
    SumOfTail(CNPJ_FIRST);
    SumTo(CNPJ_FIRST, 4, 44);
  }

  /** Nine equal digits are completed by the same digit twice. */
  lemma CpfRepeats(c: int)
    requires 0 <= c <= 9
    ensures CnpjCheck(c * 54) == c && CnpjCheck(c * 65) == c
  {
  }

  lemma UniformCheck(d: seq<int>, w: seq<int>, c: int, total: int)
    requires |d| == |w| && Sum(w) == total && forall k :: 0 <= k < |d| ==> d[k] == c
    ensures Weighted(d, w) == c * total
  {
    UniformWeighted(d, w, c);
  }

  lemma CpfUniformCompletion(prefix: seq<int>)
    requires |prefix| == 9 && AllDigits(prefix) && Uniform(prefix)
    ensures Completion(prefix, CPF_FIRST, CPF_SECOND) == [prefix[0], prefix[0]]
  {
    var c := prefix[0];
    CpfRepeats(c);
    assert CnpjCheck(Weighted(prefix, CPF_FIRST)) == c by {
      SumOfWeights();
      UniformCheck(prefix, CPF_FIRST, c, 54);
    }
    assert CnpjCheck(Weighted(prefix + [c], CPF_SECOND)) == c by {
      SumOfWeights();
      UniformCheck(prefix + [c], CPF_SECOND, c, 65);
    }
  }

  /** A prefix of nine digits has exactly one accepted completion, its check digits, unless its digits are all equal,
      when it has none. */
  lemma CpfCompletions(prefix: seq<int>, a: int, b: int)
    requires |prefix| == 9 && AllDigits(prefix)
    ensures AcceptsCpf(prefix + [a, b]) <==> !Uniform(prefix) && [a, b] == Completion(prefix, CPF_FIRST, CPF_SECOND)
  {
    CompletionIsForced(prefix, CPF_FIRST, CPF_SECOND, a, b);
    var d := prefix + [a, b];
    assert forall k :: 0 <= k < 9 ==> prefix[k] == d[k];
    if Uniform(prefix) {
      CpfUniformCompletion(prefix);
      if [a, b] == [prefix[0], prefix[0]] {
        assert d[9] == prefix[0] && d[10] == prefix[0];
      }
    }
  }

  /** Twelve equal digits are completed by another digit, unless they are zeros. */
  lemma CnpjRepeats(c: int)
    requires 0 <= c <= 9
    ensures CnpjCheck(c * 58) == c <==> c == 0
  {
  }

  lemma CnpjUniformFirst(prefix: seq<int>)
    requires |prefix| == 12 && AllDigits(prefix) && Uniform(prefix)
    ensures CnpjCheck(Weighted(prefix, CNPJ_FIRST)) == CnpjCheck(prefix[0] * 58)
  {
    SumOfWeights();
    UniformCheck(prefix, CNPJ_FIRST, prefix[0], 58);
  }

  lemma CnpjZeros(prefix: seq<int>)
    requires |prefix| == 12 && forall k :: 0 <= k < 12 ==> prefix[k] == 0
    ensures Weighted(prefix, CNPJ_FIRST) == 0 && Weighted(prefix + [0], CNPJ_SECOND) == 0
  {
    WeightedZeros(prefix, CNPJ_FIRST);
    WeightedZeros(prefix + [0], CNPJ_SECOND);
  }

  lemma CnpjUniformCompletion(prefix: seq<int>)
    requires |prefix| == 12 && AllDigits(prefix) && Uniform(prefix)
    ensures Completion(prefix, CNPJ_FIRST, CNPJ_SECOND)[0] == prefix[0] <==> prefix[0] == 0
    ensures prefix[0] == 0 ==> Completion(prefix, CNPJ_FIRST, CNPJ_SECOND) == [0, 0]
  {
    CnpjUniformFirst(prefix);
    CnpjRepeats(prefix[0]);
    if prefix[0] == 0 {
      CnpjZeros(prefix);
    }
  }

  /** A prefix of twelve digits has exactly one accepted completion, unless it is all zeros, when it has none. */
  lemma CnpjCompletions(prefix: seq<int>, a: int, b: int)
    requires |prefix| == 12 && AllDigits(prefix)
    ensures AcceptsCnpj(prefix + [a, b]) <==>
      !(Uniform(prefix) && prefix[0] == 0) && [a, b] == Completion(prefix, CNPJ_FIRST, CNPJ_SECOND)
  {
    CompletionIsForced(prefix, CNPJ_FIRST, CNPJ_SECOND, a, b);
    var d := prefix + [a, b];
    assert forall k :: 0 <= k < 12 ==> prefix[k] == d[k];
    assert d[12] == a && d[13] == b;
    if Uniform(prefix) {
      CnpjUniformCompletion(prefix);
    }
  }

  // ----- the blind spots are real

  lemma {:induction false} WeightedConcat(a: seq<int>, b: seq<int>, v: seq<int>, w: seq<int>)
    requires |a| == |v| && |b| == |w|
    ensures Weighted(a + b, v + w) == Weighted(a, v) + Weighted(b, w)
  {
    if a == [] {
      assert a + b == b && v + w == w;
    } else {
      assert (a + b)[1..] == a[1..] + b && (v + w)[1..] == v[1..] + w;
      WeightedConcat(a[1..], b, v[1..], w);
    }
  }

  lemma ExampleCpf(d: seq<int>)
    requires d == [0, 0, 0, 0, 0, 0, 0, 0, 6, 0, 4]
    ensures AcceptsCpf(d) && Weighted(d[..9], CPF_FIRST) == 12
  {
    OnlyDigit(d[..9], CPF_FIRST, 8);
    OnlyDigit(d[..10], CPF_SECOND, 8);
    assert d[8] != d[0];
  }

  /** Two accepted CPFs that differ only in digit 1. */
  lemma CpfDigitOneBlind(d: seq<int>, e: seq<int>)
    requires d == [0, 0, 0, 0, 0, 0, 0, 0, 6, 0, 4] && e == [1, 0, 0, 0, 0, 0, 0, 0, 6, 0, 4]
    ensures AcceptsCpf(d) && AcceptsCpf(e)
  {
    ExampleCpf(d);
    assert e == d[0 := 1];
    assert FlipsSum(d[..9], CPF_FIRST, 0, 1);
    CpfCatchesOneDigit(d, 0, 1);
  }

  lemma FirstSumOfCpf(d: seq<int>)
    requires d == [8, 3, 4, 3, 3, 5, 1, 4, 1]
    ensures Weighted(d, CPF_FIRST) == 221
  {
    assert Weighted([8, 3, 4], [10, 9, 8]) == 139;
    assert Weighted([3, 3, 5], [7, 6, 5]) == 64;
    assert Weighted([1, 4, 1], [4, 3, 2]) == 18;
    assert d == [8, 3, 4] + ([3, 3, 5] + [1, 4, 1]);
    assert CPF_FIRST == [10, 9, 8] + ([7, 6, 5] + [4, 3, 2]);
    WeightedConcat([8, 3, 4], [3, 3, 5] + [1, 4, 1], [10, 9, 8], [7, 6, 5] + [4, 3, 2]);
    WeightedConcat([3, 3, 5], [1, 4, 1], [7, 6, 5], [4, 3, 2]);
  }

  lemma SecondSumOfCpf(d: seq<int>)
    requires d == [8, 3, 4, 3, 3, 5, 1, 4, 1, 0]
    ensures Weighted(d, CPF_SECOND) == 253
  {
    assert Weighted([8, 3, 4], [11, 10, 9]) == 154;
    assert Weighted([3, 3, 5], [8, 7, 6]) == 75;
    assert Weighted([1, 4, 1, 0], [5, 4, 3, 2]) == 24;
    assert d == [8, 3, 4] + ([3, 3, 5] + [1, 4, 1, 0]);
    assert CPF_SECOND == [11, 10, 9] + ([8, 7, 6] + [5, 4, 3, 2]);
    WeightedConcat([8, 3, 4], [3, 3, 5] + [1, 4, 1, 0], [11, 10, 9], [8, 7, 6] + [5, 4, 3, 2]);
    WeightedConcat([3, 3, 5], [1, 4, 1, 0], [8, 7, 6], [5, 4, 3, 2]);
  }

  /** Two accepted CPFs that differ only in digit 6. */
  lemma CpfDigitSixBlind(d: seq<int>, e: seq<int>)
    requires d == [8, 3, 4, 3, 3, 5, 1, 4, 1, 0, 0] && e == [8, 3, 4, 3, 3, 7, 1, 4, 1, 0, 0]
    ensures AcceptsCpf(d) && AcceptsCpf(e)
  {
    FirstSumOfCpf(d[..9]);
    SecondSumOfCpf(d[..10]);
    assert d[1] != d[0];
    assert e == d[5 := 7];
    assert FlipsSum(d[..9], CPF_FIRST, 5, 7) && FlipsSum(d[..10], CPF_SECOND, 5, 7);
    CpfCatchesOneDigit(d, 5, 7);
  }

  /** The sum over three digits, when the others are zeros. */
  lemma OnlyThree(d: seq<int>, w: seq<int>, p: nat, q: nat, r: nat)
    requires |d| == |w| && p < q < r < |d| && forall k :: 0 <= k < |d| && k != p && k != q && k != r ==> d[k] == 0
    ensures Weighted(d, w) == d[p] * w[p] + d[q] * w[q] + d[r] * w[r]
  {
    Zeroed(d, w, r);
    Zeroed(d[r := 0], w, q);
    OnlyDigit(d[r := 0][q := 0], w, p);
  }

  lemma Zeroed(d: seq<int>, w: seq<int>, p: nat)
    requires |d| == |w| && p < |d|
    ensures Weighted(d, w) == Weighted(d[p := 0], w) + d[p] * w[p]
  {
    WeightedUpdate(d, w, p, 0);
    assert (0 - d[p]) * w[p] == -(d[p] * w[p]);
  }

  lemma ExampleCnpj(d: seq<int>)
    requires d == [0, 7, 4, 0, 0, 0, 0, 0, 0, 1, 0, 0, 0, 0]
    ensures AcceptsCnpj(d) && Weighted(d[..12], CNPJ_FIRST) == 44 && Weighted(d[..13], CNPJ_SECOND) == 56
  {
    OnlyThree(d[..12], CNPJ_FIRST, 1, 2, 9);
    OnlyThree(d[..13], CNPJ_SECOND, 1, 2, 9);
    assert d[1] != d[0];
  }

  /** One accepted CNPJ with another for each of digits 1, 5 and 9, that differs from it only there. */
  lemma CnpjDigitsBlind(d: seq<int>)
    requires d == [0, 7, 4, 0, 0, 0, 0, 0, 0, 1, 0, 0, 0, 0]
    ensures AcceptsCnpj(d) && AcceptsCnpj(d[0 := 9]) && AcceptsCnpj(d[4 := 5]) && AcceptsCnpj(d[8 := 9])
  {
    ExampleCnpj(d);
    assert CnpjBlind(d, 0, 9) && CnpjBlind(d, 4, 5) && CnpjBlind(d, 8, 9);
    CnpjCatchesOneDigit(d, 0, 9);
    CnpjCatchesOneDigit(d, 4, 5);
    CnpjCatchesOneDigit(d, 8, 9);
  }
}
