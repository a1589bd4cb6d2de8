/** What the services share about MongoDB documents: the generated
    `primitive.ObjectID`, its `Hex` form, and how `FindOne` / `UpdateOne`
    pick the document they act on. */
module Documents {
  import opened Errors

  /** A store-generated document id (`primitive.ObjectID`, 12 bytes). */
  datatype ObjectId = ObjectId(n: nat)

  /** The first document satisfying a filter, as FindOne and UpdateOne select it. */
  function FirstWhere<T>(xs: seq<T>, p: T -> bool): (r: Option<nat>)
    ensures r.Some? ==> r.value < |xs| && p(xs[r.value])
                        && forall j :: 0 <= j < r.value ==> !p(xs[j])
    ensures r.None? ==> forall j :: 0 <= j < |xs| ==> !p(xs[j])
  {
    if xs == [] then None
    else if p(xs[0]) then Some(0)
    else match FirstWhere(xs[1..], p)
      case None => None
      case Some(i) => Some(i + 1)
  }

  // ----- ObjectID.Hex -----

  function Pow16(k: nat): (p: nat)
    ensures p >= 1
  {
    if k == 0 then 1 else 16 * Pow16(k - 1)
  }

  function HexDigit(d: nat): (c: char)
    requires d < 16
  {
    if d < 10 then (48 + d) as char else (87 + d) as char
  }

  predicate IsHexDigit(c: char) {
    '0' <= c <= '9' || 'a' <= c <= 'f'
  }

  function DigitValue(c: char): (d: nat)
    requires IsHexDigit(c)
    ensures d < 16
  {
    if c <= '9' then c as nat - 48 else c as nat - 87
  }

  /** The low `k` hexadecimal digits of `n`, most significant first. */
  function HexDigits(n: nat, k: nat): (h: string)
    ensures |h| == k && forall i :: 0 <= i < k ==> IsHexDigit(h[i])
  {
    if k == 0 then [] else HexDigits(n / 16, k - 1) + [HexDigit(n % 16)]
  }

  /** The number a string of hexadecimal digits denotes. */
  function HexValue(h: string): nat
    requires forall i :: 0 <= i < |h| ==> IsHexDigit(h[i])
  {
    if h == [] then 0 else 16 * HexValue(h[..|h| - 1]) + DigitValue(h[|h| - 1])
  }

  /** An ObjectID is 12 bytes, written as 24 lower-case hex digits. */
  const IdDigits: nat := 24

  function Hex(id: ObjectId): (h: string)
    ensures |h| == IdDigits
  {
    HexDigits(id.n, IdDigits)
  }

  /** Euclidean division has one quotient and one remainder. */
  lemma DivModUnique(n: int, d: int, a: int, b: int)
    requires d > 0 && n == d * a + b && 0 <= b < d
    ensures n / d == a && n % d == b
  {
    var q, r := n / d, n % d;
    assert n == d * q + r;
    assert d * (a - q) == r - b;
    MulAtLeastOne(d, a - q);
    MulAtLeastOne(d, q - a);
  }

  lemma MulAtLeastOne(d: int, x: int)
    requires d > 0
    ensures x >= 1 ==> d * x >= d
  {
    if x >= 1 {
      assert d * x == d + d * (x - 1);
    }
  }

  lemma ModOfSum(n: nat, q: nat, r: nat, m: nat)
    requires m >= 1 && r < 16 && n == 16 * q + r
    ensures n % (16 * m) == 16 * (q % m) + r
  {
    var a, b := q / m, q % m;
    assert q == m * a + b;
    assert n == (16 * m) * a + (16 * b + r);
    DivModUnique(n, 16 * m, a, 16 * b + r);
  }

  /** Reading the digits back gives the number modulo 16^k. */
  lemma {:induction false} HexRoundTrip(n: nat, k: nat)
    ensures HexValue(HexDigits(n, k)) == n % Pow16(k)
  {
    if k > 0 {
      var h := HexDigits(n, k);
      HexRoundTrip(n / 16, k - 1);
      assert h[..|h| - 1] == HexDigits(n / 16, k - 1);
      assert DigitValue(h[|h| - 1]) == n % 16;
      ModOfSum(n, n / 16, n % 16, Pow16(k - 1));
    }
  }

  /** Distinct 12-byte ids have distinct hex forms. */
  lemma HexInjective(a: ObjectId, b: ObjectId)
    requires a.n < Pow16(IdDigits) && b.n < Pow16(IdDigits)
    ensures Hex(a) == Hex(b) <==> a == b
  {
    HexRoundTrip(a.n, IdDigits);
    HexRoundTrip(b.n, IdDigits);
    DivModUnique(a.n, Pow16(IdDigits), 0, a.n);
    DivModUnique(b.n, Pow16(IdDigits), 0, b.n);
  }
}
