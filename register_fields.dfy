/**
 * The bit convention of a one-byte register's fields as the driver's tests
 * fix it: field `x_p_k` (for example `o_0_6`, `c_1_3`) is bit `k` of the
 * register byte. A byte is viewed as eight booleans, index `k` being bit `k`.
 */
module RegisterFields {
  import opened Ints

  function Pow2(k: nat): (p: nat)
    ensures p >= 1
  {
    if k == 0 then 1 else 2 * Pow2(k - 1)
  }

  /** The low `width` bits of `n`, least significant first. */
  function Bits(n: nat, width: nat): (r: seq<bool>)
    ensures |r| == width
  {
    if width == 0 then [] else [n % 2 == 1] + Bits(n / 2, width - 1)
  }

  /** The number whose bits, least significant first, are `bits`. */
  function Value(bits: seq<bool>): (n: nat)
    ensures n < Pow2(|bits|)
  {
    if bits == [] then 0 else (if bits[0] then 1 else 0) + 2 * Value(bits[1..])
  }

  lemma {:induction false} ValueOfBits(n: nat, width: nat)
    requires n < Pow2(width)
    ensures Value(Bits(n, width)) == n
  {
    if width > 0 {
      ValueOfBits(n / 2, width - 1);
      assert Bits(n, width)[1..] == Bits(n / 2, width - 1);
    }
  }

  lemma {:induction false} BitsOfValue(bits: seq<bool>)
    ensures Bits(Value(bits), |bits|) == bits
  {
    if bits != [] {
      var n := Value(bits);
      assert n % 2 == 1 <==> bits[0];
      assert n / 2 == Value(bits[1..]);
      BitsOfValue(bits[1..]);
    }
  }

  lemma {:induction false} MulAtLeast(d: nat, k: nat)
    requires k >= 1
    ensures d * k >= d
  {
    if k > 1 {
      MulAtLeast(d, k - 1);
      assert d * k == d * (k - 1) + d;
    }
  }

  /** The quotient is the unique `x` with `a == d * x + y` and `0 <= y < d`. */
  lemma DivUnique(a: nat, d: nat, x: nat, y: nat)
    requires d >= 1 && a == d * x + y && y < d
    ensures a / d == x
  {
    var q, r := a / d, a % d;
    assert a == d * q + r && 0 <= r < d;
    if q > x {
      assert d * q == d * x + d * (q - x);
      MulAtLeast(d, q - x);
    } else if q < x {
      assert d * x == d * q + d * (x - q);
      MulAtLeast(d, x - q);
    }
  }

  lemma DivTwice(n: nat, m: nat)
    requires m >= 1
    ensures n / 2 / m == n / (2 * m)
  {
    var q, r := n / (2 * m), n % (2 * m);
    assert n == (2 * m) * q + r;
    assert n == 2 * (m * q + r / 2) + r % 2;
    DivUnique(n, 2, m * q + r / 2, r % 2);
    DivUnique(n / 2, m, q, r / 2);
  }

  /** Element `k` of `Bits(n, width)` is bit `k` of `n`. */
  lemma {:induction false} BitsAt(n: nat, width: nat, k: nat)
    requires k < width
    ensures Bits(n, width)[k] == (n / Pow2(k) % 2 == 1)
  {
    if k > 0 {
      BitsAt(n / 2, width - 1, k - 1);
      DivTwice(n, Pow2(k - 1));
    }
  }

  /**
   * The field view of a one-byte register: field `k` is `Decode(b)[k]`. The
   * view loses nothing: the fields, read as bits, give back the byte.
   */
  function Decode(b: u8): (fields: seq<bool>)
    ensures |fields| == 8
    ensures Value(fields) == b as nat
  {
    assert Pow2(8) == 256;
    ValueOfBits(b as nat, 8);
    Bits(b as nat, 8)
  }

  /** Field `k` of a register byte is its bit `k`, the one of weight `2^k`. */
  lemma FieldIsBit(b: u8, k: nat)
    requires k < 8
    ensures Decode(b)[k] == (b as int / Pow2(k) % 2 == 1)
  {
    BitsAt(b as nat, 8, k);
  }

  /** The register byte holding the field values `fields`. */
  function Encode(fields: seq<bool>): (b: u8)
    requires |fields| == 8
    ensures Decode(b) == fields
  {
    assert Pow2(8) == 256;
    BitsOfValue(fields);
    Value(fields) as u8
  }

  /** Encoding an unmodified field view gives back the register byte. */
  lemma EncodeDecode(b: u8)
    ensures Encode(Decode(b)) == b
  {
    assert Pow2(8) == 256;
    ValueOfBits(b as nat, 8);
  }

  /** A field setter: field `k` becomes `v`, every other field keeps its value. */
  function SetField(b: u8, k: nat, v: bool): (r: u8)
    requires k < 8
    ensures Decode(r)[k] == v
    ensures forall j :: 0 <= j < 8 && j != k ==> Decode(r)[j] == Decode(b)[j]
  {
    Encode(Decode(b)[k := v])
  }

  /**
   * Runs the setters of fields `n - 1` down to `0`, in that order, as a write
   * closure that sets them one after another does.
   */
  function SetLowFields(b: u8, fields: seq<bool>, n: nat): (r: u8)
    requires |fields| == 8 && n <= 8
    ensures forall j :: 0 <= j < n ==> Decode(r)[j] == fields[j]
    ensures forall j :: n <= j < 8 ==> Decode(r)[j] == Decode(b)[j]
    decreases n
  {
    if n == 0 then b else SetLowFields(SetField(b, n - 1, fields[n - 1]), fields, n - 1)
  }

  /**
   * Setting all eight fields yields the encoding of their values, whatever
   * byte the setters started from.
   */
  lemma SetEveryField(b: u8, fields: seq<bool>)
    requires |fields| == 8
    ensures SetLowFields(b, fields, 8) == Encode(fields)
  {
    var r := SetLowFields(b, fields, 8);
    assert Decode(r) == fields;
    EncodeDecode(r);
  }
}
