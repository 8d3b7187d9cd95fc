/** What several components share: bytes, optional values and little-endian numbers. */
module Basics {
  newtype byte = x: int | 0 <= x < 256

  datatype Option<T> = None | Some(value: T)

  /** Sizes are below this, as they pass through signed 32-bit integers. */
  const LIMIT := 0x8000_0000

  function Pow256(n: nat): (r: nat)
    ensures r > 0
  {
    if n == 0 then 1 else 256 * Pow256(n - 1)
  }

  function Le(n: nat, width: nat): (r: seq<byte>)
    ensures |r| == width
  {
    if width == 0 then [] else [(n % 256) as byte] + Le(n / 256, width - 1)
  }

  function FromLe(s: seq<byte>): nat {
    if s == [] then 0 else s[0] as nat + 256 * FromLe(s[1..])
  }

  /** Fixed-width integers read back. */
  lemma {:induction false} LeRoundTrip(n: nat, width: nat)
    requires n < Pow256(width)
    ensures FromLe(Le(n, width)) == n
  {
    if width > 0 {
      assert n / 256 < Pow256(width - 1);
      LeRoundTrip(n / 256, width - 1);
      assert Le(n, width)[1..] == Le(n / 256, width - 1);
    }
  }

  /** `s` has the digits of `n` to base 256, the lowest first. */
  ghost predicate Digits(n: nat, s: seq<byte>, width: nat) {
    |s| == width && forall k | 0 <= k < width :: s[k] as nat == n / Pow256(k) % 256
  }

  lemma {:induction false} LeDigits(n: nat, width: nat)
    ensures Digits(n, Le(n, width), width)
  {
    if width > 0 {
      LeDigits(n / 256, width - 1);
      var s := Le(n, width);
      forall k | 0 <= k < width ensures s[k] as nat == n / Pow256(k) % 256 {
        if k > 0 {
          assert s[k] == Le(n / 256, width - 1)[k-1];
          DivTwice(n, Pow256(k - 1));
        }
      }
    }
  }

  lemma {:induction false} DivTwice(n: nat, p: nat)
    requires p > 0
    ensures n / 256 / p == n / (256 * p)
  {
    var q, r := n / 256, n % 256;
    var a, b := q / p, q % p;
    assert q == p * a + b;
    assert n == 256 * (p * a + b) + r == (256 * p) * a + (256 * b + r);
    DivUnique(n, 256 * p, a, 256 * b + r);
  }

  lemma {:induction false} DivUnique(n: nat, d: nat, a: nat, r: nat)
    requires n == d * a + r && r < d
    ensures n / d == a
  {
    var x := n / d;
    assert n == d * x + n % d;
    MulGap(d, x, a);
    MulGap(d, a, x);
  }

  lemma {:induction false} MulGap(d: nat, x: nat, y: nat)
    ensures x < y ==> d * x + d <= d * y
  {
    if x < y {
      assert d * y == d * (x + 1) + d * (y - x - 1);
    }
  }

  lemma {:induction false} SizeFits(n: nat)
    requires n < LIMIT
    ensures n < Pow256(4) <= Pow256(8)
  {
    assert Pow256(4) == 256 * (256 * (256 * 256)) by {
      assert Pow256(1) == 256 && Pow256(2) == 256 * 256 && Pow256(3) == 256 * (256 * 256);
    }
    assert Pow256(8) >= Pow256(4) by {
      assert Pow256(5) >= Pow256(4) && Pow256(6) >= Pow256(5) && Pow256(7) >= Pow256(6);
    }
  }
}
