// What covering by a prefix means: read as one number, the address and the base
// agree in their leading bits.
module AddressPrefixes {
  import opened BlockedAddresses

  function Pow2(n: nat): (r: nat)
    ensures r >= 1
  {
    if n == 0 then 1 else 2 * Pow2(n - 1)
  }

  // The address as a number, first byte most significant.
  function Value(ip: IP): nat {
    if ip == [] then 0 else ip[0] * Pow2(8 * (|ip| - 1)) + Value(ip[1..])
  }

  lemma {:induction false} Pow2Sum(a: nat, b: nat)
    ensures Pow2(a + b) == Pow2(a) * Pow2(b)
  {
    if a > 0 {
      Pow2Sum(a - 1, b);
      assert 2 * (Pow2(a - 1) * Pow2(b)) == (2 * Pow2(a - 1)) * Pow2(b);
    }
  }

  lemma Pow2Small()
    ensures Pow2(1) == 2 && Pow2(2) == 4 && Pow2(3) == 8 && Pow2(4) == 16
    ensures Pow2(5) == 32 && Pow2(6) == 64 && Pow2(7) == 128 && Pow2(8) == 256
  {
    assert Pow2(2) == 2 * Pow2(1);
    assert Pow2(3) == 2 * Pow2(2);
    assert Pow2(4) == 2 * Pow2(3);
    assert Pow2(5) == 2 * Pow2(4);
    assert Pow2(6) == 2 * Pow2(5);
    assert Pow2(7) == 2 * Pow2(6);
    assert Pow2(8) == 2 * Pow2(7);
  }

  lemma {:induction false} ValueBound(ip: IP)
    ensures Value(ip) < Pow2(8 * |ip|)
  {
    if ip != [] {
      var m := 8 * (|ip| - 1);
      ValueBound(ip[1..]);
      Pow2Sum(8, m);
      Pow2Small();
      ProductAtMost(ip[0], 255, Pow2(m));
    }
  }

  lemma ProductAtMost(a: nat, b: nat, c: nat)
    requires a <= b
    ensures a * c <= b * c
  {}

  lemma QuotientIs(x: nat, d: nat, q: nat, r: nat)
    requires d > 0 && r < d && x == q * d + r
    ensures x / d == q
  {
    var p := x / d;
    assert x == p * d + x % d;
    if p < q {
      ProductAtMost(p + 1, q, d);
    } else if p > q {
      ProductAtMost(q + 1, p, d);
    }
  }

  lemma Distribute(a: nat, b: nat, c: nat)
    ensures (a + b) * c == a * c + b * c
  {}

  lemma Regroup(a: nat, b: nat, c: nat)
    ensures (a * b) * c == a * (c * b)
  {}

  lemma HighSplits(q: nat, r: nat, low: nat, step: nat)
    ensures (q * step + r) * low == q * (low * step) + r * low
  {
    Distribute(q * step, r, low);
    Regroup(q, step, low);
  }

  lemma RemainderFits(lo: nat, low: nat, r: nat, step: nat)
    requires lo < low && r < step
    ensures r * low + lo < low * step
  {
    Distribute(r, 1, low);
    ProductAtMost(r + 1, step, low);
  }

  // Dropping all of the low part and some of the high one.
  lemma DropIntoHigh(hi: nat, lo: nat, low: nat, step: nat, q: nat, r: nat)
    requires lo < low && r < step && hi == q * step + r
    ensures low * step > 0 && (hi * low + lo) / (low * step) == q
  {
    HighSplits(q, r, low, step);
    RemainderFits(lo, low, r, step);
    var d, rest := low * step, r * low;
    QuotientIs(hi * low + lo, d, q, rest + lo);
  }

  // Dropping part of the low part.
  lemma DropFromLow(hi: nat, lo: nat, kept: nat, step: nat)
    requires step > 0 && lo < kept * step
    ensures (hi * (kept * step) + lo) / step == hi * kept + lo / step
    ensures lo / step < kept
  {
    var q, r := lo / step, lo % step;
    assert lo == q * step + r;
    if q >= kept {
      ProductAtMost(kept, q, step);
    }
    Distribute(hi * kept, q, step);
    assert (hi * kept) * step == hi * (kept * step);
    QuotientIs(hi * (kept * step) + lo, step, hi * kept + q, r);
  }

  lemma MixedRadix(a: nat, x: nat, b: nat, y: nat, w: nat)
    requires x < w && y < w
    ensures a * w + x == b * w + y <==> a == b && x == y
  {
    if a < b {
      ProductAtMost(a + 1, b, w);
    } else if b < a {
      ProductAtMost(b + 1, a, w);
    }
  }

  lemma HighIsQuotient(octet: Octet, bits: nat) returns (r: nat)
    requires 0 < bits < 8
    ensures r < Pow2(8 - bits) && octet == High(octet, bits) * Pow2(8 - bits) + r
  {
    Pow2Small();
    r := octet % Pow2(8 - bits);
  }

  // An address whose leading byte is cut into, and one whose leading byte stays.
  lemma CutFirstByte(a: IP, bits: nat)
    requires a != [] && 0 < bits < 8
    ensures Value(a) / Pow2(8 * |a| - bits) == High(a[0], bits)
  {
    hide Pow2, High;
    var m, step := 8 * (|a| - 1), Pow2(8 - bits);
    ValueBound(a[1..]);
    Pow2Sum(m, 8 - bits);
    var r := HighIsQuotient(a[0], bits);
    DropIntoHigh(a[0], Value(a[1..]), Pow2(m), step, High(a[0], bits), r);
  }

  lemma KeepFirstByte(a: IP, bits: nat)
    requires a != [] && 8 <= bits <= 8 * |a|
    ensures var rest := Value(a[1..]) / Pow2(8 * |a| - bits);
      && Value(a) / Pow2(8 * |a| - bits) == a[0] * Pow2(bits - 8) + rest
      && rest < Pow2(bits - 8)
  {
    var m := 8 * (|a| - 1);
    var s := 8 * |a| - bits;
    ValueBound(a[1..]);
    Pow2Sum(bits - 8, s);
    DropFromLow(a[0], Value(a[1..]), Pow2(bits - 8), Pow2(s));
  }

  lemma NoBitsKept(a: IP)
    ensures Value(a) / Pow2(8 * |a|) == 0
  {
    hide Pow2, Value;
    ValueBound(a);
    QuotientIs(Value(a), Pow2(8 * |a|), 0, Value(a));
  }

  lemma FirstByteThenRest(a: IP, b: IP, bits: nat)
    requires |a| == |b| && a != [] && 8 <= bits <= 8 * |a|
    ensures var cut := Pow2(8 * |a| - bits);
      Value(a) / cut == Value(b) / cut <==> a[0] == b[0] && Value(a[1..]) / cut == Value(b[1..]) / cut
  {
    hide Pow2, Value;
    KeepFirstByte(a, bits);
    KeepFirstByte(b, bits);
    var cut := Pow2(8 * |a| - bits);
    MixedRadix(a[0], Value(a[1..]) / cut, b[0], Value(b[1..]) / cut, Pow2(bits - 8));
  }

  // The byte-by-byte comparison compares exactly the leading bits.
  lemma {:induction false} SameBitsMeansLeadingBits(a: IP, b: IP, bits: nat)
    requires |a| == |b| && bits <= 8 * |a|
    ensures SameBits(a, b, bits) <==> Value(a) / Pow2(8 * |a| - bits) == Value(b) / Pow2(8 * |b| - bits)
    decreases |a|
  {
    hide Pow2, Value, High;
    if bits == 0 {
      NoBitsKept(a);
      NoBitsKept(b);
    } else if bits < 8 {
      CutFirstByte(a, bits);
      CutFirstByte(b, bits);
    } else {
      FirstByteThenRest(a, b, bits);
      SameBitsMeansLeadingBits(a[1..], b[1..], bits - 8);
    }
  }

  lemma CoversMeansLeadingBits(prefix: Prefix, ip: IP)
    requires prefix.bits <= 8 * |prefix.base|
    ensures Covers(prefix, ip) <==>
      && |ip| == |prefix.base|
      && Value(ip) / Pow2(8 * |ip| - prefix.bits) == Value(prefix.base) / Pow2(8 * |ip| - prefix.bits)
  {
    if |ip| == |prefix.base| {
      SameBitsMeansLeadingBits(prefix.base, ip, prefix.bits);
    }
  }
}
