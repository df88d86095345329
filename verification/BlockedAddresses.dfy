// scanner-engine/internal/validation/validation.go: which addresses may be
// dialled. The tests are made with prefixes, as there; what they come to is
// proved octet by octet.
module BlockedAddresses {

  // ---------------------------------------------------------------- addresses

  type Octet = b: int | 0 <= b < 256
  // net.IP: 4 or 16 bytes, in network order. A nil IP is None.
  type IP = seq<Octet>

  const MAPPED: IP := [0, 0, 0, 0, 0, 0, 0, 0, 0, 0, 255, 255]

  predicate Mapped(ip: IP) {
    |ip| == 16 && ip[..12] == MAPPED
  }

  // What String distinguishes: an IPv4-mapped address prints as the IPv4 one.
  function Canonical(ip: IP): IP {
    if Mapped(ip) then ip[12..] else ip
  }

  datatype Prefix = Prefix(base: IP, bits: nat)

  function High(octet: Octet, bits: nat): nat
    requires bits < 8
  {
    octet / [256, 128, 64, 32, 16, 8, 4, 2][bits]
  }

  predicate SameBits(a: IP, b: IP, bits: nat) {
    if bits == 0 then true
    else if a == [] || b == [] then false
    else if bits < 8 then High(a[0], bits) == High(b[0], bits)
    else a[0] == b[0] && SameBits(a[1..], b[1..], bits - 8)
  }

  predicate Covers(prefix: Prefix, ip: IP) {
    |ip| == |prefix.base| && SameBits(prefix.base, ip, prefix.bits)
  }

  predicate AnyCovers(prefixes: seq<Prefix>, ip: IP) {
    exists i :: 0 <= i < |prefixes| && Covers(prefixes[i], ip)
  }

  function V6(head: seq<Octet>): (ip: IP)
    requires |head| <= 16
    ensures |ip| == 16
  {
    head + seq(16 - |head|, _ => 0)
  }

  const UNSPECIFIED := [Prefix([0, 0, 0, 0], 32), Prefix(V6([]), 128)]
  const LOOPBACK := [Prefix([127, 0, 0, 0], 8), Prefix([0, 0, 0, 0, 0, 0, 0, 0, 0, 0, 0, 0, 0, 0, 0, 1], 128)]
  const LINK_LOCAL := [Prefix([169, 254, 0, 0], 16), Prefix(V6([254, 128]), 10), Prefix([224, 0, 0, 0], 24)]
  const MULTICAST := [Prefix([224, 0, 0, 0], 4), Prefix(V6([255]), 8)]
  const PRIVATE := [Prefix([10, 0, 0, 0], 8), Prefix([172, 16, 0, 0], 12), Prefix([192, 168, 0, 0], 16),
                    Prefix(V6([252]), 7)]
  const CLOUD_METADATA: seq<IP> := [[169, 254, 169, 254], [253, 0, 14, 194, 0, 0, 0, 0, 0, 0, 0, 0, 0, 0, 2, 84]]
  const SPECIAL_USE := [
    Prefix([100, 64, 0, 0], 10), Prefix([192, 0, 0, 0], 24), Prefix([192, 0, 2, 0], 24),
    Prefix([198, 18, 0, 0], 15), Prefix([198, 51, 100, 0], 24), Prefix([203, 0, 113, 0], 24),
    Prefix([240, 0, 0, 0], 4), Prefix(V6([1, 0]), 64), Prefix(V6([32, 1, 0, 2]), 48),
    Prefix(V6([32, 1, 0, 16]), 28), Prefix(V6([32, 1, 0, 32]), 28), Prefix(V6([32, 1, 13, 184]), 32)]

  // isBlockedIP, test by test.
  predicate Blocked(ip: IP, allowPrivate: bool) {
    |ip| !in {4, 16} || BlockedForm(Canonical(ip), allowPrivate)
  }

  predicate BlockedForm(ip: IP, allowPrivate: bool) {
    || AnyCovers(UNSPECIFIED, ip)
    || AnyCovers(LOOPBACK, ip)
    || AnyCovers(LINK_LOCAL, ip)
    || LinkLocalGroup(ip)
    || AnyCovers(MULTICAST, ip)
    || ip in CLOUD_METADATA
    || AnyCovers(SPECIAL_USE, ip)
    || (AnyCovers(PRIVATE, ip) && !allowPrivate)
  }

  predicate LinkLocalGroup(ip: IP) {
    |ip| == 16 && ip[0] == 255 && ip[1] % 16 == 2
  }

  // Writing an IPv4 address in its IPv6 form does not change the verdict.
  lemma BlockedIgnoresMapping(ip: IP, other: IP, allowPrivate: bool)
    requires |ip| in {4, 16} && |other| in {4, 16} && Canonical(ip) == Canonical(other)
    ensures Blocked(ip, allowPrivate) == Blocked(other, allowPrivate)
  {}

  // ------------------------------------------------- blocked, octet by octet

  // The same verdict without prefixes: on the four octets of an IPv4 address,
  predicate Reserved4(a: int, b: int, c: int, d: int, allowPrivate: bool) {
    || (a == 0 && b == 0 && c == 0 && d == 0)
    || a == 127
    || (a == 169 && b == 254)
    || (a == 100 && 64 <= b <= 127)
    || (a == 192 && b == 0 && (c == 0 || c == 2))
    || (a == 198 && (b == 18 || b == 19 || (b == 51 && c == 100)))
    || (a == 203 && b == 0 && c == 113)
    || a >= 224
    || (!allowPrivate && (a == 10 || (a == 172 && 16 <= b <= 31) || (a == 192 && b == 168)))
  }

  predicate ZeroBetween(ip: IP, low: nat, high: nat)
    requires low <= high <= |ip|
  {
    forall i :: low <= i < high ==> ip[i] == 0
  }

  // and on the sixteen of an IPv6 address: ::ffff:a.b.c.d as a.b.c.d, and else
  // ::, ::1, fe80::/10, ff00::/8, 100::/64, 2001:2::/48, 2001:10::/28,
  // 2001:20::/28, 2001:db8::/32, fd00:ec2::254 and fc00::/7.
  predicate Reserved(ip: IP, allowPrivate: bool) {
    if |ip| == 4 then Reserved4(ip[0], ip[1], ip[2], ip[3], allowPrivate)
    else if |ip| != 16 then true
    else if ZeroBetween(ip, 0, 10) && ip[10] == 255 && ip[11] == 255 then
      Reserved4(ip[12], ip[13], ip[14], ip[15], allowPrivate)
    else
      || (ZeroBetween(ip, 0, 15) && ip[15] <= 1)
      || (ip[0] == 254 && 128 <= ip[1] <= 191)
      || ip[0] == 255
      || (ip[0] == 1 && ZeroBetween(ip, 1, 8))
      || (ip[0] == 32 && ip[1] == 1 && ip[2] == 0 && ip[3] == 2 && ip[4] == 0 && ip[5] == 0)
      || (ip[0] == 32 && ip[1] == 1 && ip[2] == 0 && 16 <= ip[3] <= 47)
      || (ip[0] == 32 && ip[1] == 1 && ip[2] == 13 && ip[3] == 184)
      || (ip[0] == 253 && ip[1] == 0 && ip[2] == 14 && ip[3] == 194
          && ZeroBetween(ip, 4, 14) && ip[14] == 2 && ip[15] == 84)
      || (!allowPrivate && (ip[0] == 252 || ip[0] == 253))
  }

  lemma HighIs(octet: Octet)
    ensures High(octet, 1) == octet / 128 && High(octet, 2) == octet / 64 && High(octet, 3) == octet / 32
    ensures High(octet, 4) == octet / 16 && High(octet, 5) == octet / 8 && High(octet, 6) == octet / 4
    ensures High(octet, 7) == octet / 2
  {}

  // A prefix fixes whole octets, and the high bits of the next one.
  lemma {:induction false} SameBitsIs(a: IP, b: IP, bits: nat)
    requires |a| == |b| && bits <= 8 * |a|
    ensures SameBits(a, b, bits) <==>
      && a[..bits / 8] == b[..bits / 8]
      && (bits % 8 == 0 || High(a[bits / 8], bits % 8) == High(b[bits / 8], bits % 8))
    decreases |a|
  {
    hide High;
    if bits >= 8 {
      SameBitsIs(a[1..], b[1..], bits - 8);
      var n := bits / 8;
      assert a[..n] == [a[0]] + a[1..][..n - 1] && b[..n] == [b[0]] + b[1..][..n - 1];
    }
  }

  lemma CoversIs(prefix: Prefix, ip: IP)
    requires prefix.bits <= 8 * |prefix.base| && |ip| == |prefix.base|
    ensures Covers(prefix, ip) <==>
      && (forall i :: 0 <= i < prefix.bits / 8 ==> ip[i] == prefix.base[i])
      && (prefix.bits % 8 == 0
          || High(prefix.base[prefix.bits / 8], prefix.bits % 8) == High(ip[prefix.bits / 8], prefix.bits % 8))
  {
    hide High, SameBits;
    SameBitsIs(prefix.base, ip, prefix.bits);
    var n := prefix.bits / 8;
    assert prefix.base[..n] == ip[..n] <==> forall i :: 0 <= i < n ==> ip[i] == prefix.base[i];
  }

  lemma OtherLength(prefix: Prefix, ip: IP)
    requires |prefix.base| != |ip|
    ensures !Covers(prefix, ip)
  {}

  // ---------------------------------------------------------------- four octets

  lemma SpecialUse4(ip: IP)
    requires |ip| == 4
    ensures AnyCovers(SPECIAL_USE, ip) <==> (
      || (ip[0] == 100 && 64 <= ip[1] <= 127)
      || (ip[0] == 192 && ip[1] == 0 && (ip[2] == 0 || ip[2] == 2))
      || (ip[0] == 198 && (ip[1] == 18 || ip[1] == 19 || (ip[1] == 51 && ip[2] == 100)))
      || (ip[0] == 203 && ip[1] == 0 && ip[2] == 113)
      || ip[0] >= 240)
  {
    hide Covers, High;
    var p := SPECIAL_USE;
    HighIs(ip[0]);
    HighIs(ip[1]);
    HighIs(64);
    HighIs(18);
    HighIs(240);
    forall i | 0 <= i < 7 {
      CoversIs(p[i], ip);
    }
    forall i | 7 <= i < 12 ensures !Covers(p[i], ip) {
      OtherLength(p[i], ip);
    }
    assert Covers(p[0], ip) <==> ip[0] == 100 && ip[1] / 64 == 1;
    assert Covers(p[1], ip) <==> ip[0] == 192 && ip[1] == 0 && ip[2] == 0;
    assert Covers(p[2], ip) <==> ip[0] == 192 && ip[1] == 0 && ip[2] == 2;
    assert Covers(p[3], ip) <==> ip[0] == 198 && ip[1] / 2 == 9;
    assert Covers(p[4], ip) <==> ip[0] == 198 && ip[1] == 51 && ip[2] == 100;
    assert Covers(p[5], ip) <==> ip[0] == 203 && ip[1] == 0 && ip[2] == 113;
    assert Covers(p[6], ip) <==> ip[0] / 16 == 15;
  }

  lemma Local4(ip: IP)
    requires |ip| == 4
    ensures AnyCovers(UNSPECIFIED, ip) <==> ip[0] == 0 && ip[1] == 0 && ip[2] == 0 && ip[3] == 0
    ensures AnyCovers(LOOPBACK, ip) <==> ip[0] == 127
    ensures AnyCovers(LINK_LOCAL, ip) <==>
      (ip[0] == 169 && ip[1] == 254) || (ip[0] == 224 && ip[1] == 0 && ip[2] == 0)
  {
    hide Covers, High;
    OtherLength(UNSPECIFIED[1], ip);
    OtherLength(LOOPBACK[1], ip);
    OtherLength(LINK_LOCAL[1], ip);
    CoversIs(UNSPECIFIED[0], ip);
    CoversIs(LOOPBACK[0], ip);
    CoversIs(LINK_LOCAL[0], ip);
    CoversIs(LINK_LOCAL[2], ip);
    assert Covers(UNSPECIFIED[0], ip) <==> ip[0] == 0 && ip[1] == 0 && ip[2] == 0 && ip[3] == 0;
    assert Covers(LOOPBACK[0], ip) <==> ip[0] == 127;
    assert Covers(LINK_LOCAL[0], ip) <==> ip[0] == 169 && ip[1] == 254;
    assert Covers(LINK_LOCAL[2], ip) <==> ip[0] == 224 && ip[1] == 0 && ip[2] == 0;
  }

  lemma Wide4(ip: IP)
    requires |ip| == 4
    ensures AnyCovers(MULTICAST, ip) <==> 224 <= ip[0] <= 239
    ensures AnyCovers(PRIVATE, ip) <==>
      ip[0] == 10 || (ip[0] == 172 && 16 <= ip[1] <= 31) || (ip[0] == 192 && ip[1] == 168)
  {
    hide Covers, High;
    HighIs(ip[0]);
    HighIs(ip[1]);
    HighIs(224);
    HighIs(16);
    OtherLength(MULTICAST[1], ip);
    OtherLength(PRIVATE[3], ip);
    CoversIs(MULTICAST[0], ip);
    forall i | 0 <= i < 3 {
      CoversIs(PRIVATE[i], ip);
    }
    assert Covers(MULTICAST[0], ip) <==> ip[0] / 16 == 14;
    assert Covers(PRIVATE[0], ip) <==> ip[0] == 10;
    assert Covers(PRIVATE[1], ip) <==> ip[0] == 172 && ip[1] / 16 == 1;
    assert Covers(PRIVATE[2], ip) <==> ip[0] == 192 && ip[1] == 168;
  }

  lemma BlockedFour(ip: IP, allowPrivate: bool)
    requires |ip| == 4
    ensures BlockedForm(ip, allowPrivate) <==> Reserved4(ip[0], ip[1], ip[2], ip[3], allowPrivate)
  {
    hide AnyCovers;
    SpecialUse4(ip);
    Local4(ip);
    Wide4(ip);
    assert ip in CLOUD_METADATA ==> ip[0] == 169 && ip[1] == 254;
  }

  // ------------------------------------------------------------- sixteen octets

  lemma SpecialUse6(ip: IP)
    requires |ip| == 16
    ensures AnyCovers(SPECIAL_USE, ip) <==> (
      || (ip[0] == 1 && ZeroBetween(ip, 1, 8))
      || (ip[0] == 32 && ip[1] == 1 && ip[2] == 0 && ip[3] == 2 && ip[4] == 0 && ip[5] == 0)
      || (ip[0] == 32 && ip[1] == 1 && ip[2] == 0 && 16 <= ip[3] <= 47)
      || (ip[0] == 32 && ip[1] == 1 && ip[2] == 13 && ip[3] == 184))
  {
    hide Covers, High;
    var p := SPECIAL_USE;
    HighIs(ip[3]);
    HighIs(16);
    HighIs(32);
    forall i | 0 <= i < 7 ensures !Covers(p[i], ip) {
      OtherLength(p[i], ip);
    }
    forall i | 7 <= i < 12 {
      CoversIs(p[i], ip);
    }
    assert Covers(p[7], ip) <==> ip[0] == 1 && ZeroBetween(ip, 1, 8);
    assert Covers(p[8], ip) <==> ip[0] == 32 && ip[1] == 1 && ip[2] == 0 && ip[3] == 2 && ip[4] == 0 && ip[5] == 0;
    assert Covers(p[9], ip) <==> ip[0] == 32 && ip[1] == 1 && ip[2] == 0 && ip[3] / 16 == 1;
    assert Covers(p[10], ip) <==> ip[0] == 32 && ip[1] == 1 && ip[2] == 0 && ip[3] / 16 == 2;
    assert Covers(p[11], ip) <==> ip[0] == 32 && ip[1] == 1 && ip[2] == 13 && ip[3] == 184;
  }

  lemma Local6(ip: IP)
    requires |ip| == 16
    ensures AnyCovers(UNSPECIFIED, ip) || AnyCovers(LOOPBACK, ip) <==> ZeroBetween(ip, 0, 15) && ip[15] <= 1
    ensures AnyCovers(LINK_LOCAL, ip) <==> ip[0] == 254 && 128 <= ip[1] <= 191
  {
    hide Covers, High;
    HighIs(ip[1]);
    HighIs(128);
    OtherLength(UNSPECIFIED[0], ip);
    OtherLength(LOOPBACK[0], ip);
    OtherLength(LINK_LOCAL[0], ip);
    OtherLength(LINK_LOCAL[2], ip);
    CoversIs(UNSPECIFIED[1], ip);
    CoversIs(LOOPBACK[1], ip);
    CoversIs(LINK_LOCAL[1], ip);
    assert Covers(UNSPECIFIED[1], ip) <==> ZeroBetween(ip, 0, 15) && ip[15] == 0;
    assert Covers(LOOPBACK[1], ip) <==> ZeroBetween(ip, 0, 15) && ip[15] == 1;
    assert Covers(LINK_LOCAL[1], ip) <==> ip[0] == 254 && ip[1] / 64 == 2;
  }

  lemma Wide6(ip: IP)
    requires |ip| == 16
    ensures AnyCovers(MULTICAST, ip) <==> ip[0] == 255
    ensures AnyCovers(PRIVATE, ip) <==> ip[0] == 252 || ip[0] == 253
    ensures ip in CLOUD_METADATA <==>
      && ip[0] == 253 && ip[1] == 0 && ip[2] == 14 && ip[3] == 194
      && ZeroBetween(ip, 4, 14) && ip[14] == 2 && ip[15] == 84
  {
    hide Covers, High;
    HighIs(ip[0]);
    HighIs(252);
    OtherLength(MULTICAST[0], ip);
    forall i | 0 <= i < 3 ensures !Covers(PRIVATE[i], ip) {
      OtherLength(PRIVATE[i], ip);
    }
    CoversIs(MULTICAST[1], ip);
    CoversIs(PRIVATE[3], ip);
    assert Covers(MULTICAST[1], ip) <==> ip[0] == 255;
    assert Covers(PRIVATE[3], ip) <==> ip[0] / 2 == 126;
    var m := CLOUD_METADATA[1];
    assert ip in CLOUD_METADATA <==> ip == m;
    assert ip == m <==> forall i :: 0 <= i < 16 ==> ip[i] == m[i];
  }

  lemma BlockedSixteen(ip: IP, allowPrivate: bool)
    requires |ip| == 16 && !(ZeroBetween(ip, 0, 10) && ip[10] == 255 && ip[11] == 255)
    ensures BlockedForm(ip, allowPrivate) <==> Reserved(ip, allowPrivate)
  {
    hide AnyCovers, ZeroBetween;
    SpecialUse6(ip);
    Local6(ip);
    Wide6(ip);
  }

  lemma MappedIs(ip: IP)
    requires |ip| == 16
    ensures Mapped(ip) <==> ZeroBetween(ip, 0, 10) && ip[10] == 255 && ip[11] == 255
  {
    assert ip[..12] == MAPPED <==> forall i :: 0 <= i < 12 ==> ip[i] == MAPPED[i];
  }

  // isBlockedIP refuses exactly these addresses, and everything that is not an
  // address.
  lemma BlockedIsReserved(ip: IP, allowPrivate: bool)
    ensures Blocked(ip, allowPrivate) <==> Reserved(ip, allowPrivate)
  {
    hide BlockedForm, ZeroBetween;
    if |ip| == 4 {
      BlockedFour(ip, allowPrivate);
    } else if |ip| == 16 {
      MappedIs(ip);
      if Mapped(ip) {
        BlockedFour(ip[12..], allowPrivate);
      } else {
        BlockedSixteen(ip, allowPrivate);
      }
    }
  }
}
