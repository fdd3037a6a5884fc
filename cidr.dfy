/**
 * IP addresses and networks as the provider handles them (Go's `net.IP`,
 * `net.IPMask`, `net.IPNet`), and `cidr.GenerateIP`, which turns a network and
 * a host number into a host address.
 *
 * Addresses are byte sequences: 4 bytes for IPv4, 16 for IPv6.  Text parsing of
 * CIDR strings is not modelled; an address is given in the parsed form
 * `net.ParseCIDR` returns (`ParsedCidr`).
 */
module Cidr {
  import opened Wrappers
  import opened Strs

  type IP = seq<byte>

  datatype IPNet = IPNet(ip: IP, mask: seq<byte>)

  /** What `net.ParseCIDR` returns: an IPv4 network (4-byte address and mask) or an IPv6 one (16 and 16). */
  predicate ParsedCidr(n: IPNet) {
    (|n.ip| == 4 && |n.mask| == 4) || (|n.ip| == 16 && |n.mask| == 16)
  }

  function Pow2(k: nat): (r: nat)
    ensures r >= 1
  {
    if k == 0 then 1 else 2 * Pow2(k - 1)
  }

  // ----- masks: net.CIDRMask and IPMask.Size -----

  /** Byte `i` of the mask with `ones` leading one bits. */
  function MaskByte(ones: nat, i: nat): byte {
    if ones >= 8 * (i + 1) then 255
    else if ones <= 8 * i then 0
    else PartialMask(ones - 8 * i)
  }

  /** The byte with `k` leading one bits, 0 <= k < 8. */
  function PartialMask(k: nat): byte
    requires k < 8
  {
    [0, 128, 192, 224, 240, 248, 252, 254][k]
  }

  /** `net.CIDRMask(ones, bits)`. */
  function CIDRMask(ones: nat, bits: nat): (m: seq<byte>)
    ensures |m| == bits / 8
  {
    seq(bits / 8, i requires 0 <= i => MaskByte(ones, i))
  }

  /** The number of leading one bits of a byte. */
  function LeadingOnesByte(b: byte): (n: nat)
    ensures n <= 8
  {
    LeadingOnesBits(b, 8)
  }

  function LeadingOnesBits(b: byte, bits: nat): (n: nat)
    ensures n <= bits
  {
    if bits == 0 || b < 128 then 0 else 1 + LeadingOnesBits((b - 128) * 2, bits - 1)
  }

  function LeadingOnes(m: seq<byte>): (n: nat)
    ensures n <= 8 * |m|
  {
    if m == [] then 0
    else if m[0] == 255 then 8 + LeadingOnes(m[1..])
    else LeadingOnesByte(m[0])
  }

  /**
   * `IPMask.Size()`: the number of leading ones and the total number of bits of
   * a canonical mask (ones followed by zeros), and (0, 0) for any other mask.
   */
  function MaskSize(m: seq<byte>): (r: (nat, nat))
    ensures r.0 <= r.1
    ensures r.1 == 8 * |m| || r == (0, 0)
  {
    var ones := LeadingOnes(m);
    if m == CIDRMask(ones, 8 * |m|) then (ones, 8 * |m|) else (0, 0)
  }

  lemma PartialMaskByte(k: nat)
    requires 0 < k < 8
    ensures PartialMask(k) < 255 && LeadingOnesByte(PartialMask(k)) == k
  {
  }

  lemma {:induction false} LeadingOnesOfCIDRMask(ones: nat, bytes: nat)
    requires ones <= 8 * bytes
    ensures LeadingOnes(CIDRMask(ones, 8 * bytes)) == ones
    decreases bytes
  {
    var m := CIDRMask(ones, 8 * bytes);
    if bytes > 0 {
      if ones >= 8 {
        assert m[0] == 255;
        assert m[1..] == CIDRMask(ones - 8, 8 * (bytes - 1)) by {
          forall i | 0 <= i < bytes - 1 ensures m[1..][i] == MaskByte(ones - 8, i) {
            assert m[1..][i] == MaskByte(ones, i + 1);
          }
        }
        LeadingOnesOfCIDRMask(ones - 8, bytes - 1);
      } else if ones == 0 {
        assert m[0] == 0;
      } else {
        PartialMaskByte(ones);
      }
    }
  }

  /** `IPMask.Size` reads back the prefix length `net.CIDRMask` was built from. */
  lemma MaskSizeOfCIDRMask(ones: nat, bits: nat)
    requires bits % 8 == 0 && ones <= bits
    ensures MaskSize(CIDRMask(ones, bits)) == (ones, bits)
  {
    LeadingOnesOfCIDRMask(ones, bits / 8);
  }

  // ----- address forms -----

  /** `IP.To4()`: the 4-byte form of an IPv4 address (also of an IPv4-mapped IPv6 one), or nil. */
  function To4(ip: IP): (r: Option<IP>)
    ensures r.Some? ==> |r.value| == 4
    ensures |ip| == 4 ==> r == Some(ip)
  {
    if |ip| == 4 then Some(ip)
    else if |ip| == 16 && (forall i :: 0 <= i < 10 ==> ip[i] == 0) && ip[10] == 255 && ip[11] == 255
    then Some(ip[12..])
    else None
  }

  /** The unsigned big-endian value of a byte string. */
  function BytesValue(b: seq<byte>): nat {
    if b == [] then 0 else BytesValue(b[..|b| - 1]) * 256 + b[|b| - 1]
  }

  function Pow256(n: nat): (r: nat)
    ensures r >= 1
  {
    if n == 0 then 1 else 256 * Pow256(n - 1)
  }

  /**
   * The `n`-byte big-endian two's-complement form of `v`, that is of `v` modulo
   * 256^n (Dafny's `/` and `%` are Euclidean).
   */
  function ValueBytes(v: int, n: nat): (b: seq<byte>)
    ensures |b| == n
    decreases n
  {
    if n == 0 then [] else ValueBytes(v / 256, n - 1) + [v % 256]
  }

  lemma {:induction false} BytesOfValue(v: nat, n: nat)
    requires v < Pow256(n)
    ensures BytesValue(ValueBytes(v, n)) == v
  {
    if n > 0 {
      var b := ValueBytes(v, n);
      assert b[..n - 1] == ValueBytes(v / 256, n - 1);
      BytesOfValue(v / 256, n - 1);
    }
  }

  /** Euclidean remainders are unique. */
  lemma ModUnique(v: int, m: int, a: int, t: int)
    requires m > 0 && v == a * m + t && 0 <= t < m
    ensures v % m == t
  {
    var q0, r0 := v / m, v % m;
    assert (a - q0) * m == r0 - t;
    if q0 < a {
      MulAtLeast(a - q0, m);
    } else if a < q0 {
      MulAtLeast(q0 - a, m);
    }
  }

  lemma MulAtLeast(k: int, m: int)
    requires k >= 1 && m > 0
    ensures k * m >= m
  {
    assert k * m == (k - 1) * m + m;
  }

  /** The remainder by 256p, from the remainder by 256 and the remainder of the quotient by p. */
  lemma ModOfSplit(v: int, p: int)
    requires p >= 1
    ensures v % (256 * p) == 256 * ((v / 256) % p) + v % 256
  {
    var q, r := v / 256, v % 256;
    var a, s := q / p, q % p;
    assert v == (256 * p) * a + (256 * s + r);
    assert 256 * s + r < 256 * p;
    ModUnique(v, 256 * p, a, 256 * s + r);
  }

  /** Reading back the `n` bytes of any `v` gives `v` modulo 256^n. */
  lemma {:induction false} ValueBytesMod(v: int, n: nat)
    ensures BytesValue(ValueBytes(v, n)) == v % Pow256(n)
    decreases n
  {
    if n > 0 {
      var b := ValueBytes(v, n);
      assert b[..n - 1] == ValueBytes(v / 256, n - 1);
      ValueBytesMod(v / 256, n - 1);
      ModOfSplit(v, Pow256(n - 1));
    }
  }

  /**
   * `insertNumIntoIP(ip, num, bitlength)` is not part of this model; its result
   * is taken to be the `bitlength`-bit address whose value is the base
   * address's value plus `num`, modulo 2^bitlength.
   */
  function InsertNumIntoIP(ip: IP, num: int, bitlength: nat): (r: IP)
    requires bitlength == 32 || bitlength == 128
    ensures |r| == bitlength / 8
    ensures 0 <= AddressValue(ip, bitlength) + num < Pow256(bitlength / 8) ==>
              BytesValue(r) == AddressValue(ip, bitlength) + num
  {
    var w := bitlength / 8;
    var v := AddressValue(ip, bitlength) + num;
    if 0 <= v < Pow256(w) then BytesOfValue(v, w); ValueBytes(v, w)
    else ValueBytes(v, w)
  }

  /** The value of the low `bitlength` bits of `ip` (its last bitlength/8 bytes). */
  function AddressValue(ip: IP, bitlength: nat): nat {
    var w := bitlength / 8;
    if |ip| <= w then BytesValue(ip) else BytesValue(ip[|ip| - w..])
  }

  // ----- cidr.GenerateIP -----

  /**
   * `uint64(1<<uint64(hostLen)) - 1`: the constant 1 is a uint64, so the shift
   * yields 0 once hostLen reaches 64 and the subtraction wraps.
   */
  function MaxHostNum(hostLen: nat): (r: uint64)
    ensures hostLen < 64 ==> r == Pow2(hostLen) - 1
    ensures hostLen >= 64 ==> r == TwoTo64 - 1
  {
    if hostLen < 64 then Pow2Below64(hostLen); ToUint64(Pow2(hostLen) - 1)
    else ToUint64(0 - 1)
  }

  lemma {:induction false} Pow2Below64(k: nat)
    requires k < 64
    ensures Pow2(k) <= TwoTo63
  {
    if k > 0 { Pow2Below64(k - 1); }
    else { }
    if k == 63 { Pow2Is63(); }
    else if k > 0 { Pow2Mono(k, 63); Pow2Is63(); }
  }

  lemma {:induction false} Pow2Mono(a: nat, b: nat)
    requires a <= b
    ensures Pow2(a) <= Pow2(b)
    decreases b
  {
    if a < b { Pow2Mono(a, b - 1); }
  }

  lemma Pow2Is63()
    ensures Pow2(63) == TwoTo63
  {
    assert Pow2(8) == 0x100;
    assert Pow2(16) == 0x10000;
    assert Pow2(24) == 0x1000000;
    assert Pow2(32) == 0x100000000;
    assert Pow2(40) == 0x10000000000;
    assert Pow2(48) == 0x1000000000000;
    assert Pow2(56) == 0x100000000000000;
    assert Pow2(63) == 0x8000000000000000;
  }

  lemma {:induction false} Pow2Add(a: nat, b: nat)
    ensures Pow2(a + b) == Pow2(a) * Pow2(b)
    decreases b
  {
    if b > 0 {
      Pow2Add(a, b - 1);
      assert Pow2(a + b) == 2 * Pow2(a + b - 1);
    }
  }

  /** The unsigned host number GenerateIP compares with the maximum: num, or -num-1 when negative. */
  function HostIndex(num: int64): uint64 {
    if num < 0 then -(num as int) - 1 else num as int
  }

  /** The number GenerateIP finally inserts: num itself, or maxHostNum - (-num-1) when counting from the top. */
  function HostNumber(maxHostNum: uint64, num: int64): int64 {
    if num < 0 then ToInt64(ToUint64(maxHostNum - HostIndex(num))) else num
  }

  /** The prefix length, the host-part length and the address width GenerateIP works with. */
  function PrefixLen(base: IPNet): nat { MaskSize(base.mask).0 }
  function HostLen(base: IPNet): nat { MaskSize(base.mask).1 - MaskSize(base.mask).0 }
  function BitLength(base: IPNet): nat { if To4(base.ip).Some? then 32 else 128 }

  /** `cidr.GenerateIP(base, num)`. */
  function GenerateIP(base: IPNet, num: int64): (r: Result<IP>)
    ensures r.Ok? <==> HostIndex(num) <= MaxHostNum(HostLen(base))
    ensures r.Ok? ==> |r.value| == BitLength(base) / 8
    ensures r.Err? ==> r.error == Fail("prefix of " + IntToDecimal(PrefixLen(base))
                                       + " does not accommodate a host numbered "
                                       + IntToDecimal(HostNumber(MaxHostNum(HostLen(base)), num)))
  {
    var (parentLen, addrLen) := MaskSize(base.mask);
    var hostLen := addrLen - parentLen;
    var maxHostNum := MaxHostNum(hostLen);
    var numUint64 := HostIndex(num);
    var n := HostNumber(maxHostNum, num);
    if numUint64 > maxHostNum then
      Err(Fail("prefix of " + IntToDecimal(parentLen) + " does not accommodate a host numbered " + IntToDecimal(n)))
    else
      var bitlength := if To4(base.ip).Some? then 32 else 128;
      Ok(InsertNumIntoIP(base.ip, n, bitlength))
  }

  /**
   * A successful GenerateIP yields the address whose value is the base
   * address's plus the host number it computed (num itself, or counted down
   * from the largest host number when negative), modulo 2^bitlength.
   */
  lemma GenerateIPInserts(base: IPNet, num: int64)
    requires GenerateIP(base, num).Ok?
    ensures BytesValue(GenerateIP(base, num).value) ==
            (AddressValue(base.ip, BitLength(base)) + HostNumber(MaxHostNum(HostLen(base)), num)) % Pow256(BitLength(base) / 8)
  {
    ValueBytesMod(AddressValue(base.ip, BitLength(base)) + HostNumber(MaxHostNum(HostLen(base)), num), BitLength(base) / 8);
  }

  /**
   * A non-negative host number succeeds exactly when it is at most the largest
   * host number of the prefix, and then the address is the base plus that number.
   */
  lemma GenerateIPNonNegative(base: IPNet, num: int64)
    requires num >= 0
    ensures GenerateIP(base, num).Ok? <==> num <= MaxHostNum(HostLen(base))
    ensures GenerateIP(base, num).Ok? && AddressValue(base.ip, BitLength(base)) + num < Pow256(BitLength(base) / 8)
            ==> BytesValue(GenerateIP(base, num).value) == AddressValue(base.ip, BitLength(base)) + num
  {
  }

  /**
   * A negative host number -k counts from the top of the prefix: it succeeds
   * exactly when k-1 is at most the largest host number, and then (for a host
   * part narrower than 63 bits) the host number used is maxHostNum - (k-1);
   * -1 is the last host.
   */
  lemma GenerateIPFromTop(base: IPNet, k: nat)
    requires 1 <= k <= TwoTo63
    requires HostLen(base) < 63
    ensures GenerateIP(base, -(k as int)).Ok? <==> k - 1 <= MaxHostNum(HostLen(base))
    ensures GenerateIP(base, -(k as int)).Ok? ==> HostNumber(MaxHostNum(HostLen(base)), -(k as int)) == MaxHostNum(HostLen(base)) - (k - 1)
    ensures GenerateIP(base, -(k as int)).Ok?
            && AddressValue(base.ip, BitLength(base)) + MaxHostNum(HostLen(base)) - (k - 1) < Pow256(BitLength(base) / 8)
            ==> BytesValue(GenerateIP(base, -(k as int)).value)
                == AddressValue(base.ip, BitLength(base)) + MaxHostNum(HostLen(base)) - (k - 1)
  {
    var num: int64 := -(k as int);
    var m := MaxHostNum(HostLen(base));
    Pow2Mono(HostLen(base), 62);
    assert Pow2(62) < TwoTo63 by { Pow2Is63(); }
    if GenerateIP(base, num).Ok? {
      GenerateIPInserts(base, num);
      HostNumberFromTop(m, k);
    }
  }

  /** Counting k from the top of a host range below 2^63 stays in range. */
  lemma HostNumberFromTop(m: uint64, k: nat)
    requires 1 <= k <= TwoTo63 && m < TwoTo63 && k - 1 <= m
    ensures HostNumber(m, -(k as int)) == m - (k - 1)
  {
  }

  /** The address is 4 bytes wide for an IPv4 base and 16 bytes for any other. */
  lemma GenerateIPWidth(base: IPNet, num: int64)
    requires GenerateIP(base, num).Ok?
    ensures |base.ip| == 4 ==> |GenerateIP(base, num).value| == 4
    ensures To4(base.ip).None? ==> |GenerateIP(base, num).value| == 16
  {
  }

  /** The largest host number of 10.3.0.0/16. */
  lemma ExampleHosts()
    ensures MaxHostNum(HostLen(IPNet([10, 3, 0, 0], CIDRMask(16, 32)))) == 65535
  {
    MaskSizeOfCIDRMask(16, 32);
    assert Pow2(16) == 65536 by { assert Pow2(8) == 256; }
  }

  /** The width and the value of the base address 10.3.0.0. */
  lemma ExampleBase()
    ensures BitLength(IPNet([10, 3, 0, 0], CIDRMask(16, 32))) == 32
    ensures AddressValue([10, 3, 0, 0], 32) == 167968768
    ensures Pow256(4) == 0x1_0000_0000
  {
    BytesValue4([10, 3, 0, 0]);
  }

  /** The only 4-byte address with the value of 10.3.0.2. */
  lemma ExampleResult(ip: IP)
    requires |ip| == 4 && BytesValue(ip) == 167968770
    ensures ip == [10, 3, 0, 2]
  {
    BytesValue4([10, 3, 0, 2]);
    BytesDetermine(ip, [10, 3, 0, 2]);
  }

  /** The example the function documents: 10.3.0.0/16 with host number 2 gives 10.3.0.2. */
  lemma GenerateIPExample()
    ensures GenerateIP(IPNet([10, 3, 0, 0], CIDRMask(16, 32)), 2) == Ok([10, 3, 0, 2])
  {
    var base := IPNet([10, 3, 0, 0], CIDRMask(16, 32));
    ExampleHosts();
    ExampleBase();
    GenerateIPNonNegative(base, 2);
    ExampleResult(GenerateIP(base, 2).value);
  }

  lemma BytesValue4(a: seq<byte>)
    requires |a| == 4
    ensures BytesValue(a) == (((a[0] as int) * 256 + a[1]) * 256 + a[2]) * 256 + a[3]
  {
    var a3, a2, a1 := a[..3], a[..2], a[..1];
    assert a3[..2] == a2 && a2[..1] == a1 && a1[..0] == [];
    assert BytesValue(a1) == a[0];
    assert BytesValue(a2) == BytesValue(a1) * 256 + a[1];
    assert BytesValue(a3) == BytesValue(a2) * 256 + a[2];
  }

  lemma DivMod256(q: int, r: int)
    requires 0 <= r < 256
    ensures (q * 256 + r) / 256 == q && (q * 256 + r) % 256 == r
  {
  }

  /** The last byte of a value and the value of the bytes before it. */
  lemma BytesSplit(a: seq<byte>, b: seq<byte>)
    requires |a| == |b| && |a| > 0 && BytesValue(a) == BytesValue(b)
    ensures a[|a| - 1] == b[|b| - 1] && BytesValue(a[..|a| - 1]) == BytesValue(b[..|b| - 1])
  {
    DivMod256(BytesValue(a[..|a| - 1]), a[|a| - 1]);
    DivMod256(BytesValue(b[..|b| - 1]), b[|b| - 1]);
  }

  lemma {:induction false} BytesDetermine(a: seq<byte>, b: seq<byte>)
    requires |a| == |b| && BytesValue(a) == BytesValue(b)
    ensures a == b
    decreases |a|
  {
    if |a| > 0 {
      BytesSplit(a, b);
      BytesDetermine(a[..|a| - 1], b[..|b| - 1]);
      assert a == a[..|a| - 1] + [a[|a| - 1]];
      assert b == b[..|b| - 1] + [b[|b| - 1]];
    }
  }

  // ----- bitwise operations on bytes -----

  /** The low `n` bits of `a` and `b`, combined bit by bit: set where both are set. */
  function AndBits(a: nat, b: nat, n: nat): (r: nat)
    ensures r < Pow2(n)
  {
    if n == 0 then 0 else 2 * AndBits(a / 2, b / 2, n - 1) + (if a % 2 == 1 && b % 2 == 1 then 1 else 0)
  }
  /** The low `n` bits of `a` and `b`, combined bit by bit: set where either is set. */
  function OrBits(a: nat, b: nat, n: nat): (r: nat)
    ensures r < Pow2(n)
  {
    if n == 0 then 0 else 2 * OrBits(a / 2, b / 2, n - 1) + (if a % 2 == 1 || b % 2 == 1 then 1 else 0)
  }
  /** Go's `&`, `|` and `^` (complement) on bytes. */
  function And(a: byte, b: byte): byte { assert Pow2(8) == 256; AndBits(a, b, 8) }
  function Or(a: byte, b: byte): byte { assert Pow2(8) == 256; OrBits(a, b, 8) }
  function Not(a: byte): byte { 255 - a }
  /** Go's `b++` and `b--` on a byte: wrap modulo 256. */
  function Inc(a: byte): byte { if a == 255 then 0 else a + 1 }
  function Dec(a: byte): byte { if a == 0 then 255 else a - 1 }

  /** `a` with its low `h` bits cleared. */
  function ClearLow(a: nat, h: nat): nat {
    if h == 0 then a else 2 * ClearLow(a / 2, h - 1)
  }

  /** Keeping the high bits of an `n`-bit value clears its low `h` bits. */
  lemma {:induction false} AndHigh(a: nat, n: nat, h: nat)
    requires h <= n && a < Pow2(n)
    ensures Pow2(h) <= Pow2(n)
    ensures AndBits(a, Pow2(n) - Pow2(h), n) == ClearLow(a, h)
    decreases n
  {
    Pow2Mono(h, n);
    if n > 0 {
      var b := Pow2(n) - Pow2(h);
      if h == 0 {
        Pow2Mono(0, n - 1);
        assert b / 2 == Pow2(n - 1) - 1 && b % 2 == 1;
        AndHigh(a / 2, n - 1, 0);
      } else {
        assert b / 2 == Pow2(n - 1) - Pow2(h - 1) && b % 2 == 0;
        AndHigh(a / 2, n - 1, h - 1);
      }
    }
  }

  /** Setting the low `h` bits of an `n`-bit value puts it at the top of its block of 2^h. */
  lemma {:induction false} OrLow(a: nat, n: nat, h: nat)
    requires h <= n && a < Pow2(n)
    ensures OrBits(a, Pow2(h) - 1, n) == ClearLow(a, h) + Pow2(h) - 1
    decreases n
  {
    if n > 0 {
      if h == 0 {
        OrLow(a / 2, n - 1, 0);
      } else {
        var b := Pow2(h) - 1;
        assert b / 2 == Pow2(h - 1) - 1 && b % 2 == 1;
        OrLow(a / 2, n - 1, h - 1);
      }
    }
  }

  /** Adding less than 2^h to a value with clear low bits and clearing them again gives it back. */
  lemma {:induction false} ClearPlus(a: nat, h: nat, d: nat)
    requires d < Pow2(h)
    ensures ClearLow(ClearLow(a, h) + d, h) == ClearLow(a, h)
    decreases h
  {
    if h > 0 {
      ClearPlus(a / 2, h - 1, d / 2);
      assert (ClearLow(a, h) + d) / 2 == ClearLow(a / 2, h - 1) + d / 2;
    }
  }

  /** Masking a byte with 256 - 2^h clears its low h bits. */
  lemma AndMaskByte(x: byte, h: nat)
    requires h <= 8
    ensures Pow2(h) <= 256
    ensures And(x, 256 - Pow2(h)) == ClearLow(x, h)
  {
    assert Pow2(8) == 256;
    AndHigh(x, 8, h);
  }

  /** Or-ing a byte with the complement of 256 - 2^h sets its low h bits. */
  lemma OrNotMaskByte(x: byte, h: nat)
    requires h <= 8
    ensures Pow2(h) <= 256
    ensures Or(x, Not(256 - Pow2(h))) == ClearLow(x, h) + Pow2(h) - 1
  {
    assert Pow2(8) == 256;
    Pow2Mono(h, 8);
    OrLow(x, 8, h);
  }
  /** The number of host bits a canonical mask leaves in byte `i`. */
  function ByteHostBits(ones: nat, i: nat): (h: nat)
    ensures h <= 8
  {
    if ones >= 8 * (i + 1) then 0 else if ones <= 8 * i then 8 else 8 - (ones - 8 * i)
  }

  /** A canonical mask byte is 256 - 2^h for its h host bits. */
  lemma MaskBytePow2(ones: nat, i: nat)
    ensures MaskByte(ones, i) == 256 - Pow2(ByteHostBits(ones, i))
  {
    assert Pow2(8) == 256;
    if 8 * i < ones < 8 * (i + 1) {
      var k := ones - 8 * i;
      assert Pow2(1) == 2 && Pow2(2) == 4 && Pow2(3) == 8 && Pow2(4) == 16;
      assert Pow2(5) == 32 && Pow2(6) == 64 && Pow2(7) == 128;
      assert k == 1 || k == 2 || k == 3 || k == 4 || k == 5 || k == 6 || k == 7;
    }
  }

  /** `IP.Mask(mask)`: the address with the host bits cleared, or nil when the lengths do not match. */
  function MaskIP(ip: IP, mask: seq<byte>): (r: Option<IP>)
    ensures r.Some? ==> |r.value| == |ip| || |r.value| == 4
  {
    var m := if |mask| == 16 && |ip| == 4 && (forall i :: 0 <= i < 12 ==> mask[i] == 255) then mask[12..] else mask;
    var p := if |m| == 4 && |ip| == 16 && (forall i :: 0 <= i < 10 ==> ip[i] == 0) && ip[10] == 255 && ip[11] == 255
             then ip[12..] else ip;
    if |p| != |m| then None
    else Some(seq(|p|, i requires 0 <= i < |p| => And(p[i], m[i])))
  }

  // ----- net.IP.String -----

  /** `IP.String()`: dotted decimal for IPv4 (and IPv4-mapped) addresses, RFC 5952 text for IPv6. */
  function IPString(ip: IP): string {
    if |ip| == 0 then "<nil>"
    else if To4(ip).Some? then
      var p := To4(ip).value;
      NatToDecimal(p[0]) + "." + NatToDecimal(p[1]) + "." + NatToDecimal(p[2]) + "." + NatToDecimal(p[3])
    else if |ip| != 16 then "?" + HexBytes(ip)
    else
      var w := seq(8, k requires 0 <= k < 8 => (ip[2 * k] as int) * 256 + ip[2 * k + 1] as int);
      var (e0, e1) := LongestZeroRun(w, 0, -1, -1);
      if e1 - e0 <= 1 then FormatWords(w, 0, -1, -1) else FormatWords(w, 0, e0, e1)
  }

  function HexBytes(b: seq<byte>): string {
    if b == [] then "" else [HexDigit(b[0] / 16), HexDigit(b[0] % 16)] + HexBytes(b[1..])
  }

  /** Lower-case hexadecimal of a 16-bit value without leading zeros. */
  function Hex16(v: nat): string
    decreases v
  {
    if v < 16 then [HexDigit(v)] else Hex16(v / 16) + [HexDigit(v % 16)]
  }

  /** The end of the run of zero words starting at `k`. */
  function ZeroRunEnd(w: seq<nat>, k: nat): (j: nat)
    requires k <= |w|
    ensures k <= j <= |w|
    decreases |w| - k
  {
    if k < |w| && w[k] == 0 then ZeroRunEnd(w, k + 1) else k
  }

  /** The first longest run [e0, e1) of zero words, as the `String` method's scan finds it. */
  function LongestZeroRun(w: seq<nat>, k: nat, e0: int, e1: int): (r: (int, int))
    requires k <= |w|
    decreases |w| - k
  {
    if k >= |w| then (e0, e1)
    else
      var j := ZeroRunEnd(w, k);
      if j > k && j - k > e1 - e0 then
        (if j + 1 <= |w| then LongestZeroRun(w, j + 1, k, j) else (k, j))
      else LongestZeroRun(w, k + 1, e0, e1)
  }

  /** The words from `k` on, separated by ':', with "::" in place of the words [e0, e1). */
  function FormatWords(w: seq<nat>, k: nat, e0: int, e1: int): string
    requires k <= |w|
    decreases |w| - k
  {
    if k >= |w| then ""
    else if k == e0 then
      if e1 >= |w| || e1 < k then "::"
      else "::" + Hex16(w[e1]) + FormatWords(w, e1 + 1, e0, e1)
    else
      (if k > 0 then ":" else "") + Hex16(w[k]) + FormatWords(w, k + 1, e0, e1)
  }
}
