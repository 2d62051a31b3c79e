/** IPv4 networks as the controller and the agent compute with them: four
    big-endian bytes, of which only the last one is ever changed. */
module Ipv4 {
  import opened Wrappers

  type byte = x: int | 0 <= x < 256

  datatype Address = Address(a: byte, b: byte, c: byte, d: byte)

  /** What net.ParseCIDR accepts: an address of either family and a prefix length. */
  datatype Cidr = V4(host: Address, prefix: nat) | V6

  /** A parsed IPv4 network: the host bits of `base` are zero. */
  datatype Network = Network(base: Address, prefix: nat)

  function Value(x: Address): (v: nat)
    ensures v < 0x1_0000_0000
  {
    x.a * 0x100_0000 + x.b * 0x1_0000 + x.c * 0x100 + x.d
  }

  function FromValue(v: nat): Address
    requires v < 0x1_0000_0000
  {
    Address(v / 0x100_0000, v / 0x1_0000 % 256, v / 0x100 % 256, v % 256)
  }

  function Pow2(n: nat): (p: nat)
    ensures p >= 1
  {
    if n == 0 then 1 else 2 * Pow2(n - 1)
  }

  /** The number of addresses of a network with this prefix. */
  function BlockSize(prefix: nat): nat
    requires prefix <= 32
  {
    Pow2(32 - prefix)
  }

  ghost predicate IsNetwork(net: Network) {
    net.prefix <= 32 && Value(net.base) % BlockSize(net.prefix) == 0
  }

  ghost predicate Contains(net: Network, x: Address)
    requires net.prefix <= 32
  {
    Value(net.base) <= Value(x) < Value(net.base) + BlockSize(net.prefix)
  }

  /** A host address of the network: in it, and neither its network nor its
      broadcast address. */
  ghost predicate IsHost(net: Network, x: Address)
    requires net.prefix <= 32
  {
    Value(net.base) < Value(x) < Value(net.base) + BlockSize(net.prefix) - 1
  }

  /** net.ParseCIDR: clear the host bits; then To4, which fails for IPv6. */
  function ParseCidr(cidr: Cidr): Result<Network> {
    match cidr
    case V6 => Err(UnsupportedCidr)
    case V4(host, prefix) =>
      if prefix > 32 then Err(UnsupportedCidr)
      else
        Ok(Network(FromValue(Masked(Value(host), BlockSize(prefix))), prefix))
  }

  /** The start of the block of size k that v falls in. */
  function Masked(v: nat, k: nat): (w: nat)
    requires k >= 1
    ensures w % k == 0 && w <= v < w + k
    ensures v % k == 0 ==> w == v
  {
    ClearRemainder(v, k);
    v - v % k
  }

  /** Clearing the remainder of a division. */
  lemma ClearRemainder(v: nat, k: nat)
    requires k >= 1
    ensures 0 <= v % k <= v
    ensures (v - v % k) % k == 0
    ensures v - v % k <= v < v - v % k + k
    ensures v % k == 0 ==> v - v % k == v
  {
    MultipleMod(v / k, k);
  }

  /** The ++ of an unsigned byte. */
  function Incremented(b: byte): byte {
    if b == 255 then 0 else b + 1
  }

  /** The gateway: the last byte of the base, incremented as an unsigned byte. */
  function Gateway(net: Network): Address {
    net.base.(d := (net.base.d + 1) % 256)
  }

  /** The address given to a VM when `count` instances exist: the last byte is
      overwritten, not added to. */
  function VmAddress(net: Network, count: nat): Address {
    net.base.(d := (11 + count) % 256)
  }

  lemma FromValueInverse(v: nat)
    requires v < 0x1_0000_0000
    ensures Value(FromValue(v)) == v
  {
    var x := v / 256;
    assert v / 0x1_0000 == x / 256 && v / 0x100_0000 == x / 256 / 256;
  }

  lemma {:induction false} Pow2Sum(m: nat, n: nat)
    ensures Pow2(m + n) == Pow2(m) * Pow2(n)
  {
    if m > 0 {
      Pow2Sum(m - 1, n);
      assert Pow2(m + n) == 2 * Pow2(m - 1 + n);
    }
  }

  lemma {:induction false} Pow2Monotone(m: nat, n: nat)
    requires m <= n
    ensures Pow2(m) <= Pow2(n)
  {
    if m < n {
      Pow2Monotone(m, n - 1);
    }
  }

  lemma {:induction false} AtLeastOneMultiple(k: nat, t: nat)
    requires t >= 1
    ensures k * t >= k
  {
    if t > 1 {
      AtLeastOneMultiple(k, t - 1);
      assert k * t == k * (t - 1) + k;
    }
  }

  /** Comparing two multiples compares the multipliers. */
  lemma MultiplesInOrder(k: nat, i: int, j: int)
    requires k >= 1
    ensures i < j <==> k * i < k * j
    ensures i + 1 <= j ==> k * i + k <= k * j
  {
    assert k * j - k * i == k * (j - i);
    assert k * i - k * j == k * (i - j);
    if i < j {
      AtLeastOneMultiple(k, j - i);
    } else if j < i {
      AtLeastOneMultiple(k, i - j);
    }
  }

  lemma MultipleMod(q: nat, m: nat)
    requires m >= 1
    ensures (m * q) % m == 0
  {
    var x := m * q;
    assert x == m * (x / m) + x % m;
    MultiplesInOrder(m, x / m, q);
    MultiplesInOrder(m, q, x / m);
  }

  /** A multiple of k * m is a multiple of m. */
  lemma FactorMod(v: nat, k: nat, m: nat)
    requires k >= 1 && m >= 1 && k * m >= 1 && v % (k * m) == 0
    ensures v % m == 0
  {
    var q := v / (k * m);
    assert v == m * (k * q);
    MultipleMod(k * q, m);
  }

  /** A remainder modulo k * m of a multiple of k is a multiple of k and leaves
      room for one more block of k. */
  lemma RemainderMod(v: nat, d: nat, k: nat, m: nat)
    requires k >= 1 && k * m >= 1 && v % k == 0 && d == v % (k * m)
    ensures d % k == 0 && d + k <= k * m
  {
    var q, j := v / (k * m), v / k;
    var i := j - m * q;
    assert d == k * i by {
      assert v == (k * m) * q + d && v == k * j;
      assert (k * m) * q == k * (m * q);
    }
    MultiplesInOrder(k, i, 0);
    MultiplesInOrder(k, i, m);
    MultipleMod(i, k);
  }

  lemma Powers()
    ensures Pow2(0) == 1 && Pow2(1) == 2 && Pow2(2) == 4 && Pow2(8) == 256 && Pow2(9) == 512
  {
    assert Pow2(4) == 16;
    Pow2Sum(4, 4);
  }

  /** The shape of a network's last byte: zero for a prefix of at most 24, and
      otherwise a multiple of a block that divides the byte's range. */
  lemma LastByte(net: Network)
    requires IsNetwork(net)
    ensures net.prefix <= 24 ==> net.base.d == 0 && BlockSize(net.prefix) >= 256
    ensures net.prefix < 24 ==> BlockSize(net.prefix) >= 512
    ensures net.prefix >= 24 ==> net.base.d % BlockSize(net.prefix) == 0
                                 && net.base.d + BlockSize(net.prefix) <= 256
  {
    if net.prefix <= 24 {
      LastByteZero(net);
      BlockIsLarge(net.prefix);
    }
    if net.prefix >= 24 {
      LastByteInBlock(net);
    }
  }

  lemma LastByteZero(net: Network)
    requires IsNetwork(net) && net.prefix <= 24
    ensures net.base.d == 0
  {
    Powers();
    Pow2Sum(24 - net.prefix, 8);
    FactorMod(Value(net.base), Pow2(24 - net.prefix), 256);
    LastByteOfValue(net.base);
  }

  lemma LastByteOfValue(x: Address)
    ensures Value(x) % 256 == x.d
  {
  }

  lemma BlockIsLarge(prefix: nat)
    requires prefix <= 24
    ensures BlockSize(prefix) >= 256
    ensures prefix < 24 ==> BlockSize(prefix) >= 512
  {
    Powers();
    Pow2Monotone(8, 32 - prefix);
    if prefix < 24 {
      Pow2Monotone(9, 32 - prefix);
    }
  }

  lemma LastByteInBlock(net: Network)
    requires IsNetwork(net) && 24 <= net.prefix
    ensures net.base.d % BlockSize(net.prefix) == 0 && net.base.d + BlockSize(net.prefix) <= 256
  {
    Powers();
    Pow2Sum(32 - net.prefix, net.prefix - 24);
    var v := Value(net.base);
    assert net.base.d == v % 256;
    RemainderMod(v, net.base.d, BlockSize(net.prefix), Pow2(net.prefix - 24));
  }

  /** Where the gateway is usable: it is a host address of its network exactly
      when the prefix is at most 30, and then it is base + 1 without overflow of
      the byte. */
  lemma GatewayIsHost(net: Network)
    requires IsNetwork(net)
    ensures IsHost(net, Gateway(net)) <==> net.prefix <= 30
    ensures net.prefix <= 31 ==> Value(Gateway(net)) == Value(net.base) + 1
  {
    LastByte(net);
    SmallBlocks(net.prefix);
    assert net.prefix <= 31 ==> net.base.d + 1 < 256;
  }

  lemma SmallBlocks(prefix: nat)
    requires prefix <= 32
    ensures prefix <= 30 <==> BlockSize(prefix) >= 4
    ensures prefix <= 31 <==> BlockSize(prefix) >= 2
  {
    Powers();
    if prefix <= 30 {
      Pow2Monotone(2, 32 - prefix);
    }
  }

  /** Where an allocated address is usable, for every network and every count: it
      is a host address other than the gateway exactly when its last byte falls
      at least two above the base's and at least two below the end of the block.
      The controller does not check this. */
  lemma VmAddressUsable(net: Network, count: nat)
    requires IsNetwork(net)
    ensures IsHost(net, VmAddress(net, count)) && VmAddress(net, count) != Gateway(net)
            <==> net.base.d + 2 <= (11 + count) % 256 && (11 + count) % 256 + 2 <= net.base.d + BlockSize(net.prefix)
  {
    LastByte(net);
    var o := (11 + count) % 256;
    assert Value(VmAddress(net, count)) == Value(net.base) - net.base.d + o;
    if net.base.d < 255 {
      assert Gateway(net).d == net.base.d + 1;
    }
  }

  /** The range the controller is designed for. */
  lemma DesignRange(net: Network, count: nat)
    requires IsNetwork(net) && net.prefix <= 24 && count <= 243
    ensures IsHost(net, Gateway(net)) && IsHost(net, VmAddress(net, count)) && VmAddress(net, count) != Gateway(net)
  {
    LastByte(net);
    GatewayIsHost(net);
    VmAddressUsable(net, count);
  }

  /** A /25 whose first allocated address lies outside it. */
  lemma HighHalfEscapes()
    ensures var net := Network(Address(10, 0, 0, 128), 25);
            IsNetwork(net) && VmAddress(net, 0) == Address(10, 0, 0, 11) && !Contains(net, VmAddress(net, 0))
  {
    assert Pow2(3) == 8;
    assert Pow2(7) == 128;
  }

  /** Two counts give the same address exactly when they agree modulo 256. */
  lemma SameVmAddress(net: Network, m: nat, n: nat)
    ensures VmAddress(net, m) == VmAddress(net, n) <==> m % 256 == n % 256
  {
    LastByteOf(m);
    LastByteOf(n);
  }

  lemma LastByteOf(count: nat)
    ensures (11 + count) % 256 == (if count % 256 < 245 then count % 256 + 11 else count % 256 - 245)
  {
  }

  /** Parsing gives a valid network that contains the host written in the CIDR,
      and keeps a CIDR whose host bits are already zero. */
  lemma ParseIsNetwork(host: Address, prefix: nat)
    requires prefix <= 32
    ensures ParseCidr(V4(host, prefix)).Ok?
    ensures var net := ParseCidr(V4(host, prefix)).value;
            IsNetwork(net) && net.prefix == prefix && Contains(net, host)
            && (IsNetwork(Network(host, prefix)) ==> net.base == host)
  {
    BaseOfHost(host, prefix, Masked(Value(host), BlockSize(prefix)));
  }

  lemma BaseOfHost(host: Address, prefix: nat, w: nat)
    requires prefix <= 32 && w <= Value(host) < w + BlockSize(prefix)
    ensures Value(FromValue(w)) == w && Contains(Network(FromValue(w), prefix), host)
    ensures w == Value(host) ==> FromValue(w) == host
  {
    assert Value(FromValue(w)) == w by { FromValueInverse(w); }
    assert FromValue(Value(host)) == host by { ValueInverse(host); }
  }

  lemma ValueInverse(x: Address)
    ensures FromValue(Value(x)) == x
  {
    var v := Value(x);
    assert v / 0x100_0000 == x.a && v / 0x1_0000 == x.a * 256 + x.b && v / 0x100 == x.a * 0x1_0000 + x.b * 256 + x.c;
  }

  /** The four bytes of an address, in a slice of their own. */
  method CopyOf(x: Address) returns (bytes: array<byte>)
    ensures fresh(bytes) && bytes.Length == 4 && bytes[..] == [x.a, x.b, x.c, x.d]
  {
    bytes := new byte[4][x.a, x.b, x.c, x.d];
  }
}
