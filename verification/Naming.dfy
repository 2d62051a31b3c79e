/** Names of the Linux devices of a VPC. The agent and the controller each have
    their own code for the bridge name; both are modelled and shown equal. */
module Naming {
  import opened Ipv4
  import opened Uuids

  /** strings.ReplaceAll(id, "-", ""). */
  function RemoveHyphens(id: string): (s: string)
    ensures |s| <= |id|
  {
    if id == "" then ""
    else if id[0] == '-' then RemoveHyphens(id[1..])
    else [id[0]] + RemoveHyphens(id[1..])
  }

  /** agent: slug. */
  function Slug(id: string): (s: string)
    ensures |s| <= 9
  {
    var clean := RemoveHyphens(id);
    if |clean| > 9 then clean[..9] else clean
  }

  /** agent: BridgeName and netnsName. */
  function BridgeName(vpcId: string): string { "rs-br-" + Slug(vpcId) }

  function NetnsName(vpcId: string): string { "rs-natgw-" + Slug(vpcId) }

  /** controller: bridgeName. It computes the agent's bridge name. */
  method ControllerBridgeName(vpcId: string) returns (name: string)
    ensures name == BridgeName(vpcId)
  {
    var clean := RemoveHyphens(vpcId);
    if |clean| > 9 {
      clean := clean[..9];
    }
    name := "rs-br-" + clean;
  }

  /** What the two names share: they fit the kernel's 15 characters, and two VPCs
      get the same bridge exactly when their hyphen-free identifiers agree once
      truncated to nine characters. The bridge and the namespace collide together. */
  lemma BridgeNameCollision(x: string, y: string)
    ensures |BridgeName(x)| <= 15
    ensures BridgeName(x) == BridgeName(y)
            <==> var a, b := RemoveHyphens(x), RemoveHyphens(y);
                 a == b || (|a| >= 9 && |b| >= 9 && a[..9] == b[..9])
    ensures BridgeName(x) == BridgeName(y) <==> NetnsName(x) == NetnsName(y)
  {
    assert BridgeName(x)[6..] == Slug(x) && BridgeName(y)[6..] == Slug(y);
    assert NetnsName(x)[9..] == Slug(x) && NetnsName(y)[9..] == Slug(y);
    var a, b := RemoveHyphens(x), RemoveHyphens(y);
    assert |a| == 9 ==> a[..9] == a;
    assert |b| == 9 ==> b[..9] == b;
  }

  lemma {:induction false} RemoveHyphensConcat(x: string, y: string)
    ensures RemoveHyphens(x + y) == RemoveHyphens(x) + RemoveHyphens(y)
  {
    if x == "" {
      assert x + y == y;
    } else {
      assert (x + y)[1..] == x[1..] + y;
      RemoveHyphensConcat(x[1..], y);
    }
  }

  lemma {:induction false} RemoveHyphensKeeps(s: string)
    requires '-' !in s
    ensures RemoveHyphens(s) == s
  {
    if s != "" {
      RemoveHyphensKeeps(s[1..]);
    }
  }

  /** The slug of a UUID: its first nine hexadecimal digits, that is the first
      four bytes and the high half of the fifth. */
  lemma SlugOfUuid(u: Uuid)
    ensures var bs := Bytes(u, 16);
            Slug(Text(u)) == Hex(bs[0..4]) + [Digit(bs[4] / 16)]
  {
    var bs := Bytes(u, 16);
    var a, b := Hex(bs[0..4]), Hex(bs[4..6]);
    var rest := "-" + Hex(bs[6..8]) + "-" + Hex(bs[8..10]) + "-" + Hex(bs[10..16]);
    assert Text(u) == a + ("-" + (b + rest)) by {
      assert a + "-" + b + rest == a + ("-" + (b + rest));
    }
    HexHasNoHyphen(bs[0..4]);
    HexHasNoHyphen(bs[4..6]);
    SlugOfGroups(a, b, rest);
  }

  lemma HexHasNoHyphen(bs: seq<byte>)
    ensures '-' !in Hex(bs)
  {
    UnhexHex(bs);
  }

  lemma SlugOfGroups(a: string, b: string, rest: string)
    requires |a| == 8 && |b| == 4 && '-' !in a && '-' !in b
    ensures Slug(a + ("-" + (b + rest))) == a + [b[0]]
  {
    RemoveHyphensKeeps(a);
    RemoveHyphensKeeps(b);
    RemoveHyphensConcat(a, "-" + (b + rest));
    RemoveHyphensConcat("-", b + rest);
    RemoveHyphensConcat(b, rest);
    assert RemoveHyphens("-") == "";
    assert RemoveHyphens(a + ("-" + (b + rest))) == a + (b + RemoveHyphens(rest));
  }

  /** Two VPCs with generated identifiers share a bridge exactly when the first 36
      bits of the identifiers agree. */
  lemma VpcBridgeCollision(u: Uuid, v: Uuid)
    ensures BridgeName(Text(u)) == BridgeName(Text(v))
            <==> Bytes(u, 16)[..4] == Bytes(v, 16)[..4] && Bytes(u, 16)[4] / 16 == Bytes(v, 16)[4] / 16
  {
    var x, y := Bytes(u, 16), Bytes(v, 16);
    assert BridgeName(Text(u))[6..] == Slug(Text(u)) && BridgeName(Text(v))[6..] == Slug(Text(v));
    SlugOfUuid(u);
    SlugOfUuid(v);
    UnhexHex(x[0..4]);
    UnhexHex(y[0..4]);
    DigitsInverse();
    var p, q, m, n := Hex(x[0..4]), Hex(y[0..4]), x[4] / 16, y[4] / 16;
    assert (p + [Digit(m)])[..8] == p && (q + [Digit(n)])[..8] == q;
    assert (p + [Digit(m)])[8] == Digit(m) && (q + [Digit(n)])[8] == Digit(n);
    assert DigitValue(Digit(m)) == m && DigitValue(Digit(n)) == n;
    assert x[0..4] == x[..4] && y[0..4] == y[..4];
  }
}
