/**
 Synthetic client identities for `X-Forwarded-For`. A virtual-user ordinal
 is written as a `10.<block>.<hi>.<lo>` address so that each VU has its own
 per-client identity; the circuit-breaker scenario instead sends one fixed
 shared address from every VU.
 */
module Identity {
  import opened Decimal

  /** Block used by the shared library's `authHeaders`. */
  const AuthBlock: nat := 100
  /** Block used by the chaos scenario's `makeHeaders`. */
  const ChaosBlock: nat := 200
  /** The one address every VU of the circuit-breaker scenario sends. */
  const SharedAddress: string := "10.99.0.1"

  /** Numbers joined by dots, each in decimal: `Dotted([10, 0, 1]) == "10.0.1"`. */
  function Dotted(parts: seq<nat>): (s: string)
    requires |parts| >= 1
    ensures FromNat(parts[0]) <= s
    ensures |parts| == 1 <==> s == FromNat(parts[0])
    ensures |parts| > 1 ==> s[|FromNat(parts[0])|] == '.'
    ensures forall i :: 0 <= i < |s| ==> IsDigit(s[i]) || s[i] == '.'
    decreases |parts|
  {
    if |parts| == 1 then FromNat(parts[0])
    else FromNat(parts[0]) + "." + Dotted(parts[1..])
  }

  /** The two low octets of an ordinal: `(ordinal div 256, ordinal mod 256)`. */
  function Octets(ordinal: nat): (o: (nat, nat))
    ensures o.1 < 256
    ensures ordinal == o.0 * 256 + o.1
    ensures ordinal < 65536 ==> o.0 < 256
  {
    (ordinal / 256, ordinal % 256)
  }

  /** The per-VU identity of an ordinal within a block. */
  function Address(block: nat, ordinal: nat): (s: string)
    ensures "10." + FromNat(block) + "." <= s
    ensures forall i :: 0 <= i < |s| ==> IsDigit(s[i]) || s[i] == '.'
  {
    var (hi, lo) := Octets(ordinal);
    var parts: seq<nat> := [10, block, hi, lo];
    assert FromNat(10) == "10";
    assert parts[1..] == [block, hi, lo];
    assert parts[1..][1..] == [hi, lo];
    Dotted(parts)
  }

  /** A numeral followed by a dot can be split off unambiguously. */
  lemma SplitAtFirstDot(a: string, b: string, c: string, d: string)
    requires '.' !in a && '.' !in c
    requires a + "." + b == c + "." + d
    ensures a == c && b == d
  {
    var s := a + "." + b;
    var t := c + "." + d;
    assert s[|a|] == '.';
    assert t[|c|] == '.';
    assert |a| == |c|;
    assert a == s[..|a|];
    assert c == s[..|c|];
    assert b == s[|a| + 1..];
    assert d == s[|c| + 1..];
  }

  /** Dotted renderings of equally long lists are equal only for equal lists. */
  lemma {:induction false} DottedInjective(p: seq<nat>, q: seq<nat>)
    requires |p| >= 1 && |p| == |q|
    requires Dotted(p) == Dotted(q)
    ensures p == q
    decreases |p|
  {
    if |p| == 1 {
      FromNatInjective(p[0], q[0]);
    } else {
      FromNatHasNoDot(p[0]);
      FromNatHasNoDot(q[0]);
      SplitAtFirstDot(FromNat(p[0]), Dotted(p[1..]), FromNat(q[0]), Dotted(q[1..]));
      FromNatInjective(p[0], q[0]);
      DottedInjective(p[1..], q[1..]);
      assert p == [p[0]] + p[1..];
      assert q == [q[0]] + q[1..];
    }
  }

  /** Spread addresses never collide: equal addresses have the same block and the same ordinal. */
  lemma AddressInjective(block1: nat, ordinal1: nat, block2: nat, ordinal2: nat)
    requires Address(block1, ordinal1) == Address(block2, ordinal2)
    ensures block1 == block2 && ordinal1 == ordinal2
  {
    var (h1, l1) := Octets(ordinal1);
    var (h2, l2) := Octets(ordinal2);
    DottedInjective([10, block1, h1, l1], [10, block2, h2, l2]);
  }

  /** For ordinals 0..65535 the per-VU address is a well-formed IPv4 address in the block. */
  lemma AddressIsIPv4(block: nat, ordinal: nat)
    requires block < 256 && ordinal < 65536
    ensures exists hi: nat, lo: nat :: hi < 256 && lo < 256 && ordinal == hi * 256 + lo
              && Address(block, ordinal) == Dotted([10, block, hi, lo])
  {
    var (hi, lo) := Octets(ordinal);
    assert Address(block, ordinal) == Dotted([10, block, hi, lo]);
  }

  /** The shared identity is the per-VU encoding of ordinal 1 in block 99. */
  lemma SharedAddressIsBlock99()
    ensures SharedAddress == Address(99, 1)
  {
    assert FromNat(99) == "99";
    assert FromNat(10) == "10";
    var parts: seq<nat> := [10, 99, 0, 1];
    assert parts[1..] == [99, 0, 1];
    assert parts[1..][1..] == [0, 1];
    assert parts[1..][1..][1..] == [1];
    assert Octets(1) == (0, 1);
  }

  /** The shared identity differs from every per-VU identity of the auth and chaos blocks. */
  lemma SharedAddressIsolated(ordinal: nat)
    ensures SharedAddress != Address(AuthBlock, ordinal)
    ensures SharedAddress != Address(ChaosBlock, ordinal)
  {
    SharedAddressIsBlock99();
    if SharedAddress == Address(AuthBlock, ordinal) {
      AddressInjective(99, 1, AuthBlock, ordinal);
    }
    if SharedAddress == Address(ChaosBlock, ordinal) {
      AddressInjective(99, 1, ChaosBlock, ordinal);
    }
  }

  /** The library's identities start with `10.100.`, the chaos scenario's with `10.200.`. */
  lemma AddressPrefix(ordinal: nat)
    ensures "10.100." <= Address(AuthBlock, ordinal)
    ensures "10.200." <= Address(ChaosBlock, ordinal)
  {
    assert FromNat(100) == "100";
    assert FromNat(200) == "200";
    assert FromNat(10) == "10";
    var (hi, lo) := Octets(ordinal);
    var p: seq<nat> := [10, AuthBlock, hi, lo];
    assert p[1..] == [AuthBlock, hi, lo];
    assert Dotted(p[1..]) == "100" + "." + Dotted(p[1..][1..]);
    assert Address(AuthBlock, ordinal) == "10" + "." + ("100" + "." + Dotted(p[1..][1..]));
    assert Address(AuthBlock, ordinal) == "10.100." + Dotted(p[1..][1..]);
    var q: seq<nat> := [10, ChaosBlock, hi, lo];
    assert q[1..] == [ChaosBlock, hi, lo];
    assert Dotted(q[1..]) == "200" + "." + Dotted(q[1..][1..]);
    assert Address(ChaosBlock, ordinal) == "10" + "." + ("200" + "." + Dotted(q[1..][1..]));
    assert Address(ChaosBlock, ordinal) == "10.200." + Dotted(q[1..][1..]);
  }
}
