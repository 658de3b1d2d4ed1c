/** IPv4 addresses and networks as Python's `ipaddress` module reads them:
    an address is a 32-bit natural, a network is an aligned block of
    2^(32 - prefix) addresses. */
module IPv4 {
  import opened Wrappers
  import opened Strings

  const AddressSpace: nat := 0x1_0000_0000

  type Address = n: nat | n < AddressSpace

  function Pow2(k: nat): (r: nat)
    ensures r >= 1
  {
    if k == 0 then 1 else 2 * Pow2(k - 1)
  }

  /** A parsed network: the base address and the prefix length. */
  datatype Network = Network(base: Address, prefixLen: nat)

  /** Size of a block with the given prefix length. */
  function BlockSize(prefixLen: nat): nat
    requires prefixLen <= 32
  {
    Pow2(32 - prefixLen)
  }

  /** `ip in network`: the address lies in the block that starts at the base. */
  predicate InNetwork(ip: Address, net: Network)
    requires net.prefixLen <= 32
  {
    net.base <= ip < net.base + BlockSize(net.prefixLen)
  }

  /** Python's `_parse_octet`: one to three ASCII digits, no leading zero
      unless the octet is "0", value at most 255. */
  function ParseOctet(s: string): (r: Option<nat>)
    ensures r.Some? ==> r.value < 256
  {
    if |s| == 0 || |s| > 3 || !AllDigits(s) || (s[0] == '0' && |s| > 1) then None
    else if DigitsValue(s) > 255 then None
    else Some(DigitsValue(s))
  }

  /** Python's `IPv4Address(s)` on text: exactly four dot-separated octets. */
  function ParseAddress(s: string): (r: Option<Address>)
  {
    var parts := Split(s, '.');
    if |parts| != 4 then None
    else
      match (ParseOctet(parts[0]), ParseOctet(parts[1]), ParseOctet(parts[2]), ParseOctet(parts[3]))
      case (Some(a), Some(b), Some(c), Some(d)) => Some(((a * 256 + b) * 256 + c) * 256 + d)
      case _ => None
  }

  /** The canonical dotted-quad text of an address (what a resolver's
      `to_text()` yields for an A record). */
  function FormatAddress(ip: Address): string
  {
    Join([NatToString(ip / 256 / 256 / 256), NatToString(ip / 256 / 256 % 256),
          NatToString(ip / 256 % 256), NatToString(ip % 256)], '.')
  }

  /** The four octets of an address recombine into the address. */
  lemma OctetsRecombine(ip: Address)
    ensures ip / 256 / 256 / 256 < 256
    ensures ((ip / 256 / 256 / 256 * 256 + ip / 256 / 256 % 256) * 256 + ip / 256 % 256) * 256 + ip % 256 == ip
  {
    var q1 := ip / 256;
    var q2 := q1 / 256;
    var q3 := q2 / 256;
    assert ip == q1 * 256 + ip % 256;
    assert q1 == q2 * 256 + q1 % 256;
    assert q2 == q3 * 256 + q2 % 256;
  }

  lemma {:induction false} ParseOctetOfNatToString(n: nat)
    requires n < 256
    ensures ParseOctet(NatToString(n)) == Some(n)
  {
    NatToStringShort(n);
    DigitsValueOfNatToString(n);
  }

  /** Parsing the canonical text of an address gives the address back. */
  lemma {:induction false} ParseFormatAddress(ip: Address)
    ensures ParseAddress(FormatAddress(ip)) == Some(ip)
  {
    var a, b, c, d := ip / 256 / 256 / 256, ip / 256 / 256 % 256, ip / 256 % 256, ip % 256;
    OctetsRecombine(ip);
    var octets := [NatToString(a), NatToString(b), NatToString(c), NatToString(d)];
    forall i | 0 <= i < 4 ensures '.' !in octets[i] {
      assert AllDigits(octets[i]);
    }
    SplitJoin(octets, '.');
    ParseOctetOfNatToString(a);
    ParseOctetOfNatToString(b);
    ParseOctetOfNatToString(c);
    ParseOctetOfNatToString(d);
  }

  /** Distinct addresses have distinct texts. */
  lemma FormatAddressInjective(x: Address, y: Address)
    requires FormatAddress(x) == FormatAddress(y)
    ensures x == y
  {
    ParseFormatAddress(x);
    ParseFormatAddress(y);
  }

  /** Python's prefix-length text: ASCII digits whose value is at most 32. */
  function ParsePrefixLen(s: string): (r: Option<nat>)
    ensures r.Some? ==> r.value <= 32
  {
    if |s| == 0 || !AllDigits(s) || DigitsValue(s) > 32 then None else Some(DigitsValue(s))
  }

  /** Python's `ip_network(c)` in its default strict mode, for IPv4 text:
      "a.b.c.d" (a /32) or "a.b.c.d/n"; anything else, and a base address
      with bits set below the prefix, is rejected (None). */
  function ParseNetwork(s: string): (r: Option<Network>)
    ensures r.Some? ==> r.value.prefixLen <= 32 && r.value.base % BlockSize(r.value.prefixLen) == 0
  {
    var parts := Split(s, '/');
    if |parts| > 2 then None
    else
      var len := if |parts| == 1 then Some(32) else ParsePrefixLen(parts[1]);
      match (ParseAddress(parts[0]), len)
      case (Some(base), Some(n)) =>
        if base % BlockSize(n) != 0 then None else Some(Network(base, n))
      case _ => None
  }

  /** `cidr` is a well-formed network that holds `ip`. */
  predicate InCidr(ip: Address, cidr: string)
  {
    var net := ParseNetwork(cidr);
    net.Some? && InNetwork(ip, net.value)
  }

  /** verify-dns.py `ip_in_any_cidr`: true iff the address lies in at least
      one well-formed network of the list; malformed entries are skipped. */
  function IpInAnyCidr(ip: Address, cidrs: seq<string>): (r: bool)
    ensures r <==> exists i :: 0 <= i < |cidrs| && InCidr(ip, cidrs[i])
  {
    if cidrs == [] then false
    else if InCidr(ip, cidrs[0]) then true
    else
      var r := IpInAnyCidr(ip, cidrs[1..]);
      assert forall i :: 1 <= i < |cidrs| ==> cidrs[i] == cidrs[1..][i - 1];
      r
  }

  /** The text "a.b.c.d/n" of a network. */
  function FormatNetwork(net: Network): string
  {
    FormatAddress(net.base) + "/" + NatToString(net.prefixLen)
  }

  /** Parsing the text "a.b.c.d/n" gives the network back when the base is
      aligned to the prefix, and nothing (strict mode: host bits set) otherwise. */
  lemma {:induction false} ParseFormatNetwork(net: Network)
    requires net.prefixLen <= 32
    ensures ParseNetwork(FormatNetwork(net))
         == if net.base % BlockSize(net.prefixLen) == 0 then Some(net) else None
  {
    var addr, len := FormatAddress(net.base), NatToString(net.prefixLen);
    assert '/' !in addr by { AddressTextExcludes(net.base, '/'); }
    assert '/' !in len by { assert AllDigits(len); }
    SplitPrefix(addr, len, '/');
    SplitNoSep(len, '/');
    ParseFormatAddress(net.base);
    DigitsValueOfNatToString(net.prefixLen);
  }

  /** For an aligned base, membership is Python's mask test: the address and
      the base agree on every bit above the host part. */
  lemma InNetworkMask(ip: Address, net: Network)
    requires net.prefixLen <= 32 && net.base % BlockSize(net.prefixLen) == 0
    ensures InNetwork(ip, net) <==> ip / BlockSize(net.prefixLen) == net.base / BlockSize(net.prefixLen)
  {
    AlignedBlock(ip, net.base, BlockSize(net.prefixLen));
  }

  /** An address lies in the aligned block that starts at `base` exactly when
      it has the same quotient by the block size. */
  lemma AlignedBlock(x: nat, base: nat, size: nat)
    requires size > 0 && base % size == 0
    ensures base <= x < base + size <==> x / size == base / size
  {
    var q := base / size;
    assert base == q * size + base % size;
    if base <= x < base + size {
      DivRange(x, q, size);
    }
    if x / size == q {
      assert x == q * size + x % size;
      assert 0 <= x % size < size;
    }
  }

  lemma DivRange(x: nat, q: nat, size: nat)
    requires size > 0 && q * size <= x < q * size + size
    ensures x / size == q
  {
    var d := x / size;
    assert x == d * size + x % size;
    if d < q {
      MulMonotone(d + 1, q, size);
      assert false;
    } else if d > q {
      MulMonotone(q + 1, d, size);
      assert false;
    }
  }

  lemma MulMonotone(a: nat, b: nat, c: nat)
    requires a <= b
    ensures a * c <= b * c
  {
    assert b * c == a * c + (b - a) * c;
  }

  /** The text of an address holds only digits and dots. */
  lemma AddressTextExcludes(ip: Address, c: char)
    requires c != '.' && !IsDigit(c)
    ensures c !in FormatAddress(ip)
  {
    var octets := [NatToString(ip / 256 / 256 / 256), NatToString(ip / 256 / 256 % 256),
                   NatToString(ip / 256 % 256), NatToString(ip % 256)];
    forall i | 0 <= i < 4 ensures c !in octets[i] {
      assert AllDigits(octets[i]);
    }
    JoinExcludes(octets, '.', c);
  }

  /** The address "a.b.c.d". */
  function Quad(a: nat, b: nat, c: nat, d: nat): (ip: Address)
    requires a < 256 && b < 256 && c < 256 && d < 256
    ensures ip / 256 / 256 / 256 == a && ip / 256 / 256 % 256 == b && ip / 256 % 256 == c && ip % 256 == d
  {
    ((a * 256 + b) * 256 + c) * 256 + d
  }

  /** The last-known Cloudflare IPv4 networks used when the live list cannot be fetched. */
  const FallbackNetworks: seq<Network> := [
    Network(Quad(173, 245, 48, 0), 20), Network(Quad(103, 21, 244, 0), 22),
    Network(Quad(103, 22, 200, 0), 22), Network(Quad(103, 31, 4, 0), 22),
    Network(Quad(141, 101, 64, 0), 18), Network(Quad(108, 162, 192, 0), 18),
    Network(Quad(190, 93, 240, 0), 20), Network(Quad(188, 114, 96, 0), 20),
    Network(Quad(197, 234, 240, 0), 22), Network(Quad(198, 41, 128, 0), 17),
    Network(Quad(162, 158, 0, 0), 15), Network(Quad(104, 16, 0, 0), 13),
    Network(Quad(104, 24, 0, 0), 14), Network(Quad(172, 64, 0, 0), 13),
    Network(Quad(131, 0, 72, 0), 22)
  ]

  /** The texts of networks, in order. */
  function NetworkTexts(nets: seq<Network>): (texts: seq<string>)
    ensures |texts| == |nets|
    ensures forall i :: 0 <= i < |nets| ==> texts[i] == FormatNetwork(nets[i])
  {
    seq(|nets|, i requires 0 <= i < |nets| => FormatNetwork(nets[i]))
  }

  /** Their texts, "173.245.48.0/20" and so on, in the script's order. */
  const FallbackCloudflareV4: seq<string> := NetworkTexts(FallbackNetworks)

  /** The block sizes of the fallback prefixes. */
  lemma FallbackBlockSizes()
    ensures Pow2(10) == 1024 && Pow2(12) == 4096 && Pow2(14) == 16384 && Pow2(15) == 32768 && Pow2(17) == 131072 && Pow2(18) == 262144 && Pow2(19) == 524288
  {
  }

  /** Every fallback network is aligned to its prefix. */
  lemma FallbackAligned(i: nat)
    requires i < |FallbackNetworks|
    ensures FallbackNetworks[i].prefixLen <= 32
    ensures FallbackNetworks[i].base % BlockSize(FallbackNetworks[i].prefixLen) == 0
  {
    FallbackBlockSizes();
    var net := FallbackNetworks[i];
    if i == 0 {
      assert net == Network(2918526976, 20);
    } else if i == 1 {
      assert net == Network(1729491968, 22);
    } else if i == 2 {
      assert net == Network(1729546240, 22);
    } else if i == 3 {
      assert net == Network(1730085888, 22);
    } else if i == 4 {
      assert net == Network(2372222976, 18);
    } else if i == 5 {
      assert net == Network(1822605312, 18);
    } else if i == 6 {
      assert net == Network(3193827328, 20);
    } else if i == 7 {
      assert net == Network(3161612288, 20);
    } else if i == 8 {
      assert net == Network(3320508416, 22);
    } else if i == 9 {
      assert net == Network(3324608512, 17);
    } else if i == 10 {
      assert net == Network(2728263680, 15);
    } else if i == 11 {
      assert net == Network(1745879040, 13);
    } else if i == 12 {
      assert net == Network(1746403328, 14);
    } else if i == 13 {
      assert net == Network(2889875456, 13);
    } else {
      assert net == Network(2197833728, 22);
    }
  }

  /** Aligned networks' texts parse back to the networks. */
  lemma {:induction false} NetworkTextsParse(nets: seq<Network>)
    requires forall i :: 0 <= i < |nets| ==>
      nets[i].prefixLen <= 32 && nets[i].base % BlockSize(nets[i].prefixLen) == 0
    ensures forall i :: 0 <= i < |nets| ==> ParseNetwork(NetworkTexts(nets)[i]) == Some(nets[i])
  {
    forall i | 0 <= i < |nets|
      ensures ParseNetwork(NetworkTexts(nets)[i]) == Some(nets[i])
    {
      ParseFormatNetwork(nets[i]);
    }
  }

  /** The fallback networks are all aligned. */
  lemma FallbackAllAligned()
    ensures forall i :: 0 <= i < |FallbackNetworks| ==>
      FallbackNetworks[i].prefixLen <= 32 && FallbackNetworks[i].base % BlockSize(FallbackNetworks[i].prefixLen) == 0
  {
    forall i | 0 <= i < |FallbackNetworks|
      ensures FallbackNetworks[i].prefixLen <= 32
      ensures FallbackNetworks[i].base % BlockSize(FallbackNetworks[i].prefixLen) == 0
    {
      FallbackAligned(i);
    }
  }

  /** Every fallback entry is a well-formed network in strict mode, so none is
      skipped, and the fallback holds an address exactly when one of the
      networks does. */
  lemma FallbackRanges(ip: Address)
    ensures forall i :: 0 <= i < |FallbackCloudflareV4| ==>
      ParseNetwork(FallbackCloudflareV4[i]) == Some(FallbackNetworks[i])
    ensures IpInAnyCidr(ip, FallbackCloudflareV4)
      <==> exists i :: 0 <= i < |FallbackNetworks| && FallbackNetworks[i].prefixLen <= 32
             && InNetwork(ip, FallbackNetworks[i])
  {
    FallbackAllAligned();
    NetworkTextsParse(FallbackNetworks);
  }
}
