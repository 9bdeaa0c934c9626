/** CIDR blocks and the address ranges they stand for (route.rs, ip.rs). */
module Cidr {

  type Addr = bv32

  /** `Ipv4Cidr`: an interface address with the length of its network prefix. */
  datatype Cidr = Cidr(address: Addr, prefix: nat) {
    /** What `Ipv4Cidr::from_str` accepts. */
    predicate Valid() {
      1 <= prefix <= 32
    }
  }

  datatype IpAddr = V4(bits: Addr)

  datatype IpRange = IpRange(start: Addr, endInclusive: Addr) {
    predicate Contains(ip: Addr) {
      start <= ip && ip <= endInclusive
    }
  }

  /** `u32::MAX << (32 - prefix)` */
  function Mask(prefix: nat): Addr
    requires 1 <= prefix <= 32
  {
    0xFFFF_FFFF << (32 - prefix)
  }

  function RangeOf(address: Addr, mask: Addr): IpRange {
    IpRange(address & mask, address | !mask)
  }

  function FromCidr(c: Cidr): IpRange
    requires c.Valid()
  {
    RangeOf(c.address, Mask(c.prefix))
  }

  ghost predicate SamePrefix(a: Addr, b: Addr, mask: Addr) {
    a & mask == b & mask
  }

  /** The bits a prefix mask leaves out are the low ones. */
  ghost predicate LowBitsFree(mask: Addr) {
    !mask & (!mask + 1) == 0
  }

  lemma MaskKeepsHighBits(prefix: nat)
    requires 1 <= prefix <= 32
    ensures LowBitsFree(Mask(prefix))
  {
  }

  lemma MaskedIsBelow(a: Addr, mask: Addr)
    ensures a & mask <= a
  {
  }

  lemma FilledIsAbove(a: Addr, mask: Addr)
    ensures a <= a | !mask
  {
  }

  lemma FilledKeepsPrefix(a: Addr, mask: Addr)
    ensures (a & mask) | !mask == a | !mask
  {
  }

  lemma OtherPrefixIsOutside(base: Addr, ip: Addr, mask: Addr)
    requires LowBitsFree(mask)
    requires base & mask != ip & mask
    requires base & mask <= ip
    ensures base | !mask < ip
  {
  }

  lemma LessIsNotAbove(a: Addr, b: Addr)
    requires a < b
    ensures !(b <= a)
  {
  }

  lemma InsideHasPrefix(base: Addr, ip: Addr, mask: Addr)
    requires LowBitsFree(mask)
    requires base & mask <= ip
    requires ip <= base | !mask
    ensures ip & mask == base & mask
  {
    if ip & mask != base & mask {
      OtherPrefixIsOutside(base, ip, mask);
      LessIsNotAbove(base | !mask, ip);
    }
  }

  lemma PrefixIsInside(base: Addr, ip: Addr, mask: Addr)
    requires ip & mask == base & mask
    ensures base & mask <= ip
    ensures ip <= base | !mask
  {
    MaskedIsBelow(ip, mask);
    FilledIsAbove(ip, mask);
    FilledKeepsPrefix(ip, mask);
    FilledKeepsPrefix(base, mask);
  }

  lemma InsideIffPrefix(base: Addr, ip: Addr, mask: Addr)
    requires LowBitsFree(mask)
    ensures RangeOf(base, mask).Contains(ip) <==> SamePrefix(ip, base, mask)
  {
    if base & mask <= ip && ip <= base | !mask {
      InsideHasPrefix(base, ip, mask);
    }
    if ip & mask == base & mask {
      PrefixIsInside(base, ip, mask);
    }
  }

  // ---- The first bits of an address -----------------------------------------------------------

  function Difference(a: Addr, b: Addr): Addr {
    a ^ b
  }

  predicate MaskedOut(a: Addr, mask: Addr) {
    a & mask == 0
  }

  /** All the bits but the last `k` are zero. */
  predicate NoBitsFrom(k: nat, a: Addr)
    requires k < 32
  {
    a >> k == 0
  }

  /** Two addresses have the same bits, but for the last `k`. */
  predicate SameBitsFrom(k: nat, a: Addr, b: Addr)
    requires k < 32
  {
    NoBitsFrom(k, Difference(a, b))
  }

  lemma SamePrefixThenMaskedOut(a: Addr, b: Addr, mask: Addr)
    requires SamePrefix(a, b, mask)
    ensures MaskedOut(Difference(a, b), mask)
  {
  }

  lemma MaskedOutThenSamePrefix(a: Addr, b: Addr, mask: Addr)
    requires MaskedOut(Difference(a, b), mask)
    ensures SamePrefix(a, b, mask)
  {
  }

  lemma MaskedOutThenNoBits(a: Addr, prefix: nat)
    requires 1 <= prefix <= 32 && MaskedOut(a, Mask(prefix))
    ensures NoBitsFrom(32 - prefix, a)
  {
  }

  lemma NoBitsThenMaskedOut(a: Addr, prefix: nat)
    requires 1 <= prefix <= 32 && NoBitsFrom(32 - prefix, a)
    ensures MaskedOut(a, Mask(prefix))
  {
  }

  lemma PrefixIsFirstBits(a: Addr, b: Addr, prefix: nat)
    requires 1 <= prefix <= 32
    ensures SamePrefix(a, b, Mask(prefix)) <==> SameBitsFrom(32 - prefix, a, b)
  {
    hide Mask, SamePrefix, NoBitsFrom, MaskedOut, Difference;
    if SamePrefix(a, b, Mask(prefix)) {
      SamePrefixThenMaskedOut(a, b, Mask(prefix));
      MaskedOutThenNoBits(Difference(a, b), prefix);
    }
    if SameBitsFrom(32 - prefix, a, b) {
      NoBitsThenMaskedOut(Difference(a, b), prefix);
      MaskedOutThenSamePrefix(a, b, Mask(prefix));
    }
  }

  /**
   An address is in the range of a block exactly when its first bits, as many as the prefix is
   long, are those of the block (RFC 4632, section 3.1).
   */
  lemma RangeIsPrefixMatch(c: Cidr, ip: Addr)
    requires c.Valid()
    ensures FromCidr(c).Contains(ip) <==> SameBitsFrom(32 - c.prefix, ip, c.address)
  {
    hide Mask, RangeOf, SamePrefix, SameBitsFrom, LowBitsFree, IpRange.Contains;
    MaskKeepsHighBits(c.prefix);
    InsideIffPrefix(c.address, ip, Mask(c.prefix));
    PrefixIsFirstBits(ip, c.address, c.prefix);
  }
}
