/**
 * IPv4 prefix arithmetic as `ipaddress.ip_network` does it (RFC 4632,
 * section 3.1): an address is a number below 2^32, a block is an aligned
 * base address with a prefix length, and splitting a block at a longer
 * prefix gives equally sized, consecutive, disjoint sub-blocks.
 */
module Ipv4Blocks {

  function Pow2(k: nat): (r: nat)
    ensures r >= 1
  {
    if k == 0 then 1 else 2 * Pow2(k - 1)
  }

  lemma {:induction false} Pow2Add(a: nat, b: nat)
    ensures Pow2(a + b) == Pow2(a) * Pow2(b)
    decreases a
  {
    if a > 0 {
      Pow2Add(a - 1, b);
      assert Pow2(a + b) == 2 * Pow2(a - 1 + b);
    }
  }

  lemma {:induction false} Pow2Monotonic(a: nat, b: nat)
    requires a <= b
    ensures Pow2(a) <= Pow2(b)
    decreases b
  {
    if a < b {
      Pow2Monotonic(a, b - 1);
    }
  }

  /** 2^32, the number of IPv4 addresses. */
  const AddressCount: nat := 0x1_0000_0000

  lemma Pow2Of32()
    ensures Pow2(32) == AddressCount
  {
    assert Pow2(8) == 256;
    assert Pow2(16) == 65536 by { Pow2Add(8, 8); }
    Pow2Add(16, 16);
  }

  /** A network: base address and prefix length. */
  datatype Block = Block(base: nat, prefix: nat)

  /** `num_addresses`. */
  function Size(b: Block): nat
    requires b.prefix <= 32
  {
    Pow2(32 - b.prefix)
  }

  /** `broadcast_address`: the last address of the block. */
  function Last(b: Block): int
    requires b.prefix <= 32
  {
    b.base + Size(b) - 1
  }

  /** What `ip_network` accepts with its default `strict=True`: host bits are zero. */
  predicate ValidBlock(b: Block) {
    b.prefix <= 32 && b.base % Size(b) == 0 && b.base + Size(b) <= AddressCount
  }

  /** `address in block`. */
  predicate Contains(b: Block, a: int)
    requires b.prefix <= 32
  {
    b.base <= a <= Last(b)
  }

  /** `a.overlaps(b)`: one block holds the first or last address of the other. */
  predicate Overlaps(a: Block, b: Block)
    requires a.prefix <= 32 && b.prefix <= 32
  {
    Contains(a, b.base) || Contains(a, Last(b)) || Contains(b, a.base) || Contains(b, Last(a))
  }

  /** Two blocks overlap exactly when their address ranges intersect. */
  lemma OverlapsIntersect(a: Block, b: Block)
    requires a.prefix <= 32 && b.prefix <= 32
    ensures Overlaps(a, b) <==> a.base <= Last(b) && b.base <= Last(a)
  {
  }

  /** 192.168.4.0/24. */
  const Reserved: Block := Block(192 * 0x100_0000 + 168 * 0x1_0000 + 4 * 0x100, 24)

  lemma ReservedIsValid()
    ensures ValidBlock(Reserved)
  {
    assert Pow2(8) == 256;
    Pow2Of32();
  }

  // ---------------------------------------------------------------------------
  // network.subnets(new_prefix=p)

  /** How many sub-blocks `net.subnets(new_prefix=p)` yields. */
  function SubBlockCount(net: Block, p: nat): nat
    requires net.prefix <= p
  {
    Pow2(p - net.prefix)
  }

  /** The `i`-th block `net.subnets(new_prefix=p)` yields. */
  function SubBlock(net: Block, p: nat, i: nat): Block
    requires p <= 32
  {
    Block(net.base + i * Pow2(32 - p), p)
  }

  lemma MulMonotonic(x: nat, y: nat, m: nat)
    requires x <= y
    ensures x * m <= y * m
  {
  }

  lemma MulModZero(k: nat, m: nat)
    requires m > 0
    ensures (k * m) % m == 0
  {
    var q := (k * m) / m;
    var r := (k * m) % m;
    assert k * m == q * m + r && 0 <= r < m;
    assert (k - q) * m == r by {
      assert (k - q) * m == k * m - q * m;
    }
    if k > q {
      MulMonotonic(1, k - q, m);
      assert false;
    } else if k < q {
      assert (q - k) * m == -r;
      MulMonotonic(1, q - k, m);
      assert false;
    }
  }

  /** A multiple of `c * s` is a multiple of `s`. */
  lemma AlignedCoarser(a: nat, c: nat, s: nat)
    requires c > 0 && s > 0 && a % (c * s) == 0
    ensures a % s == 0
  {
    var q := a / (c * s);
    assert a == q * (c * s);
    assert a == (q * c) * s;
    MulModZero(q * c, s);
  }

  /** Adding a multiple of `s` keeps a multiple of `s` one. */
  lemma AlignedShift(a: nat, i: nat, s: nat)
    requires s > 0 && a % s == 0
    ensures (a + i * s) % s == 0
  {
    var q := a / s;
    assert a == q * s;
    assert a + i * s == (q + i) * s;
    MulModZero(q + i, s);
  }

  /** Each sub-block is a valid block inside `net`. */
  lemma SubBlockInside(net: Block, p: nat, i: nat)
    requires ValidBlock(net) && net.prefix <= p <= 32 && i < SubBlockCount(net, p)
    ensures ValidBlock(SubBlock(net, p, i))
    ensures net.base <= SubBlock(net, p, i).base && Last(SubBlock(net, p, i)) <= Last(net)
  {
    var s := Pow2(32 - p);
    var c := SubBlockCount(net, p);
    Pow2Add(p - net.prefix, 32 - p);
    assert Size(net) == c * s;
    SlotAligned(net.base, c, s, i);
    SlotEnd(net.base, c, s, i);
  }

  /** Slot `i` of size `s` of an aligned run of `c` slots is aligned. */
  lemma SlotAligned(base: nat, c: nat, s: nat, i: nat)
    requires c > 0 && s > 0 && base % (c * s) == 0
    ensures (base + i * s) % s == 0
  {
    AlignedCoarser(base, c, s);
    AlignedShift(base, i, s);
  }

  /** Slot `i < c` of size `s` ends inside the run of `c` slots. */
  lemma SlotEnd(base: nat, c: nat, s: nat, i: nat)
    requires i < c
    ensures base <= base + i * s
    ensures base + i * s + s <= base + c * s
  {
    MulMonotonic(0, i, s);
    MulMonotonic(i + 1, c, s);
    assert (i + 1) * s == i * s + s;
  }

  /** Sub-blocks follow one another: sub-block `i + 1` starts right after sub-block `i`. */
  lemma SubBlockNext(net: Block, p: nat, i: nat)
    requires p <= 32
    ensures SubBlock(net, p, i + 1).base == Last(SubBlock(net, p, i)) + 1
  {
  }

  /** Distinct sub-blocks do not overlap. */
  lemma SubBlocksDisjoint(net: Block, p: nat, i: nat, j: nat)
    requires p <= 32 && i < j
    ensures !Overlaps(SubBlock(net, p, i), SubBlock(net, p, j))
  {
    MulMonotonic(i + 1, j, Pow2(32 - p));
  }

  // ---------------------------------------------------------------------------
  // _calculate_new_prefix

  /** The least `k` with `2^k >= n`: how many more prefix bits `n` sub-blocks need. */
  function CeilLog2(n: int): nat
    decreases n
  {
    if n <= 1 then 0 else 1 + CeilLog2((n + 1) / 2)
  }

  /** `2^k >= n` exactly when `k` is at least `CeilLog2(n)`. */
  lemma {:induction false} CeilLog2Least(n: int, k: nat)
    ensures Pow2(k) >= n <==> k >= CeilLog2(n)
    decreases n
  {
    if n > 1 && k > 0 {
      CeilLog2Least((n + 1) / 2, k - 1);
    }
  }
}
