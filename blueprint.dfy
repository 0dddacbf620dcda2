/**
 * `VpcGenerator`: a VPC's CIDR block split into as many equal sub-blocks as
 * `vpc_subnets` asks for, one subnet record per sub-block while VLAN ids last,
 * names and domains taken from the VPC's template.
 */
module VpcBlueprint {
  import opened Wrappers
  import opened PyText
  import opened PyValues
  import opened Ipv4Blocks
  import opened PlaceholderFlatten
  import opened PlaceholderResolve
  import opened Processor

  // ---------------------------------------------------------------------------
  // _parse_vlan_range

  /** `list(range(start, stop))`. */
  function Range(start: int, stop: int): (r: seq<int>)
    ensures |r| == if stop > start then stop - start else 0
    ensures forall i :: 0 <= i < |r| ==> r[i] == start + i
  {
    if stop <= start then [] else seq(stop - start, i => start + i)
  }

  /** `[int(v) for v in parts]`: a `ValueError` as soon as one piece is not a number. */
  function ParseAll(parts: seq<string>): (r: Result<seq<int>, Failure>)
    ensures r.Ok? ==> |r.value| == |parts|
    ensures r.Err? ==> r.error == ValueError(InvalidVlanSpec)
    decreases |parts|
  {
    if parts == [] then Ok([])
    else
      match ParseInt(parts[0])
      case None => Err(ValueError(InvalidVlanSpec))
      case Some(x) =>
        match ParseAll(parts[1..])
        case Err(e) => Err(e)
        case Ok(xs) => Ok([x] + xs)
  }

  /** The comprehension succeeds exactly when every piece is a number. */
  lemma {:induction false} ParseAllEach(parts: seq<string>)
    ensures ParseAll(parts).Ok? <==> forall i :: 0 <= i < |parts| ==> ParseInt(parts[i]).Some?
    decreases |parts|
  {
    if parts != [] {
      var rest := parts[1..];
      ParseAllEach(rest);
      ParseAllFirst(parts);
      if forall i :: 0 <= i < |parts| ==> ParseInt(parts[i]).Some? {
        forall i | 0 <= i < |rest|
          ensures ParseInt(rest[i]).Some?
        {
          assert rest[i] == parts[i + 1];
        }
      }
      if ParseAll(parts).Ok? {
        forall i | 1 <= i < |parts|
          ensures ParseInt(parts[i]).Some?
        {
          assert parts[i] == rest[i - 1];
        }
      }
    }
  }

  /** The first piece and the rest decide the comprehension. */
  lemma ParseAllFirst(parts: seq<string>)
    requires parts != []
    ensures ParseAll(parts).Ok? <==> ParseInt(parts[0]).Some? && ParseAll(parts[1..]).Ok?
  {
  }

  /** Pieces without a minus sign give no negative number. */
  lemma {:induction false} ParseAllNonNegative(parts: seq<string>)
    requires forall i :: 0 <= i < |parts| ==> '-' !in parts[i]
    ensures ParseAll(parts).Ok? ==> forall i :: 0 <= i < |ParseAll(parts).value| ==> ParseAll(parts).value[i] >= 0
    decreases |parts|
  {
    if parts != [] {
      var rest := parts[1..];
      assert forall i :: 0 <= i < |rest| ==> rest[i] == parts[i + 1];
      ParseAllNonNegative(rest);
      if ParseAll(parts).Ok? {
        ParseIntSign(parts[0]);
        var v, w := ParseAll(parts).value, ParseAll(rest).value;
        assert v == [v[0]] + w;
        assert forall i :: 1 <= i < |v| ==> v[i] == w[i - 1];
      }
    }
  }

  function Texts(ids: seq<nat>): seq<string> {
    seq(|ids|, i requires 0 <= i < |ids| => NatToString(ids[i]))
  }

  lemma ParseAllCons(parts: seq<string>, x: int, xs: seq<int>)
    requires parts != [] && ParseInt(parts[0]) == Some(x) && ParseAll(parts[1..]) == Ok(xs)
    ensures ParseAll(parts) == Ok([x] + xs)
  {
  }

  /** Numbers written out by `str()` parse back to themselves. */
  lemma ParseAllTexts(ids: seq<nat>)
    ensures ParseAll(Texts(ids)) == Ok(ids)
  {
    var t := Texts(ids);
    forall i | 0 <= i < |t|
      ensures ParseInt(t[i]) == Some(ids[i])
    {
      ParseIntOfNatToString(ids[i]);
    }
    ParseAllNumbers(t, ids);
  }

  /** Pieces that are the numbers `ids` give `ids`. */
  lemma {:induction false} ParseAllNumbers(parts: seq<string>, ids: seq<int>)
    requires |parts| == |ids|
    requires forall i :: 0 <= i < |parts| ==> ParseInt(parts[i]) == Some(ids[i])
    ensures ParseAll(parts) == Ok(ids)
    decreases |parts|
  {
    if parts != [] {
      var rest, more := parts[1..], ids[1..];
      forall i | 0 <= i < |rest|
        ensures ParseInt(rest[i]) == Some(more[i])
      {
        assert rest[i] == parts[i + 1] && more[i] == ids[i + 1];
      }
      ParseAllNumbers(rest, more);
      ParseAllCons(parts, ids[0], more);
      assert [ids[0]] + more == ids;
    }
  }

  /**
   * `_parse_vlan_range` on a string: `a-b` is checked first (exactly two
   * numbers around one dash, every id from `a` to `b`), then a comma list,
   * then a single number.
   */
  function ParseVlanRange(spec: string): Result<seq<int>, Failure> {
    match ParseAll(Pieces(spec))
    case Err(e) => Err(e)
    case Ok(ns) =>
      if '-' !in spec then Ok(ns)
      else if |ns| != 2 then Err(ValueError(InvalidVlanSpec))
      else Ok(Range(ns[0], ns[1] + 1))
  }

  /**
   * The pieces `int()` is applied to. Unpacking `map(int, ...)` into two
   * names converts a third piece before it raises, and both failures are a
   * `ValueError`, so converting every piece first raises the same.
   */
  function Pieces(spec: string): seq<string> {
    if '-' in spec then Split(spec, '-')
    else if ',' in spec then Split(spec, ',')
    else [spec]
  }

  /**
   * `_parse_vlan_range` on whatever `vlan_range` holds: `in` on a number or
   * `None` raises `TypeError`; a list or dictionary holding `'-'` or `','`
   * has no `split`; any other list or dictionary fails in `int()`.
   */
  function VlanSpec(v: Value): Result<seq<int>, Failure> {
    match v
    case VStr(s) => ParseVlanRange(s)
    case VList(xs) => if VStr("-") in xs || VStr(",") in xs then Err(AttributeError) else Err(TypeError)
    case VMap(es) => if "-" in Keys(es) || "," in Keys(es) then Err(AttributeError) else Err(TypeError)
    case _ => Err(TypeError)
  }

  lemma DigitsWithout(d: string, c: char)
    requires AllDigits(d) && !IsDigit(c)
    ensures c !in d
  {
  }

  lemma SplitAround(x: string, y: string, c: char)
    requires c !in x && c !in y
    ensures Split(x + [c] + y, c) == [x, y]
  {
    SplitOfPieceWithoutSep(x, y, c);
    SplitOfPieceWithoutSep(y, "", c);
  }

  lemma ParseAllOne(y: string, b: int)
    requires ParseInt(y) == Some(b)
    ensures ParseAll([y]) == Ok([b])
  {
    var p := [y];
    assert p[0] == y && p[1..] == [];
    assert ParseAll(p) == Ok([b] + []);
    assert [b] + [] == [b];
  }

  lemma ParseAllPair(x: string, y: string, a: int, b: int)
    requires ParseInt(x) == Some(a) && ParseInt(y) == Some(b)
    ensures ParseAll([x, y]) == Ok([a, b])
  {
    ParseAllOne(y, b);
    var p := [x, y];
    assert p[0] == x && p[1..] == [y];
    assert ParseAll(p) == Ok([a] + [b]);
    assert [a] + [b] == [a, b];
  }

  lemma DashRange(x: string, y: string, a: int, b: int)
    requires '-' !in x && '-' !in y && ParseInt(x) == Some(a) && ParseInt(y) == Some(b)
    ensures ParseVlanRange(x + "-" + y) == Ok(Range(a, b + 1))
  {
    var s := x + "-" + y;
    assert s == x + ['-'] + y;
    assert s[|x|] == '-';
    SplitAround(x, y, '-');
    ParseAllPair(x, y, a, b);
    DashEnds(s, a, b);
  }

  /** A spec with a dash whose two pieces are `a` and `b` is the range from `a` to `b`. */
  lemma DashEnds(s: string, a: int, b: int)
    requires '-' in s && ParseAll(Split(s, '-')) == Ok([a, b])
    ensures ParseVlanRange(s) == Ok(Range(a, b + 1))
  {
    assert Pieces(s) == Split(s, '-');
    var ns := ParseAll(Pieces(s)).value;
    assert |ns| == 2 && ns[0] == a && ns[1] == b;
  }

  /** `str(a) + "-" + str(b)` parses back to every id from `a` to `b`. */
  lemma ParseVlanRangeOfRange(a: nat, b: nat)
    ensures ParseVlanRange(NatToString(a) + "-" + NatToString(b)) == Ok(Range(a, b + 1))
  {
    var x, y := NatToString(a), NatToString(b);
    ParseIntOfNatToString(a);
    ParseIntOfNatToString(b);
    DigitsWithout(x, '-');
    DigitsWithout(y, '-');
    DashRange(x, y, a, b);
  }

  /** A spec without a dash but with a comma is a comma list. */
  lemma ParseVlanRangeComma(s: string)
    requires '-' !in s && ',' in s
    ensures ParseVlanRange(s) == ParseAll(Split(s, ','))
  {
  }

  /** A spec without a dash or a comma is a single number. */
  lemma ParseVlanRangePlain(s: string)
    requires '-' !in s && ',' !in s
    ensures ParseVlanRange(s) == ParseAll([s])
  {
  }

  /** The decimal texts of ids hold neither a dash nor a comma. */
  lemma TextsWithout(ids: seq<nat>)
    ensures forall i :: 0 <= i < |Texts(ids)| ==> '-' !in Texts(ids)[i] && ',' !in Texts(ids)[i]
  {
    var parts := Texts(ids);
    forall i | 0 <= i < |parts|
      ensures '-' !in parts[i] && ',' !in parts[i]
    {
      DigitsWithout(parts[i], '-');
      DigitsWithout(parts[i], ',');
    }
  }

  /** A comma-separated list of ids, or a single id, parses back to those ids. */
  lemma ParseVlanRangeOfList(ids: seq<nat>)
    requires |ids| > 0
    ensures ParseVlanRange(Join(Texts(ids), ",")) == Ok(ids)
  {
    var parts := Texts(ids);
    var s := Join(parts, ",");
    TextsWithout(ids);
    JoinWithout(parts, ",", '-');
    ParseAllTexts(ids);
    if |ids| == 1 {
      assert s == parts[0];
      ParseVlanRangePlain(s);
      assert [s] == parts;
    } else {
      var rest := Join(parts[1..], ",");
      assert s == parts[0] + "," + rest;
      assert s[|parts[0]|] == ',';
      ParseVlanRangeComma(s);
      SplitJoin(parts, ',');
    }
  }

  /** A VLAN id from a string is never negative: a minus sign is read as the range dash. */
  lemma ParseVlanRangeNonNegative(spec: string)
    requires ParseVlanRange(spec).Ok?
    ensures forall i :: 0 <= i < |ParseVlanRange(spec).value| ==> ParseVlanRange(spec).value[i] >= 0
  {
    var sep := if '-' in spec then '-' else ',';
    var parts := if '-' in spec || ',' in spec then Split(spec, sep) else [spec];
    SplitPieces(spec, sep);
    assert forall i :: 0 <= i < |parts| ==> '-' !in parts[i];
    ParseAllNonNegative(parts);
    if '-' in spec {
      assert ParseAll(parts).value[0] >= 0;
    }
  }

  /** The spellings the generator's tests use: `1-3`, `1,2,3` and `1` ... */
  lemma VlanRangeExamples()
    ensures ParseVlanRange("1-3") == Ok([1, 2, 3])
    ensures ParseVlanRange("1,2,3") == Ok([1, 2, 3])
    ensures ParseVlanRange("1") == Ok([1])
  {
    VlanRangeDash();
    VlanRangeList();
    VlanRangeSingle();
  }

  lemma VlanRangeDash()
    ensures ParseVlanRange("1-3") == Ok([1, 2, 3])
  {
    DashText();
    ParseVlanRangeOfRange(1, 3);
    RangeOneToThree();
  }

  lemma DashText()
    ensures NatToString(1) + "-" + NatToString(3) == "1-3"
  {
    assert NatToString(1) == "1" && NatToString(3) == "3";
  }

  lemma RangeOneToThree()
    ensures Range(1, 4) == [1, 2, 3]
  {
    var r := Range(1, 4);
    assert |r| == 3 && r[0] == 1 && r[1] == 2 && r[2] == 3;
  }

  lemma VlanRangeList()
    ensures ParseVlanRange("1,2,3") == Ok([1, 2, 3])
  {
    var ids: seq<nat> := [1, 2, 3];
    ParseVlanRangeOfList(ids);
    ListText();
    assert ids == [1, 2, 3];
  }

  lemma ListText()
    ensures Join(Texts([1, 2, 3]), ",") == "1,2,3"
  {
    assert NatToString(1) == "1" && NatToString(2) == "2" && NatToString(3) == "3";
    var t := Texts([1, 2, 3]);
    assert |t| == 3 && t[0] == "1" && t[1] == "2" && t[2] == "3";
    assert t[1..] == ["2", "3"] && t[1..][1..] == ["3"];
    assert Join(t[1..][1..], ",") == "3";
    assert Join(t[1..], ",") == "2" + "," + "3";
    assert Join(t, ",") == "1" + "," + "2,3";
  }

  lemma VlanRangeSingle()
    ensures ParseVlanRange("1") == Ok([1])
  {
    ParseVlanRangeOfList([1]);
    SingleText();
  }

  lemma SingleText()
    ensures Join(Texts([1]), ",") == "1"
  {
    assert NatToString(1) == "1";
    assert Texts([1]) == ["1"];
  }

  /** ... and the default `1-1`, a single VLAN. */
  lemma VlanRangeDefault()
    ensures ParseVlanRange("1-1") == Ok([1])
  {
    DefaultText();
    ParseVlanRangeOfRange(1, 1);
    RangeOne();
  }

  lemma DefaultText()
    ensures NatToString(1) + "-" + NatToString(1) == "1-1"
  {
    assert NatToString(1) == "1";
  }

  lemma RangeOne()
    ensures Range(1, 2) == [1]
  {
  }

  // ---------------------------------------------------------------------------
  // _calculate_new_prefix

  /** The least prefix at least `prefix` long with room for `n` sub-blocks, or the `ValueError` past 32. */
  function NewPrefix(prefix: nat, n: int): (r: Result<nat, Failure>)
    ensures r.Ok? ==> prefix <= r.value <= 32
  {
    if prefix + CeilLog2(n) > 32 then Err(ValueError(PrefixExhausted)) else Ok(prefix + CeilLog2(n))
  }

  /**
   * The prefix found gives at least `n` sub-blocks and no shorter one does;
   * the `ValueError` is raised exactly when even a /32 split gives fewer.
   */
  lemma NewPrefixLeast(prefix: nat, n: int)
    ensures NewPrefix(prefix, n).Ok? ==>
      && Pow2(NewPrefix(prefix, n).value - prefix) >= n
      && forall k: nat :: prefix + k < NewPrefix(prefix, n).value ==> Pow2(k) < n
    ensures NewPrefix(prefix, n).Err? ==>
      NewPrefix(prefix, n).error == ValueError(PrefixExhausted) && forall k: nat :: prefix + k <= 32 ==> Pow2(k) < n
  {
    CeilLog2Least(n, CeilLog2(n));
    forall k: nat | k < CeilLog2(n)
      ensures Pow2(k) < n
    {
      CeilLog2Least(n, k);
    }
  }

  /** The generator's two tests of the prefix calculation. */
  lemma NewPrefixExamples()
    ensures NewPrefix(24, 2) == Ok(25)
    ensures NewPrefix(32, 2).Err?
  {
    assert CeilLog2(2) == 1;
  }

  // ---------------------------------------------------------------------------
  // _scale_dhcp

  /** The DHCP pool of a subnet: first and last address handed out. */
  datatype Pool = Pool(start: nat, stop: nat)

  /** `int(0.1 * total_hosts)`: a tenth, truncated toward zero. */
  function StaticCount(hosts: int): int {
    if hosts >= 0 then hosts / 10 else -((-hosts) / 10)
  }

  /**
   * `_scale_dhcp`: a tenth of the hosts kept static at each end of the
   * usable range; leaving the address space raises `ValueError`.
   */
  function ScaleDhcp(sb: Block): Result<Pool, Failure>
    requires sb.prefix <= 32
  {
    var fixed := StaticCount(Size(sb) - 2);
    var start := sb.base + 1 + fixed;
    var stop := Last(sb) - fixed - 1;
    if start >= AddressCount || stop < 0 then Err(ValueError(AddressOutOfRange))
    else Ok(Pool(start, stop))
  }

  /**
   * For a block of two or more addresses the pool leaves the same number of
   * static addresses, a tenth of the hosts, between it and the network
   * address and between it and the broadcast address; from /30 on it is not
   * empty.
   */
  lemma ScaleDhcpPool(sb: Block)
    requires ValidBlock(sb) && sb.prefix <= 31
    ensures ScaleDhcp(sb).Ok?
    ensures var pool, hosts := ScaleDhcp(sb).value, Size(sb) - 2;
      && pool.start - (sb.base + 1) == (Last(sb) - 1) - pool.stop
      && 10 * (pool.start - (sb.base + 1)) <= hosts < 10 * (pool.start - (sb.base + 1)) + 10
      && sb.base < pool.start && pool.stop < Last(sb)
      && (sb.prefix <= 30 ==> pool.start <= pool.stop)
  {
    Pow2Monotonic(1, 32 - sb.prefix);
    if sb.prefix <= 30 {
      Pow2Monotonic(2, 32 - sb.prefix);
    }
  }

  /** A /32 has no pool inside the address space when it is the first or the last address. */
  lemma ScaleDhcpSingle(sb: Block)
    requires ValidBlock(sb) && sb.prefix == 32
    ensures ScaleDhcp(sb).Err? <==> sb.base == 0 || sb.base == AddressCount - 1
    ensures ScaleDhcp(sb).Ok? ==> ScaleDhcp(sb).value == Pool(sb.base + 1, sb.base - 1)
  {
  }

  // ---------------------------------------------------------------------------
  // _get_vlan_description and _get_subnet_purpose

  function VlanDescription(vid: int): string {
    if vid == 0 then "Reserved for priority-tagged frames"
    else if vid == 1 then "Default VLAN, often used for management"
    else if vid == 4095 then "Reserved for implementation use"
    else if 1002 <= vid <= 1005 then "Reserved for Token Ring and FDDI VLANs in Cisco"
    else "Dynamic"
  }

  /** Only 0, 1, 4095 and 1002 to 1005 have a description of their own; the others are dynamic. */
  lemma VlanDescriptionDynamic(vid: int)
    ensures VlanDescription(vid) == "Dynamic" <==> vid != 0 && vid != 1 && vid != 4095 && !(1002 <= vid <= 1005)
    ensures 1002 <= vid <= 1005 <==> VlanDescription(vid) == "Reserved for Token Ring and FDDI VLANs in Cisco"
  {
  }

  /** `_get_subnet_purpose`: the two CIDRs with a reserved purpose. */
  function SubnetPurpose(cidr: string): Option<string> {
    if cidr == "192.168.4.0/24" then Some("Reserved for Teleport VPN server")
    else if cidr == "10.255.253.0/24" then Some("Reserved for Inter-VLAN routing (VLAN 4040)")
    else None
  }

  lemma SubnetPurposeKnown(cidr: string)
    ensures SubnetPurpose(cidr).Some? <==> cidr in {"192.168.4.0/24", "10.255.253.0/24"}
  {
  }

  // ---------------------------------------------------------------------------
  // The subnet records

  /**
   * One element of `generate_subnets`' result. Addresses are numbers;
   * `None` is JSON `null`. The `uuid` item is not modelled.
   */
  datatype Subnet = Subnet(
    cidr: Block,
    deviceCount: int,
    vlanId: int,
    name: Value,
    domain: Value,
    gateway: Option<nat>,
    dhcpStart: Option<nat>,
    dhcpStop: Option<nat>,
    description: string)

  /** The record of a sub-block overlapping 192.168.4.0/24 when the UniFi option is on. */
  function ReservedRecord(sb: Block, vid: int): Subnet
    requires sb.prefix <= 32
  {
    Subnet(sb, Size(sb) - 2, vid, VStr("Teleport VPN server"), VNone, None, None, None,
           "Reserved for Teleport VPN server")
  }

  function DefaultName(vpcName: Value, counter: nat): string {
    Str(vpcName) + " Region " + NatToString(counter)
  }

  function DefaultDomain(counter: nat): string {
    "subdomain_" + NatToString(counter) + ".lan"
  }

  /**
   * Name and domain of the record at `vlan_counter = counter`, or `None`
   * when working them out raises: `_process_vpc` fails, or `vpc_name`,
   * which the default name reads before `get` is called, is missing.
   */
  function Naming(vpc: Dict, counter: nat): Option<(Value, Value)> {
    if "template" in Keys(vpc) then
      match Record(vpc, ContextOf(vpc), counter)
      case Err(_) => None
      case Ok(p) =>
        match Get(vpc, "vpc_name")
        case None => None
        case Some(n) => Some((GetOr(p, "name", VStr(DefaultName(n, counter))), GetOr(p, "domain", VStr(DefaultDomain(counter)))))
    else
      match Get(vpc, "vpc_name")
      case None => None
      case Some(n) => Some((VStr(DefaultName(n, counter)), VStr(DefaultDomain(counter))))
  }

  /**
   * The record the `try` block of `generate_subnets` builds for sub-block
   * `sb`, or `None` when an exception makes the loop skip it.
   */
  function NormalRecord(vpc: Dict, sb: Block, counter: nat, vid: int): Option<Subnet>
    requires sb.prefix <= 32
  {
    Assemble(sb, vid, ScaleDhcp(sb), Naming(vpc, counter))
  }

  /** The record from its pool and naming; the gateway `network_address + 1` must be an address. */
  function Assemble(sb: Block, vid: int, pool: Result<Pool, Failure>, naming: Option<(Value, Value)>): Option<Subnet>
    requires sb.prefix <= 32
  {
    if pool.Err? || naming.None? || sb.base + 1 >= AddressCount then None
    else
      Some(Subnet(sb, Size(sb) - 2, vid, naming.value.0, naming.value.1, Some(sb.base + 1),
                  Some(pool.value.start), Some(pool.value.stop), VlanDescription(vid)))
  }

  /**
   * A record is built exactly when the VPC has a `vpc_name`, every template
   * is a dictionary, and a /32 is neither the first nor the last address.
   */
  lemma NormalRecordBuilt(vpc: Dict, sb: Block, counter: nat, vid: int)
    requires ValidBlock(sb)
    ensures NormalRecord(vpc, sb, counter, vid).Some? <==>
      && "vpc_name" in Keys(vpc)
      && ("template" in Keys(vpc) ==> TemplatesAreDicts(vpc))
      && (sb.prefix == 32 ==> 0 < sb.base < AddressCount - 1)
  {
    var ctx := ContextOf(vpc)["count_index" := VInt(counter + 1)];
    assert NonEmptyLists(ctx);
    ProcessedVpcOk(vpc, ctx, counter);
    if sb.prefix <= 31 {
      ScaleDhcpPool(sb);
    }
  }

  /**
   * A built record: the gateway is the first address after the network
   * address, two addresses are not devices, the pool is `_scale_dhcp`'s and
   * the description is the VLAN's.
   */
  lemma NormalRecordFields(vpc: Dict, sb: Block, counter: nat, vid: int)
    requires ValidBlock(sb) && NormalRecord(vpc, sb, counter, vid).Some?
    ensures var s := NormalRecord(vpc, sb, counter, vid).value;
      && s.cidr == sb && s.vlanId == vid
      && s.gateway == Some(sb.base + 1)
      && s.deviceCount == Size(sb) - 2
      && s.dhcpStart == Some(ScaleDhcp(sb).value.start) && s.dhcpStop == Some(ScaleDhcp(sb).value.stop)
      && s.description == VlanDescription(vid)
  {
    AssembleFields(sb, vid, ScaleDhcp(sb), Naming(vpc, counter));
  }

  lemma AssembleFields(sb: Block, vid: int, pool: Result<Pool, Failure>, naming: Option<(Value, Value)>)
    requires sb.prefix <= 32 && Assemble(sb, vid, pool, naming).Some?
    ensures var s := Assemble(sb, vid, pool, naming).value;
      && pool.Ok?
      && s.cidr == sb && s.vlanId == vid
      && s.gateway == Some(sb.base + 1)
      && s.deviceCount == Size(sb) - 2
      && s.dhcpStart == Some(pool.value.start) && s.dhcpStop == Some(pool.value.stop)
      && s.description == VlanDescription(vid)
  {
  }

  /** Without a template the record is named after the VPC and the VLAN counter. */
  lemma NormalRecordDefaults(vpc: Dict, sb: Block, counter: nat, vid: int)
    requires ValidBlock(sb) && NormalRecord(vpc, sb, counter, vid).Some? && "template" !in Keys(vpc)
    ensures NormalRecord(vpc, sb, counter, vid).value.name == VStr(DefaultName(Get(vpc, "vpc_name").value, counter))
    ensures NormalRecord(vpc, sb, counter, vid).value.domain == VStr(DefaultDomain(counter))
  {
  }

  /**
   * With a template holding `name` (or `domain`) the record takes the
   * template's value resolved against the VPC's context, `count_index`
   * being the VLAN counter plus one.
   */
  lemma NormalRecordFromTemplate(vpc: Dict, t: Dict, sb: Block, counter: nat, vid: int, k: string)
    requires ValidBlock(sb) && NormalRecord(vpc, sb, counter, vid).Some?
    requires DistinctKeys(vpc) && Get(vpc, "template") == Some(VMap(t))
    requires k in {"name", "domain"} && k in Keys(t) && k !in Keys(vpc)
    ensures var s := NormalRecord(vpc, sb, counter, vid).value;
      (if k == "name" then s.name else s.domain)
        == TemplateValue(Get(t, k).value, ContextOf(vpc)["count_index" := VInt(counter + 1)], counter)
  {
    var ctx := ContextOf(vpc)["count_index" := VInt(counter + 1)];
    assert "template" in Keys(vpc);
    ProcessedVpcTemplateKey(vpc, t, ctx, counter, k);
  }

  /**
   * With a template that does not hold `name` (or `domain`), and no such
   * key in the VPC either, the record falls back on the default, just as
   * without a template.
   */
  lemma NormalRecordTemplateDefault(vpc: Dict, sb: Block, counter: nat, vid: int, k: string)
    requires ValidBlock(sb) && NormalRecord(vpc, sb, counter, vid).Some? && "template" in Keys(vpc)
    requires k in {"name", "domain"} && NotFromTemplate(vpc, k) && k !in Keys(vpc)
    ensures var s := NormalRecord(vpc, sb, counter, vid).value;
      if k == "name" then s.name == VStr(DefaultName(Get(vpc, "vpc_name").value, counter))
      else s.domain == VStr(DefaultDomain(counter))
  {
    ProcessedVpcField(vpc, ContextOf(vpc)["count_index" := VInt(counter + 1)], counter, k);
  }

  // ---------------------------------------------------------------------------
  // generate_subnets

  /** What the loop of `generate_subnets` works with once the checks have passed. */
  datatype Plan = Plan(vpc: Dict, unifi: bool, vlans: seq<int>, net: Block, newPrefix: nat)

  predicate ValidPlan(g: Plan) {
    ValidBlock(g.net) && g.net.prefix <= g.newPrefix <= 32
  }

  /**
   * The records the loop appends from sub-block `i` on, `vlan_counter`
   * being `counter`: VLAN 0 uses up its sub-block without a record, a
   * sub-block over 192.168.4.0/24 gets the reserved record under UniFi, and
   * a record that raises skips its sub-block but keeps its VLAN id for the
   * next one.
   */
  function Walk(g: Plan, i: nat, counter: nat): seq<Subnet>
    requires ValidPlan(g)
    decreases SubBlockCount(g.net, g.newPrefix) - i
  {
    if i >= SubBlockCount(g.net, g.newPrefix) || counter >= |g.vlans| then []
    else if g.vlans[counter] == 0 then Walk(g, i + 1, counter + 1)
    else
      match Step(g, i, counter)
      case None => Walk(g, i + 1, counter)
      case Some(s) => [s] + Walk(g, i + 1, counter + 1)
  }

  /** The record for sub-block `i` and VLAN id number `counter`, `None` where it raises. */
  function Step(g: Plan, i: nat, counter: nat): Option<Subnet>
    requires g.newPrefix <= 32 && counter < |g.vlans|
  {
    var sb := SubBlock(g.net, g.newPrefix, i);
    if g.unifi && Overlaps(sb, Reserved) then Some(ReservedRecord(sb, g.vlans[counter]))
    else NormalRecord(g.vpc, sb, counter, g.vlans[counter])
  }

  /** The loop stops when the sub-blocks or the VLAN ids run out. */
  lemma WalkEnds(g: Plan, i: nat, counter: nat)
    requires ValidPlan(g) && (i >= SubBlockCount(g.net, g.newPrefix) || counter >= |g.vlans|)
    ensures Walk(g, i, counter) == []
  {
  }

  /** Once the loop stops, the records it appended are all the walk yields. */
  lemma WalkFinished(g: Plan, i: nat, counter: nat, done: seq<Subnet>, whole: seq<Subnet>)
    requires ValidPlan(g) && (i >= SubBlockCount(g.net, g.newPrefix) || counter >= |g.vlans|)
    requires done + Walk(g, i, counter) == whole
    ensures done == whole
  {
    WalkEnds(g, i, counter);
    assert done + [] == done;
  }

  /** VLAN 0 uses up its sub-block and yields no record. */
  lemma WalkSkipsZero(g: Plan, i: nat, counter: nat)
    requires ValidPlan(g) && i < SubBlockCount(g.net, g.newPrefix) && counter < |g.vlans| && g.vlans[counter] == 0
    ensures Walk(g, i, counter) == Walk(g, i + 1, counter + 1)
  {
  }

  /** The record of sub-block `i` comes first, the VLAN id is used up. */
  lemma WalkAppends(g: Plan, i: nat, counter: nat, s: Subnet)
    requires ValidPlan(g) && i < SubBlockCount(g.net, g.newPrefix) && counter < |g.vlans| && g.vlans[counter] != 0
    requires Step(g, i, counter) == Some(s)
    ensures Walk(g, i, counter) == [s] + Walk(g, i + 1, counter + 1)
  {
  }

  /** A record that raises skips its sub-block and keeps its VLAN id for the next one. */
  lemma WalkSkipsFailure(g: Plan, i: nat, counter: nat)
    requires ValidPlan(g) && i < SubBlockCount(g.net, g.newPrefix) && counter < |g.vlans| && g.vlans[counter] != 0
    requires Step(g, i, counter).None?
    ensures Walk(g, i, counter) == Walk(g, i + 1, counter)
  {
  }

  /** `vpc_subnets`, or what reading and checking it raises. */
  function RequestedSubnets(vpc: Dict): Result<int, Failure> {
    match Get(vpc, "vpc_subnets")
    case None => Err(KeyError("vpc_subnets"))
    case Some(v) =>
      match PyInt(v)
      case None => Err(TypeError)
      case Some(n) => if n <= 0 then Err(ValueError(NonPositiveSubnets)) else Ok(n)
  }

  /** `settings.get('vlan_range', '1-1')` parsed, or what raises on the way. */
  function VlanIds(vpc: Dict): Result<seq<int>, Failure> {
    match Get(vpc, "settings")
    case None => Err(KeyError("settings"))
    case Some(st) => if st.VMap? then VlanSpec(GetOr(st.entries, "vlan_range", VStr("1-1"))) else Err(AttributeError)
  }

  /**
   * `generate_subnets`; `network` is what `ipaddress.ip_network` makes of
   * `vpc_cidr` (`None` when it raises `ValueError`). The checks raise in
   * the source's order: CIDR, subnet count, VLAN range, prefix.
   */
  function Generate(vpc: Dict, unifi: bool, network: Option<Block>): Result<seq<Subnet>, Failure>
    requires network.Some? ==> ValidBlock(network.value)
  {
    if "vpc_cidr" !in Keys(vpc) then Err(KeyError("vpc_cidr"))
    else if network.None? then Err(ValueError(InvalidCidr))
    else
      match RequestedSubnets(vpc)
      case Err(e) => Err(e)
      case Ok(n) =>
        match VlanIds(vpc)
        case Err(e) => Err(e)
        case Ok(vlans) =>
          match NewPrefix(network.value.prefix, n)
          case Err(e) => Err(e)
          case Ok(p) => Ok(Walk(Plan(vpc, unifi, vlans, network.value, p), 0, 0))
  }

  /** There are never more records than sub-blocks, nor more than VLAN ids. */
  lemma {:induction false} WalkLength(g: Plan, i: nat, counter: nat)
    requires ValidPlan(g) && i <= SubBlockCount(g.net, g.newPrefix) && counter <= |g.vlans|
    ensures |Walk(g, i, counter)| <= SubBlockCount(g.net, g.newPrefix) - i
    ensures |Walk(g, i, counter)| <= |g.vlans| - counter
  {
    var w := Walk(g, i, counter);
    var blocks, positions := WalkSources(g, i, counter);
    forall j | 0 <= j < |w|
      ensures i <= blocks[j] < SubBlockCount(g.net, g.newPrefix) && counter <= positions[j] < |g.vlans|
    {
      assert Source(g, blocks[j], positions[j], w[j]);
    }
    IncreasingLength(i, SubBlockCount(g.net, g.newPrefix), blocks);
    IncreasingLength(counter, |g.vlans|, positions);
  }

  /** A strictly increasing sequence of numbers in `[lo, hi)` has at most `hi - lo` elements. */
  lemma {:induction false} IncreasingLength(lo: nat, hi: nat, xs: seq<nat>)
    requires forall j :: 0 <= j < |xs| ==> lo <= xs[j] < hi
    requires forall j, k :: 0 <= j < k < |xs| ==> xs[j] < xs[k]
    ensures |xs| > 0 ==> lo + |xs| <= hi
    decreases |xs|
  {
    if |xs| > 1 {
      IncreasingLength(xs[0] + 1, hi, xs[1..]);
    }
  }

  /**
   * Record `j` of `w` comes from sub-block `blocks[j]` and VLAN id
   * `vlans[positions[j]]`, both strictly increasing in `j` and starting at
   * sub-block `i` and position `counter`.
   */
  predicate Sourced(g: Plan, i: nat, counter: nat, w: seq<Subnet>, blocks: seq<nat>, positions: seq<nat>)
    requires ValidPlan(g)
  {
    && |blocks| == |positions| == |w|
    && Increasing(i, counter, blocks, positions)
    && (forall j :: 0 <= j < |blocks| ==> Source(g, blocks[j], positions[j], w[j]))
  }

  /** Sub-blocks from `i` on and positions from `counter` on, strictly increasing together. */
  predicate Increasing(i: nat, counter: nat, blocks: seq<nat>, positions: seq<nat>)
    requires |blocks| == |positions|
  {
    && (forall j :: 0 <= j < |blocks| ==> i <= blocks[j] && counter <= positions[j])
    && (forall j, k :: 0 <= j < k < |blocks| ==> blocks[j] < blocks[k] && positions[j] < positions[k])
  }

  lemma IncreasingCons(i: nat, counter: nat, blocks: seq<nat>, positions: seq<nat>)
    requires |blocks| == |positions| && Increasing(i + 1, counter + 1, blocks, positions)
    ensures Increasing(i, counter, [i] + blocks, [counter] + positions)
  {
    var bs, ps := [i] + blocks, [counter] + positions;
    forall j, k | 0 <= j < k < |bs|
      ensures bs[j] < bs[k] && ps[j] < ps[k]
    {
      assert bs[k] == blocks[k - 1] && ps[k] == positions[k - 1];
      if j > 0 {
        assert bs[j] == blocks[j - 1] && ps[j] == positions[j - 1];
      }
    }
  }

  /** Record `s` comes from sub-block `b` and the VLAN id at `position`. */
  predicate Source(g: Plan, b: nat, position: nat, s: Subnet)
    requires ValidPlan(g)
  {
    && b < SubBlockCount(g.net, g.newPrefix)
    && position < |g.vlans|
    && g.vlans[position] != 0
    && s.vlanId == g.vlans[position]
    && s.cidr == SubBlock(g.net, g.newPrefix, b)
    && Step(g, b, position) == Some(s)
  }

  /** A record is the reserved one or the one the `try` block builds from its own sub-block and VLAN id. */
  lemma StepFields(g: Plan, i: nat, counter: nat)
    requires ValidPlan(g) && i < SubBlockCount(g.net, g.newPrefix) && counter < |g.vlans| && Step(g, i, counter).Some?
    ensures Step(g, i, counter).value.cidr == SubBlock(g.net, g.newPrefix, i)
    ensures Step(g, i, counter).value.vlanId == g.vlans[counter]
  {
    var sb := SubBlock(g.net, g.newPrefix, i);
    SubBlockInside(g.net, g.newPrefix, i);
    if !(g.unifi && Overlaps(sb, Reserved)) {
      NormalRecordFields(g.vpc, sb, counter, g.vlans[counter]);
    }
  }

  /** Sources found from a later sub-block and position hold from an earlier one too. */
  lemma SourcedEarlier(g: Plan, i: nat, counter: nat, i': nat, counter': nat, w: seq<Subnet>, blocks: seq<nat>, positions: seq<nat>)
    requires ValidPlan(g) && i <= i' && counter <= counter'
    requires Sourced(g, i', counter', w, blocks, positions)
    ensures Sourced(g, i, counter, w, blocks, positions)
  {
  }

  /** The record of sub-block `i` and position `counter` goes in front of the later ones. */
  lemma SourcedCons(g: Plan, i: nat, counter: nat, s: Subnet, w: seq<Subnet>, blocks: seq<nat>, positions: seq<nat>)
    requires ValidPlan(g) && Source(g, i, counter, s)
    requires Sourced(g, i + 1, counter + 1, w, blocks, positions)
    ensures Sourced(g, i, counter, [s] + w, [i] + blocks, [counter] + positions)
  {
    var w', bs, ps := [s] + w, [i] + blocks, [counter] + positions;
    forall j | 0 <= j < |bs|
      ensures Source(g, bs[j], ps[j], w'[j])
    {
      if j > 0 {
        assert bs[j] == blocks[j - 1] && ps[j] == positions[j - 1] && w'[j] == w[j - 1];
      }
    }
    IncreasingCons(i, counter, blocks, positions);
  }

  /**
   * Every record comes from its own sub-block and VLAN id: sub-blocks and VLAN
   * positions strictly increase along the records, the id is never 0, and the
   * record is the one `Step` gives for them.
   */
  lemma {:induction false} WalkSources(g: Plan, i: nat, counter: nat) returns (blocks: seq<nat>, positions: seq<nat>)
    requires ValidPlan(g)
    ensures Sourced(g, i, counter, Walk(g, i, counter), blocks, positions)
    decreases SubBlockCount(g.net, g.newPrefix) - i, 1
  {
    if i >= SubBlockCount(g.net, g.newPrefix) || counter >= |g.vlans| {
      WalkEnds(g, i, counter);
      return [], [];
    }
    if g.vlans[counter] == 0 || Step(g, i, counter).None? {
      blocks, positions := WalkSourcesSkip(g, i, counter);
    } else {
      blocks, positions := WalkSourcesCons(g, i, counter);
    }
  }

  /** `WalkSources` for a sub-block without a record. */
  lemma {:induction false} WalkSourcesSkip(g: Plan, i: nat, counter: nat) returns (blocks: seq<nat>, positions: seq<nat>)
    requires ValidPlan(g) && i < SubBlockCount(g.net, g.newPrefix) && counter < |g.vlans|
    requires g.vlans[counter] == 0 || Step(g, i, counter).None?
    ensures Sourced(g, i, counter, Walk(g, i, counter), blocks, positions)
    decreases SubBlockCount(g.net, g.newPrefix) - i, 0
  {
    var next := if g.vlans[counter] == 0 then counter + 1 else counter;
    if g.vlans[counter] == 0 {
      WalkSkipsZero(g, i, counter);
    } else {
      WalkSkipsFailure(g, i, counter);
    }
    blocks, positions := WalkSources(g, i + 1, next);
    SourcedEarlier(g, i, counter, i + 1, next, Walk(g, i + 1, next), blocks, positions);
  }

  /** `WalkSources` for a sub-block with a record. */
  lemma {:induction false} WalkSourcesCons(g: Plan, i: nat, counter: nat) returns (blocks: seq<nat>, positions: seq<nat>)
    requires ValidPlan(g) && i < SubBlockCount(g.net, g.newPrefix) && counter < |g.vlans|
    requires g.vlans[counter] != 0 && Step(g, i, counter).Some?
    ensures Sourced(g, i, counter, Walk(g, i, counter), blocks, positions)
    decreases SubBlockCount(g.net, g.newPrefix) - i, 0
  {
    var s := Step(g, i, counter).value;
    WalkAppends(g, i, counter, s);
    StepFields(g, i, counter);
    assert Source(g, i, counter, s);
    var bs, ps := WalkSources(g, i + 1, counter + 1);
    SourcedCons(g, i, counter, s, Walk(g, i + 1, counter + 1), bs, ps);
    blocks, positions := [i] + bs, [counter] + ps;
  }

  /** No two records share an address: they come from distinct sub-blocks. */
  lemma WalkDisjoint(g: Plan)
    requires ValidPlan(g)
    ensures forall j, k :: 0 <= j < k < |Walk(g, 0, 0)| ==>
      Walk(g, 0, 0)[j].cidr.prefix <= 32 && Walk(g, 0, 0)[k].cidr.prefix <= 32 &&
      !Overlaps(Walk(g, 0, 0)[j].cidr, Walk(g, 0, 0)[k].cidr)
  {
    var w := Walk(g, 0, 0);
    var blocks, positions := WalkSources(g, 0, 0);
    forall j, k | 0 <= j < k < |w|
      ensures w[j].cidr.prefix <= 32 && w[k].cidr.prefix <= 32 && !Overlaps(w[j].cidr, w[k].cidr)
    {
      assert Source(g, blocks[j], positions[j], w[j]);
      assert Source(g, blocks[k], positions[k], w[k]);
      SubBlocksDisjoint(g.net, g.newPrefix, blocks[j], blocks[k]);
    }
  }

  /** Every record lies inside the VPC's block. */
  lemma WalkInside(g: Plan)
    requires ValidPlan(g)
    ensures forall j :: 0 <= j < |Walk(g, 0, 0)| ==>
      ValidBlock(Walk(g, 0, 0)[j].cidr) && g.net.base <= Walk(g, 0, 0)[j].cidr.base && Last(Walk(g, 0, 0)[j].cidr) <= Last(g.net)
  {
    var w := Walk(g, 0, 0);
    var blocks, positions := WalkSources(g, 0, 0);
    forall j | 0 <= j < |w|
      ensures ValidBlock(w[j].cidr)
      ensures g.net.base <= w[j].cidr.base && Last(w[j].cidr) <= Last(g.net)
    {
      assert Source(g, blocks[j], positions[j], w[j]);
      SubBlockInside(g.net, g.newPrefix, blocks[j]);
    }
  }

  /** Every normal record of the plan is built, whatever its sub-block and counter. */
  predicate RecordsBuild(g: Plan) {
    && "vpc_name" in Keys(g.vpc)
    && ("template" in Keys(g.vpc) ==> TemplatesAreDicts(g.vpc))
    && g.newPrefix <= 31
  }

  /**
   * When every record can be built and no VLAN id is 0, there is one record
   * per sub-block until the sub-blocks or the VLAN ids run out.
   */
  lemma {:induction false} WalkCount(g: Plan, i: nat, counter: nat)
    requires ValidPlan(g) && RecordsBuild(g)
    requires forall j :: counter <= j < |g.vlans| ==> g.vlans[j] != 0
    ensures |Walk(g, i, counter)| ==
      var blocksLeft, idsLeft := SubBlockCount(g.net, g.newPrefix) - i, |g.vlans| - counter;
      if blocksLeft <= 0 || idsLeft <= 0 then 0 else if blocksLeft < idsLeft then blocksLeft else idsLeft
    decreases SubBlockCount(g.net, g.newPrefix) - i
  {
    if i < SubBlockCount(g.net, g.newPrefix) && counter < |g.vlans| {
      var sb := SubBlock(g.net, g.newPrefix, i);
      SubBlockInside(g.net, g.newPrefix, i);
      NormalRecordBuilt(g.vpc, sb, counter, g.vlans[counter]);
      WalkCount(g, i + 1, counter + 1);
    }
  }

  /**
   * What a record holds: two addresses are not devices; under UniFi a
   * block over 192.168.4.0/24 gets the reserved record, with no gateway,
   * pool or domain; any other block gets the gateway `network_address + 1`,
   * the pool of `_scale_dhcp` and the description of its VLAN id.
   */
  predicate RecordShape(unifi: bool, s: Subnet) {
    && s.cidr.prefix <= 32
    && s.deviceCount == Size(s.cidr) - 2
    && (s.gateway.None? <==> unifi && Overlaps(s.cidr, Reserved))
    && (s.gateway.None? ==>
          && s.name == VStr("Teleport VPN server") && s.domain == VNone
          && s.dhcpStart.None? && s.dhcpStop.None?
          && s.description == "Reserved for Teleport VPN server")
    && (s.gateway.Some? ==>
          && s.gateway == Some(s.cidr.base + 1)
          && ScaleDhcp(s.cidr).Ok?
          && s.dhcpStart == Some(ScaleDhcp(s.cidr).value.start)
          && s.dhcpStop == Some(ScaleDhcp(s.cidr).value.stop)
          && s.description == VlanDescription(s.vlanId))
  }

  lemma StepRecord(g: Plan, b: nat, position: nat)
    requires ValidPlan(g) && b < SubBlockCount(g.net, g.newPrefix) && position < |g.vlans|
    requires Step(g, b, position).Some?
    ensures RecordShape(g.unifi, Step(g, b, position).value)
  {
    var sb := SubBlock(g.net, g.newPrefix, b);
    var vid := g.vlans[position];
    SubBlockInside(g.net, g.newPrefix, b);
    if g.unifi && Overlaps(sb, Reserved) {
      ReservedShape(sb, vid);
    } else {
      AssembleShape(g.unifi, sb, vid, ScaleDhcp(sb), Naming(g.vpc, position));
    }
  }

  lemma ReservedShape(sb: Block, vid: int)
    requires ValidBlock(sb) && Overlaps(sb, Reserved)
    ensures RecordShape(true, ReservedRecord(sb, vid))
  {
  }

  lemma AssembleShape(unifi: bool, sb: Block, vid: int, pool: Result<Pool, Failure>, naming: Option<(Value, Value)>)
    requires ValidBlock(sb) && !(unifi && Overlaps(sb, Reserved)) && pool == ScaleDhcp(sb)
    requires Assemble(sb, vid, pool, naming).Some?
    ensures RecordShape(unifi, Assemble(sb, vid, pool, naming).value)
  {
    AssembleFields(sb, vid, pool, naming);
  }

  /** Every record has a non-zero VLAN id and is either the reserved record or a normal one. */
  lemma WalkRecords(g: Plan)
    requires ValidPlan(g)
    ensures forall j :: 0 <= j < |Walk(g, 0, 0)| ==> Walk(g, 0, 0)[j].vlanId != 0 && RecordShape(g.unifi, Walk(g, 0, 0)[j])
  {
    var w := Walk(g, 0, 0);
    var blocks, positions := WalkSources(g, 0, 0);
    forall j | 0 <= j < |w|
      ensures w[j].vlanId != 0 && RecordShape(g.unifi, w[j])
    {
      assert Source(g, blocks[j], positions[j], w[j]);
      StepRecord(g, blocks[j], positions[j]);
    }
  }

  /** A strictly increasing sequence of `hi` numbers below `hi` is `0, 1, ..., hi - 1`. */
  lemma IncreasingFills(xs: seq<nat>, hi: nat)
    requires |xs| == hi && forall j :: 0 <= j < |xs| ==> xs[j] < hi
    requires forall j, k :: 0 <= j < k < |xs| ==> xs[j] < xs[k]
    ensures forall j :: 0 <= j < |xs| ==> xs[j] == j
  {
    forall j | 0 <= j < |xs|
      ensures xs[j] == j
    {
      IncreasingAbove(xs, j);
      IncreasingBelow(xs, hi, j);
    }
  }

  lemma {:induction false} IncreasingAbove(xs: seq<nat>, j: nat)
    requires j < |xs| && forall a, b :: 0 <= a < b < |xs| ==> xs[a] < xs[b]
    ensures j <= xs[j]
  {
    if j > 0 {
      IncreasingAbove(xs, j - 1);
      assert xs[j - 1] < xs[j];
    }
  }

  lemma {:induction false} IncreasingBelow(xs: seq<nat>, hi: nat, j: nat)
    requires j < |xs| && forall a :: 0 <= a < |xs| ==> xs[a] < hi
    requires forall a, b :: 0 <= a < b < |xs| ==> xs[a] < xs[b]
    ensures xs[j] + (|xs| - j) <= hi
    decreases |xs| - j
  {
    if j + 1 < |xs| {
      IncreasingBelow(xs, hi, j + 1);
      assert xs[j] < xs[j + 1];
    }
  }

  /** With a record for every sub-block and VLAN id, record `j` is sub-block `j` with VLAN id `j`. */
  lemma WalkFull(g: Plan)
    requires ValidPlan(g) && |Walk(g, 0, 0)| == SubBlockCount(g.net, g.newPrefix) == |g.vlans|
    ensures forall j :: 0 <= j < |Walk(g, 0, 0)| ==>
      && Walk(g, 0, 0)[j].cidr == SubBlock(g.net, g.newPrefix, j)
      && Walk(g, 0, 0)[j].vlanId == g.vlans[j]
      && Step(g, j, j) == Some(Walk(g, 0, 0)[j])
  {
    var w := Walk(g, 0, 0);
    var blocks, positions := WalkSources(g, 0, 0);
    forall j | 0 <= j < |w|
      ensures blocks[j] < SubBlockCount(g.net, g.newPrefix) && positions[j] < |g.vlans|
    {
      assert Source(g, blocks[j], positions[j], w[j]);
    }
    IncreasingFills(blocks, SubBlockCount(g.net, g.newPrefix));
    IncreasingFills(positions, |g.vlans|);
    forall j | 0 <= j < |w|
      ensures w[j].cidr == SubBlock(g.net, g.newPrefix, j) && w[j].vlanId == g.vlans[j] && Step(g, j, j) == Some(w[j])
    {
      assert Source(g, blocks[j], positions[j], w[j]);
    }
  }

  lemma VlanRangePair()
    ensures ParseVlanRange("1,2") == Ok([1, 2])
  {
    var ids: seq<nat> := [1, 2];
    ParseVlanRangeOfList(ids);
    PairText();
    assert ids == [1, 2];
  }

  lemma PairText()
    ensures Join(Texts([1, 2]), ",") == "1,2"
  {
    assert NatToString(1) == "1" && NatToString(2) == "2";
    var t := Texts([1, 2]);
    assert |t| == 2 && t[0] == "1" && t[1] == "2";
    assert t[1..] == ["2"];
    assert Join(t, ",") == "1" + "," + "2";
  }

  lemma VlanRangeFour()
    ensures ParseVlanRange("1,2,3,4") == Ok([1, 2, 3, 4])
  {
    var ids: seq<nat> := [1, 2, 3, 4];
    ParseVlanRangeOfList(ids);
    FourText();
    assert ids == [1, 2, 3, 4];
  }

  lemma FourText()
    ensures Join(Texts([1, 2, 3, 4]), ",") == "1,2,3,4"
  {
    assert NatToString(1) == "1" && NatToString(2) == "2" && NatToString(3) == "3" && NatToString(4) == "4";
    var t := Texts([1, 2, 3, 4]);
    assert |t| == 4 && t[0] == "1" && t[1] == "2" && t[2] == "3" && t[3] == "4";
    assert t[1..][1..][1..] == ["4"] && t[1..][1..] == ["3", "4"] && t[1..] == ["2", "3", "4"];
    assert Join(t[1..][1..], ",") == "3" + "," + "4";
    assert Join(t[1..], ",") == "2" + "," + "3,4";
    assert Join(t, ",") == "1" + "," + "2,3,4";
  }

  /** Once the checks pass, `generate_subnets` returns the records of the loop. */
  lemma GenerateWalk(vpc: Dict, unifi: bool, net: Block, n: int, vlans: seq<int>, p: nat)
    requires ValidBlock(net) && "vpc_cidr" in Keys(vpc)
    requires RequestedSubnets(vpc) == Ok(n) && VlanIds(vpc) == Ok(vlans) && NewPrefix(net.prefix, n) == Ok(p)
    ensures Generate(vpc, unifi, Some(net)) == Ok(Walk(Plan(vpc, unifi, vlans, net, p), 0, 0))
  {
  }

  lemma VlanIdsOf(vpc: Dict, settings: Dict, spec: string)
    requires Get(vpc, "settings") == Some(VMap(settings)) && Get(settings, "vlan_range") == Some(VStr(spec))
    ensures VlanIds(vpc) == ParseVlanRange(spec)
  {
  }

  lemma VlanIdsPair(vpc: Dict, settings: Dict)
    requires Get(vpc, "settings") == Some(VMap(settings)) && Get(settings, "vlan_range") == Some(VStr("1,2"))
    ensures VlanIds(vpc) == Ok([1, 2])
  {
    VlanIdsOf(vpc, settings, "1,2");
    VlanRangePair();
  }

  lemma VlanIdsFour(vpc: Dict, settings: Dict)
    requires Get(vpc, "settings") == Some(VMap(settings)) && Get(settings, "vlan_range") == Some(VStr("1,2,3,4"))
    ensures VlanIds(vpc) == Ok([1, 2, 3, 4])
  {
    VlanIdsOf(vpc, settings, "1,2,3,4");
    VlanRangeFour();
  }

  lemma TenNetValid()
    ensures ValidBlock(Block(0x0A00_0000, 24))
  {
    assert Pow2(8) == 256;
    Pow2Of32();
  }

  lemma UnifiNetValid()
    ensures ValidBlock(Block(0xC0A8_0000, 16))
  {
    var b := Block(0xC0A8_0000, 16);
    assert Size(b) == 65536 by {
      assert Pow2(8) == 256;
      Pow2Add(8, 8);
    }
    assert 0xC0A8_0000 % 65536 == 0;
    assert b.base + Size(b) <= AddressCount;
  }

  /**
   * When every record builds, no VLAN id is 0 and there are as many VLAN ids
   * as sub-blocks, record `j` is built from sub-block `j` and VLAN id `j`.
   */
  lemma WalkEveryBlock(g: Plan)
    requires ValidPlan(g) && RecordsBuild(g) && SubBlockCount(g.net, g.newPrefix) == |g.vlans|
    requires forall j :: 0 <= j < |g.vlans| ==> g.vlans[j] != 0
    ensures |Walk(g, 0, 0)| == |g.vlans|
    ensures forall j :: 0 <= j < |g.vlans| ==>
      && Walk(g, 0, 0)[j].cidr == SubBlock(g.net, g.newPrefix, j)
      && Walk(g, 0, 0)[j].vlanId == g.vlans[j]
      && RecordShape(g.unifi, Walk(g, 0, 0)[j])
  {
    WalkCount(g, 0, 0);
    WalkFull(g);
    WalkRecords(g);
  }

  /** 10.0.0.0/24 split at /25 for VLANs 1 and 2 without UniFi. */
  lemma TwoSubnetsWalk(g: Plan)
    requires g.net == Block(0x0A00_0000, 24) && g.newPrefix == 25 && g.vlans == [1, 2] && !g.unifi
    requires "vpc_name" in Keys(g.vpc) && TemplatesAreDicts(g.vpc)
    ensures ValidPlan(g)
    ensures TwoSubnetRecords(Walk(g, 0, 0))
  {
    TenNetValid();
    assert SubBlockCount(g.net, 25) == 2;
    WalkEveryBlock(g);
    TenNetRecords(Walk(g, 0, 0));
  }

  /** Two /25 records of 10.0.0.0/24 with VLAN ids 1 and 2, 126 devices each, gateways .1 and .129. */
  predicate TwoSubnetRecords(w: seq<Subnet>) {
    && |w| == 2
    && forall j :: 0 <= j < 2 ==>
         && w[j].cidr == Block(0x0A00_0000 + 128 * j, 25) && w[j].vlanId == j + 1
         && w[j].deviceCount == 126 && w[j].gateway == Some(0x0A00_0000 + 128 * j + 1)
  }

  lemma TenNetRecords(w: seq<Subnet>)
    requires |w| == 2
    requires forall j :: 0 <= j < 2 ==>
      && w[j].cidr == SubBlock(Block(0x0A00_0000, 24), 25, j) && w[j].vlanId == [1, 2][j] && RecordShape(false, w[j])
    ensures TwoSubnetRecords(w)
  {
    assert Pow2(7) == 128;
    forall j | 0 <= j < 2
      ensures w[j].cidr == Block(0x0A00_0000 + 128 * j, 25) && w[j].vlanId == j + 1
      ensures w[j].deviceCount == 126 && w[j].gateway == Some(0x0A00_0000 + 128 * j + 1)
    {
      assert RecordShape(false, w[j]);
    }
  }

  /** 192.168.0.0/16 split at /18 for VLANs 1 to 4 under UniFi: only the first block holds 192.168.4.0/24. */
  lemma UnifiWalk(g: Plan)
    requires g.net == Block(0xC0A8_0000, 16) && g.newPrefix == 18 && g.vlans == [1, 2, 3, 4] && g.unifi
    requires "vpc_name" in Keys(g.vpc) && TemplatesAreDicts(g.vpc)
    ensures ValidPlan(g)
    ensures UnifiRecords(Walk(g, 0, 0))
  {
    UnifiNetValid();
    assert SubBlockCount(g.net, 18) == 4;
    WalkEveryBlock(g);
    UnifiBlocks(Walk(g, 0, 0));
  }

  /** Four /18 records: the first the reserved one with VLAN id 1, the other three normal ones. */
  predicate UnifiRecords(w: seq<Subnet>) {
    && |w| == 4
    && w[0] == ReservedRecord(Block(0xC0A8_0000, 18), 1)
    && forall j :: 1 <= j < 4 ==> w[j].gateway.Some? && w[j].vlanId == j + 1
  }

  lemma UnifiBlocks(w: seq<Subnet>)
    requires |w| == 4
    requires forall j :: 0 <= j < 4 ==>
      && w[j].cidr == SubBlock(Block(0xC0A8_0000, 16), 18, j) && w[j].vlanId == [1, 2, 3, 4][j] && RecordShape(true, w[j])
    ensures UnifiRecords(w)
  {
    UnifiFirstRecord(w[0]);
    forall j | 1 <= j < 4
      ensures w[j].gateway.Some? && w[j].vlanId == j + 1
    {
      UnifiOtherRecord(w[j], j);
    }
  }

  lemma UnifiFirstRecord(s: Subnet)
    requires s.cidr == SubBlock(Block(0xC0A8_0000, 16), 18, 0) && s.vlanId == 1 && RecordShape(true, s)
    ensures s == ReservedRecord(Block(0xC0A8_0000, 18), 1)
  {
    assert s.cidr == Block(0xC0A8_0000, 18);
    assert Pow2(14) == 16384 by { Pow2Add(7, 7); }
    assert Contains(s.cidr, Reserved.base);
  }

  lemma UnifiOtherRecord(s: Subnet, j: nat)
    requires 1 <= j < 4 && s.cidr == SubBlock(Block(0xC0A8_0000, 16), 18, j) && RecordShape(true, s)
    ensures s.gateway.Some?
  {
    assert Pow2(14) == 16384 by { Pow2Add(7, 7); }
    assert s.cidr == Block(0xC0A8_0000 + j * 16384, 18);
    assert !Overlaps(s.cidr, Reserved);
  }

  /**
   * The generator's test of 10.0.0.0/24 with two subnets and VLANs `1,2`:
   * two /25 records with VLAN ids 1 and 2, 126 devices each, gateways
   * 10.0.0.1 and 10.0.0.129.
   */
  lemma GenerateTwoSubnets(vpc: Dict, settings: Dict)
    requires "vpc_cidr" in Keys(vpc) && "vpc_name" in Keys(vpc) && TemplatesAreDicts(vpc)
    requires Get(vpc, "vpc_subnets") == Some(VInt(2))
    requires Get(vpc, "settings") == Some(VMap(settings)) && Get(settings, "vlan_range") == Some(VStr("1,2"))
    ensures ValidBlock(Block(0x0A00_0000, 24))
    ensures var r := Generate(vpc, false, Some(Block(0x0A00_0000, 24)));
      r.Ok? && TwoSubnetRecords(r.value)
  {
    TenNetValid();
    VlanIdsPair(vpc, settings);
    NewPrefixExamples();
    GenerateWalk(vpc, false, Block(0x0A00_0000, 24), 2, [1, 2], 25);
    TwoSubnetsWalk(Plan(vpc, false, [1, 2], Block(0x0A00_0000, 24), 25));
  }

  /**
   * The generator's UniFi test, 192.168.0.0/16 with four subnets and VLANs
   * `1,2,3,4`: four /18 records, the first the reserved one, the other
   * three normal records.
   */
  lemma GenerateUnifi(vpc: Dict, settings: Dict)
    requires "vpc_cidr" in Keys(vpc) && "vpc_name" in Keys(vpc) && TemplatesAreDicts(vpc)
    requires Get(vpc, "vpc_subnets") == Some(VInt(4))
    requires Get(vpc, "settings") == Some(VMap(settings)) && Get(settings, "vlan_range") == Some(VStr("1,2,3,4"))
    ensures ValidBlock(Block(0xC0A8_0000, 16))
    ensures var r := Generate(vpc, true, Some(Block(0xC0A8_0000, 16)));
      r.Ok? && UnifiRecords(r.value)
  {
    UnifiNetValid();
    VlanIdsFour(vpc, settings);
    assert NewPrefix(16, 4) == Ok(18) by { assert CeilLog2(4) == 2; }
    GenerateWalk(vpc, true, Block(0xC0A8_0000, 16), 4, [1, 2, 3, 4], 18);
    UnifiWalk(Plan(vpc, true, [1, 2, 3, 4], Block(0xC0A8_0000, 16), 18));
  }

  // ---------------------------------------------------------------------------
  // The class

  class VpcGenerator {
    var vpc: Dict
    var ubiquityUnifi: bool

    constructor(vpc: Dict, ubiquityUnifi: bool)
      ensures this.vpc == vpc && this.ubiquityUnifi == ubiquityUnifi
    {
      this.vpc := vpc;
      this.ubiquityUnifi := ubiquityUnifi;
    }

    /** `generate_subnets`. */
    method GenerateSubnets(network: Option<Block>) returns (r: Result<seq<Subnet>, Failure>)
      requires network.Some? ==> ValidBlock(network.value)
      ensures r == Generate(vpc, ubiquityUnifi, network)
    {
      if "vpc_cidr" !in Keys(vpc) {
        return Err(KeyError("vpc_cidr"));
      }
      if network.None? {
        return Err(ValueError(InvalidCidr));
      }
      var net := network.value;
      var numSubnets := RequestedSubnets(vpc);
      if numSubnets.Err? {
        return Err(numSubnets.error);
      }
      var vlanIds := VlanIds(vpc);
      if vlanIds.Err? {
        return Err(vlanIds.error);
      }
      var newPrefix := CalculateNewPrefix(net.prefix, numSubnets.value);
      if newPrefix.Err? {
        return Err(newPrefix.error);
      }
      var g := Plan(vpc, ubiquityUnifi, vlanIds.value, net, newPrefix.value);
      var subnets := Subdivide(g);
      return Ok(subnets);
    }

    /** The loop of `generate_subnets` over `network.subnets(new_prefix=new_prefix)`. */
    method Subdivide(g: Plan) returns (subnets: seq<Subnet>)
      requires ValidPlan(g) && g.vpc == vpc && g.unifi == ubiquityUnifi
      ensures subnets == Walk(g, 0, 0)
    {
      var processor := new PlaceholderProcessor([Entry("vpcs", VList([VMap(vpc)]))]);
      var count := SubBlockCount(g.net, g.newPrefix);
      subnets := [];
      var vlanCounter: nat := 0;
      var i: nat := 0;
      while i < count
        invariant i <= count
        invariant subnets + Walk(g, i, vlanCounter) == Walk(g, 0, 0)
        decreases count - i
      {
        if vlanCounter >= |g.vlans| {
          break;
        }
        subnets, vlanCounter := Visit(processor, g, i, subnets, vlanCounter);
        i := i + 1;
      }
      WalkFinished(g, i, vlanCounter, subnets, Walk(g, 0, 0));
    }

    /** One iteration of the loop, for sub-block `i`. */
    method Visit(processor: PlaceholderProcessor, g: Plan, i: nat, subnets: seq<Subnet>, vlanCounter: nat)
      returns (subnets': seq<Subnet>, vlanCounter': nat)
      requires ValidPlan(g) && g.vpc == vpc && g.unifi == ubiquityUnifi
      requires i < SubBlockCount(g.net, g.newPrefix) && vlanCounter < |g.vlans|
      ensures subnets' + Walk(g, i + 1, vlanCounter') == subnets + Walk(g, i, vlanCounter)
    {
      if g.vlans[vlanCounter] == 0 {
        WalkSkipsZero(g, i, vlanCounter);
        return subnets, vlanCounter + 1;
      }
      var details := Place(processor, g, i, vlanCounter);
      if details.None? {
        WalkSkipsFailure(g, i, vlanCounter);
        return subnets, vlanCounter;
      }
      WalkAppends(g, i, vlanCounter, details.value);
      subnets' := subnets + [details.value];
      vlanCounter' := vlanCounter + 1;
      assert subnets' + Walk(g, i + 1, vlanCounter') == subnets + ([details.value] + Walk(g, i + 1, vlanCounter'));
    }

    /** The record for sub-block `i`: the reserved one under UniFi, otherwise the `try` block. */
    method Place(processor: PlaceholderProcessor, g: Plan, i: nat, vlanCounter: nat) returns (details: Option<Subnet>)
      requires g.vpc == vpc && g.unifi == ubiquityUnifi && g.newPrefix <= 32 && vlanCounter < |g.vlans|
      ensures details == Step(g, i, vlanCounter)
    {
      var currentVlanId := g.vlans[vlanCounter];
      var subnet := SubBlock(g.net, g.newPrefix, i);
      if ubiquityUnifi && Overlaps(subnet, Reserved) {
        details := Some(ReservedRecord(subnet, currentVlanId));
      } else {
        details := DescribeSubnet(processor, subnet, vlanCounter, currentVlanId);
      }
    }

    /** The `try` block of the loop: `None` where an exception skips the sub-block. */
    method DescribeSubnet(processor: PlaceholderProcessor, subnet: Block, vlanCounter: nat, vlanId: int)
      returns (details: Option<Subnet>)
      requires subnet.prefix <= 32
      ensures details == NormalRecord(vpc, subnet, vlanCounter, vlanId)
    {
      var pool := ScaleDhcp(subnet);
      if pool.Err? {
        return None;
      }
      var naming := NameSubnet(processor, vlanCounter);
      details := Assemble(subnet, vlanId, pool, naming);
    }

    /** Name and domain of the record: from `_process_vpc` when the VPC has a template. */
    method NameSubnet(processor: PlaceholderProcessor, vlanCounter: nat) returns (naming: Option<(Value, Value)>)
      ensures naming == Naming(vpc, vlanCounter)
    {
      if "template" in Keys(vpc) {
        var context := processor.CreateContext(vpc);
        context := context["count_index" := VInt(vlanCounter + 1)];
        var processed := processor.ProcessVpc(vpc, context, vlanCounter);
        if processed.Err? {
          return None;
        }
        var vpcName := Get(vpc, "vpc_name");
        if vpcName.None? {
          return None;
        }
        var domain := GetOr(processed.value, "domain", VStr(DefaultDomain(vlanCounter)));
        var name := GetOr(processed.value, "name", VStr(DefaultName(vpcName.value, vlanCounter)));
        return Some((name, domain));
      } else {
        var vpcName := Get(vpc, "vpc_name");
        if vpcName.None? {
          return None;
        }
        return Some((VStr(DefaultName(vpcName.value, vlanCounter)), VStr(DefaultDomain(vlanCounter))));
      }
    }

    /** `_calculate_new_prefix`: lengthen the prefix until there are sub-blocks enough. */
    method CalculateNewPrefix(namePrefix: nat, numSubnets: int) returns (r: Result<nat, Failure>)
      ensures r == NewPrefix(namePrefix, numSubnets)
    {
      var newPrefix := namePrefix;
      CeilLog2Least(numSubnets, CeilLog2(numSubnets));
      while Pow2(newPrefix - namePrefix) < numSubnets
        invariant namePrefix <= newPrefix <= namePrefix + CeilLog2(numSubnets)
        decreases namePrefix + CeilLog2(numSubnets) - newPrefix
      {
        CeilLog2Least(numSubnets, newPrefix - namePrefix);
        newPrefix := newPrefix + 1;
      }
      CeilLog2Least(numSubnets, newPrefix - namePrefix);
      if newPrefix > 32 {
        return Err(ValueError(PrefixExhausted));
      }
      return Ok(newPrefix);
    }
  }
}
