/** The kernel's flow counters: keys read from IPv4 packets, two counting hooks, and eviction at any moment. */
module Flows {

  type Byte = b: int | 0 <= b < 256

  /** A packet as a cgroup hook sees it; `len` is its full length. */
  datatype Skb = Skb(data: seq<Byte>, len: nat, cgroupId: nat)

  datatype FlowKey = FlowKey(cgroupId: nat, saddr: nat, daddr: nat, sport: nat, dport: nat, proto: nat)

  /** One CPU's byte counters of a flow. */
  datatype FlowStat = FlowStat(bytesTx: nat, bytesRx: nat)

  // ----- Reading a packet (RFC 791, section 3.1) -----

  const IPPROTO_TCP := 6
  const IPPROTO_UDP := 17

  /** Four header bytes in network order, held as the little-endian machine word they are loaded into. */
  function Word(b0: Byte, b1: Byte, b2: Byte, b3: Byte): nat {
    b0 + 0x100 * b1 + 0x1_0000 * b2 + 0x100_0000 * b3
  }

  /** `bpf_ntohs` of two bytes. */
  function Port(high: int, low: int): nat
    requires high >= 0 && low >= 0
  {
    high * 256 + low
  }

  function Source(data: seq<Byte>): nat
    requires |data| >= 20
  {
    Word(data[12], data[13], data[14], data[15])
  }

  function Destination(data: seq<Byte>): nat
    requires |data| >= 20
  {
    Word(data[16], data[17], data[18], data[19])
  }

  function Protocol(data: seq<Byte>): nat
    requires |data| >= 20
  {
    data[9]
  }

  /** Source and destination port: zero unless the packet is TCP or UDP and long enough to hold them. */
  function Ports(data: seq<Byte>): (nat, nat)
    requires |data| >= 20
  {
    var off := data[0] % 16 * 4;
    if (data[9] == IPPROTO_TCP || data[9] == IPPROTO_UDP) && |data| >= off + 4 then
      (Port(data[off], data[off + 1]), Port(data[off + 2], data[off + 3]))
    else (0, 0)
  }

  predicate Countable(data: seq<Byte>) {
    |data| >= 20 && data[0] / 16 == 4
  }

  /** The reference: local end first, whichever way the packet travels. */
  function KeyOf(skb: Skb, egress: bool): FlowKey
    requires Countable(skb.data)
  {
    var (sp, dp) := Ports(skb.data);
    if egress then FlowKey(skb.cgroupId, Source(skb.data), Destination(skb.data), sp, dp, Protocol(skb.data))
    else FlowKey(skb.cgroupId, Destination(skb.data), Source(skb.data), dp, sp, Protocol(skb.data))
  }

  method BuildKey(skb: Skb, isEgress: bool) returns (ok: bool, key: FlowKey)
    ensures ok <==> Countable(skb.data)
    ensures ok ==> key == KeyOf(skb, isEgress)
  {
    key := FlowKey(0, 0, 0, 0, 0, 0);
    key := key.(cgroupId := skb.cgroupId);
    var data := skb.data;
    if |data| < 20 {
      return false, key;
    }
    if data[0] / 16 != 4 {
      return false, key;
    }
    var sp: nat, dp: nat := 0, 0;
    var l4Off := data[0] % 16 * 4;
    if data[9] == IPPROTO_TCP || data[9] == IPPROTO_UDP {
      if |data| >= l4Off + 4 {
        sp := Port(data[l4Off], data[l4Off + 1]);
        dp := Port(data[l4Off + 2], data[l4Off + 3]);
      }
    }
    key := key.(proto := data[9]);
    if isEgress {
      key := key.(saddr := Source(data), daddr := Destination(data));
      key := key.(sport := sp, dport := dp);
    } else {
      key := key.(saddr := Destination(data), daddr := Source(data));
      key := key.(sport := dp, dport := sp);
    }
    ok := true;
  }

  /** Two bytes of the payload of an IPv4 packet (RFC 791, section 3.1) as a number in network order. */
  function PayloadNumber(data: seq<Byte>, at: nat): nat
    requires |data| >= 20 && data[0] % 16 * 4 + at + 1 < |data|
  {
    var off := data[0] % 16 * 4;
    data[off + at] as int * 256 + data[off + at + 1]
  }

  /** The ports of a key are the first four bytes of the payload if that is TCP (6) or UDP (17) and holds as many, the
      local one first, and zero otherwise. */
  lemma PortsAreRead(skb: Skb, egress: bool)
    requires Countable(skb.data)
    ensures var k, data := KeyOf(skb, egress), skb.data;
      && k.proto == data[9] && k.cgroupId == skb.cgroupId
      && if data[9] in {6, 17} && data[0] % 16 * 4 + 4 <= |data| then
           && k.sport == PayloadNumber(data, if egress then 0 else 2)
           && k.dport == PayloadNumber(data, if egress then 2 else 0)
         else k.sport == 0 == k.dport
  {
  }

  /** `q` runs against `p`: addresses and ports exchanged, same protocol, same control group. */
  ghost predicate Opposite(p: Skb, q: Skb)
    requires Countable(p.data) && Countable(q.data)
  {
    && p.cgroupId == q.cgroupId
    && p.data[12..16] == q.data[16..20] && p.data[16..20] == q.data[12..16]
    && Ports(p.data) == (Ports(q.data).1, Ports(q.data).0)
    && p.data[9] == q.data[9]
  }

  /** An outgoing and an incoming packet share a key exactly when they run against each other. */
  lemma OppositePacketsShareKey(p: Skb, q: Skb)
    requires Countable(p.data) && Countable(q.data)
    ensures KeyOf(p, true) == KeyOf(q, false) <==> Opposite(p, q)
  {
    var a, b := p.data, q.data;
    if KeyOf(p, true) == KeyOf(q, false) {
      WordInjective(a[12], a[13], a[14], a[15], b[16], b[17], b[18], b[19]);
      WordInjective(a[16], a[17], a[18], a[19], b[12], b[13], b[14], b[15]);
    }
    if a[12..16] == b[16..20] && a[16..20] == b[12..16] {
      var pa, pb, qa, qb := a[12..16], a[16..20], b[12..16], b[16..20];
      assert pa[0] == qb[0] && pa[1] == qb[1] && pa[2] == qb[2] && pa[3] == qb[3];
      assert pb[0] == qa[0] && pb[1] == qa[1] && pb[2] == qa[2] && pb[3] == qa[3];
    }
  }

  /** `ipString`: the four numbers of the dotted form. */
  function AddressBytes(v: nat): (Byte, Byte, Byte, Byte) {
    (v % 256, v / 256 % 256, v / 65536 % 256, v / 16777216 % 256)
  }

  /** The remote address is printed as it stands in the header, for either direction. */
  lemma RemoteAddressIsPrinted(skb: Skb, egress: bool)
    requires Countable(skb.data)
    ensures var remote := if egress then skb.data[16..20] else skb.data[12..16];
      AddressBytes(KeyOf(skb, egress).daddr) == (remote[0], remote[1], remote[2], remote[3])
  {
    var d := skb.data;
    var at := if egress then 16 else 12;
    WordBytes(d[at], d[at + 1], d[at + 2], d[at + 3]);
  }

  lemma WordBytes(b0: Byte, b1: Byte, b2: Byte, b3: Byte)
    ensures AddressBytes(Word(b0, b1, b2, b3)) == (b0, b1, b2, b3)
  {
    var v := Word(b0, b1, b2, b3);
    assert v / 256 == b1 + 0x100 * b2 + 0x1_0000 * b3;
    assert v / 65536 == b2 + 0x100 * b3;
    assert v / 16777216 == b3;
  }

  lemma WordInjective(a0: Byte, a1: Byte, a2: Byte, a3: Byte, b0: Byte, b1: Byte, b2: Byte, b3: Byte)
    requires Word(a0, a1, a2, a3) == Word(b0, b1, b2, b3)
    ensures a0 == b0 && a1 == b1 && a2 == b2 && a3 == b3
  {
    WordBytes(a0, a1, a2, a3);
    WordBytes(b0, b1, b2, b3);
  }

  // ----- Counting -----

  type Counters = map<FlowKey, seq<FlowStat>>

  /** The counters after one more packet on one CPU; a new entry starts at zero on the other CPUs. */
  function Counted(flows: Counters, cpus: nat, key: FlowKey, cpu: nat, tx: nat, rx: nat): Counters
    requires cpu < cpus && (key in flows ==> |flows[key]| == cpus)
  {
    if key in flows then
      flows[key := flows[key][cpu := FlowStat(flows[key][cpu].bytesTx + tx, flows[key][cpu].bytesRx + rx)]]
    else
      flows[key := seq(cpus, i => if i == cpu then FlowStat(tx, rx) else FlowStat(0, 0))]
  }

  class FlowMap {
    const cpus: nat
    var flows: Counters

    ghost predicate Valid()
      reads this
    {
      forall k | k in flows :: |flows[k]| == cpus
    }

    constructor (cpus: nat)
      ensures Valid() && this.cpus == cpus && flows == map[]
    {
      this.cpus := cpus;
      flows := map[];
    }

    method Egress(skb: Skb, cpu: nat)
      requires Valid() && cpu < cpus
      modifies this
      ensures Valid()
      ensures flows == if Countable(skb.data) then Counted(old(flows), cpus, KeyOf(skb, true), cpu, skb.len, 0)
                       else old(flows)
    {
      var ok, key := BuildKey(skb, true);
      if !ok {
        return;
      }
      if key in flows {
        var st := flows[key][cpu];
        flows := flows[key := flows[key][cpu := st.(bytesTx := st.bytesTx + skb.len)]];
      } else {
        var init := FlowStat(skb.len, 0);
        flows := flows[key := seq(cpus, i => if i == cpu then init else FlowStat(0, 0))];
      }
    }

    method Ingress(skb: Skb, cpu: nat)
      requires Valid() && cpu < cpus
      modifies this
      ensures Valid()
      ensures flows == if Countable(skb.data) then Counted(old(flows), cpus, KeyOf(skb, false), cpu, 0, skb.len)
                       else old(flows)
    {
      var ok, key := BuildKey(skb, false);
      if !ok {
        return;
      }
      if key in flows {
        var st := flows[key][cpu];
        flows := flows[key := flows[key][cpu := st.(bytesRx := st.bytesRx + skb.len)]];
      } else {
        var init := FlowStat(0, skb.len);
        flows := flows[key := seq(cpus, i => if i == cpu then init else FlowStat(0, 0))];
      }
    }

    /** The LRU map drops an entry, on all CPUs at once. */
    method Evict(key: FlowKey)
      requires Valid()
      modifies this
      ensures Valid() && flows == old(flows) - {key}
    {
      flows := flows - {key};
    }
  }

  // ----- Scraping -----

  type Snapshot = map<FlowKey, FlowStat>

  function PerCpuSum(stats: seq<FlowStat>): FlowStat {
    if stats == [] then FlowStat(0, 0)
    else
      var sum, s := PerCpuSum(stats[..|stats| - 1]), stats[|stats| - 1];
      FlowStat(sum.bytesTx + s.bytesTx, sum.bytesRx + s.bytesRx)
  }

  function Add(a: FlowStat, b: FlowStat): FlowStat {
    FlowStat(a.bytesTx + b.bytesTx, a.bytesRx + b.bytesRx)
  }

  /** The summed counters of every flow a scrape visited. */
  function SnapshotOf(flows: Counters, visits: seq<FlowKey>): Snapshot {
    map k | k in flows && k in visits :: PerCpuSum(flows[k])
  }

  function StatAt(snapshot: Snapshot, k: FlowKey): FlowStat {
    if k in snapshot then snapshot[k] else FlowStat(0, 0)
  }

  /** Traffic since the previous scrape; smaller counters mean the entry was evicted in between. */
  function Delta(prev: FlowStat, cur: FlowStat): FlowStat {
    if cur.bytesTx < prev.bytesTx || cur.bytesRx < prev.bytesRx then cur
    else FlowStat(cur.bytesTx - prev.bytesTx, cur.bytesRx - prev.bytesRx)
  }

  method SumCpus(perCPU: seq<FlowStat>) returns (sum: FlowStat)
    ensures sum == PerCpuSum(perCPU)
  {
    sum := FlowStat(0, 0);
    for i := 0 to |perCPU|
      invariant sum == PerCpuSum(perCPU[..i])
    {
      assert perCPU[..i + 1][..i] == perCPU[..i];
      sum := FlowStat(sum.bytesTx + perCPU[i].bytesTx, sum.bytesRx + perCPU[i].bytesRx);
    }
    assert perCPU[..|perCPU|] == perCPU;
  }
}
