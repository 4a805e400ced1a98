/** Network paths and how sure the classifier is of them. */
module Classify {
  import opened Findings
  import opened Text

  datatype PathClass =
    | SameNode | SameAZ | CrossAZ | CrossRegion | ManagedService | PrivateOffCluster | NATEgress | InternetEgress

  function Name(class_: PathClass): string {
    match class_
    case SameNode => "SAME_NODE"
    case SameAZ => "SAME_AZ"
    case CrossAZ => "CROSS_AZ"
    case CrossRegion => "CROSS_REGION"
    case ManagedService => "MANAGED_SERVICE"
    case PrivateOffCluster => "PRIVATE_OFFCLUSTER"
    case NATEgress => "NAT_EGRESS"
    case InternetEgress => "INTERNET_EGRESS"
  }

  datatype Confidence = High | Med | Low

  function ConfidenceName(c: Confidence): string {
    match c
    case High => "high"
    case Med => "med"
    case Low => "low"
  }

  type Octet = b: int | 0 <= b < 256

  datatype Ip = Ip(a: Octet, b: Octet, c: Octet, d: Octet)

  function IpText(ip: Ip): (s: string)
    ensures s != "" && s != "?" && '/' !in s && '|' !in s
  {
    var s := Decimal(ip.a) + "." + Decimal(ip.b) + "." + Decimal(ip.c) + "." + Decimal(ip.d);
    assert s[0] == Decimal(ip.a)[0] && Decimal(ip.a)[0] in Decimal(ip.a);
    s
  }

  /** Different addresses are written differently. */
  lemma IpTextInjective(ip: Ip, ip': Ip)
    requires IpText(ip) == IpText(ip')
    ensures ip == ip'
  {
    hide Decimal;
    Dotted(Decimal(ip.a), Decimal(ip.b), Decimal(ip.c), Decimal(ip.d));
    Dotted(Decimal(ip'.a), Decimal(ip'.b), Decimal(ip'.c), Decimal(ip'.d));
    var last, last' := Decimal(ip.d), Decimal(ip'.d);
    var two, two' := Decimal(ip.c) + "." + last, Decimal(ip'.c) + "." + last';
    NextOctet(ip.a, Decimal(ip.b) + "." + two, ip'.a, Decimal(ip'.b) + "." + two');
    NextOctet(ip.b, two, ip'.b, two');
    NextOctet(ip.c, last, ip'.c, last');
    DecimalInjective(ip.d, ip'.d);
  }

  lemma Dotted(a: string, b: string, c: string, d: string)
    ensures a + "." + b + "." + c + "." + d == a + "." + (b + "." + (c + "." + d))
  {
  }

  lemma NextOctet(n: nat, rest: string, n': nat, rest': string)
    requires Decimal(n) + "." + rest == Decimal(n') + "." + rest'
    ensures n == n' && rest == rest'
  {
    hide Decimal;
    assert '.' !in Decimal(n) && '.' !in Decimal(n');
    BeforeAppended(Decimal(n), '.', rest);
    BeforeAppended(Decimal(n'), '.', rest');
    DecimalInjective(n, n');
    assert rest == (Decimal(n) + "." + rest)[|Decimal(n)| + 1..];
    assert rest' == (Decimal(n') + "." + rest')[|Decimal(n')| + 1..];
  }

  function IpValue(ip: Ip): nat {
    ip.a * 0x100_0000 + ip.b * 0x1_0000 + ip.c * 0x100 + ip.d
  }

  /** An address block: the addresses that agree with `base` above the low `size` addresses. */
  datatype Block = Block(base: Ip, size: nat)

  predicate Contains(block: Block, ip: Ip) {
    block.size > 0 && IpValue(ip) / block.size == IpValue(block.base) / block.size
  }

  /** Those are the addresses of one range: `size` of them from the last multiple of `size` up to `base`. */
  lemma BlockIsRange(block: Block, ip: Ip)
    requires block.size > 0
    ensures var start := IpValue(block.base) - IpValue(block.base) % block.size;
      Contains(block, ip) <==> start <= IpValue(ip) < start + block.size
  {
    hide IpValue;
    var n, v, base := block.size, IpValue(ip), IpValue(block.base);
    SameQuotient(n, v / n, v % n, base / n);
    Division(v, n);
    Division(base, n);
  }

  lemma Division(v: int, n: int)
    requires n > 0
    ensures v == n * (v / n) + v % n && 0 <= v % n < n
  {
  }

  lemma SameQuotient(n: int, q: int, r: int, p: int)
    requires 0 <= r < n
    ensures q == p <==> n * p <= n * q + r < n * p + n
  {
    if q < p {
      Scaled(n, q + 1, p);
      assert n * (q + 1) == n * q + n;
    } else if q > p {
      Scaled(n, p + 1, q);
      assert n * (p + 1) == n * p + n;
    }
  }

  lemma Scaled(n: int, a: int, b: int)
    requires a <= b && n > 0
    ensures n * a <= n * b
  {
  }

  /** 10.0.0.0/8, 172.16.0.0/12 and 192.168.0.0/16 (RFC 1918, section 3). */
  function PrivateBlocks(): seq<Block> {
    [Block(Ip(10, 0, 0, 0), 0x100_0000), Block(Ip(172, 16, 0, 0), 0x10_0000), Block(Ip(192, 168, 0, 0), 0x1_0000)]
  }

  predicate InAny(blocks: seq<Block>, ip: Ip) {
    exists i | 0 <= i < |blocks| :: Contains(blocks[i], ip)
  }

  /** Exactly the three ranges, read off the octets. */
  lemma PrivateByOctets(ip: Ip)
    ensures InAny(PrivateBlocks(), ip) <==>
              ip.a == 10 || (ip.a == 172 && 16 <= ip.b < 32) || (ip.a == 192 && ip.b == 168)
  {
    var blocks := PrivateBlocks();
    assert Contains(blocks[0], ip) <==> ip.a == 10;
    assert Contains(blocks[1], ip) <==> ip.a == 172 && 16 <= ip.b < 32;
    assert Contains(blocks[2], ip) <==> ip.a == 192 && ip.b == 168;
  }

  predicate IsLoopback(ip: Ip) {
    ip.a == 127
  }

  /** A zone without its trailing lower-case letters. */
  function Region(zone: string): string {
    if zone != "" && 'a' <= zone[|zone| - 1] <= 'z' then Region(zone[..|zone| - 1]) else zone
  }

  predicate IsLetter(c: char) {
    'a' <= c <= 'z'
  }

  /** The region is the part of a zone before its trailing letters: all of them, and nothing else, is dropped. */
  lemma {:induction false} RegionIsStem(stem: string, letters: string)
    requires (stem == "" || !IsLetter(stem[|stem| - 1])) && forall c | c in letters :: IsLetter(c)
    ensures Region(stem + letters) == stem
  {
    if letters == "" {
      assert stem + letters == stem;
    } else {
      var front := letters[..|letters| - 1];
      assert (stem + letters)[..|stem + letters| - 1] == stem + front;
      assert letters[|letters| - 1] in letters;
      RegionIsStem(stem, front);
    }
  }

  datatype ClassifyInput = ClassifyInput(
    remote: Option<Ip>,
    sourceNode: string,
    destNode: string,
    managed: bool,
    nodeHasPublicIP: bool)

  function Classified(input: ClassifyInput, zoneOf: string -> string): (PathClass, Confidence) {
    if input.remote.None? then (InternetEgress, Low)
    else if IsLoopback(input.remote.value) then (SameNode, High)
    else if input.destNode != "" then
      if input.sourceNode != "" && input.destNode == input.sourceNode then (SameNode, High)
      else
        var srcZone, dstZone := zoneOf(input.sourceNode), zoneOf(input.destNode);
        if srcZone == "" || dstZone == "" then (SameAZ, Low)
        else if srcZone == dstZone then (SameAZ, High)
        else if Region(srcZone) == Region(dstZone) then (CrossAZ, High)
        else (CrossRegion, High)
    else if input.managed then (ManagedService, High)
    else if InAny(PrivateBlocks(), input.remote.value) then (PrivateOffCluster, High)
    else if !input.nodeHasPublicIP then (NATEgress, Med)
    else (InternetEgress, High)
  }

  /** The confidence every class but SAME_AZ always has; an unknown remote end is the only doubtful internet one. */
  function UsualConfidence(class_: PathClass, remoteKnown: bool): Confidence {
    if class_ == NATEgress then Med else if class_ == InternetEgress && !remoteKnown then Low else High
  }

  lemma ConfidenceFollowsClass(input: ClassifyInput, zoneOf: string -> string)
    ensures var (class_, confidence) := Classified(input, zoneOf);
      if class_ == SameAZ then confidence != Med else confidence == UsualConfidence(class_, input.remote.Some?)
  {
  }

  /** The remote end runs on a known other node of the cluster. */
  predicate OnOtherNode(input: ClassifyInput) {
    input.remote.Some? && input.remote.value.a != 127 && input.destNode != "" && input.destNode != input.sourceNode
  }

  /** The remote end is known and on no known node. */
  predicate OffCluster(input: ClassifyInput) {
    input.remote.Some? && input.remote.value.a != 127 && input.destNode == ""
  }

  /** What each class says about the two ends: one that bills for crossing is only given when both zones are known and
      differ, or off the cluster, and SAME_AZ is doubtful exactly when a zone is unknown. */
  lemma CrossingNeedsZones(input: ClassifyInput, zoneOf: string -> string)
    ensures var (class_, confidence) := Classified(input, zoneOf);
      var here, there := zoneOf(input.sourceNode), zoneOf(input.destNode);
      && (class_ == CrossAZ || class_ == CrossRegion <==>
           OnOtherNode(input) && here != "" && there != "" && here != there)
      && (class_ == CrossAZ ==> Region(here) == Region(there))
      && (class_ == CrossRegion ==> Region(here) != Region(there))
      && (class_ == SameAZ && confidence == High <==> OnOtherNode(input) && here == there != "")
      && (class_ == SameAZ && confidence != High <==> OnOtherNode(input) && (here == "" || there == ""))
      && (class_ == ManagedService <==> OffCluster(input) && input.managed)
      && (class_ == PrivateOffCluster <==>
           OffCluster(input) && !input.managed && InAny(PrivateBlocks(), input.remote.value))
      && (class_ == NATEgress <==>
           OffCluster(input) && !input.managed && !InAny(PrivateBlocks(), input.remote.value) && !input.nodeHasPublicIP)
      && (class_ == SameNode <==>
           && input.remote.Some?
           && (input.remote.value.a == 127 || (input.destNode != "" && input.destNode == input.sourceNode)))
  {
    hide InAny, PrivateBlocks, Region;
  }

  /** Both directions of a connection between two nodes get the same class and confidence. */
  lemma DirectionsClassifyAlike(there: ClassifyInput, back: ClassifyInput, zoneOf: string -> string)
    requires there.remote.Some? && back.remote.Some? && !IsLoopback(there.remote.value)
             && !IsLoopback(back.remote.value)
    requires there.sourceNode == back.destNode != "" && there.destNode == back.sourceNode != ""
    ensures Classified(there, zoneOf) == Classified(back, zoneOf)
  {
  }
}
