/** The findings an agent ships and the rows the control plane reads back. */
module Findings {

  datatype Option<+T> = None | Some(value: T)

  /** One `ipBlock` of a generated policy: everything in `cidr` except `excepted`. */
  datatype IpBlock = IpBlock(cidr: string, excepted: seq<string>)

  /** A manifest: absent, text that is not a policy document, or a decoded policy with its egress rules' blocks. */
  datatype Manifest =
    | NoManifest
    | Unparseable
    | Policy(namespace: string, egress: seq<seq<IpBlock>>)

  datatype Finding = Finding(
    source: string,
    destination: string,
    pathClass: string,
    confidence: string,
    bytesTx: nat,
    bytesRx: nat,
    costLow: real,
    costHigh: real,
    fixHint: string,
    fixManifest: Manifest,
    cloud: string,
    region: string,
    savingsLow: real,
    savingsHigh: real)

  /** A stored finding plus which cluster it is from and when it was reported. */
  datatype FindingRow = FindingRow(finding: Finding, clusterId: string, reportedAt: nat)
}
