// One row of the device's connection table, and the key that identifies it across polls.

module Flows {
  import opened Text

  datatype Flow = Flow(
    protocol: string, ttl: string, originSrc: string, originDst: string, srcPort: string, dstPort: string,
    txPackets: int, txBytes: int, rxPackets: int, rxBytes: int,
    natedIP: string, natedPort: string, tcpState: string, direction: string,
    application: string, hostName: string)
  {
    /** Bytes both ways: the counter whose growth the rollup records. */
    function Bytes(): int {
      txBytes + rxBytes
    }
  }

  function SessionKey(f: Flow): string {
    ToUpper(f.protocol) + "|" + f.originSrc + "|" + f.originDst + "|" + f.srcPort + "|" + f.dstPort
  }
}
