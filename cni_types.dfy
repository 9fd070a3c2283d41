/** The parts of the CNI result record (types/100 `Result`) that the tap plugin
    produces, rewrites and persists. */
module CniTypes {
  import opened Wrappers

  /** `current.Interface`: logical name, hardware address and sandbox path. */
  datatype Interface = Interface(name: string, mac: string, sandbox: string)

  /** `current.IPConfig`; `iface` is the optional `*int` index into `Interfaces`. */
  datatype IPConfig = IPConfig(iface: Option<int>, address: string, gateway: string)

  /** `types.Route`: destination network and gateway. */
  datatype Route = Route(dst: string, gw: string)

  /** `types.DNS`. */
  datatype DNS = DNS(nameservers: seq<string>, domain: string, search: seq<string>, options: seq<string>)

  /** `current.Result` of this fork, which carries an annotation map. A nil map
      and an empty map behave the same for reads, writes after `make`, and JSON
      output with omitempty, so both are the empty map here. */
  datatype CniResult = CniResult(
    cniVersion: string,
    interfaces: seq<Interface>,
    ips: seq<IPConfig>,
    routes: seq<Route>,
    dns: DNS,
    annotations: map<string, string>)

  const EmptyDNS: DNS := DNS([], "", [], [])

  /** `&current.Result{}`: every field at its zero value. */
  const EmptyResult: CniResult := CniResult("", [], [], [], EmptyDNS, map[])
}
