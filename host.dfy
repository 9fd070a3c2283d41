/** The host the tap plugin acts on, seen through the calls it makes: links in
    the host network namespace (netlink), the IPAM delegate's allocation, and
    the metadata files. Each call's outcome that the kernel, the IPAM plugin or
    the file system decides is an input (a fault flag); what follows from the
    host state itself (a duplicate name, a missing link) is derived from it. */
module HostModel {
  import opened Wrappers
  import Dan

  datatype LinkKind = Bridge | Tuntap

  /** One link: its kind, the networks assigned to it, its master, whether it
      is administratively up, and its hardware address. */
  datatype Link = Link(kind: LinkKind, addrs: seq<string>, master: Option<string>, up: bool, mac: string)

  /** A bridge as `LinkAdd` creates it: no address, no master, down. */
  const NewBridge: Link := Link(Bridge, [], None, false, "")

  /** A tap device as `LinkAdd` creates it, with the MAC the kernel assigns. */
  function NewTap(mac: string): Link {
    Link(Tuntap, [], None, false, mac)
  }

  /** The external calls an invocation makes, in order. */
  datatype Call =
    | LookupLink(name: string)
    | AddLink(name: string)
    | AddAddr(name: string, network: string)
    | SetMaster(name: string, master: string)
    | SetUp(name: string)
    | DelLink(name: string)
    | IpamAdd(ipamType: string)
    | IpamDel(ipamType: string)
    | SaveFile(path: string)

  predicate IsIpamCall(c: Call) {
    c.IpamAdd? || c.IpamDel?
  }

  /** Errors of `ip.DelLinkByName`: the `ErrLinkNotFound` sentinel, a
      `ns.NSPathNotExistErr`, or any other failure. */
  datatype LinkError = LinkNotFound | NetnsGone | LinkFailed

  /** Faults the kernel may inject into a link deletion. */
  datatype DelFault = NoFault | NetnsGoneFault | OtherFault

  /** What `netlink.LinkByName` reports. */
  datatype Lookup = Found(link: Link) | NotFound | LookupFailed

  /** The host as a value. `trace` records the external calls made so far. */
  datatype HostState = HostState(
    links: map<string, Link>,
    ipamHeld: bool,
    files: map<string, Dan.DirectAttachableNetwork>,
    trace: seq<Call>)

  // ---- Each primitive as a function of the host state and its injected outcome.

  function LookupStep(s: HostState, name: string, fails: bool): (HostState, Lookup) {
    (s.(trace := s.trace + [LookupLink(name)]),
     if fails then LookupFailed else if name in s.links then Found(s.links[name]) else NotFound)
  }

  /** The kernel refuses a second link of the same name. */
  function AddLinkStep(s: HostState, name: string, link: Link, ok: bool): (HostState, bool) {
    var added := ok && name !in s.links;
    (s.(links := if added then s.links[name := link] else s.links, trace := s.trace + [AddLink(name)]), added)
  }

  function AddAddrStep(s: HostState, name: string, network: string, ok: bool): (HostState, bool) {
    var done := ok && name in s.links;
    (s.(links := if done then s.links[name := s.links[name].(addrs := s.links[name].addrs + [network])] else s.links,
        trace := s.trace + [AddAddr(name, network)]),
     done)
  }

  function SetMasterStep(s: HostState, name: string, master: string, ok: bool): (HostState, bool) {
    var done := ok && name in s.links && master in s.links;
    (s.(links := if done then s.links[name := s.links[name].(master := Some(master))] else s.links,
        trace := s.trace + [SetMaster(name, master)]),
     done)
  }

  function SetUpStep(s: HostState, name: string, ok: bool): (HostState, bool) {
    var done := ok && name in s.links;
    (s.(links := if done then s.links[name := s.links[name].(up := true)] else s.links,
        trace := s.trace + [SetUp(name)]),
     done)
  }

  function DelLinkStep(s: HostState, name: string, fault: DelFault): (HostState, Option<LinkError>) {
    var t := s.trace + [DelLink(name)];
    match fault
    case NetnsGoneFault => (s.(trace := t), Some(NetnsGone))
    case OtherFault => (s.(trace := t), Some(LinkFailed))
    case NoFault =>
      if name in s.links then (s.(links := s.links - {name}, trace := t), None)
      else (s.(trace := t), Some(LinkNotFound))
  }

  function IpamAddStep(s: HostState, ipamType: string, ok: bool): (HostState, bool) {
    (s.(ipamHeld := s.ipamHeld || ok, trace := s.trace + [IpamAdd(ipamType)]), ok)
  }

  function IpamDelStep(s: HostState, ipamType: string, ok: bool): (HostState, bool) {
    (s.(ipamHeld := s.ipamHeld && !ok, trace := s.trace + [IpamDel(ipamType)]), ok)
  }

  function SaveStep(s: HostState, path: string, rec: Dan.DirectAttachableNetwork, ok: bool): (HostState, bool) {
    (s.(files := if ok then s.files[path := rec] else s.files, trace := s.trace + [SaveFile(path)]), ok)
  }

  /** The host, updated in place by the calls the plugin makes. */
  class Host {
    var links: map<string, Link>
    var ipamHeld: bool
    var files: map<string, Dan.DirectAttachableNetwork>
    ghost var trace: seq<Call>

    ghost function State(): HostState
      reads this
    {
      HostState(links, ipamHeld, files, trace)
    }

    /** `netlink.LinkByName`. */
    method LinkByName(name: string, fails: bool) returns (r: Lookup)
      modifies this
      ensures (State(), r) == LookupStep(old(State()), name, fails)
    {
      if fails {
        r := LookupFailed;
      } else if name in links {
        r := Found(links[name]);
      } else {
        r := NotFound;
      }
      trace := trace + [LookupLink(name)];
    }

    /** `netlink.LinkAdd`. */
    method LinkAdd(name: string, link: Link, ok: bool) returns (added: bool)
      modifies this
      ensures (State(), added) == AddLinkStep(old(State()), name, link, ok)
    {
      added := ok && name !in links;
      if added {
        links := links[name := link];
      }
      trace := trace + [AddLink(name)];
    }

    /** `netlink.AddrAdd`. */
    method AddrAdd(name: string, network: string, ok: bool) returns (done: bool)
      modifies this
      ensures (State(), done) == AddAddrStep(old(State()), name, network, ok)
    {
      done := ok && name in links;
      if done {
        links := links[name := links[name].(addrs := links[name].addrs + [network])];
      }
      trace := trace + [AddAddr(name, network)];
    }

    /** `netlink.LinkSetMaster`. */
    method LinkSetMaster(name: string, master: string, ok: bool) returns (done: bool)
      modifies this
      ensures (State(), done) == SetMasterStep(old(State()), name, master, ok)
    {
      done := ok && name in links && master in links;
      if done {
        links := links[name := links[name].(master := Some(master))];
      }
      trace := trace + [SetMaster(name, master)];
    }

    /** `netlink.LinkSetUp`. */
    method LinkSetUp(name: string, ok: bool) returns (done: bool)
      modifies this
      ensures (State(), done) == SetUpStep(old(State()), name, ok)
    {
      done := ok && name in links;
      if done {
        links := links[name := links[name].(up := true)];
      }
      trace := trace + [SetUp(name)];
    }

    /** `ip.DelLinkByName`. */
    method DelLinkByName(name: string, fault: DelFault) returns (err: Option<LinkError>)
      modifies this
      ensures (State(), err) == DelLinkStep(old(State()), name, fault)
    {
      match fault {
        case NetnsGoneFault => err := Some(NetnsGone);
        case OtherFault => err := Some(LinkFailed);
        case NoFault =>
          if name in links {
            links := links - {name};
            err := None;
          } else {
            err := Some(LinkNotFound);
          }
      }
      trace := trace + [DelLink(name)];
    }

    /** `ipam.ExecAdd`. */
    method IpamExecAdd(ipamType: string, ok: bool) returns (added: bool)
      modifies this
      ensures (State(), added) == IpamAddStep(old(State()), ipamType, ok)
    {
      added := ok;
      if ok {
        ipamHeld := true;
      }
      trace := trace + [IpamAdd(ipamType)];
    }

    /** `ipam.ExecDel`. */
    method IpamExecDel(ipamType: string, ok: bool) returns (released: bool)
      modifies this
      ensures (State(), released) == IpamDelStep(old(State()), ipamType, ok)
    {
      released := ok;
      if ok {
        ipamHeld := false;
      }
      trace := trace + [IpamDel(ipamType)];
    }

    /** `DirectAttachableNetwork.Save`. */
    method Save(path: string, rec: Dan.DirectAttachableNetwork, ok: bool) returns (saved: bool)
      modifies this
      ensures (State(), saved) == SaveStep(old(State()), path, rec, ok)
    {
      saved := ok;
      if ok {
        files := files[path := rec];
      }
      trace := trace + [SaveFile(path)];
    }
  }
}
