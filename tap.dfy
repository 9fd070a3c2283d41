/** The tap CNI plugin (plugins/main/tap): ADD creates the bridge if needed,
    a tap device `tap0` enslaved to it, asks the IPAM delegate for addresses,
    and returns and persists the result; DEL releases the addresses and
    removes `tap0`; CHECK only parses the configuration.

    Each verb is given twice: as a function of the host state and the
    outcomes of the external calls (the specification), and as a method that
    performs the calls on a `Host` one by one, with Go's deferred closures as
    an explicit stack run last-registered first. */
module TapPlugin {
  import opened Wrappers
  import opened CniTypes
  import opened HostModel
  import Dan

  /** The fixed host-side device name. */
  const TapName: string := "tap0"

  /** Where ADD persists its record, derived from the device name. */
  const MetaFile: string := "/tmp/dans/tap/" + TapName + ".json"

  /** The annotation key under which the result points to its record. */
  const MetafileKey: string := "metafile"

  /** The configuration fields the plugin reads: `cniVersion`, `bridge`,
      `bridgeIP` and `ipam.type`. */
  datatype NetConf = NetConf(cniVersion: string, bridge: string, bridgeIP: string, ipamType: string)

  /** What `net.ParseCIDR` returns for a valid CIDR: the host address and the
      masked network (for "10.0.0.1/24": "10.0.0.1" and "10.0.0.0/24"). */
  datatype Cidr = Cidr(ip: string, network: string)

  /** The errors the verbs return, one per error path of the source. */
  datatype Error =
    | ParseError            // parseNetConf: the configuration is not valid JSON
    | MissingIpam           // ADD without `ipam.type`
    | BridgeFetchFailed     // bridge lookup failed other than by not-found
    | BridgeCreateFailed    // LinkAdd of the bridge
    | BridgeIPInvalid       // ParseCIDR of `bridgeIP`
    | BridgeAddrFailed      // AddrAdd on the bridge
    | TapCreateFailed       // LinkAdd of the tap device
    | SetMasterFailed       // LinkSetMaster
    | TapFetchFailed        // re-fetch of the tap device
    | SetUpFailed           // LinkSetUp
    | IpamAddFailed         // ipam.ExecAdd
    | ConvertFailed         // current.NewResultFromResult
    | MissingIPConfig       // the IPAM result has no IP configuration
    | PrintFailed           // types.PrintResult
    | IpamDelFailed         // ipam.ExecDel in DEL
    | LinkDel(cause: LinkError)  // ip.DelLinkByName

  /** The outcome of every external call ADD can make: the faults of the
      netlink calls, the result of `ParseCIDR`, the MAC the kernel gives the
      new tap device, the IPAM delegate's answers, the converted result, and
      whether the metadata save and the result output succeed. */
  datatype AddOutcomes = AddOutcomes(
    bridgeLookupFails: bool,
    bridgeAddOk: bool,
    bridgeCidr: Option<Cidr>,
    addrAddOk: bool,
    tapAddOk: bool,
    tapMac: string,
    setMasterOk: bool,
    refetchFails: bool,
    setUpOk: bool,
    ipamAddOk: bool,
    converted: Option<CniResult>,
    releaseOk: bool,
    rollbackDelFault: DelFault,
    saveOk: bool,
    printOk: bool)

  /** The outcomes of DEL's two calls. */
  datatype DelOutcomes = DelOutcomes(releaseOk: bool, delFault: DelFault)

  /** The three closures ADD defers, in registration order. */
  datatype Deferred =
    | SaveMetadata       // save a record built from `result`
    | DeleteTapOnError   // if err != nil: err = ip.DelLinkByName(tap0)
    | ReleaseOnError     // if err != nil: ipam.ExecDel(...)

  /** What ADD leaves behind: the host, the returned error, and the result
      handed to `PrintResult` (None when ADD returns before that call). */
  datatype AddReply = AddReply(host: HostState, err: Option<Error>, printed: Option<CniResult>)

  // ---------------------------------------------------------------------------
  // Specification functions

  /** The bridge half of `createTapInterface`: use the bridge if it exists,
      otherwise create it and give it the masked network of `bridgeIP`. */
  function EnsureBridge(s: HostState, conf: NetConf, o: AddOutcomes): (HostState, Option<Error>) {
    var (s1, br) := LookupStep(s, conf.bridge, o.bridgeLookupFails);
    if br.LookupFailed? then (s1, Some(BridgeFetchFailed))
    else if br.Found? then (s1, None)
    else
      var (s2, created) := AddLinkStep(s1, conf.bridge, NewBridge, o.bridgeAddOk);
      if !created then (s2, Some(BridgeCreateFailed))
      else if o.bridgeCidr.None? then (s2, Some(BridgeIPInvalid))
      else
        var (s3, addrSet) := AddAddrStep(s2, conf.bridge, o.bridgeCidr.value.network, o.addrAddOk);
        (s3, if addrSet then None else Some(BridgeAddrFailed))
  }

  /** The device half of `createTapInterface`: create the tap device, enslave
      it to the bridge, read it back and bring it up. */
  function AttachTap(s: HostState, conf: NetConf, ifName: string, o: AddOutcomes): (HostState, Result<Interface, Error>) {
    var (s1, created) := AddLinkStep(s, ifName, NewTap(o.tapMac), o.tapAddOk);
    if !created then (s1, Failure(TapCreateFailed))
    else
      var (s2, bound) := SetMasterStep(s1, ifName, conf.bridge, o.setMasterOk);
      if !bound then (s2, Failure(SetMasterFailed))
      else
        var (s3, got) := LookupStep(s2, ifName, o.refetchFails);
        if !got.Found? then (s3, Failure(TapFetchFailed))
        else
          var (s4, up) := SetUpStep(s3, ifName, o.setUpOk);
          if !up then (s4, Failure(SetUpFailed))
          else (s4, Success(Interface(ifName, got.link.mac, "")))
  }

  /** `createTapInterface`. */
  function CreateTap(s: HostState, conf: NetConf, ifName: string, o: AddOutcomes): (HostState, Result<Interface, Error>) {
    var (s1, e) := EnsureBridge(s, conf, o);
    if e.Some? then (s1, Failure(e.value)) else AttachTap(s1, conf, ifName, o)
  }

  /** Every IP configuration bound to sandbox interface 0. */
  function Rebound(ips: seq<IPConfig>): seq<IPConfig> {
    seq(|ips|, k requires 0 <= k < |ips| => ips[k].(iface := Some(0)))
  }

  /** The result ADD prints: the converted IPAM result, its addresses bound to
      interface 0, the tap device as its only interface, and the record's
      location added to its annotations. */
  function Composed(r: CniResult, tap: Interface): CniResult {
    r.(ips := Rebound(r.ips), interfaces := [tap], annotations := r.annotations[MetafileKey := MetaFile])
  }

  /** One deferred closure, run with the current `err` and `result`; returns
      the host and `err` after it. A nil `result` (failed conversion) saves
      nothing. */
  function RunDeferredCall(s: HostState, d: Deferred, err: Option<Error>, result: Option<CniResult>,
                           ifName: string, conf: NetConf, o: AddOutcomes): (HostState, Option<Error>) {
    match d
    case SaveMetadata =>
      if result.Some? then (SaveStep(s, MetaFile, Dan.FromResult(Dan.Tap, TapName, ifName, result.value), o.saveOk).0, err)
      else (s, err)
    case DeleteTapOnError =>
      if err.Some? then
        var (s1, e) := DelLinkStep(s, TapName, o.rollbackDelFault);
        (s1, if e.Some? then Some(LinkDel(e.value)) else None)
      else (s, err)
    case ReleaseOnError =>
      if err.Some? then (IpamDelStep(s, conf.ipamType, o.releaseOk).0, err) else (s, err)
  }

  /** Running the deferred closures, last registered first. */
  function Unwind(s: HostState, deferred: seq<Deferred>, err: Option<Error>, result: Option<CniResult>,
                  ifName: string, conf: NetConf, o: AddOutcomes): HostState
    decreases |deferred|
  {
    if deferred == [] then s
    else
      var (s1, e1) := RunDeferredCall(s, deferred[|deferred| - 1], err, result, ifName, conf, o);
      Unwind(s1, deferred[..|deferred| - 1], e1, result, ifName, conf, o)
  }

  /** The closures registered once `tap0` exists, and once IPAM has allocated. */
  const Armed: seq<Deferred> := [SaveMetadata, DeleteTapOnError]
  const ArmedWithRelease: seq<Deferred> := [SaveMetadata, DeleteTapOnError, ReleaseOnError]

  /** `cmdAdd` from the IPAM call on, with the tap device in place. The
      returned error is the value of the `return` expression; the closures see
      the shared `err`, which the missing-IP-config and PrintResult returns
      never set. */
  function AddWithTap(s: HostState, ifName: string, conf: NetConf, tap: Interface, o: AddOutcomes): AddReply {
    var (s1, added) := IpamAddStep(s, conf.ipamType, o.ipamAddOk);
    if !added then
      AddReply(Unwind(s1, Armed, Some(IpamAddFailed), Some(EmptyResult), ifName, conf, o), Some(IpamAddFailed), None)
    else if o.converted.None? then
      AddReply(Unwind(s1, ArmedWithRelease, Some(ConvertFailed), None, ifName, conf, o), Some(ConvertFailed), None)
    else
      var r := o.converted.value;
      if |r.ips| == 0 then
        AddReply(Unwind(s1, ArmedWithRelease, None, Some(r), ifName, conf, o), Some(MissingIPConfig), None)
      else
        var p := Composed(r, tap);
        AddReply(Unwind(s1, ArmedWithRelease, None, Some(p), ifName, conf, o),
                 if o.printOk then None else Some(PrintFailed), Some(p))
  }

  /** `cmdAdd`; `parsed` is the outcome of `parseNetConf`. */
  function Add(s: HostState, ifName: string, parsed: Option<NetConf>, o: AddOutcomes): AddReply {
    if parsed.None? then AddReply(s, Some(ParseError), None)
    else if parsed.value.ipamType == "" then AddReply(s, Some(MissingIpam), None)
    else
      var (s1, tap) := CreateTap(s, parsed.value, TapName, o);
      if tap.Failure? then AddReply(s1, Some(tap.error), None)
      else AddWithTap(s1, ifName, parsed.value, tap.value, o)
  }

  /** `cmdDel`: release first, then delete `tap0`; a missing device or a
      missing namespace is success. */
  function Del(s: HostState, parsed: Option<NetConf>, o: DelOutcomes): (HostState, Option<Error>) {
    if parsed.None? then (s, Some(ParseError))
    else
      var (s1, released) := IpamDelStep(s, parsed.value.ipamType, o.releaseOk);
      if !released then (s1, Some(IpamDelFailed))
      else
        var (s2, e) := DelLinkStep(s1, TapName, o.delFault);
        (s2, if e == Some(LinkNotFound) || e == Some(NetnsGone) then None
             else if e.Some? then Some(LinkDel(e.value)) else None)
  }

  // ---------------------------------------------------------------------------
  // The verbs as step-by-step programs over a Host

  /** `createTapInterface`: nothing it created is removed when a later step
      fails. */
  method CreateTapInterface(h: Host, conf: NetConf, ifName: string, o: AddOutcomes) returns (r: Result<Interface, Error>)
    modifies h
    ensures (h.State(), r) == CreateTap(old(h.State()), conf, ifName, o)
  {
    var br := h.LinkByName(conf.bridge, o.bridgeLookupFails);
    if br.LookupFailed? {
      return Failure(BridgeFetchFailed);
    }
    if br.NotFound? {
      var created := h.LinkAdd(conf.bridge, NewBridge, o.bridgeAddOk);
      if !created {
        return Failure(BridgeCreateFailed);
      }
      if o.bridgeCidr.None? {
        return Failure(BridgeIPInvalid);
      }
      var addrSet := h.AddrAdd(conf.bridge, o.bridgeCidr.value.network, o.addrAddOk);
      if !addrSet {
        return Failure(BridgeAddrFailed);
      }
    }
    var tapAdded := h.LinkAdd(ifName, NewTap(o.tapMac), o.tapAddOk);
    if !tapAdded {
      return Failure(TapCreateFailed);
    }
    var tapInterface := Interface(ifName, "", "");
    var bound := h.LinkSetMaster(ifName, conf.bridge, o.setMasterOk);
    if !bound {
      return Failure(SetMasterFailed);
    }
    var tapGot := h.LinkByName(ifName, o.refetchFails);
    if !tapGot.Found? {
      return Failure(TapFetchFailed);
    }
    tapInterface := tapInterface.(mac := tapGot.link.mac);
    var up := h.LinkSetUp(ifName, o.setUpOk);
    if !up {
      return Failure(SetUpFailed);
    }
    return Success(tapInterface);
  }

  /** Runs the deferred closures at a return of `cmdAdd`, last registered
      first, threading the shared `err` through them. */
  method RunDeferred(h: Host, deferred: seq<Deferred>, err: Option<Error>, result: Option<CniResult>,
                     ifName: string, conf: NetConf, o: AddOutcomes)
    modifies h
    ensures h.State() == Unwind(old(h.State()), deferred, err, result, ifName, conf, o)
  {
    var i := |deferred|;
    var e := err;
    assert deferred[..i] == deferred;
    while i > 0
      invariant 0 <= i <= |deferred|
      invariant Unwind(h.State(), deferred[..i], e, result, ifName, conf, o)
             == Unwind(old(h.State()), deferred, err, result, ifName, conf, o)
    {
      ghost var before, eBefore := h.State(), e;
      i := i - 1;
      match deferred[i] {
        case SaveMetadata =>
          if result.Some? {
            var meta := Dan.FromResult(Dan.Tap, TapName, ifName, result.value);
            var saved := h.Save(MetaFile, meta, o.saveOk);
          }
        case DeleteTapOnError =>
          if e.Some? {
            var le := h.DelLinkByName(TapName, o.rollbackDelFault);
            e := if le.Some? then Some(LinkDel(le.value)) else None;
          }
        case ReleaseOnError =>
          if e.Some? {
            var released := h.IpamExecDel(conf.ipamType, o.releaseOk);
          }
      }
      assert (h.State(), e) == RunDeferredCall(before, deferred[i], eBefore, result, ifName, conf, o);
      assert deferred[..i + 1][..i] == deferred[..i];
    }
  }

  /** The loop of `cmdAdd` that points every IP configuration at the
      sandbox's interface 0. */
  method RebindToSandbox(ips: seq<IPConfig>) returns (out: seq<IPConfig>)
    ensures |out| == |ips|
    ensures forall k :: 0 <= k < |ips| ==> out[k] == ips[k].(iface := Some(0))
  {
    out := ips;
    var i := 0;
    while i < |out|
      invariant |out| == |ips|
      invariant 0 <= i <= |out|
      invariant forall k :: 0 <= k < i ==> out[k] == ips[k].(iface := Some(0))
      invariant forall k :: i <= k < |out| ==> out[k] == ips[k]
    {
      out := out[i := out[i].(iface := Some(0))];
      i := i + 1;
    }
  }

  /** `cmdAdd`. `err` is the returned error, `printed` what is handed to
      `PrintResult`. */
  method CmdAdd(h: Host, ifName: string, parsed: Option<NetConf>, o: AddOutcomes)
    returns (err: Option<Error>, printed: Option<CniResult>)
    modifies h
    ensures AddReply(h.State(), err, printed) == Add(old(h.State()), ifName, parsed, o)
  {
    printed := None;
    if parsed.None? {
      return Some(ParseError), None;
    }
    var conf := parsed.value;
    if conf.ipamType == "" {
      return Some(MissingIpam), None;
    }
    var tap := CreateTapInterface(h, conf, TapName, o);
    if tap.Failure? {
      return Some(tap.error), None;
    }
    // From here on the closures see the shared `err` and `result`.
    var result: Option<CniResult> := Some(EmptyResult);
    var shared: Option<Error> := None;
    var deferred: seq<Deferred> := [SaveMetadata];
    deferred := deferred + [DeleteTapOnError];
    assert deferred == Armed;
    var added := h.IpamExecAdd(conf.ipamType, o.ipamAddOk);
    if !added {
      shared := Some(IpamAddFailed);
      err := shared;
      RunDeferred(h, deferred, shared, result, ifName, conf, o);
      return;
    }
    deferred := deferred + [ReleaseOnError];
    assert deferred == ArmedWithRelease;
    result := o.converted;
    if result.None? {
      shared := Some(ConvertFailed);
      err := shared;
      RunDeferred(h, deferred, shared, result, ifName, conf, o);
      return;
    }
    var r := result.value;
    if |r.ips| == 0 {
      err := Some(MissingIPConfig);
      RunDeferred(h, deferred, shared, result, ifName, conf, o);
      return;
    }
    var ips := RebindToSandbox(r.ips);
    assert ips == Rebound(r.ips);
    r := r.(ips := ips);
    r := r.(interfaces := [tap.value]);
    r := r.(annotations := r.annotations[MetafileKey := MetaFile]);
    result := Some(r);
    printed := result;
    err := if o.printOk then None else Some(PrintFailed);
    RunDeferred(h, deferred, shared, result, ifName, conf, o);
  }

  /** `cmdDel`. */
  method CmdDel(h: Host, parsed: Option<NetConf>, o: DelOutcomes) returns (err: Option<Error>)
    modifies h
    ensures (h.State(), err) == Del(old(h.State()), parsed, o)
  {
    if parsed.None? {
      return Some(ParseError);
    }
    var released := h.IpamExecDel(parsed.value.ipamType, o.releaseOk);
    if !released {
      return Some(IpamDelFailed);
    }
    var le := h.DelLinkByName(TapName, o.delFault);
    if le == Some(LinkNotFound) {
      return None;
    }
    if le.Some? {
      if le.value == NetnsGone {
        return None;
      }
      return Some(LinkDel(le.value));
    }
    return None;
  }

  /** `cmdCheck`: succeeds exactly when the configuration parses; it takes no
      host, so it changes nothing. */
  method CmdCheck(parsed: Option<NetConf>) returns (err: Option<Error>)
    ensures err.None? <==> parsed.Some?
    ensures err.Some? ==> err.value == ParseError
  {
    if parsed.None? {
      return Some(ParseError);
    }
    return None;
  }
}
