/** What the tap plugin's verbs do on each path, proved of the specification
    functions that the `CmdAdd`, `CmdDel` and `CreateTapInterface` methods
    are verified against. */
module TapLemmas {
  import opened Wrappers
  import opened CniTypes
  import opened HostModel
  import opened TapPlugin
  import Dan

  // ---- Unwinding the two deferred stacks that occur

  /** With `tap0` in place: the tap closure runs, then the metadata save. */
  lemma UnwindArmed(s: HostState, err: Option<Error>, result: Option<CniResult>, ifName: string, conf: NetConf, o: AddOutcomes)
    ensures Unwind(s, Armed, err, result, ifName, conf, o)
         == var (s1, e1) := RunDeferredCall(s, DeleteTapOnError, err, result, ifName, conf, o);
            RunDeferredCall(s1, SaveMetadata, e1, result, ifName, conf, o).0
  {
    assert Armed[..1] == [SaveMetadata];
    assert Armed[..1][..0] == [];
  }

  /** After allocation: the IPAM release runs first, then the tap closure,
      then the metadata save. */
  lemma UnwindArmedWithRelease(s: HostState, err: Option<Error>, result: Option<CniResult>, ifName: string, conf: NetConf, o: AddOutcomes)
    ensures Unwind(s, ArmedWithRelease, err, result, ifName, conf, o)
         == var (s1, e1) := RunDeferredCall(s, ReleaseOnError, err, result, ifName, conf, o);
            Unwind(s1, Armed, e1, result, ifName, conf, o)
  {
    assert ArmedWithRelease[..2] == Armed;
  }

  // ---- ADD before any host call

  /** ADD with an unparsable configuration or without `ipam.type` fails and
      makes no call at all: the host, its trace included, is unchanged. */
  lemma AddRejectsBeforeAnyCall(s: HostState, ifName: string, parsed: Option<NetConf>, o: AddOutcomes)
    requires parsed.None? || parsed.value.ipamType == ""
    ensures Add(s, ifName, parsed, o).host == s
    ensures Add(s, ifName, parsed, o).err == Some(if parsed.None? then ParseError else MissingIpam)
    ensures Add(s, ifName, parsed, o).printed.None?
  {
  }

  // ---- createTapInterface

  /** A call `createTapInterface` may make: netlink link setup, no
      deletion, no IPAM, no file. */
  predicate SetupCall(c: Call) {
    !IsIpamCall(c) && !c.SaveFile? && !c.DelLink?
  }

  /** `s2` follows `s` by link setup alone: IPAM and files as they were, every
      link of `s` still there unchanged, and only setup calls added. */
  ghost predicate SetupOnly(s: HostState, s2: HostState) {
    && s2.ipamHeld == s.ipamHeld && s2.files == s.files
    && (forall n :: n in s.links ==> n in s2.links && s2.links[n] == s.links[n])
    && |s.trace| <= |s2.trace| && s2.trace[..|s.trace|] == s.trace
    && (forall i :: |s.trace| <= i < |s2.trace| ==> SetupCall(s2.trace[i]))
  }

  lemma SetupOnlyTrans(s1: HostState, s2: HostState, s3: HostState)
    requires SetupOnly(s1, s2) && SetupOnly(s2, s3)
    ensures SetupOnly(s1, s3)
  {
    assert s3.trace[..|s1.trace|] == s3.trace[..|s2.trace|][..|s1.trace|];
  }

  /** One more setup call that leaves every link of `s0` as `s` has it keeps
      `s2` a setup-only successor of `s0`. */
  lemma SetupStep(s0: HostState, s: HostState, s2: HostState, c: Call)
    requires SetupOnly(s0, s)
    requires s2.ipamHeld == s.ipamHeld && s2.files == s.files
    requires s2.trace == s.trace + [c] && SetupCall(c)
    requires forall n :: n in s0.links ==> n in s2.links && s2.links[n] == s.links[n]
    ensures SetupOnly(s0, s2)
  {
    assert s2.trace[..|s0.trace|] == s.trace[..|s0.trace|];
  }

  lemma EnsureBridgeFrame(s: HostState, conf: NetConf, o: AddOutcomes)
    ensures SetupOnly(s, EnsureBridge(s, conf, o).0)
  {
    assert SetupOnly(s, s);
    var (s1, br) := LookupStep(s, conf.bridge, o.bridgeLookupFails);
    SetupStep(s, s, s1, LookupLink(conf.bridge));
    if br.NotFound? {
      var (s2, created) := AddLinkStep(s1, conf.bridge, NewBridge, o.bridgeAddOk);
      SetupStep(s, s1, s2, AddLink(conf.bridge));
      if created && o.bridgeCidr.Some? {
        var network := o.bridgeCidr.value.network;
        SetupStep(s, s2, AddAddrStep(s2, conf.bridge, network, o.addrAddOk).0, AddAddr(conf.bridge, network));
      }
    }
  }

  lemma AttachTapFrame(s: HostState, conf: NetConf, ifName: string, o: AddOutcomes)
    ensures SetupOnly(s, AttachTap(s, conf, ifName, o).0)
  {
    assert SetupOnly(s, s);
    var (s1, created) := AddLinkStep(s, ifName, NewTap(o.tapMac), o.tapAddOk);
    SetupStep(s, s, s1, AddLink(ifName));
    if created {
      var (s2, bound) := SetMasterStep(s1, ifName, conf.bridge, o.setMasterOk);
      SetupStep(s, s1, s2, SetMaster(ifName, conf.bridge));
      if bound {
        var (s3, got) := LookupStep(s2, ifName, o.refetchFails);
        SetupStep(s, s2, s3, LookupLink(ifName));
        if got.Found? {
          SetupStep(s, s3, SetUpStep(s3, ifName, o.setUpOk).0, SetUp(ifName));
        }
      }
    }
  }

  /** `createTapInterface` never removes or alters a link that existed before,
      never touches IPAM or the metadata files, and makes only link setup
      calls. */
  lemma CreateTapFrame(s: HostState, conf: NetConf, ifName: string, o: AddOutcomes)
    ensures SetupOnly(s, CreateTap(s, conf, ifName, o).0)
  {
    var (s1, e) := EnsureBridge(s, conf, o);
    EnsureBridgeFrame(s, conf, o);
    if e.None? {
      AttachTapFrame(s1, conf, ifName, o);
      SetupOnlyTrans(s, s1, CreateTap(s, conf, ifName, o).0);
    }
  }

  /** When `createTapInterface` succeeds, `ifName` did not exist before and is
      now a tap device enslaved to the bridge and up, and the returned
      interface carries its name and the MAC read back from it. */
  lemma CreateTapSuccess(s: HostState, conf: NetConf, ifName: string, o: AddOutcomes)
    requires CreateTap(s, conf, ifName, o).1.Success?
    ensures var (s1, tap) := CreateTap(s, conf, ifName, o);
      && ifName !in s.links && conf.bridge in s1.links && ifName in s1.links
      && s1.links[ifName] == Link(Tuntap, [], Some(conf.bridge), true, o.tapMac)
      && tap.value == Interface(ifName, s1.links[ifName].mac, "")
  {
    var (s1, e) := EnsureBridge(s, conf, o);
    EnsureBridgeFrame(s, conf, o);
  }

  /** The errors of the bridge half, and the bridge it leaves once its
      creation succeeded or it was found. */
  lemma EnsureBridgeErrors(s: HostState, conf: NetConf, o: AddOutcomes)
    ensures var (s1, e) := EnsureBridge(s, conf, o);
      && (e.Some? ==> e.value in {BridgeFetchFailed, BridgeCreateFailed, BridgeIPInvalid, BridgeAddrFailed})
      && (!o.bridgeLookupFails && o.bridgeAddOk ==> conf.bridge in s1.links)
  {
  }

  /** The errors of the device half, and the device it leaves when a step
      after its creation fails. */
  lemma AttachTapErrors(s: HostState, conf: NetConf, ifName: string, o: AddOutcomes)
    ensures var (s1, r) := AttachTap(s, conf, ifName, o);
      && (r.Failure? ==> r.error in {TapCreateFailed, SetMasterFailed, TapFetchFailed, SetUpFailed})
      && (r.Failure? && r.error != TapCreateFailed ==> ifName !in s.links && ifName in s1.links)
  {
  }

  /** Any failure inside `createTapInterface` ends ADD with that error and no
      cleanup: every link made so far stays (a created bridge, a created
      `tap0`), nothing that existed is altered, and IPAM and the metadata
      files are never reached. */
  lemma AddTapSetupFailureNoCleanup(s: HostState, ifName: string, conf: NetConf, o: AddOutcomes)
    requires conf.ipamType != "" && CreateTap(s, conf, TapName, o).1.Failure?
    ensures var r := Add(s, ifName, Some(conf), o);
      && r.err == Some(CreateTap(s, conf, TapName, o).1.error) && r.printed.None?
      && r.err.value in {BridgeFetchFailed, BridgeCreateFailed, BridgeIPInvalid, BridgeAddrFailed,
                         TapCreateFailed, SetMasterFailed, TapFetchFailed, SetUpFailed}
      && SetupOnly(s, r.host)
      && (!o.bridgeLookupFails && o.bridgeAddOk ==> conf.bridge in r.host.links)
      && (r.err.value in {SetMasterFailed, TapFetchFailed, SetUpFailed} ==> TapName !in s.links && TapName in r.host.links)
  {
    CreateTapFrame(s, conf, TapName, o);
    EnsureBridgeErrors(s, conf, o);
    var (s1, e) := EnsureBridge(s, conf, o);
    if e.None? {
      EnsureBridgeFrame(s, conf, o);
      AttachTapErrors(s1, conf, TapName, o);
      AttachTapFrame(s1, conf, TapName, o);
    }
  }

  // ---- Bridge handling

  /** A bridge lookup that fails other than by not-found ends ADD with only
      that lookup made. */
  lemma AddBridgeLookupError(s: HostState, ifName: string, conf: NetConf, o: AddOutcomes)
    requires conf.ipamType != "" && o.bridgeLookupFails
    ensures Add(s, ifName, Some(conf), o)
         == AddReply(s.(trace := s.trace + [LookupLink(conf.bridge)]), Some(BridgeFetchFailed), None)
  {
  }

  /** A bridge that is not found is created and given the masked network of
      `bridgeIP`, never the host address; whatever ADD does afterwards, the
      bridge stays with exactly that address. */
  lemma AddCreatesMissingBridge(s: HostState, ifName: string, conf: NetConf, o: AddOutcomes)
    requires conf.ipamType != "" && conf.bridge !in s.links && !o.bridgeLookupFails
    requires o.bridgeAddOk && o.bridgeCidr.Some? && o.addrAddOk
    ensures var h := Add(s, ifName, Some(conf), o).host;
      conf.bridge in h.links && h.links[conf.bridge] == NewBridge.(addrs := [o.bridgeCidr.value.network])
  {
    var s1 := EnsureBridge(s, conf, o).0;
    assert conf.bridge in s1.links && s1.links[conf.bridge] == NewBridge.(addrs := [o.bridgeCidr.value.network]);
    AttachTapFrame(s1, conf, TapName, o);
    var (s2, tap) := AttachTap(s1, conf, TapName, o);
    if tap.Success? {
      CreateTapSuccess(s, conf, TapName, o);
      AddWithTapFrame(s2, ifName, conf, tap.value, o);
    }
  }

  /** A bridge that already exists is used as it is: no ADD path alters or
      deletes it. */
  lemma AddKeepsExistingBridge(s: HostState, ifName: string, conf: NetConf, o: AddOutcomes)
    requires conf.ipamType != "" && conf.bridge in s.links && !o.bridgeLookupFails
    ensures var h := Add(s, ifName, Some(conf), o).host;
      && conf.bridge in h.links && h.links[conf.bridge] == s.links[conf.bridge]
      && |s.trace| <= |h.trace|
      && (forall i :: |s.trace| <= i < |h.trace| ==> h.trace[i] != DelLink(conf.bridge))
  {
    var (s1, tap) := CreateTap(s, conf, TapName, o);
    CreateTapFrame(s, conf, TapName, o);
    if tap.Success? {
      CreateTapSuccess(s, conf, TapName, o);
      AddWithTapFrame(s1, ifName, conf, tap.value, o);
    }
  }

  // ---- The rollback once tap0 exists

  /** A call ADD may make once `tap0` exists. */
  predicate RollbackCall(c: Call, conf: NetConf) {
    c == IpamAdd(conf.ipamType) || c == IpamDel(conf.ipamType) || c == DelLink(TapName) || c == SaveFile(MetaFile)
  }

  /** `ExecAdd` fails: the deferred tap deletion runs (removing `tap0` when the
      kernel lets it), `ExecDel` is not called, and the record of the empty
      initial result is saved; the error is the allocation error whatever the
      deletion reports. */
  lemma WithTapIpamFailure(s: HostState, ifName: string, conf: NetConf, tap: Interface, o: AddOutcomes)
    requires !o.ipamAddOk
    ensures var r := AddWithTap(s, ifName, conf, tap, o);
      && r.err == Some(IpamAddFailed) && r.printed.None?
      && r.host.trace == s.trace + [IpamAdd(conf.ipamType), DelLink(TapName), SaveFile(MetaFile)]
      && r.host.ipamHeld == s.ipamHeld
      && r.host.links == (if o.rollbackDelFault == NoFault then s.links - {TapName} else s.links)
      && r.host.files == if o.saveOk then s.files[MetaFile := Dan.FromResult(Dan.Tap, TapName, ifName, EmptyResult)]
                         else s.files
  {
    UnwindArmed(IpamAddStep(s, conf.ipamType, false).0, Some(IpamAddFailed), Some(EmptyResult), ifName, conf, o);
  }

  /** The conversion fails: `ExecDel` runs before the deletion of `tap0`; no
      record is saved (the nil result is not modelled). */
  lemma WithTapConvertFailure(s: HostState, ifName: string, conf: NetConf, tap: Interface, o: AddOutcomes)
    requires o.ipamAddOk && o.converted.None?
    ensures var r := AddWithTap(s, ifName, conf, tap, o);
      && r.err == Some(ConvertFailed) && r.printed.None?
      && r.host.trace == s.trace + [IpamAdd(conf.ipamType), IpamDel(conf.ipamType), DelLink(TapName)]
      && r.host.ipamHeld == !o.releaseOk
      && r.host.links == (if o.rollbackDelFault == NoFault then s.links - {TapName} else s.links)
      && r.host.files == s.files
  {
    var s2 := IpamAddStep(s, conf.ipamType, true).0;
    UnwindArmedWithRelease(s2, Some(ConvertFailed), None, ifName, conf, o);
    UnwindArmed(IpamDelStep(s2, conf.ipamType, o.releaseOk).0, Some(ConvertFailed), None, ifName, conf, o);
  }

  /** No IP configuration: `err` stays nil, so no closure but the save runs. */
  lemma WithTapEmptyAllocation(s: HostState, ifName: string, conf: NetConf, tap: Interface, o: AddOutcomes)
    requires o.ipamAddOk && o.converted.Some? && |o.converted.value.ips| == 0
    ensures var r := AddWithTap(s, ifName, conf, tap, o);
      && r.err == Some(MissingIPConfig) && r.printed.None?
      && r.host.trace == s.trace + [IpamAdd(conf.ipamType), SaveFile(MetaFile)]
      && r.host.ipamHeld && r.host.links == s.links
      && r.host.files == if o.saveOk then s.files[MetaFile := Dan.FromResult(Dan.Tap, TapName, ifName, o.converted.value)]
                         else s.files
  {
    var s2 := IpamAddStep(s, conf.ipamType, true).0;
    UnwindArmedWithRelease(s2, None, o.converted, ifName, conf, o);
    UnwindArmed(s2, None, o.converted, ifName, conf, o);
  }

  /** Success, or a failing `PrintResult`: the composed result is printed and
      saved, and nothing is rolled back. */
  lemma WithTapComplete(s: HostState, ifName: string, conf: NetConf, tap: Interface, o: AddOutcomes)
    requires o.ipamAddOk && o.converted.Some? && |o.converted.value.ips| > 0
    ensures var r := AddWithTap(s, ifName, conf, tap, o);
            var p := Composed(o.converted.value, tap);
      && r.err == (if o.printOk then None else Some(PrintFailed)) && r.printed == Some(p)
      && r.host.trace == s.trace + [IpamAdd(conf.ipamType), SaveFile(MetaFile)]
      && r.host.ipamHeld && r.host.links == s.links
      && r.host.files == if o.saveOk then s.files[MetaFile := Dan.FromResult(Dan.Tap, TapName, ifName, p)]
                         else s.files
  {
    var s2 := IpamAddStep(s, conf.ipamType, true).0;
    var p := Composed(o.converted.value, tap);
    UnwindArmedWithRelease(s2, None, Some(p), ifName, conf, o);
    UnwindArmed(s2, None, Some(p), ifName, conf, o);
  }

  /** From the IPAM call on, ADD creates or removes no link but `tap0`, and
      calls nothing but IPAM, the deletion of `tap0` and the save. */
  lemma AddWithTapFrame(s: HostState, ifName: string, conf: NetConf, tap: Interface, o: AddOutcomes)
    ensures var h := AddWithTap(s, ifName, conf, tap, o).host;
      && (forall n :: n != TapName ==> (n in h.links <==> n in s.links))
      && (forall n :: n != TapName && n in s.links ==> h.links[n] == s.links[n])
      && (TapName in h.links ==> TapName in s.links && h.links[TapName] == s.links[TapName])
      && |s.trace| <= |h.trace| && h.trace[..|s.trace|] == s.trace
      && (forall i :: |s.trace| <= i < |h.trace| ==> RollbackCall(h.trace[i], conf))
  {
    if !o.ipamAddOk {
      WithTapIpamFailure(s, ifName, conf, tap, o);
    } else if o.converted.None? {
      WithTapConvertFailure(s, ifName, conf, tap, o);
    } else if |o.converted.value.ips| == 0 {
      WithTapEmptyAllocation(s, ifName, conf, tap, o);
    } else {
      WithTapComplete(s, ifName, conf, tap, o);
    }
  }

  /** ADD with `tap0` created and `ExecAdd` failing removes `tap0` again and
      holds no allocation it did not hold before. */
  lemma AddIpamFailureRollsBack(s: HostState, ifName: string, conf: NetConf, o: AddOutcomes)
    requires conf.ipamType != "" && CreateTap(s, conf, TapName, o).1.Success? && !o.ipamAddOk
    requires o.rollbackDelFault == NoFault
    ensures var r := Add(s, ifName, Some(conf), o);
      && r.err == Some(IpamAddFailed)
      && TapName !in r.host.links && TapName !in s.links
      && r.host.ipamHeld == s.ipamHeld
  {
    var (s1, tap) := CreateTap(s, conf, TapName, o);
    CreateTapSuccess(s, conf, TapName, o);
    WithTapIpamFailure(s1, ifName, conf, tap.value, o);
  }

  /** ADD with a failing conversion releases the allocation and removes
      `tap0` when both rollback calls succeed. */
  lemma AddConvertFailureRollsBack(s: HostState, ifName: string, conf: NetConf, o: AddOutcomes)
    requires conf.ipamType != "" && CreateTap(s, conf, TapName, o).1.Success?
    requires o.ipamAddOk && o.converted.None? && o.releaseOk && o.rollbackDelFault == NoFault
    ensures var r := Add(s, ifName, Some(conf), o);
      && r.err == Some(ConvertFailed)
      && TapName !in r.host.links && !r.host.ipamHeld
  {
    var (s1, tap) := CreateTap(s, conf, TapName, o);
    CreateTapSuccess(s, conf, TapName, o);
    WithTapConvertFailure(s1, ifName, conf, tap.value, o);
  }

  /** ADD whose IPAM answer has no IP configuration fails, yet leaves `tap0`
      up on the bridge and the allocation held. */
  lemma AddEmptyAllocationLeaks(s: HostState, ifName: string, conf: NetConf, o: AddOutcomes)
    requires conf.ipamType != "" && CreateTap(s, conf, TapName, o).1.Success?
    requires o.ipamAddOk && o.converted.Some? && |o.converted.value.ips| == 0
    ensures var r := Add(s, ifName, Some(conf), o);
      && r.err == Some(MissingIPConfig)
      && TapName in r.host.links && r.host.links[TapName] == Link(Tuntap, [], Some(conf.bridge), true, o.tapMac)
      && r.host.ipamHeld
  {
    var (s1, tap) := CreateTap(s, conf, TapName, o);
    CreateTapSuccess(s, conf, TapName, o);
    WithTapEmptyAllocation(s1, ifName, conf, tap.value, o);
  }

  /** A successful ADD prints a result whose IP configurations are those of
      IPAM, all bound to interface 0; whose only interface is `tap0` with the
      MAC read back from the device; whose annotations gain the record's path
      and keep all others; and saves the record of exactly that result.
      A failing `PrintResult` is returned but rolls nothing back. */
  lemma AddSuccess(s: HostState, ifName: string, conf: NetConf, o: AddOutcomes)
    requires conf.ipamType != "" && CreateTap(s, conf, TapName, o).1.Success?
    requires o.ipamAddOk && o.converted.Some? && |o.converted.value.ips| > 0
    ensures var r := Add(s, ifName, Some(conf), o);
            var c := o.converted.value;
      && r.printed.Some? && r.err == (if o.printOk then None else Some(PrintFailed))
      && var p := r.printed.value;
      && |p.ips| == |c.ips|
      && (forall k :: 0 <= k < |p.ips| ==>
            p.ips[k].iface == Some(0) && p.ips[k].address == c.ips[k].address && p.ips[k].gateway == c.ips[k].gateway)
      && TapName in r.host.links
      && r.host.links[TapName] == Link(Tuntap, [], Some(conf.bridge), true, o.tapMac)
      && p.interfaces == [Interface("tap0", r.host.links[TapName].mac, "")]
      && MetafileKey in p.annotations && p.annotations["metafile"] == "/tmp/dans/tap/tap0.json"
      && (forall k :: k in c.annotations && k != "metafile" ==> k in p.annotations && p.annotations[k] == c.annotations[k])
      && p.routes == c.routes && p.dns == c.dns && p.cniVersion == c.cniVersion
      && r.host.ipamHeld
      && r.host.files == if o.saveOk then s.files[MetaFile := Dan.FromResult(Dan.Tap, TapName, ifName, p)]
                         else s.files
  {
    var (s1, tap) := CreateTap(s, conf, TapName, o);
    CreateTapFrame(s, conf, TapName, o);
    CreateTapSuccess(s, conf, TapName, o);
    WithTapComplete(s1, ifName, conf, tap.value, o);
  }

  /** `createTapInterface` reads only the outcomes of its own calls. */
  lemma CreateTapIgnoresSave(s: HostState, conf: NetConf, ifName: string, o: AddOutcomes, ok: bool)
    ensures CreateTap(s, conf, ifName, o) == CreateTap(s, conf, ifName, o.(saveOk := ok))
  {
    var o2 := o.(saveOk := ok);
    assert EnsureBridge(s, conf, o) == EnsureBridge(s, conf, o2);
    var s1 := EnsureBridge(s, conf, o).0;
    assert AttachTap(s1, conf, ifName, o) == AttachTap(s1, conf, ifName, o2);
  }

  /** Two ADD replies that differ at most in the files. */
  predicate SameButFiles(r1: AddReply, r2: AddReply) {
    && r1.err == r2.err && r1.printed == r2.printed
    && r1.host.links == r2.host.links && r1.host.ipamHeld == r2.host.ipamHeld && r1.host.trace == r2.host.trace
  }

  /** The save outcome decides nothing but the files, path by path. */
  lemma SaveIgnoredOnIpamFailure(s: HostState, ifName: string, conf: NetConf, tap: Interface, o: AddOutcomes, ok: bool)
    requires !o.ipamAddOk
    ensures SameButFiles(AddWithTap(s, ifName, conf, tap, o), AddWithTap(s, ifName, conf, tap, o.(saveOk := ok)))
    ensures !o.saveOk ==> AddWithTap(s, ifName, conf, tap, o).host.files == s.files
  {
    WithTapIpamFailure(s, ifName, conf, tap, o);
    WithTapIpamFailure(s, ifName, conf, tap, o.(saveOk := ok));
  }

  lemma SaveIgnoredOnConvertFailure(s: HostState, ifName: string, conf: NetConf, tap: Interface, o: AddOutcomes, ok: bool)
    requires o.ipamAddOk && o.converted.None?
    ensures SameButFiles(AddWithTap(s, ifName, conf, tap, o), AddWithTap(s, ifName, conf, tap, o.(saveOk := ok)))
    ensures !o.saveOk ==> AddWithTap(s, ifName, conf, tap, o).host.files == s.files
  {
    WithTapConvertFailure(s, ifName, conf, tap, o);
    WithTapConvertFailure(s, ifName, conf, tap, o.(saveOk := ok));
  }

  lemma SaveIgnoredOnEmptyAllocation(s: HostState, ifName: string, conf: NetConf, tap: Interface, o: AddOutcomes, ok: bool)
    requires o.ipamAddOk && o.converted.Some? && |o.converted.value.ips| == 0
    ensures SameButFiles(AddWithTap(s, ifName, conf, tap, o), AddWithTap(s, ifName, conf, tap, o.(saveOk := ok)))
    ensures !o.saveOk ==> AddWithTap(s, ifName, conf, tap, o).host.files == s.files
  {
    WithTapEmptyAllocation(s, ifName, conf, tap, o);
    WithTapEmptyAllocation(s, ifName, conf, tap, o.(saveOk := ok));
  }

  lemma SaveIgnoredOnComplete(s: HostState, ifName: string, conf: NetConf, tap: Interface, o: AddOutcomes, ok: bool)
    requires o.ipamAddOk && o.converted.Some? && |o.converted.value.ips| > 0
    ensures SameButFiles(AddWithTap(s, ifName, conf, tap, o), AddWithTap(s, ifName, conf, tap, o.(saveOk := ok)))
    ensures !o.saveOk ==> AddWithTap(s, ifName, conf, tap, o).host.files == s.files
  {
    WithTapComplete(s, ifName, conf, tap, o);
    WithTapComplete(s, ifName, conf, tap, o.(saveOk := ok));
  }

  /** The metadata save is best effort: whether it succeeds changes neither
      the returned error, nor the printed result, nor any link, nor the
      allocation; a failed save writes no file. */
  lemma AddSaveIsBestEffort(s: HostState, ifName: string, parsed: Option<NetConf>, o: AddOutcomes, ok: bool)
    ensures SameButFiles(Add(s, ifName, parsed, o), Add(s, ifName, parsed, o.(saveOk := ok)))
    ensures !o.saveOk ==> Add(s, ifName, parsed, o).host.files == s.files
  {
    if parsed.Some? && parsed.value.ipamType != "" {
      var conf := parsed.value;
      CreateTapFrame(s, conf, TapName, o);
      CreateTapIgnoresSave(s, conf, TapName, o, ok);
      var (s1, tap) := CreateTap(s, conf, TapName, o);
      if tap.Success? {
        if !o.ipamAddOk {
          SaveIgnoredOnIpamFailure(s1, ifName, conf, tap.value, o, ok);
        } else if o.converted.None? {
          SaveIgnoredOnConvertFailure(s1, ifName, conf, tap.value, o, ok);
        } else if |o.converted.value.ips| == 0 {
          SaveIgnoredOnEmptyAllocation(s1, ifName, conf, tap.value, o, ok);
        } else {
          SaveIgnoredOnComplete(s1, ifName, conf, tap.value, o, ok);
        }
      }
    }
  }

  // ---- DEL

  /** DEL on an unparsable configuration fails and makes no call. */
  lemma DelRejectsUnparsable(s: HostState, o: DelOutcomes)
    ensures Del(s, None, o) == (s, Some(ParseError))
  {
  }

  /** DEL calls `ExecDel` first; when it fails, DEL returns that error and
      makes no other call, so `tap0` is left alone. */
  lemma DelReleaseFailure(s: HostState, conf: NetConf, o: DelOutcomes)
    requires !o.releaseOk
    ensures Del(s, Some(conf), o) == (s.(trace := s.trace + [IpamDel(conf.ipamType)]), Some(IpamDelFailed))
  {
  }

  /** After a successful release DEL deletes `tap0`; a missing device or a
      missing namespace counts as success, any other failure is returned. */
  lemma DelAfterRelease(s: HostState, conf: NetConf, o: DelOutcomes)
    requires o.releaseOk
    ensures var (h, err) := Del(s, Some(conf), o);
      && h.trace == s.trace + [IpamDel(conf.ipamType), DelLink(TapName)]
      && !h.ipamHeld
      && h.links == (if o.delFault == NoFault then s.links - {TapName} else s.links)
      && (err.None? <==> o.delFault != OtherFault)
      && (o.delFault == OtherFault ==> err == Some(LinkDel(LinkFailed)))
  {
  }

  /** DEL never touches the metadata files. */
  lemma DelKeepsFiles(s: HostState, parsed: Option<NetConf>, o: DelOutcomes)
    ensures Del(s, parsed, o).0.files == s.files
  {
  }

  /** DEL repeated with a release that succeeds: both calls succeed, and the
      second changes no link. */
  lemma DelIdempotent(s: HostState, conf: NetConf)
    ensures var o := DelOutcomes(true, NoFault);
            var (h1, e1) := Del(s, Some(conf), o);
            var (h2, e2) := Del(h1, Some(conf), o);
      && e1.None? && e2.None?
      && TapName !in h1.links && h2.links == h1.links
  {
  }
}
