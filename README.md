# Tap CNI plugin: attachment lifecycle model

A Dafny model of the tap network plugin. Its ADD verb makes sure a bridge
exists, creates the tap device `tap0` on it, asks an IPAM delegate for
addresses and returns a CNI result. It also persists a "direct attachable
network" record for a VM runtime under `/tmp/dans/tap/tap0.json`. DEL
releases the addresses and deletes `tap0`. CHECK only parses the
configuration.

The rollback protocol is the point of the model. ADD registers three
deferred closures. In registration order they are: save the record, delete
`tap0` if `err` is set, and release the IPAM allocation if `err` is set. Go
runs them last-registered first. They read the shared `err` variable, and
some `return` statements of ADD never set that variable.

## Files

- `wrappers.dfy`: `Option` and `Result` datatypes.
- `cni_types.dfy`: the CNI result record (interfaces, IP configurations,
  routes, DNS and annotations).
- `dan.dfy`: module `Dan`, from pkg/dan/dan.go. It holds the network kinds,
  the persisted record and `FromResult`.
- `host.dfy`: module `HostModel`, the host as the plugin sees it.
  - `HostState` is the host as a value: the links and their attributes,
    whether an IPAM allocation is held, the metadata files, and a trace of
    the external calls made.
  - The class `Host` holds the same state as fields. Its methods are the
    netlink, IPAM and file calls, and each is tied to a pure `*Step`
    function.
  - Outcomes decided outside the plugin are inputs: a netlink fault, the IPAM
    answer, a failed write.
  - Outcomes that follow from the host state are derived from it: a
    duplicate link name makes `LinkAdd` fail, and a missing link makes a
    deletion report not-found.
- `tap.dfy`: module `TapPlugin`, from plugins/main/tap/tap.go. Each verb is
  written twice:
  - as a specification function of the old host state and the call outcomes
    (`EnsureBridge`, `AttachTap`, `CreateTap`, `Unwind`, `AddWithTap`, `Add`,
    `Del`);
  - as a method that makes the calls one by one on a `Host`
    (`CreateTapInterface`, `CmdAdd`, `CmdDel`, `CmdCheck`). `CmdAdd` keeps the
    deferred closures as an explicit stack that `RunDeferred` pops last-first.
  Each method is proved to produce exactly the new state and reply that its
  specification function gives.
- `tap_lemmas.dfy`: module `TapLemmas`, what every ADD and DEL path does,
  proved of the specification functions.

## Model

| member | source | states |
|---|---|---|
| `Dan.NamesDistinct` | pkg/dan/dan.go:14-18 | the three network kinds are written "tap", "passthrough" and "dpdk", and two kinds have the same name only if they are the same kind |
| `Dan.FromResult` | pkg/dan/dan.go:38-51 | the record has the given kind, device name and container interface name; it has the result's interfaces, IPs, routes, DNS and annotations unchanged; its DPDK socket, hardware address, kernel path and PCI address are empty |
| `Dan.FromResultRoundTrip` | pkg/dan/dan.go:20-51 | the record loses nothing of the result except its version; every record with empty device fields is the record of the result it describes |
| `HostModel.Host.LinkByName` | plugins/main/tap/tap.go:56-58 | a lookup reports the link when it exists, not-found when it does not, or an injected failure; it is recorded in the trace and changes nothing else |
| `HostModel.Host.LinkAdd` | plugins/main/tap/tap.go:94-96 | a link is added only when the kernel accepts it and no link of that name exists; nothing else changes |
| `HostModel.Host.AddrAdd` | plugins/main/tap/tap.go:78-81 | the network is appended to the link's addresses when the call succeeds on an existing link |
| `HostModel.Host.LinkSetMaster` | plugins/main/tap/tap.go:99-102 | the link's master becomes the bridge when the call succeeds and both links exist |
| `HostModel.Host.LinkSetUp` | plugins/main/tap/tap.go:113-115 | the link is marked up when the call succeeds on an existing link |
| `HostModel.Host.DelLinkByName` | plugins/main/tap/tap.go:211-227 | with no fault, an existing link is removed and a missing one reports not-found; a gone namespace or another failure is reported and removes nothing |
| `HostModel.Host.IpamExecAdd` | plugins/main/tap/tap.go:155-158 | a successful allocation leaves an allocation held; a failed one changes nothing |
| `HostModel.Host.IpamExecDel` | plugins/main/tap/tap.go:205-208 | a successful release leaves no allocation held; a failed one changes nothing |
| `HostModel.Host.Save` | plugins/main/tap/tap.go:143-146 | a successful save stores the record at the path; a failed save stores nothing |
| `TapPlugin.CreateTapInterface` | plugins/main/tap/tap.go:52-117 | makes the calls of `createTapInterface` in order and leaves exactly the host and result that `CreateTap` gives |
| `TapPlugin.RunDeferred` | plugins/main/tap/tap.go:143-165 | runs the registered closures last-first, passing on `err` as reassigned by the tap-deletion closure, and leaves exactly the host that `Unwind` gives |
| `TapPlugin.RebindToSandbox` | plugins/main/tap/tap.go:177-180 | returns as many IP configurations as it is given; each is bound to interface 0 and is otherwise unchanged |
| `TapPlugin.CmdAdd` | plugins/main/tap/tap.go:119-194 | leaves exactly the host, error and printed result that `Add` gives |
| `TapPlugin.CmdDel` | plugins/main/tap/tap.go:196-230 | leaves exactly the host and error that `Del` gives |
| `TapPlugin.CmdCheck` | plugins/main/tap/tap.go:236-244 | succeeds exactly when the configuration parses and otherwise returns the parse error; it takes no host, so it changes nothing |
| `TapLemmas.UnwindArmed` | plugins/main/tap/tap.go:143-153 | with two closures registered, the tap deletion runs before the metadata save |
| `TapLemmas.UnwindArmedWithRelease` | plugins/main/tap/tap.go:143-165 | with three closures registered, the IPAM release runs first, then the other two |
| `TapLemmas.AddRejectsBeforeAnyCall` | plugins/main/tap/tap.go:124-132 | ADD with an unparsable configuration or an empty `ipam.type` returns that error; the host, trace included, is unchanged |
| `TapLemmas.EnsureBridgeFrame` | plugins/main/tap/tap.go:56-85 | the bridge half alters no existing link; it touches no IPAM allocation or file, and makes only setup calls |
| `TapLemmas.AttachTapFrame` | plugins/main/tap/tap.go:87-116 | the same for the device half |
| `TapLemmas.CreateTapFrame` | plugins/main/tap/tap.go:52-117 | `createTapInterface` removes and alters no existing link on any path; it makes no deletion, IPAM or file call |
| `TapLemmas.CreateTapSuccess` | plugins/main/tap/tap.go:94-116 | on success `tap0` did not exist before; it is now a tap device with the bridge as master and up; the returned interface has the name `tap0` and the MAC read back from the device |
| `TapLemmas.EnsureBridgeErrors` | plugins/main/tap/tap.go:56-85 | the bridge half fails only with the fetch, create, CIDR or address error; when the lookup and the creation succeed, the bridge then exists |
| `TapLemmas.AttachTapErrors` | plugins/main/tap/tap.go:87-116 | the device half fails only with the create, set-master, re-fetch or set-up error; a failure after the creation leaves the new `tap0` in place |
| `TapLemmas.AddTapSetupFailureNoCleanup` | plugins/main/tap/tap.go:136-139 | a `createTapInterface` failure is returned as ADD's error with no cleanup: a created bridge or `tap0` stays, nothing existing changes, and IPAM and files are never reached |
| `TapLemmas.AddBridgeLookupError` | plugins/main/tap/tap.go:82-84 | a failed bridge lookup that is not a not-found error ends ADD with only that lookup made |
| `TapLemmas.AddCreatesMissingBridge` | plugins/main/tap/tap.go:69-81 | a missing bridge is created and gets exactly the masked network from ParseCIDR, not the host address; it keeps that address on every later path |
| `TapLemmas.AddKeepsExistingBridge` | plugins/main/tap/tap.go:56-58 | an existing bridge stays present and unchanged on every ADD path, and ADD never deletes it |
| `TapLemmas.WithTapIpamFailure` | plugins/main/tap/tap.go:148-158 | after an `ExecAdd` failure the calls are `ExecAdd`, the deletion of `tap0` and the save, with no `ExecDel`. Only `tap0` can go; the allocation is as before; the record of the empty initial result is saved; the error is the allocation error whatever the deletion reports |
| `TapLemmas.WithTapConvertFailure` | plugins/main/tap/tap.go:160-171 | after a conversion failure `ExecDel` runs before the deletion of `tap0`. Only `tap0` can go; the allocation is released exactly when the release succeeds; the error is the conversion error |
| `TapLemmas.WithTapEmptyAllocation` | plugins/main/tap/tap.go:173-175 | with no IP configuration the error is `MissingIPConfig` but no rollback runs. The links, `tap0` included, and the allocation stay; the converted result's record is saved |
| `TapLemmas.WithTapComplete` | plugins/main/tap/tap.go:177-193 | the composed result is printed and saved; a failing `PrintResult` is returned and rolls nothing back |
| `TapLemmas.AddWithTapFrame` | plugins/main/tap/tap.go:141-193 | once `tap0` exists, no link other than `tap0` is created, removed or changed; the only calls are `ExecAdd`, `ExecDel`, the deletion of `tap0` and the save |
| `TapLemmas.AddIpamFailureRollsBack` | plugins/main/tap/tap.go:148-158 | when `ExecAdd` fails and the deletion succeeds, ADD leaves no `tap0` and no new allocation |
| `TapLemmas.AddConvertFailureRollsBack` | plugins/main/tap/tap.go:160-171 | when the conversion fails and both rollback calls succeed, ADD leaves no `tap0` and no allocation |
| `TapLemmas.AddEmptyAllocationLeaks` | plugins/main/tap/tap.go:168-175 | an IPAM answer without IP configuration fails ADD, yet leaves `tap0` up on the bridge and the allocation held |
| `TapLemmas.AddSuccess` | plugins/main/tap/tap.go:177-193 | see below |
| `TapLemmas.CreateTapIgnoresSave` | plugins/main/tap/tap.go:52-117 | `createTapInterface` does not depend on the save outcome |
| `TapLemmas.SaveIgnoredOnIpamFailure` | plugins/main/tap/tap.go:143-158 | on the `ExecAdd` failure path the save outcome changes only the files |
| `TapLemmas.SaveIgnoredOnConvertFailure` | plugins/main/tap/tap.go:143-171 | the same on the conversion failure path |
| `TapLemmas.SaveIgnoredOnEmptyAllocation` | plugins/main/tap/tap.go:143-175 | the same on the missing IP configuration path |
| `TapLemmas.SaveIgnoredOnComplete` | plugins/main/tap/tap.go:143-193 | the same on the success and `PrintResult` failure paths |
| `TapLemmas.AddSaveIsBestEffort` | plugins/main/tap/tap.go:141-146 | the save outcome never changes ADD's error, its printed result, the links, the allocation or the calls made; a failed save writes no file |
| `TapLemmas.DelRejectsUnparsable` | plugins/main/tap/tap.go:199-202 | DEL on an unparsable configuration returns the parse error and changes nothing |
| `TapLemmas.DelReleaseFailure` | plugins/main/tap/tap.go:205-208 | DEL calls `ExecDel` first; if it fails, DEL returns that error and makes no other call, so `tap0` is left alone |
| `TapLemmas.DelAfterRelease` | plugins/main/tap/tap.go:210-229 | after a successful release DEL deletes `tap0`. Not-found and a gone namespace count as success; any other failure is returned |
| `TapLemmas.DelKeepsFiles` | plugins/main/tap/tap.go:196-230 | DEL never touches the metadata files |
| `TapLemmas.DelIdempotent` | plugins/main/tap/tap.go:205-229 | two DELs whose release succeeds both succeed, and the second changes no link |

What `TapLemmas.AddSuccess` states about a successful ADD:

- the printed result has as many IP configurations as IPAM returned, each
  bound to interface 0 with its address and gateway kept;
- its only interface is `tap0`, with the MAC of the re-fetched device;
- its annotations map `metafile` to `/tmp/dans/tap/tap0.json` and keep every
  other annotation;
- its routes, DNS and version are IPAM's;
- `tap0` is up with the bridge as master, and the allocation is held;
- the file at that path holds the record of exactly the printed result, when
  the save succeeds.

## Where the code and the design description differ

The model follows the code in each case:

- The design says a failure to bind or activate the device deletes it.
  `createTapInterface` cleans up nothing on failure
  (`AddTapSetupFailureNoCleanup`).
- The design says an empty allocation deletes the device and releases the
  address. The `return` at line 174 leaves the shared `err` nil, so neither
  closure runs (`AddEmptyAllocationLeaks`).
- The design says device deletion comes before address release. After
  allocation the deferred release runs first (`WithTapConvertFailure`).
- The design's example gives the bridge `10.0.0.1/24`. The code gives it
  the network that `ParseCIDR` returns, `10.0.0.0/24`
  (`AddCreatesMissingBridge`).
- The design says the bridge name must be non-empty. The code never checks
  it.

## Left out

- Real netlink, IPAM subprocesses, JSON parsing and output, and
  `current.NewResultFromResult` are foreign code. Each is an outcome given as
  input (`AddOutcomes`, `DelOutcomes`, the parsed configuration).
- `net.ParseCIDR` is foreign code. Its result is an input: the host address
  and the masked network.
- `parseNetConf` appears only as its outcome: a parsed configuration, or
  none.
- `types.PrintResult` is modelled as the result handed to it and an outcome
  flag. The bytes written to standard output are not modelled.
- `Save` is a single outcome. Directory creation, file permissions and the
  JSON formatting are not modelled.
- `Log` and the deferred log calls are not modelled: they only append to a
  log file and ignore errors.
- `skel.PluginMain`, version negotiation and `main` are not modelled.
- TapLemmas.WithTapConvertFailure: it states that no record is saved when
  the conversion fails. In the source the metadata closure then
  dereferences the nil result and panics, after the release and deletion
  closures have run. The panic and how the process ends are not modelled.
- The IPAM allocation is a single held flag. Which addresses IPAM hands out,
  and a second allocation made while one is held, are not modelled.
- Concurrent invocations racing on the fixed name `tap0` are not modelled,
  because they are concurrency and kernel behaviour. A link name that is
  already taken makes `LinkAdd` fail.
- A nil annotation map and an empty annotation map are the same value. The
  `make` at line 185 therefore has no counterpart.
- The IP configurations are values in the model. The source rewrites them in
  place through shared pointers, so the record and the printed result alias
  the same configurations; the model gives them equal copies instead.
