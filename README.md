# GlusterFS simple provisioner: create and teardown orchestration

This project models the part of the GlusterFS simple provisioner that
creates and destroys volumes (`pkg/volume/provision.go` and
`pkg/volume/delete.go`), and proves properties of that model.

`Provision` handles a persistent-volume claim as follows:

- It rejects a claim that has a selector.
- It allocates a group id.
- It creates one brick directory per configured brick root: on that root's
  host it runs `mkdir -p`, `chown :gid` and `chmod 0771`.
- It assembles and starts a GlusterFS volume over the bricks, on the first
  brick's host.
- It publishes a `glusterfs-simple-<claim>` Endpoints object and a Service of
  the same name.
- It returns a PersistentVolume annotated with the group id.

A selector, a failed allocation or invalid parameters end Provision at
once, with no teardown. When brick creation, volume assembly or
publication fails, `createVolume` tears the whole volume down, and the gid
stays allocated. `Delete` performs the same teardown for a released
volume, in this order:

1. Stop the volume, and delete it only if the stop succeeded.
2. Remove every brick directory.
3. Delete the Service.
4. Release the group id.

Teardown is best effort: it continues whatever each step returns.

The modules are:

- `GlusterTypes` (`gluster_types.dfy`): the values, the constants and the
  error kinds.
- `Strings` (`strings.dfy`): `strings.Join`; `filepath.Join`; decimal
  formatting, with a parser as its inverse.
- `Commands` (`commands.dfy`): the shell commands and command batches sent to
  storage hosts, and the brick paths they name.
- `Effects` (`effects.dfy`): the environment, as a value.
  - `Env` decides the outcome of every call from the call and its position in
    the run. These calls are the remote executor's `ExecuteCommands`, the
    Kubernetes client's Create/Delete, and the allocator's `AllocateNext` and
    `Release`.
  - `World` is the trace of calls made so far together with the set of
    objects in the cluster.
  - Any pattern of failures is expressible; none is assumed.
- `DeleteSpec` and `ProvisionSpec` (`delete_spec.dfy`, `provision_spec.dfy`):
  each source function as a function from the environment and the world
  before the call to the world after it and the result. The lemmas state what
  the orchestrator promises, over all environments.
- `Volume` (`provisioner.dfy`): class `GlusterfsProvisioner`. It holds the
  provisioner's state (`trace` and `objects`), and its methods are written
  step by step as the Go code is: the brick and address slices are filled in
  loops over arrays, and errors are threaded through `createVolume`. Each
  method is proved to produce exactly the state and the result of its
  specification function. The lemmas proved about those functions therefore
  hold of the methods.

## Model

| member | source | states |
|---|---|---|
| Strings.JoinTwo | pkg/volume/provision.go:184 | joining two names with a separator puts the separator between them once |
| Strings.PathJoinThree | pkg/volume/provision.go:188 | with a non-empty root, namespace and brick name, the brick path is `root/namespace/brick` |
| Strings.NatToDecimalRoundTrip | pkg/volume/provision.go:105 | the decimal digits of a natural number are non-empty, start with a digit and read back as the number |
| Strings.FormatIntRoundTrip | pkg/volume/provision.go:105 | the gid annotation's text reads back as the gid, negative values included |
| Commands.BrickNameIsDashed | pkg/volume/provision.go:184 | the brick name is `claim-volume` |
| Commands.BrickPathLayout | pkg/volume/provision.go:188 | for a non-empty root and namespace, a brick lives at `root/namespace/claim-volume` |
| Commands.BrickPathsAgree | pkg/volume/delete.go:111-119 | brick i's removal batch goes to brick i's creation host, and `rm -rf` names the directory that `mkdir -p`, `chown` and `chmod 0771` created |
| Commands.BrickArgsAppend | pkg/volume/provision.go:215-217 | appending a brick appends its ` host:path` argument, which is the loop step of the create command |
| Commands.BrickArgsSplit | pkg/volume/provision.go:215-217 | every brick's ` host:path` appears in the argument list, after those of all earlier bricks |
| Commands.CreateVolumeCommandListsBricks | pkg/volume/provision.go:212-220 | the create command is `gluster --mode=script volume create <name> <type>`, then ` host:path` of every brick in order, then ` force` exactly when configured |
| Effects.FirstFailure | pkg/volume/provision.go:186-201 | the first failing batch's index: every earlier batch succeeds, that batch fails, and it is the batch count when none fails |
| Effects.RunUntilFailureShape | pkg/volume/provision.go:186-201 | batches run in order up to and including the first failure and no further; the error names the failing batch; with no failure every batch runs and there is no error; objects are untouched |
| Effects.RunAllIssuesEvery | pkg/volume/delete.go:113-125 | best effort: every batch is issued in order, whatever the outcomes |
| DeleteSpec.DeleteGlusterVolumeStopGuardsDelete | pkg/volume/delete.go:84-101 | `volume stop <name> force` runs on the first configured host; `volume delete <name>` follows on that host if and only if the stop succeeded; no object changes |
| DeleteSpec.DeleteBricksRemovesEveryRoot | pkg/volume/delete.go:111-125 | one `rm -rf <brick path>` per configured root, in root order, on that root's host, whatever each returns; nothing else is called |
| DeleteSpec.DeleteEndpointServiceOnlyService | pkg/volume/delete.go:128-141 | only the Service can disappear, and the same-named Endpoints is untouched; with a client the result is always success; the Service is gone afterwards unless the delete itself failed; without a client nothing is called and the error is returned |
| DeleteSpec.DeleteVolumeRunsEveryStep | pkg/volume/delete.go:65-74 | the volume stop/delete comes first, then one removal per root, then the Service delete (with a client); no earlier outcome changes what later steps issue; only the Service may leave the object set |
| DeleteSpec.DeleteRejectsEarly | pkg/volume/delete.go:29-47 | a failed class lookup, invalid parameters, a nil claim reference or an empty claim namespace each return their own error, in that priority, and call nothing |
| DeleteSpec.DeleteSucceedsAfterTeardown | pkg/volume/delete.go:48-56 | otherwise the teardown runs for the claim's namespace and name, the gid is released after it, and the result is success even when the release or a teardown step fails |
| DeleteSpec.DeleteTraceShape | pkg/volume/delete.go:48-56 | the full call sequence of a Delete that passes its checks: stop (and delete), the per-root removals, the Service delete, the release |
| ProvisionSpec.CreateBricksOutcome | pkg/volume/provision.go:183-204 | one `mkdir`/`chown :gid`/`chmod 0771` batch per root on its host; success if and only if no batch fails; on success one brick per root at `Join(root, namespace, claim-volume)` and every batch issued; on failure the batches up to the failing one are issued and nothing after it, and the error is that batch's |
| ProvisionSpec.CreateGlusterVolumeOneBatch | pkg/volume/provision.go:212-235 | exactly one batch (the create command listing every brick, then `volume start`) on the first brick's host; it fails exactly when that batch does; no object changes |
| ProvisionSpec.CreateEndpointServiceAlreadyExistsIsSuccess | pkg/volume/provision.go:245-295 | with a client and no transport failure the result is success whether or not the objects already existed; both objects are then present; the Endpoints has one address per host in order, the claim label and port 1/TCP; the Service has the label and port 1/TCP |
| ProvisionSpec.CreateEndpointServiceStopsAtEndpointError | pkg/volume/provision.go:262-274 | without a client nothing is called; a failed Endpoints create returns its error before the Service is attempted |
| ProvisionSpec.CreateEndpointServiceIdempotent | pkg/volume/provision.go:266-295 | repeating a successful publication returns the same objects and leaves the object set as the first call left it, which is the Endpoints and the Service added |
| ProvisionSpec.CreateVolumeSuccess | pkg/volume/provision.go:145-169 | createVolume succeeds if and only if every brick batch, the volume batch and both creates pass and a client exists; it then calls exactly those, in that order, adds both objects and returns the `glusterfs-simple-<claim>` Endpoints name and the volume name as path |
| ProvisionSpec.BrickFailureRollsBackEveryRoot | pkg/volume/provision.go:145-173 | when brick k fails, no volume batch is sent; the teardown runs once: stop/delete, then `rm -rf` on all roots (not only those reached), then the Service delete; the brick error is returned |
| ProvisionSpec.VolumeFailureRollsBack | pkg/volume/provision.go:150-173 | when the volume batch fails after all bricks, the result is the teardown of the world left by that batch, with that batch's error |
| ProvisionSpec.PublishFailureRollsBack | pkg/volume/provision.go:154-173 | when publication fails after all bricks and the volume were created (no client, or an Endpoints or Service create failing other than with AlreadyExists), the result is exactly one teardown of the world publication left, with publication's error |
| ProvisionSpec.ProvisionRejectsSelector | pkg/volume/provision.go:80-82 | a claim with a selector is rejected, with a final state, before any call |
| ProvisionSpec.ProvisionAlwaysFinished | pkg/volume/provision.go:80-122 | every path reports ProvisioningFinished, and a volume is returned exactly when no error is |
| ProvisionSpec.ProvisionAllocatesBeforeParsing | pkg/volume/provision.go:85-96 | a failed allocation, or invalid parameters after a successful one, returns its error with only the allocation call made; no release follows |
| ProvisionSpec.ProvisionPassesCreateVolumeError | pkg/volume/provision.go:98-101 | after a successful allocation and parse, a createVolume failure is returned unchanged with a final state, and Provision adds no call after it, so no release |
| ProvisionSpec.ProvisionSuccess | pkg/volume/provision.go:98-122 | a returned volume has the requested name, exactly the created-by and gid annotations, a gid annotation that parses back to the allocated gid (the gid every brick was given), and the `glusterfs-simple-<claim>` source; the calls were the allocation, the brick batches, the volume batch and the two creates |
| ProvisionSpec.DeleteUndoesProvision | pkg/volume/delete.go:59-75 | deleting a provisioned volume stops it on the first host, removes on its own host the directory of every brick that creation made, deletes the Service named by the volume's Endpoints, releases the gid and succeeds |
| Volume.GlusterfsProvisioner.Provision | pkg/volume/provision.go:77-123 | the new state and the result are those of ProvisionSpec.Provision |
| Volume.GlusterfsProvisioner.GetClusterNodes | pkg/volume/provision.go:125-132 | one node per brick root, node i being root i's host |
| Volume.GlusterfsProvisioner.CreateVolume | pkg/volume/provision.go:134-174 | the new state and the result are those of ProvisionSpec.CreateVolume |
| Volume.GlusterfsProvisioner.CreateBricks | pkg/volume/provision.go:176-205 | the brick array and loop produce the state and the result of ProvisionSpec.CreateBricks |
| Volume.GlusterfsProvisioner.CreateGlusterVolume | pkg/volume/provision.go:207-236 | the accumulated command and the single call produce those of ProvisionSpec.CreateGlusterVolume |
| Volume.GlusterfsProvisioner.CreateEndpointService | pkg/volume/provision.go:238-296 | the address array and the two creates produce those of ProvisionSpec.CreateEndpointService |
| Volume.GlusterfsProvisioner.Delete | pkg/volume/delete.go:27-57 | the new state and the result are those of DeleteSpec.Delete |
| Volume.GlusterfsProvisioner.DeleteVolume | pkg/volume/delete.go:59-75 | the new state is that of DeleteSpec.DeleteVolume |
| Volume.GlusterfsProvisioner.DeleteGlusterVolume | pkg/volume/delete.go:77-104 | the new state is that of DeleteSpec.DeleteGlusterVolume |
| Volume.GlusterfsProvisioner.DeleteBricks | pkg/volume/delete.go:106-126 | the loop over the roots produces the state of DeleteSpec.DeleteBricks |
| Volume.GlusterfsProvisioner.DeleteEndpointService | pkg/volume/delete.go:128-141 | the new state and the result are those of DeleteSpec.DeleteEndpointService |

## Left out

- The remote executor (`ExecuteCommands`), the Kubernetes client and the gid allocator are not modelled as code. They are the environment `Env`: each call's outcome is a function of the call and its position in the run. The only client outcomes are success, AlreadyExists, NotFound and any other failure.
- Parameter parsing (`NewProvisionerConfig`) and the storage-class lookup (`GetClassForVolume`) are parameters. Their failure messages are kept as opaque strings.
- Parsing guarantees at least one brick root. The model states this as the requirement `ValidConfig` wherever the source indexes the first root or brick. Where that guarantee would fail, the Go code would panic, and the model does not cover that.
- Allocation order: the group id is allocated before the parameters are parsed (provision.go:85 and :93). The opposite order would be more natural, but the model follows the code. As written, Provision never releases the allocated gid when the parameters are invalid (`ProvisionAllocatesBeforeParsing`) or when `createVolume` fails (`ProvisionPassesCreateVolumeError`).
- `filepath.Join` is modelled as joining the non-empty elements with `/`. Its lexical cleaning (collapsing `//`, `.` and `..`) is not modelled.
- `strconv.FormatInt` is modelled by its decimal digits and a leading minus. The 64-bit conversion `int64(gid)` is not modelled; a gid is an unbounded integer.
- Logging (`klog`), the request context and its cancellation are not modelled.
- `NewGlusterfsProvisioner` and `newGlusterfsProvisionerInternal` (client, REST client, identity) are not modelled. The class constructor only installs the environment and the initial object set.
- The PersistentVolume fields copied through from the request (reclaim policy, access modes, capacity) are not modelled. Neither is the text of the error messages: errors are their kinds.
- Volume.GlusterfsProvisioner.ExecuteCommands, ClientCreate, ClientDelete, AllocateNext and Release are the environment's primitives. Each delegates to its `Effects` function and models no source code.
