/**
 * The shell commands and command batches the provisioner sends to storage
 * hosts, and the brick paths they name. Create and delete both derive a
 * brick's path here, from the root, the namespace, the claim and the volume
 * name; the path is never stored.
 */
module Commands {
  import opened GlusterTypes
  import opened Strings

  /** `claimName-volumeName`, the last element of every brick path. */
  function BrickName(pvcName: string, volumeName: string): string {
    JoinWith("-", [pvcName, volumeName])
  }

  /** The directory of one brick under its root. */
  function BrickPath(rootPath: string, namespace: string, brickName: string): string {
    PathJoin([rootPath, namespace, brickName])
  }

  /** The brick created for one root. */
  function BrickFor(root: BrickRoot, namespace: string, brickName: string): Brick {
    Brick(root.host, BrickPath(root.path, namespace, brickName))
  }

  /** The bricks of a whole root list, one per root, in root order. */
  function Bricks(roots: seq<BrickRoot>, namespace: string, brickName: string): seq<Brick> {
    seq(|roots|, i requires 0 <= i < |roots| => BrickFor(roots[i], namespace, brickName))
  }

  /** Create a brick directory, give it to group `gid` and set mode 0771. */
  function MkdirCommands(path: string, gid: int): seq<string> {
    ["mkdir -p " + path, "chown :" + FormatInt(gid) + " " + path, "chmod 0771 " + path]
  }

  /** Remove a brick directory. */
  function RemoveCommands(path: string): seq<string> {
    ["rm -rf " + path]
  }

  function CreateVolumePrefix(volumeName: string, volumeType: string): string {
    "gluster --mode=script volume create " + volumeName + " " + volumeType
  }

  /** One ` host:path` argument of the volume-create command. */
  function BrickArg(b: Brick): string {
    " " + b.host + ":" + b.path
  }

  /** The ` host:path` arguments of all bricks, in order. */
  function BrickArgs(bricks: seq<Brick>): string
    decreases |bricks|
  {
    if bricks == [] then "" else BrickArg(bricks[0]) + BrickArgs(bricks[1..])
  }

  const ForceFlag: string := " force"

  function CreateVolumeCommand(cfg: ProvisionerConfig, bricks: seq<Brick>): string {
    CreateVolumePrefix(cfg.volumeName, cfg.volumeType) + BrickArgs(bricks)
      + (if cfg.forceCreate then ForceFlag else "")
  }

  function StartVolumeCommand(volumeName: string): string {
    "gluster --mode=script volume start " + volumeName
  }

  function StopVolumeCommand(volumeName: string): string {
    "gluster --mode=script volume stop " + volumeName + " force"
  }

  function DeleteVolumeCommand(volumeName: string): string {
    "gluster --mode=script volume delete " + volumeName
  }

  /** The batches brick creation sends: one per root, in root order. */
  function MkdirBatches(roots: seq<BrickRoot>, namespace: string, brickName: string, gid: int): seq<Batch> {
    seq(|roots|, i requires 0 <= i < |roots| =>
      Batch(roots[i].host, MkdirCommands(BrickPath(roots[i].path, namespace, brickName), gid)))
  }

  /** The batches brick removal sends: one per root, in root order. */
  function RemoveBatches(roots: seq<BrickRoot>, namespace: string, brickName: string): seq<Batch> {
    seq(|roots|, i requires 0 <= i < |roots| =>
      Batch(roots[i].host, RemoveCommands(BrickPath(roots[i].path, namespace, brickName))))
  }

  /** Create and start the volume, on the first brick's host. */
  function VolumeCreateBatch(bricks: seq<Brick>, cfg: ProvisionerConfig): Batch
    requires |bricks| > 0
  {
    Batch(bricks[0].host, [CreateVolumeCommand(cfg, bricks), StartVolumeCommand(cfg.volumeName)])
  }

  /** Stop the volume, on the first configured host. */
  function VolumeStopBatch(cfg: ProvisionerConfig): Batch
    requires ValidConfig(cfg)
  {
    Batch(cfg.brickRootPaths[0].host, [StopVolumeCommand(cfg.volumeName)])
  }

  /** Delete the volume, on the first configured host. */
  function VolumeDeleteBatch(cfg: ProvisionerConfig): Batch
    requires ValidConfig(cfg)
  {
    Batch(cfg.brickRootPaths[0].host, [DeleteVolumeCommand(cfg.volumeName)])
  }

  /** The brick name is the claim name, a dash and the volume name. */
  lemma BrickNameIsDashed(pvcName: string, volumeName: string)
    ensures BrickName(pvcName, volumeName) == pvcName + "-" + volumeName
  {
    JoinTwo("-", pvcName, volumeName);
  }

  /** With non-empty parts the brick path is `root/namespace/claim-volume`. */
  lemma BrickPathLayout(rootPath: string, namespace: string, pvcName: string, volumeName: string)
    requires rootPath != "" && namespace != ""
    ensures BrickPath(rootPath, namespace, BrickName(pvcName, volumeName))
         == rootPath + "/" + namespace + "/" + pvcName + "-" + volumeName
  {
    BrickNameIsDashed(pvcName, volumeName);
    PathJoinThree(rootPath, namespace, pvcName + "-" + volumeName);
  }

  /**
   * Create and delete agree on every brick: the i-th removal batch goes to the
   * host of the i-th creation batch and removes the very directory that batch
   * created, which is the path of the i-th brick.
   */
  lemma BrickPathsAgree(roots: seq<BrickRoot>, namespace: string, pvcName: string, volumeName: string, gid: int, i: nat)
    requires i < |roots|
    ensures var name := BrickName(pvcName, volumeName);
            var mk := MkdirBatches(roots, namespace, name, gid)[i];
            var rm := RemoveBatches(roots, namespace, name)[i];
            var b := Bricks(roots, namespace, name)[i];
            && mk.host == rm.host == b.host == roots[i].host
            && mk.cmds == ["mkdir -p " + b.path, "chown :" + FormatInt(gid) + " " + b.path, "chmod 0771 " + b.path]
            && rm.cmds == ["rm -rf " + b.path]
            && b.path == PathJoin([roots[i].path, namespace, pvcName + "-" + volumeName])
  {
    BrickNameIsDashed(pvcName, volumeName);
  }

  /** Appending a brick appends its argument (the volume-create loop's step). */
  lemma {:induction false} BrickArgsAppend(bricks: seq<Brick>, b: Brick)
    ensures BrickArgs(bricks + [b]) == BrickArgs(bricks) + BrickArg(b)
    decreases |bricks|
  {
    if bricks == [] {
      assert [] + [b] == [b];
      assert [b][1..] == [];
    } else {
      assert (bricks + [b])[1..] == bricks[1..] + [b];
      BrickArgsAppend(bricks[1..], b);
    }
  }

  /**
   * Every brick appears in the argument list, in order: the arguments split
   * around brick i into those before it, its own ` host:path`, and those after.
   */
  lemma {:induction false} BrickArgsSplit(bricks: seq<Brick>, i: nat)
    requires i < |bricks|
    ensures BrickArgs(bricks) == BrickArgs(bricks[..i]) + BrickArg(bricks[i]) + BrickArgs(bricks[i + 1..])
    decreases i
  {
    if i == 0 {
      assert bricks[..0] == [];
    } else {
      BrickArgsSplit(bricks[1..], i - 1);
      assert bricks[1..][..i - 1] == bricks[1..i];
      assert bricks[1..][i - 1] == bricks[i];
      assert bricks[1..][i..] == bricks[i + 1..];
      assert bricks[..i][0] == bricks[0];
      assert bricks[..i][1..] == bricks[1..i];
    }
  }

  /**
   * The volume-create command names the volume and its type, then lists
   * ` host:path` for every brick in order, with ` force` last exactly when the
   * configuration asks for it.
   */
  lemma CreateVolumeCommandListsBricks(cfg: ProvisionerConfig, bricks: seq<Brick>, i: nat)
    requires i < |bricks|
    ensures CreateVolumeCommand(cfg, bricks)
         == "gluster --mode=script volume create " + cfg.volumeName + " " + cfg.volumeType
            + BrickArgs(bricks[..i]) + " " + bricks[i].host + ":" + bricks[i].path + BrickArgs(bricks[i + 1..])
            + (if cfg.forceCreate then " force" else "")
  {
    BrickArgsSplit(bricks, i);
  }
}
