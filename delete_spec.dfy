/**
 * Teardown (pkg/volume/delete.go) as functions of the environment and the
 * world before the call, with the properties its callers rely on: every step
 * runs whatever the earlier ones returned, only the Service is deleted, and
 * Delete reports success once teardown has run.
 */
module DeleteSpec {
  import opened GlusterTypes
  import opened Commands
  import opened Effects

  function ServiceKey(namespace: string, name: string): ObjectKey {
    ObjectKey(ServiceKind, namespace, name)
  }

  function EndpointsKey(namespace: string, name: string): ObjectKey {
    ObjectKey(EndpointsKind, namespace, name)
  }

  /** deleteGlusterVolume: stop the volume, and delete it only if the stop succeeded. */
  function DeleteGlusterVolume(env: Env, w: World, cfg: ProvisionerConfig): World
    requires ValidConfig(cfg)
  {
    var (w1, err) := Execute(env, w, VolumeStopBatch(cfg));
    if err.Some? then w1 else Execute(env, w1, VolumeDeleteBatch(cfg)).0
  }

  /** deleteBricks: remove the brick directory on every root, failures only logged. */
  function DeleteBricks(env: Env, w: World, namespace: string, pvcName: string, cfg: ProvisionerConfig): World {
    RunAll(env, w, RemoveBatches(cfg.brickRootPaths, namespace, BrickName(pvcName, cfg.volumeName)))
  }

  /** deleteEndpointService: delete the Service only; a failed delete is only logged. */
  function DeleteEndpointService(env: Env, w: World, namespace: string, epServiceName: string): (World, Option<Error>) {
    if !env.hasClient then (w, Some(NoKubeClient))
    else (DeleteIn(env, w, ServiceKey(namespace, epServiceName)).0, None)
  }

  /** deleteVolume: the three teardown steps in order, each whatever the others did. */
  function DeleteVolume(env: Env, w: World, namespace: string, name: string, cfg: ProvisionerConfig): World
    requires ValidConfig(cfg)
  {
    var w1 := DeleteGlusterVolume(env, w, cfg);
    var w2 := DeleteBricks(env, w1, namespace, name, cfg);
    DeleteEndpointService(env, w2, namespace, DynamicEpSvcPrefix + name).0
  }

  /**
   * Delete. `classLookup` is the error of looking up the volume's storage
   * class, if any; `config` is the result of parsing that class's parameters.
   */
  function Delete(env: Env, w: World, volume: PersistentVolume, classLookup: Option<string>,
                  config: Result<ProvisionerConfig, string>): (World, Option<Error>)
    requires config.Success? ==> ValidConfig(config.value)
  {
    if classLookup.Some? then (w, Some(ClassLookupFailed(classLookup.value)))
    else if config.Failure? then (w, Some(InvalidParameter(config.error)))
    else if volume.claimRef.None? then (w, Some(ClaimRefNil))
    else if volume.claimRef.value.namespace == "" then (w, Some(NamespaceEmpty))
    else
      var pvc := volume.claimRef.value;
      var w1 := DeleteVolume(env, w, pvc.namespace, pvc.name, config.value);
      (Release(env, w1, volume.name).0, None)
  }

  /**
   * The volume is stopped (forced) on the first configured host, and the
   * delete command follows on that host if and only if the stop succeeded.
   */
  lemma DeleteGlusterVolumeStopGuardsDelete(env: Env, w: World, cfg: ProvisionerConfig)
    requires ValidConfig(cfg)
    ensures var w' := DeleteGlusterVolume(env, w, cfg);
            var host := cfg.brickRootPaths[0].host;
            var stop := Exec(Batch(host, ["gluster --mode=script volume stop " + cfg.volumeName + " force"]));
            var del := Exec(Batch(host, ["gluster --mode=script volume delete " + cfg.volumeName]));
            && w'.objects == w.objects
            && (env.fails(|w.trace|, stop) ==> w'.trace == w.trace + [stop])
            && (!env.fails(|w.trace|, stop) ==> w'.trace == w.trace + [stop, del])
  {
  }

  /**
   * Brick removal issues `rm -rf P` on every configured root, in root order,
   * whatever each host returned; P is the path brick creation used.
   */
  lemma DeleteBricksRemovesEveryRoot(env: Env, w: World, namespace: string, pvcName: string, cfg: ProvisionerConfig)
    ensures var w' := DeleteBricks(env, w, namespace, pvcName, cfg);
            var roots := cfg.brickRootPaths;
            var bricks := Bricks(roots, namespace, BrickName(pvcName, cfg.volumeName));
            && w'.objects == w.objects
            && |w'.trace| == |w.trace| + |roots|
            && w'.trace[..|w.trace|] == w.trace
            && forall i :: 0 <= i < |roots| ==>
                 w'.trace[|w.trace| + i] == Exec(Batch(bricks[i].host, ["rm -rf " + bricks[i].path]))
  {
    RunAllIssuesEvery(env, w, RemoveBatches(cfg.brickRootPaths, namespace, BrickName(pvcName, cfg.volumeName)));
  }

  /**
   * Endpoint teardown touches only the Service `epServiceName`: no other
   * object (the Endpoints of the same name in particular) appears or
   * disappears, and with a client the result is success even when the delete
   * fails. Without a client nothing is called and the error is returned.
   */
  lemma DeleteEndpointServiceOnlyService(env: Env, w: World, namespace: string, epServiceName: string)
    ensures var (w', err) := DeleteEndpointService(env, w, namespace, epServiceName);
            var svc := ServiceKey(namespace, epServiceName);
            && (forall key :: key != svc ==> (key in w'.objects <==> key in w.objects))
            && (EndpointsKey(namespace, epServiceName) in w'.objects <==> EndpointsKey(namespace, epServiceName) in w.objects)
            && (env.hasClient ==> err.None? && w'.trace == w.trace + [DeleteObject(svc)]
                                  && (svc !in w'.objects <==> !env.fails(|w.trace|, DeleteObject(svc)) || svc !in w.objects))
            && (!env.hasClient ==> err == Some(NoKubeClient) && w' == w)
  {
  }

  /**
   * Teardown order and best effort: volume stop/delete first, then one removal
   * per configured root, then the Service delete; what the last two steps
   * issue does not depend on any earlier outcome.
   */
  lemma DeleteVolumeRunsEveryStep(env: Env, w: World, namespace: string, name: string, cfg: ProvisionerConfig)
    requires ValidConfig(cfg)
    ensures var w1 := DeleteGlusterVolume(env, w, cfg);
            var w' := DeleteVolume(env, w, namespace, name, cfg);
            var svc := ServiceKey(namespace, DynamicEpSvcPrefix + name);
            && w'.trace == w1.trace + ExecEvents(RemoveBatches(cfg.brickRootPaths, namespace, BrickName(name, cfg.volumeName)))
                             + (if env.hasClient then [DeleteObject(svc)] else [])
            && w.trace <= w1.trace
            && forall key :: key != svc ==> (key in w'.objects <==> key in w.objects)
  {
    var w1 := DeleteGlusterVolume(env, w, cfg);
    RunAllIssuesEvery(env, w1, RemoveBatches(cfg.brickRootPaths, namespace, BrickName(name, cfg.volumeName)));
  }

  /**
   * Delete's early rejections: a failed class lookup, a failed parse, a nil
   * claim reference or an empty claim namespace each return their error and
   * call nothing.
   */
  lemma DeleteRejectsEarly(env: Env, w: World, volume: PersistentVolume, classLookup: Option<string>,
                           config: Result<ProvisionerConfig, string>)
    requires config.Success? ==> ValidConfig(config.value)
    requires classLookup.Some? || config.Failure? || volume.claimRef.None? || volume.claimRef.value.namespace == ""
    ensures var (w', err) := Delete(env, w, volume, classLookup, config);
            && w' == w
            && (classLookup.Some? ==> err == Some(ClassLookupFailed(classLookup.value)))
            && (classLookup.None? && config.Failure? ==> err == Some(InvalidParameter(config.error)))
            && (classLookup.None? && config.Success? && volume.claimRef.None? ==> err == Some(ClaimRefNil))
            && (classLookup.None? && config.Success? && volume.claimRef.Some? ==> err == Some(NamespaceEmpty))
  {
  }

  /**
   * Otherwise Delete tears the volume down for the claim's namespace and
   * name, then releases the group id, and returns success even when the
   * release (or any teardown step) fails.
   */
  lemma DeleteSucceedsAfterTeardown(env: Env, w: World, volume: PersistentVolume, classLookup: Option<string>,
                                    config: Result<ProvisionerConfig, string>)
    requires config.Success? ==> ValidConfig(config.value)
    requires classLookup.None? && config.Success? && volume.claimRef.Some? && volume.claimRef.value.namespace != ""
    ensures var (w', err) := Delete(env, w, volume, classLookup, config);
            var pvc := volume.claimRef.value;
            && err.None?
            && w'.trace == DeleteVolume(env, w, pvc.namespace, pvc.name, config.value).trace + [ReleaseGid(volume.name)]
  {
  }

  /** The trace of a Delete that gets past its early checks. */
  lemma DeleteTraceShape(env: Env, w: World, pv: PersistentVolume, cfg: ProvisionerConfig)
    requires ValidConfig(cfg)
    requires pv.claimRef.Some? && pv.claimRef.value.namespace != ""
    ensures var ns, claim := pv.claimRef.value.namespace, pv.claimRef.value.name;
            var (w', err) := Delete(env, w, pv, None, Success(cfg));
            && err.None?
            && w'.trace == DeleteGlusterVolume(env, w, cfg).trace
                           + ExecEvents(RemoveBatches(cfg.brickRootPaths, ns, BrickName(claim, cfg.volumeName)))
                           + (if env.hasClient then [DeleteObject(ServiceKey(ns, DynamicEpSvcPrefix + claim))] else [])
                           + [ReleaseGid(pv.name)]
  {
    DeleteSucceedsAfterTeardown(env, w, pv, None, Success(cfg));
    DeleteVolumeRunsEveryStep(env, w, pv.claimRef.value.namespace, pv.claimRef.value.name, cfg);
  }
}
