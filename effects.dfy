/**
 * The environment the orchestrator talks to, as a value: the remote command
 * executor, the Kubernetes object store and the group-id allocator. Every
 * call is appended to a trace; the environment decides each call's outcome
 * from the call and its position in the trace, so any pattern of failures
 * across one run can be expressed and nothing is assumed about it.
 */
module Effects {
  import opened GlusterTypes

  /**
   * `fails(n, e)`: the n-th call of the run, `e`, fails (ExecuteCommands
   * returns an error, or the client reports a failure other than
   * AlreadyExists/NotFound, or the allocator's Release fails).
   * `nextGid(n)`: what AllocateNext answers as the n-th call.
   * `hasClient`: the provisioner holds a Kubernetes client (p.client != nil).
   */
  datatype Env = Env(fails: (nat, Event) -> bool, nextGid: nat -> Option<int>, hasClient: bool)

  /** The calls made so far and the objects present in the store. */
  datatype World = World(trace: seq<Event>, objects: set<ObjectKey>)

  function Log(w: World, e: Event): World {
    World(w.trace + [e], w.objects)
  }

  /** ExecuteCommands(host, cmds): the batch is recorded and may fail. */
  function Execute(env: Env, w: World, b: Batch): (World, Option<Error>) {
    (Log(w, Exec(b)), if env.fails(|w.trace|, Exec(b)) then Some(CommandFailed(b)) else None)
  }

  /** A client Create: a transport failure, AlreadyExists, or the object is added. */
  function CreateIn(env: Env, w: World, key: ObjectKey): (World, Option<ApiError>) {
    var e := CreateObject(key);
    if env.fails(|w.trace|, e) then (Log(w, e), Some(ApiFailure))
    else if key in w.objects then (Log(w, e), Some(AlreadyExists))
    else (World(w.trace + [e], w.objects + {key}), None)
  }

  /** A client Delete: a transport failure, NotFound, or the object is removed. */
  function DeleteIn(env: Env, w: World, key: ObjectKey): (World, Option<ApiError>) {
    var e := DeleteObject(key);
    if env.fails(|w.trace|, e) then (Log(w, e), Some(ApiFailure))
    else if key !in w.objects then (Log(w, e), Some(NotFound))
    else (World(w.trace + [e], w.objects - {key}), None)
  }

  /** The allocator's AllocateNext. */
  function AllocateNext(env: Env, w: World, pvName: string): (World, Option<int>) {
    (Log(w, AllocateGid(pvName)), env.nextGid(|w.trace|))
  }

  /** The allocator's Release; the boolean is true when it fails. */
  function Release(env: Env, w: World, pvName: string): (World, bool) {
    (Log(w, ReleaseGid(pvName)), env.fails(|w.trace|, ReleaseGid(pvName)))
  }

  /** The trace entries of a sequence of batches. */
  function ExecEvents(bs: seq<Batch>): seq<Event> {
    seq(|bs|, i requires 0 <= i < |bs| => Exec(bs[i]))
  }

  /**
   * The index of the first batch that fails when `bs` is issued from trace
   * position `start`, or |bs| when none does.
   */
  function FirstFailure(env: Env, start: nat, bs: seq<Batch>): (k: nat)
    ensures k <= |bs|
    ensures forall j :: 0 <= j < k ==> !env.fails(start + j, Exec(bs[j]))
    ensures k < |bs| ==> env.fails(start + k, Exec(bs[k]))
    decreases |bs|
  {
    if bs == [] then 0
    else if env.fails(start, Exec(bs[0])) then 0
    else
      var k' := FirstFailure(env, start + 1, bs[1..]);
      assert forall j :: 1 <= j < 1 + k' ==> bs[j] == bs[1..][j - 1];
      1 + k'
  }

  /** Issue the batches in order and stop at the first failure. */
  function RunUntilFailure(env: Env, w: World, bs: seq<Batch>): (World, Option<Error>)
    decreases |bs|
  {
    if bs == [] then (w, None)
    else
      var (w1, err) := Execute(env, w, bs[0]);
      if err.Some? then (w1, err) else RunUntilFailure(env, w1, bs[1..])
  }

  /** Issue every batch in order, whatever each one returns. */
  function RunAll(env: Env, w: World, bs: seq<Batch>): World
    decreases |bs|
  {
    if bs == [] then w else RunAll(env, Execute(env, w, bs[0]).0, bs[1..])
  }

  lemma ExecEventsCons(bs: seq<Batch>)
    requires |bs| > 0
    ensures ExecEvents(bs) == [Exec(bs[0])] + ExecEvents(bs[1..])
  {
  }

  /**
   * Stopping at the first failure: the batches up to and including the first
   * failing one are issued, in order, and none after it; the error names the
   * failing batch. With no failure every batch is issued and there is no error.
   */
  lemma {:induction false} RunUntilFailureShape(env: Env, w: World, bs: seq<Batch>)
    ensures var k := FirstFailure(env, |w.trace|, bs);
            RunUntilFailure(env, w, bs)
            == if k < |bs| then (World(w.trace + ExecEvents(bs[..k + 1]), w.objects), Some(CommandFailed(bs[k])))
               else (World(w.trace + ExecEvents(bs), w.objects), None)
    decreases |bs|
  {
    if bs == [] {
      assert w.trace + ExecEvents(bs) == w.trace;
    } else {
      var w1 := Log(w, Exec(bs[0]));
      if env.fails(|w.trace|, Exec(bs[0])) {
        assert ExecEvents(bs[..1]) == [Exec(bs[0])];
      } else {
        RunUntilFailureShape(env, w1, bs[1..]);
        var k := FirstFailure(env, |w.trace|, bs);
        assert k == 1 + FirstFailure(env, |w1.trace|, bs[1..]);
        assert RunUntilFailure(env, w, bs) == RunUntilFailure(env, w1, bs[1..]);
        if k < |bs| {
          ExecEventsCons(bs[..k + 1]);
          assert bs[..k + 1][1..] == bs[1..][..k];
          assert bs[1..][k - 1] == bs[k];
          assert w1.trace + ExecEvents(bs[1..][..k]) == w.trace + ExecEvents(bs[..k + 1]);
        } else {
          ExecEventsCons(bs);
          assert w1.trace + ExecEvents(bs[1..]) == w.trace + ExecEvents(bs);
        }
      }
    }
  }

  /** Best effort: every batch is issued, in order, whatever the outcomes. */
  lemma {:induction false} RunAllIssuesEvery(env: Env, w: World, bs: seq<Batch>)
    ensures RunAll(env, w, bs) == World(w.trace + ExecEvents(bs), w.objects)
    decreases |bs|
  {
    if bs == [] {
      assert w.trace + ExecEvents(bs) == w.trace;
    } else {
      RunAllIssuesEvery(env, Log(w, Exec(bs[0])), bs[1..]);
      ExecEventsCons(bs);
    }
  }
}
