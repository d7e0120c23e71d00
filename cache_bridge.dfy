/** The bridge between the engine and its kinematics cache: the coverage
    test that seeds an IK request, and the build chain that creates, loads,
    generates and saves the cache. The cache itself is foreign; the model
    sees its group, its options and the ordered list of calls made on it,
    and takes every answer of the cache's own code from a CacheBackend. */
module CacheBridge {
  import opened Types

  /** KinematicsCache::Options. */
  datatype CacheOptions = CacheOptions(origin: Point3, workspaceSize: (real, real, real),
                                       resolution: (real, real, real),
                                       maxSolutionsPerGridLocation: nat)

  /** A call the engine made on the cache. */
  datatype CacheCall =
    | Initialize(group: string, options: CacheOptions)
    | ReadFromFile(filename: string)
    | GenerateCacheMap(timeout: real)
    | WriteToFile(filename: string)
    | AddToCache(pose: Pose, positions: seq<real>, overwrite: bool)

  /** The cache as the engine observes it. */
  datatype Cache = Cache(group: string, options: CacheOptions, calls: seq<CacheCall>)

  /** The answers of the cache's own code, as functions of the cache's
      history: its squared-distance envelope (getMinMaxSquaredDistance), the
      first stored configuration for a pose (getSolution with rank 0; None
      when it finds none and leaves the seed as it was), and whether
      reading, generating and writing succeed. */
  datatype CacheBackend = CacheBackend(
    minMaxSquaredDistance: Cache -> (real, real),
    solution: (Cache, Pose) -> Option<seq<real>>,
    readOk: (Cache, string) -> bool,
    generateOk: (Cache, real) -> bool,
    writeOk: (Cache, string) -> bool)

  function Record(c: Cache, call: CacheCall): Cache {
    c.(calls := c.calls + [call])
  }

  /** Squared distance of a position from the frame origin. */
  function DistanceSquared(p: Point3): real {
    p.x * p.x + p.y * p.y + p.z * p.z
  }

  /** The seed's joint values after getSolution: the cache's configuration
      when it has one, otherwise the values that were there. The success
      flag of getSolution is not looked at. */
  function SeedFromCache(cache: Cache, backend: CacheBackend, pose: Pose, positions: seq<real>): seq<real> {
    match backend.solution(cache, pose)
    case Some(found) => found
    case None => positions
  }

  /** updateFromCache: a target whose squared distance from the origin
      reaches the cache's maximum is rejected and the request is left alone;
      otherwise the seed's joint values become the cache's solution for the
      target pose, or stay as they were when the cache has none. */
  function UpdateFromCache(request: IKRequest, cache: Cache, backend: CacheBackend): (r: (bool, IKRequest))
    ensures r.0 <==> DistanceSquared(request.target.pose.position) < backend.minMaxSquaredDistance(cache).1
    ensures !r.0 ==> r.1 == request
    ensures r.0 ==> r.1.target == request.target && r.1.ikLink == request.ikLink
                    && r.1.timeout == request.timeout && r.1.seed.names == request.seed.names
    ensures r.0 && backend.solution(cache, request.target.pose).Some? ==>
              r.1.seed.positions == backend.solution(cache, request.target.pose).value
    ensures r.0 && backend.solution(cache, request.target.pose).None? ==>
              r.1.seed.positions == request.seed.positions
  {
    var pose := request.target.pose;
    var distances := backend.minMaxSquaredDistance(cache);
    if DistanceSquared(pose.position) >= distances.1 then (false, request)
    else (true, request.(seed := request.seed.(positions := SeedFromCache(cache, backend, pose, request.seed.positions))))
  }

  /** Exactly the maximum squared distance is outside the cache's coverage. */
  lemma BoundaryIsRejected(request: IKRequest, cache: Cache, backend: CacheBackend)
    requires DistanceSquared(request.target.pose.position) == backend.minMaxSquaredDistance(cache).1
    ensures UpdateFromCache(request, cache, backend) == (false, request)
  {
  }

  /** With a maximum of 4.0, a target 2.1 away gets no seed and one 1.5
      away is seeded from the cache. */
  lemma CoverageScenario(request: IKRequest, cache: Cache, backend: CacheBackend, q: Quaternion)
    requires backend.minMaxSquaredDistance(cache).1 == 4.0
    ensures var far := request.(target := PoseStamped(request.target.frame, Pose(Point3(2.1, 0.0, 0.0), q)));
            !UpdateFromCache(far, cache, backend).0
    ensures var near := request.(target := PoseStamped(request.target.frame, Pose(Point3(1.5, 0.0, 0.0), q)));
            UpdateFromCache(near, cache, backend).0
  {
    assert DistanceSquared(Point3(2.1, 0.0, 0.0)) == 4.41;
    assert DistanceSquared(Point3(1.5, 0.0, 0.0)) == 2.25;
  }

  /** addToCache, skipped when there is no cache. */
  function AddSolution(cache: Option<Cache>, pose: Pose, positions: seq<real>): (r: Option<Cache>)
    ensures r.Some? <==> cache.Some?
    ensures cache.Some? ==> r.value.group == cache.value.group && r.value.options == cache.value.options
                            && r.value.calls == cache.value.calls + [AddToCache(pose, positions, true)]
  {
    if cache.None? then None else Some(Record(cache.value, AddToCache(pose, positions, true)))
  }

  /** writeToFile, skipped when there is no cache. */
  function SaveCache(cache: Option<Cache>, filename: string): (r: Option<Cache>)
    ensures r.Some? <==> cache.Some?
    ensures cache.Some? ==> r.value.group == cache.value.group && r.value.options == cache.value.options
                            && r.value.calls == cache.value.calls + [WriteToFile(filename)]
  {
    if cache.None? then None else Some(Record(cache.value, WriteToFile(filename)))
  }

  /** writeToFile as findIKSolutions calls it: through the cache handle, with
      no check that a cache exists. */
  function SaveCacheAsWritten(cache: Option<Cache>, filename: string): (r: Cache)
    requires cache.Some?
    ensures r.calls == cache.value.calls + [WriteToFile(filename)]
  {
    Record(cache.value, WriteToFile(filename))
  }

  /** The outcome of generateCache: whether it succeeded and the cache it
      leaves. */
  datatype CacheBuild = CacheBuild(ok: bool, cache: Option<Cache>)

  /** The cache is replaced when there is none or it was built for another
      group. */
  predicate NeedsNewCache(current: Option<Cache>, group: string) {
    current.None? || current.value.group != group
  }

  /** The cache generateCache works on: the current one when it was built
      for the group, otherwise a new one initialised for the group. */
  function CacheToBuild(current: Option<Cache>, group: string, options: CacheOptions): (c: Cache)
    ensures c.group == group
    ensures !NeedsNewCache(current, group) ==> c == current.value
    ensures NeedsNewCache(current, group) ==> c.options == options && c.calls == [Initialize(group, options)]
  {
    if NeedsNewCache(current, group) then Cache(group, options, [Initialize(group, options)])
    else current.value
  }

  /** generateCache: replace the cache when needed (failing, with the cache
      untouched, if the group has no kinematics solver), then run the read,
      generate, write chain on it. A cache for the requested group exists
      afterwards unless the group was unknown. */
  function BuildCache(current: Option<Cache>, group: string, timeout: real, options: CacheOptions,
                      filename: string, solverGroups: set<string>, backend: CacheBackend): (b: CacheBuild)
    ensures NeedsNewCache(current, group) && group !in solverGroups ==> b == CacheBuild(false, current)
    ensures !NeedsNewCache(current, group) || group in solverGroups ==>
              b == BuildChain(CacheToBuild(current, group, options), timeout, filename, backend)
    ensures b.ok ==> b.cache.Some? && b.cache.value.group == group
    ensures b.cache.None? ==> current.None?
  {
    if NeedsNewCache(current, group) && group !in solverGroups then
      CacheBuild(false, current)
    else
      BuildChain(CacheToBuild(current, group, options), timeout, filename, backend)
  }

  /** The read, generate, write chain of generateCache on a cache: generate
      only when the read failed, write only when generation succeeded;
      success means the map was read, or generated and saved. */
  function BuildChain(base: Cache, timeout: real, filename: string, backend: CacheBackend): (b: CacheBuild)
    ensures b.cache.Some? && b.cache.value.group == base.group && b.cache.value.options == base.options
    ensures b.ok <==> backend.readOk(base, filename)
                      || (backend.generateOk(Record(base, ReadFromFile(filename)), timeout)
                          && backend.writeOk(Record(Record(base, ReadFromFile(filename)), GenerateCacheMap(timeout)), filename))
    ensures b.cache.value.calls == base.calls + [ReadFromFile(filename)]
              + (if backend.readOk(base, filename) then []
                 else [GenerateCacheMap(timeout)]
                      + (if backend.generateOk(Record(base, ReadFromFile(filename)), timeout)
                         then [WriteToFile(filename)] else []))
  {
    var read := Record(base, ReadFromFile(filename));
    if backend.readOk(base, filename) then CacheBuild(true, Some(read))
    else
      var generated := Record(read, GenerateCacheMap(timeout));
      if !backend.generateOk(read, timeout) then CacheBuild(false, Some(generated))
      else
        var written := Record(generated, WriteToFile(filename));
        CacheBuild(backend.writeOk(generated, filename), Some(written))
  }
}
