/** The specification of `Issues._base`: how the REST base URL is found from
    the client's cached `_BASE_URL`, its `cloud_id` and `_cloud_id`, and what
    the client holds afterwards. */
module BaseResolution {
  import opened Wrappers

  /** The client attributes `_base` reads and writes: `BASE_URL` (root),
      `API_URL` (apiPath), `_BASE_URL` (cachedBase), `cloud_id` and `_cloud_id`.
      `None` is an attribute that is missing or set to None. */
  datatype Config = Config(
    root: string,
    apiPath: string,
    cachedBase: Option<string>,
    cloudId: Option<string>,
    privateCloudId: Option<string>)

  const NotSetMessage := "Client base URL is not set. Call client.set_cloud_id(...) after authenticating."

  /** The RuntimeError `_base` raises. */
  datatype Error = RuntimeError(message: string)

  /** `cloud_id or _cloud_id`, kept only when truthy. */
  function EffectiveCloudId(c: Config): (id: Option<string>)
    ensures id.Some? <==> Truthy(c.cloudId) || Truthy(c.privateCloudId)
    ensures id.Some? ==> id.value != ""
    ensures Truthy(c.cloudId) ==> id == c.cloudId
    ensures !Truthy(c.cloudId) ==> id == (if Truthy(c.privateCloudId) then c.privateCloudId else None)
  {
    if Truthy(c.cloudId) then c.cloudId
    else if Truthy(c.privateCloudId) then c.privateCloudId
    else None
  }

  /** `"{}/{}/{}".format(BASE_URL, cloud_id, API_URL)`. */
  function ComposeBase(root: string, cloudId: string, apiPath: string): (b: string)
    ensures |b| == |root| + |cloudId| + |apiPath| + 2
    ensures root <= b && b[|root|] == '/'
    ensures b[|root| + 1..|root| + 1 + |cloudId|] == cloudId
    ensures b[|root| + 1 + |cloudId|] == '/' && b[|root| + 2 + |cloudId|..] == apiPath
  {
    root + "/" + cloudId + "/" + apiPath
  }

  /** For a fixed root and API path, the base URL determines the cloud id:
      two tenants never share a base URL. */
  lemma ComposeBaseInjective(root: string, apiPath: string, id1: string, id2: string)
    requires ComposeBase(root, id1, apiPath) == ComposeBase(root, id2, apiPath)
    ensures id1 == id2
  {
  }

  /** What `_base()` returns or raises. */
  function Resolve(c: Config): (r: Result<string, Error>)
    ensures r.Err? <==> !Truthy(c.cachedBase) && !Truthy(c.cloudId) && !Truthy(c.privateCloudId)
    ensures r.Err? ==> r.error.message == NotSetMessage
    ensures Truthy(c.cachedBase) ==> r == Ok(c.cachedBase.value)
    ensures !Truthy(c.cachedBase) && Truthy(c.cloudId) ==> r == Ok(ComposeBase(c.root, c.cloudId.value, c.apiPath))
    ensures !Truthy(c.cachedBase) && !Truthy(c.cloudId) && Truthy(c.privateCloudId) ==>
              r == Ok(ComposeBase(c.root, c.privateCloudId.value, c.apiPath))
    ensures r.Ok? ==> r.value != ""
  {
    if Truthy(c.cachedBase) then Ok(c.cachedBase.value)
    else
      var id := EffectiveCloudId(c);
      if id.Some? then Ok(ComposeBase(c.root, id.value, c.apiPath))
      else Err(RuntimeError(NotSetMessage))
  }

  /** The client after `_base()`: the composed URL is written to `_BASE_URL`. */
  function Repaired(c: Config): (c': Config)
    ensures c' == c.(cachedBase := c'.cachedBase)
    ensures Truthy(c.cachedBase) || Resolve(c).Err? ==> c' == c
    ensures Resolve(c).Ok? ==> c'.cachedBase == Some(Resolve(c).value)
  {
    if Truthy(c.cachedBase) then c
    else
      var id := EffectiveCloudId(c);
      if id.Some? then c.(cachedBase := Some(ComposeBase(c.root, id.value, c.apiPath)))
      else c
  }

  /** A second `_base()` returns the same URL by the cached path and changes
      nothing more. */
  lemma ResolveIdempotent(c: Config)
    ensures Resolve(Repaired(c)) == Resolve(c)
    ensures Repaired(Repaired(c)) == Repaired(c)
    ensures Resolve(c).Ok? ==> Truthy(Repaired(c).cachedBase)
  {
  }

  /** Once cached, the base URL no longer depends on the cloud ids: assigning
      either of them afterwards does not change it. */
  lemma CacheIsSticky(c: Config, cloudId: Option<string>, privateCloudId: Option<string>)
    requires Resolve(c).Ok?
    ensures Resolve(Repaired(c).(cloudId := cloudId, privateCloudId := privateCloudId)) == Resolve(c)
  {
  }

  /** `cloud_id` wins over `_cloud_id`, which is consulted only when
      `cloud_id` is falsy. */
  lemma CloudIdWins(c: Config, privateCloudId: Option<string>)
    requires Truthy(c.cloudId)
    ensures Resolve(c.(privateCloudId := privateCloudId)) == Resolve(c)
  {
  }

  /** An empty `_BASE_URL` counts as unset, exactly like a missing one. */
  lemma EmptyCacheIsUnset(c: Config)
    ensures Resolve(c.(cachedBase := Some(""))) == Resolve(c.(cachedBase := None))
    ensures Resolve(c.(cachedBase := None)).Ok? ==>
              Repaired(c.(cachedBase := Some(""))) == Repaired(c.(cachedBase := None))
  {
  }
}
