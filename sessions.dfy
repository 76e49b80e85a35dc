/** What a caller sees across several calls on one `Issues` object: each
    operation resolves the base URL first and sends one request, or raises
    before sending anything. */
module Sessions {
  import opened Wrappers
  import opened JiraRequests
  import opened BaseResolution

  /** The outcome of one operation on a client in state `c`. */
  function Perform(c: Config, op: Operation): (r: Result<Request, Error>)
    ensures r.Err? <==> !Truthy(c.cachedBase) && !Truthy(c.cloudId) && !Truthy(c.privateCloudId)
    ensures r.Ok? ==> Resolve(c).Ok? && r.value == RequestFor(op, Resolve(c).value)
    ensures r.Ok? && Truthy(c.cachedBase) ==> c.cachedBase.value <= r.value.url
  {
    match Resolve(c)
    case Ok(base) => Ok(RequestFor(op, base))
    case Err(e) => Err(e)
  }

  /** The requests the transport records for an outcome: one, or none. */
  function Sent(r: Result<Request, Error>): (s: seq<Request>)
    ensures |s| == (if r.Ok? then 1 else 0)
  {
    if r.Ok? then [r.value] else []
  }

  /** A caller's script: operations, and plain reassignments of the client's
      `cloud_id` between them. */
  datatype Step = Call(op: Operation) | AssignCloudId(cloudId: Option<string>)

  /** The client state at the end, the requests sent, and the error that
      stopped the script, if any (a raised error ends it). */
  datatype Trace = Trace(final: Config, sent: seq<Request>, error: Option<Error>)

  function Run(c: Config, steps: seq<Step>): Trace
    decreases |steps|
  {
    if steps == [] then Trace(c, [], None)
    else
      match steps[0]
      case AssignCloudId(id) => Run(c.(cloudId := id), steps[1..])
      case Call(op) =>
        var r := Perform(c, op);
        if r.Err? then Trace(c, [], Some(r.error))
        else
          var t := Run(Repaired(c), steps[1..]);
          Trace(t.final, [r.value] + t.sent, t.error)
  }

  /** The operations of a script, in order. */
  function Calls(steps: seq<Step>): (ops: seq<Operation>)
    ensures |ops| <= |steps|
  {
    if steps == [] then []
    else if steps[0].Call? then [steps[0].op] + Calls(steps[1..])
    else Calls(steps[1..])
  }

  /** The requests `ops` send against a fixed base URL. */
  function RequestsFor(ops: seq<Operation>, base: string): (rs: seq<Request>)
    ensures |rs| == |ops|
    ensures forall i :: 0 <= i < |ops| ==> rs[i] == RequestFor(ops[i], base)
  {
    if ops == [] then [] else [RequestFor(ops[0], base)] + RequestsFor(ops[1..], base)
  }

  /** Once a base URL is cached, every operation of the script succeeds and
      uses it, whatever `cloud_id` is reassigned to in between, and the cache
      is never rewritten or invalidated. */
  lemma {:induction false} StickyBase(c: Config, steps: seq<Step>)
    requires Truthy(c.cachedBase)
    ensures Run(c, steps).error == None
    ensures Run(c, steps).sent == RequestsFor(Calls(steps), c.cachedBase.value)
    ensures Run(c, steps).final.cachedBase == c.cachedBase
    decreases |steps|
  {
    if steps != [] {
      match steps[0]
      case AssignCloudId(id) =>
        StickyBase(c.(cloudId := id), steps[1..]);
      case Call(op) =>
        assert Repaired(c) == c;
        StickyBase(c, steps[1..]);
        assert [steps[0].op] + Calls(steps[1..]) == Calls(steps);
    }
  }

  /** The first operation that resolves the base URL fixes it for the rest of
      the script: the composed URL is computed once and reused. */
  lemma FirstCallFixesBase(c: Config, op: Operation, rest: seq<Step>)
    requires Resolve(c).Ok?
    ensures Run(c, [Call(op)] + rest).error == None
    ensures Run(c, [Call(op)] + rest).sent == RequestsFor([op] + Calls(rest), Resolve(c).value)
  {
    var steps := [Call(op)] + rest;
    assert steps[1..] == rest;
    ResolveIdempotent(c);
    StickyBase(Repaired(c), rest);
  }

  /** Without a truthy cached base or cloud id, the first operation raises the
      RuntimeError before any request is sent, and the client is unchanged. */
  lemma FailsBeforeAnyRequest(c: Config, op: Operation, rest: seq<Step>)
    requires !Truthy(c.cachedBase) && !Truthy(c.cloudId) && !Truthy(c.privateCloudId)
    ensures Run(c, [Call(op)] + rest) == Trace(c, [], Some(RuntimeError(NotSetMessage)))
  {
  }
}
