/** The `Issues` wrapper and the client object it writes its cache back to.
    The client's HTTP transport is a recorder: each `_get`, `_post` or
    `_delete` appends the request to `sent` and answers with that request. */
module JiraIssues {
  import opened Wrappers
  import Csv
  import opened JiraRequests
  import opened BaseResolution
  import opened Sessions

  class Client {
    const root: string                 // BASE_URL
    const apiPath: string              // API_URL
    var cachedBase: Option<string>     // _BASE_URL
    var cloudId: Option<string>        // cloud_id
    var privateCloudId: Option<string> // _cloud_id
    var sent: seq<Request>             // every request the transport was asked to send

    constructor(root: string, apiPath: string, cachedBase: Option<string>,
                cloudId: Option<string>, privateCloudId: Option<string>)
      ensures State() == Config(root, apiPath, cachedBase, cloudId, privateCloudId)
      ensures sent == []
    {
      this.root := root;
      this.apiPath := apiPath;
      this.cachedBase := cachedBase;
      this.cloudId := cloudId;
      this.privateCloudId := privateCloudId;
      sent := [];
    }

    /** The attributes that base-URL resolution reads and writes. */
    function State(): Config
      reads this
    {
      Config(root, apiPath, cachedBase, cloudId, privateCloudId)
    }

    method Get(url: string, params: Option<Params>) returns (response: Request)
      modifies this`sent
      ensures response == Request(Verb.Get, url, params, None)
      ensures sent == old(sent) + [response]
    {
      response := Request(Verb.Get, url, params, None);
      sent := sent + [response];
    }

    method Post(url: string, json: Json, params: Option<Params>) returns (response: Request)
      modifies this`sent
      ensures response == Request(Verb.Post, url, params, Some(json))
      ensures sent == old(sent) + [response]
    {
      response := Request(Verb.Post, url, params, Some(json));
      sent := sent + [response];
    }

    method Delete(url: string, params: Option<Params>) returns (response: Request)
      modifies this`sent
      ensures response == Request(Verb.Delete, url, params, None)
      ensures sent == old(sent) + [response]
    {
      response := Request(Verb.Delete, url, params, None);
      sent := sent + [response];
    }
  }

  class Issues {
    const client: Client

    constructor(client: Client)
      ensures this.client == client
    {
      this.client := client;
    }

    /** `_base`: the cached base URL, else one composed from the cloud id and
        written back to the client, else the RuntimeError. Sends nothing. */
    method Base() returns (r: Result<string, Error>)
      modifies client`cachedBase
      ensures r == Resolve(old(client.State()))
      ensures client.State() == Repaired(old(client.State()))
      ensures client.sent == old(client.sent)
    {
      var base := client.cachedBase;
      if Truthy(base) {
        return Ok(base.value);
      }
      var cloudId := if Truthy(client.cloudId) then client.cloudId else client.privateCloudId;
      if Truthy(cloudId) {
        var composed := client.root + "/" + cloudId.value + "/" + client.apiPath;
        client.cachedBase := Some(composed);
        return Ok(composed);
      }
      return Err(RuntimeError(NotSetMessage));
    }

    method GetIssue(issueId: string, params: Option<Params>) returns (r: Result<Request, Error>)
      modifies client`cachedBase, client`sent
      ensures r == Perform(old(client.State()), Operation.GetIssue(issueId, params))
      ensures client.sent == old(client.sent) + Sent(r)
      ensures client.State() == Repaired(old(client.State()))
    {
      var base :- Base();
      var response := client.Get(base + (IssuePrefix + issueId), params);
      return Ok(response);
    }

    method CreateIssue(data: Json, params: Option<Params>) returns (r: Result<Request, Error>)
      modifies client`cachedBase, client`sent
      ensures r == Perform(old(client.State()), Operation.CreateIssue(data, params))
      ensures client.sent == old(client.sent) + Sent(r)
      ensures client.State() == Repaired(old(client.State()))
    {
      var base :- Base();
      var response := client.Post(base + IssuePath, data, params);
      return Ok(response);
    }

    method DeleteIssue(issueId: string, params: Option<Params>) returns (r: Result<Request, Error>)
      modifies client`cachedBase, client`sent
      ensures r == Perform(old(client.State()), Operation.DeleteIssue(issueId, params))
      ensures client.sent == old(client.sent) + Sent(r)
      ensures client.State() == Repaired(old(client.State()))
    {
      var base :- Base();
      var response := client.Delete(base + (IssuePrefix + issueId), params);
      return Ok(response);
    }

    method GetCreateIssueMetadata(params: Option<Params>) returns (r: Result<Request, Error>)
      modifies client`cachedBase, client`sent
      ensures r == Perform(old(client.State()), Operation.GetCreateIssueMetadata(params))
      ensures client.sent == old(client.sent) + Sent(r)
      ensures client.State() == Repaired(old(client.State()))
    {
      var base :- Base();
      var response := client.Get(base + CreateMetaPath, params);
      return Ok(response);
    }

    /** Builds the query parameters in place, inserting `fields` only when it
        is truthy. */
    method SearchForIssuesUsingJql(query: SearchQuery) returns (r: Result<Request, Error>)
      modifies client`cachedBase, client`sent
      ensures r == Perform(old(client.State()), Operation.SearchForIssuesUsingJql(query))
      ensures client.sent == old(client.sent) + Sent(r)
      ensures client.State() == Repaired(old(client.State()))
    {
      var base :- Base();
      var url := base + SearchPath;
      var jql := if Truthy(query.jql) then query.jql.value else DefaultJql;
      var startAt := if query.startAt.Some? then query.startAt.value else DefaultStartAt;
      var maxResults := if query.maxResults.Some? then query.maxResults.value else DefaultMaxResults;
      var params := map["jql" := Str(jql), "startAt" := Int(startAt), "maxResults" := Int(maxResults)];
      if HasFields(query.fields) {
        if query.fields.Many? {
          params := params["fields" := Str(Csv.Join(query.fields.names))];
        } else {
          params := params["fields" := Str(query.fields.name)];
        }
      }
      assert params.Keys == SearchParams(query).Keys;
      assert params == SearchParams(query);
      var response := client.Get(url, Some(params));
      return Ok(response);
    }
  }

  /** Two operations in a row on a new client that knows only its cloud id:
      the first composes and caches the base URL, and the second reuses it
      although `cloud_id` was reassigned in between. */
  method CachedBaseSurvivesReassignment(root: string, apiPath: string, id: string, other: string)
    returns (first: Result<Request, Error>, second: Result<Request, Error>)
    requires id != ""
    ensures first.Ok? && second.Ok?
    ensures first.value.url == ComposeBase(root, id, apiPath) + "issue/PROJ-1"
    ensures first.value.verb == Verb.Get && second.value.verb == Verb.Delete
    ensures second.value.url == first.value.url
  {
    var client := new Client(root, apiPath, None, Some(id), None);
    var issues := new Issues(client);
    ghost var base := ComposeBase(root, id, apiPath);
    assert Resolve(client.State()) == Ok(base);
    first := issues.GetIssue("PROJ-1", None);
    assert first == Ok(RequestFor(Operation.GetIssue("PROJ-1", None), base));
    assert client.cachedBase == Some(base);
    client.cloudId := Some(other);
    assert Resolve(client.State()) == Ok(base);
    second := issues.DeleteIssue("PROJ-1", None);
    assert second == Ok(RequestFor(Operation.DeleteIssue("PROJ-1", None), base));
    assert first.value.url == base + (IssuePrefix + "PROJ-1") == base + "issue/PROJ-1";
  }
}
