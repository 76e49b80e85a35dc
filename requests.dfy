/** The requests the five issue operations send: verb, URL, query parameters
    and JSON body, computed from the resolved base URL and the caller's input.
    A router that reads a request back to the endpoint it names shows that
    the URLs do not collide. */
module JiraRequests {
  import opened Wrappers
  import Csv

  datatype Verb = Get | Post | Delete

  /** A query-parameter value: the search sends strings and integers. */
  datatype Value = Str(s: string) | Int(n: int)

  type Params = map<string, Value>

  /** The JSON body of `create_issue`, passed through as the caller gave it. */
  datatype Json =
    | Null
    | Bool(b: bool)
    | Number(n: int)
    | Text(t: string)
    | Array(items: seq<Json>)
    | Object(members: map<string, Json>)

  /** One call of the transport. `params == None` is Python's `params=None`;
      `body == None` means no `json=` argument was passed. */
  datatype Request = Request(verb: Verb, url: string, params: Option<Params>, body: Option<Json>)

  /** The `fields` entry of a search request: absent (or None), a single
      string, or a list or tuple of strings. */
  datatype Fields = NoFields | One(name: string) | Many(names: seq<string>)

  /** The `data` dict of `search_for_issues_using_jql`; `None` is a missing key. */
  datatype SearchQuery = SearchQuery(
    jql: Option<string>,
    startAt: Option<int>,
    maxResults: Option<int>,
    fields: Fields)

  datatype Operation =
    | GetIssue(issueId: string, params: Option<Params>)
    | CreateIssue(data: Json, params: Option<Params>)
    | DeleteIssue(issueId: string, params: Option<Params>)
    | GetCreateIssueMetadata(params: Option<Params>)
    | SearchForIssuesUsingJql(query: SearchQuery)

  const IssuePath := "issue"
  const IssuePrefix := "issue/"
  const CreateMetaPath := "issue/createmeta"
  const SearchPath := "search/jql"

  const DefaultJql := "order by created desc"
  const DefaultStartAt := 0
  const DefaultMaxResults := 50

  /** `if fields:` — a non-empty string or a non-empty list. */
  predicate HasFields(f: Fields) {
    match f
    case NoFields => false
    case One(name) => name != ""
    case Many(names) => names != []
  }

  /** The `fields` parameter: a list is comma-joined, a string is sent as is. */
  function FieldsText(f: Fields): string
    requires HasFields(f)
  {
    match f
    case One(name) => name
    case Many(names) => Csv.Join(names)
  }

  /** The query parameters of the JQL search. */
  function SearchParams(q: SearchQuery): (p: Params)
    ensures p.Keys == {"jql", "startAt", "maxResults"} + (if HasFields(q.fields) then {"fields"} else {})
    ensures "expand" !in p
    ensures p["jql"].Str? && p["jql"].s != ""
    ensures p["jql"] == Str(if Truthy(q.jql) then q.jql.value else DefaultJql)
    ensures p["startAt"] == Int(if q.startAt.Some? then q.startAt.value else DefaultStartAt)
    ensures p["maxResults"] == Int(if q.maxResults.Some? then q.maxResults.value else DefaultMaxResults)
    ensures q.fields.One? && HasFields(q.fields) ==> p["fields"] == Str(q.fields.name)
    ensures q.fields.Many? && HasFields(q.fields) ==> p["fields"] == Str(Csv.Join(q.fields.names))
  {
    var jql := if Truthy(q.jql) then q.jql.value else DefaultJql;
    var params := map[
      "jql" := Str(jql),
      "startAt" := Int(q.startAt.GetOr(DefaultStartAt)),
      "maxResults" := Int(q.maxResults.GetOr(DefaultMaxResults))];
    if HasFields(q.fields) then params["fields" := Str(FieldsText(q.fields))] else params
  }

  /** The path after the base URL. */
  function RelativePath(op: Operation): string {
    match op
    case GetIssue(id, _) => IssuePrefix + id
    case CreateIssue(_, _) => IssuePath
    case DeleteIssue(id, _) => IssuePrefix + id
    case GetCreateIssueMetadata(_) => CreateMetaPath
    case SearchForIssuesUsingJql(_) => SearchPath
  }

  /** The one request an operation sends once the base URL is `base`. */
  function RequestFor(op: Operation, base: string): (r: Request)
    ensures base <= r.url && r.url[|base|..] == RelativePath(op)
    ensures r.verb == Post <==> op.CreateIssue?
    ensures r.verb == Delete <==> op.DeleteIssue?
    ensures r.body.Some? <==> op.CreateIssue?
    ensures op.CreateIssue? ==> r.body == Some(op.data)
    ensures !op.SearchForIssuesUsingJql? ==> r.params == op.params
    ensures op.SearchForIssuesUsingJql? ==> r.params == Some(SearchParams(op.query))
  {
    var url := base + RelativePath(op);
    match op
    case GetIssue(_, params) => Request(Get, url, params, None)
    case CreateIssue(data, params) => Request(Post, url, params, Some(data))
    case DeleteIssue(_, params) => Request(Delete, url, params, None)
    case GetCreateIssueMetadata(params) => Request(Get, url, params, None)
    case SearchForIssuesUsingJql(query) => Request(Get, url, Some(SearchParams(query)), None)
  }

  // ----- Reading a request back to its endpoint -----

  /** The Jira resource a request addresses. */
  datatype Endpoint = ReadIssue(key: string) | NewIssue | RemoveIssue(key: string) | CreateMetadata | JqlSearch

  function EndpointOf(op: Operation): Endpoint {
    match op
    case GetIssue(id, _) => ReadIssue(id)
    case CreateIssue(_, _) => NewIssue
    case DeleteIssue(id, _) => RemoveIssue(id)
    case GetCreateIssueMetadata(_) => CreateMetadata
    case SearchForIssuesUsingJql(_) => JqlSearch
  }

  /** An issue id or key that fills exactly one path segment. */
  predicate PlainKey(key: string) {
    key != "" && '/' !in key
  }

  /** What a server under `base` makes of a request line. */
  function Route(base: string, verb: Verb, url: string): Option<Endpoint> {
    if !(base <= url) then None
    else
      var rel := url[|base|..];
      var key := if IssuePrefix <= rel then rel[|IssuePrefix|..] else "";
      match verb
      case Post => if rel == IssuePath then Some(NewIssue) else None
      case Delete => if IssuePrefix <= rel && PlainKey(key) then Some(RemoveIssue(key)) else None
      case Get =>
        if rel == CreateMetaPath then Some(CreateMetadata)
        else if rel == SearchPath then Some(JqlSearch)
        else if IssuePrefix <= rel && PlainKey(key) then Some(ReadIssue(key))
        else None
  }

  /** The operations whose request reaches the endpoint they name. */
  predicate Addressable(op: Operation) {
    match op
    case GetIssue(id, _) => PlainKey(id) && id != "createmeta"
    case DeleteIssue(id, _) => PlainKey(id)
    case _ => true
  }

  /** Every addressable operation's request reaches the endpoint it names:
      the URLs of distinct operations do not collide. */
  lemma RouteRequestFor(op: Operation, base: string)
    requires Addressable(op)
    ensures var r := RequestFor(op, base); Route(base, r.verb, r.url) == Some(EndpointOf(op))
  {
  }

  /** Two addressable operations that name different endpoints never send the
      same verb and URL. */
  lemma DistinctEndpointsDistinctRequests(op1: Operation, op2: Operation, base: string)
    requires Addressable(op1) && Addressable(op2)
    requires EndpointOf(op1) != EndpointOf(op2)
    ensures RequestFor(op1, base).verb != RequestFor(op2, base).verb
         || RequestFor(op1, base).url != RequestFor(op2, base).url
  {
    RouteRequestFor(op1, base);
    RouteRequestFor(op2, base);
  }

  /** The one collision: an issue keyed "createmeta" is read from the
      metadata URL. */
  lemma CreatemetaKeyCollides(params: Option<Params>, base: string)
    ensures RequestFor(GetIssue("createmeta", params), base)
         == RequestFor(GetCreateIssueMetadata(params), base)
  {
  }

  // ----- Resubmitting the effective search -----

  /** The search query a caller would write to ask for exactly the parameters
      `p`; a `fields` string is read back as a single string. */
  function QueryOf(p: Params): SearchQuery {
    SearchQuery(
      if "jql" in p && p["jql"].Str? then Some(p["jql"].s) else None,
      if "startAt" in p && p["startAt"].Int? then Some(p["startAt"].n) else None,
      if "maxResults" in p && p["maxResults"].Int? then Some(p["maxResults"].n) else None,
      if "fields" in p && p["fields"].Str? then One(p["fields"].s) else NoFields)
  }

  /** Normalising the search query is idempotent, except for the list `[""]`:
      it is truthy, so `fields` is sent, but the joined value is empty, and
      resubmitting it drops the key. */
  lemma SearchParamsIdempotent(q: SearchQuery)
    ensures SearchParams(QueryOf(SearchParams(q))) == SearchParams(q) <==> q.fields != Many([""])
  {
  }

  /** A server that splits `fields` on commas reads back the caller's list,
      provided no name holds a comma. */
  lemma SearchFieldsRoundTrip(q: SearchQuery)
    requires q.fields.Many? && q.fields.names != []
    requires forall i :: 0 <= i < |q.fields.names| ==> Csv.Comma !in q.fields.names[i]
    ensures "fields" in SearchParams(q)
    ensures Csv.Split(SearchParams(q)["fields"].s) == q.fields.names
  {
    Csv.SplitJoin(q.fields.names);
  }

  /** The documented defaults: an empty query, or one with an empty `jql`
      and an empty list of fields, gets every default and no `fields`. */
  lemma SearchDefaults()
    ensures SearchParams(SearchQuery(None, None, None, NoFields))
         == map["jql" := Str("order by created desc"), "startAt" := Int(0), "maxResults" := Int(50)]
    ensures SearchParams(SearchQuery(Some(""), None, None, Many([])))
         == SearchParams(SearchQuery(None, None, None, NoFields))
  {
  }

  /** The documented `fields` inputs: a list of names is comma-joined, a
      single name is sent as is. */
  lemma SearchFieldsExamples()
    ensures SearchParams(SearchQuery(None, None, None, Many(["summary", "status"])))["fields"] == Str("summary,status")
    ensures SearchParams(SearchQuery(None, None, None, One("summary")))["fields"] == Str("summary")
  {
  }
}
