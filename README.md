# Jira Cloud issues client — verified model

This project models `jiracloud/issues.py` of the jira-cloud-python client:
the `Issues` wrapper that resolves the Jira Cloud REST v3 base URL and sends
the five issue operations (get, create, delete, create-metadata and JQL
search) through an HTTP client object supplied by the caller.

What is modelled:

- **Base-URL resolution (`Issues._base`).** The client attributes it touches
  are the fields of the class `JiraIssues.Client`: `BASE_URL` (`root`),
  `API_URL` (`apiPath`), `_BASE_URL` (`cachedBase`), `cloud_id` (`cloudId`)
  and `_cloud_id` (`privateCloudId`). `Issues.Base` is an imperative method
  that writes the composed URL back to `cachedBase`. It is proved against the
  value-level specification `BaseResolution.Resolve` (what is returned or
  raised) and `BaseResolution.Repaired` (the client afterwards). Python's
  truthiness is explicit: a missing attribute, `None` and `""` are all unset
  (`Wrappers.Truthy`). The `RuntimeError` is the `Err` case of a `Result`,
  with the source's message.
- **The transport.** `_get`, `_post` and `_delete` are a recorder. Each call
  appends a `Request(verb, url, params, body)` to `Client.sent` and answers
  with that request, which stands in for the server's response. So each
  operation's contract says exactly which requests were sent: one, or none
  when `_base` raises.
- **Request construction.** `JiraRequests.RequestFor` gives the request an
  operation sends once the base URL is known. `JiraRequests.SearchParams`
  gives the normalised query of the JQL search: defaults for `jql`,
  `startAt` and `maxResults`; `fields` comma-joined (`Csv.Join`) or passed
  as is, and left out when falsy. `Issues.SearchForIssuesUsingJql` builds the
  same dict in place, with a conditional insert, and is proved equal to it.
- **Inverses.** A router (`JiraRequests.Route`) reads a request back to the
  endpoint it names. A comma split (`Csv.Split`) reads the `fields` string
  back to a list. A resubmission function (`JiraRequests.QueryOf`) turns the
  effective parameters back into a query. `Sessions.Run` runs a caller's
  script of operations and `cloud_id` reassignments over the specification.
  It is used to state that the cached URL is sticky.

Behaviours of the code that the model makes explicit:

- `get_issue("createmeta")` sends the same request as
  `get_create_issue_metadata()`. Issue ids are not escaped, so an id holding
  `/` addresses another resource (`JiraRequests.CreatemetaKeyCollides`,
  `JiraRequests.RouteRequestFor`).
- `fields=[""]` is a non-empty list, so the `fields` key is sent, with the
  empty string as its value. That is the only input for which normalising the
  search query is not idempotent (`JiraRequests.SearchParamsIdempotent`).
- The cached base URL is never invalidated. After a later change of
  `cloud_id`, operations keep using the old tenant's URL (`Sessions.StickyBase`,
  `JiraIssues.CachedBaseSurvivesReassignment`).

`_base` never looks a cloud id up over the network. With no truthy cached
base and no truthy cloud id it raises a plain `RuntimeError`
(jiracloud/issues.py:23).

Files: `wrappers.dfy` (Option, Result, truthiness), `csv.dfy` (join and
split), `requests.dfy` (requests, search parameters, router), `resolution.dfy`
(specification of `_base`), `sessions.dfy` (operations over a client state,
scripts of calls), `issues.dfy` (the classes).

## Model

| member | source | states |
|---|---|---|
| `JiraIssues.Issues.Base` | jiracloud/issues.py:7-23 | returns or raises exactly what `Resolve` says of the client before the call; leaves the client as `Repaired` says, with only `_BASE_URL` possibly written; sends no request |
| `JiraIssues.Issues.GetIssue` | jiracloud/issues.py:25-29 | the outcome is `Perform` of the old client state: a GET on `base + "issue/" + id` with the caller's params, or the RuntimeError; exactly that request is appended to the transport log, none on error; the client is repaired as by `_base` |
| `JiraIssues.Issues.CreateIssue` | jiracloud/issues.py:31-36 | as above for a POST on `base + "issue"` with `data` as the JSON body, unchanged |
| `JiraIssues.Issues.DeleteIssue` | jiracloud/issues.py:38-42 | as above for a DELETE on `base + "issue/" + id` |
| `JiraIssues.Issues.GetCreateIssueMetadata` | jiracloud/issues.py:44-48 | as above for a GET on `base + "issue/createmeta"` |
| `JiraIssues.Issues.SearchForIssuesUsingJql` | jiracloud/issues.py:50-79 | the params built in place with a conditional `fields` insert are `SearchParams(query)`; GET on `base + "search/jql"`; one request, or none when `_base` raises |
| `JiraIssues.CachedBaseSurvivesReassignment` | jiracloud/issues.py:12-21 | on a client with only a cloud id, a first call composes `root/id/api`; after `cloud_id` is reassigned, a second call still uses the same URL |
| `BaseResolution.EffectiveCloudId` | jiracloud/issues.py:16 | `cloud_id` when truthy, else `_cloud_id` when truthy, else nothing; a chosen id is never empty |
| `BaseResolution.ComposeBase` | jiracloud/issues.py:18 | the base is `root`, a slash, the cloud id, a slash, the API path: its length and the position of each of the five pieces |
| `BaseResolution.ComposeBaseInjective` | jiracloud/issues.py:18 | for a fixed root and API path, distinct cloud ids give distinct base URLs |
| `BaseResolution.Resolve` | jiracloud/issues.py:7-23 | raises iff neither the cached base nor either cloud id is truthy, with the source's message; a truthy cached base is returned unchanged; otherwise `cloud_id` wins over `_cloud_id` in the composed URL; a success is never empty |
| `BaseResolution.Repaired` | jiracloud/issues.py:12-21 | only `_BASE_URL` changes; it changes only on the compose path, to the returned URL; a cache hit or an error changes nothing |
| `BaseResolution.ResolveIdempotent` | jiracloud/issues.py:12-21 | a second resolution returns the same URL by the cached path and changes nothing more |
| `BaseResolution.CacheIsSticky` | jiracloud/issues.py:12-21 | after a successful resolution, reassigning `cloud_id` or `_cloud_id` does not change the resolved URL |
| `BaseResolution.CloudIdWins` | jiracloud/issues.py:16 | with a truthy `cloud_id`, `_cloud_id` has no influence on the result |
| `BaseResolution.EmptyCacheIsUnset` | jiracloud/issues.py:12-13 | an empty `_BASE_URL` resolves and is repaired exactly like a missing one |
| `Sessions.Perform` | jiracloud/issues.py:29-59 | an operation fails iff `_base` fails; on success its request is `RequestFor(op, base)` and its URL starts with a cached base |
| `Sessions.Sent` | jiracloud/issues.py:29-48 | an outcome stands for exactly one transport call when it succeeds and none when it fails |
| `Sessions.StickyBase` | jiracloud/issues.py:12-21 | with a truthy cached base, every operation of any script, including cloud-id reassignments, succeeds with the cached URL, and the cache is never rewritten |
| `Sessions.FirstCallFixesBase` | jiracloud/issues.py:16-21 | the first successful call fixes the base URL for all later calls of the script |
| `Sessions.FailsBeforeAnyRequest` | jiracloud/issues.py:23-29 | with no truthy base or cloud id, the first operation raises the RuntimeError, sends nothing and leaves the client unchanged |
| `JiraRequests.RequestFor` | jiracloud/issues.py:29-48 | URL is the base followed by the operation's path; POST only for create, DELETE only for delete, GET otherwise; body only for create, and it is `data` unchanged; caller params pass through untouched; the search sends `SearchParams` |
| `JiraRequests.RouteRequestFor` | jiracloud/issues.py:29-59 | a router under the same base reads every request back to the endpoint its operation names, for issue ids that are one path segment and not `createmeta` |
| `JiraRequests.DistinctEndpointsDistinctRequests` | jiracloud/issues.py:29-59 | two such operations naming different endpoints never send the same verb and URL |
| `JiraRequests.CreatemetaKeyCollides` | jiracloud/issues.py:29-48 | `get_issue("createmeta")` and `get_create_issue_metadata()` send identical requests |
| `JiraRequests.SearchParams` | jiracloud/issues.py:61-77 | keys are exactly `jql`, `startAt`, `maxResults`, plus `fields` iff it is truthy; never `expand`; `jql` is never empty and defaults to `order by created desc`; `startAt` and `maxResults` default to 0 and 50; a list of fields is comma-joined and a string is sent as is |
| `JiraRequests.SearchParamsIdempotent` | jiracloud/issues.py:62-77 | resubmitting the effective parameters as a query yields the same parameters iff `fields` is not the list `[""]` |
| `JiraRequests.SearchFieldsRoundTrip` | jiracloud/issues.py:73-75 | splitting the sent `fields` on commas gives the caller's list back when no name holds a comma |
| `JiraRequests.SearchDefaults` | jiracloud/issues.py:62-73 | `{}` gives exactly `jql="order by created desc"`, `startAt=0`, `maxResults=50` and no `fields`; an empty `jql` and an empty list of fields give the same |
| `JiraRequests.SearchFieldsExamples` | jiracloud/issues.py:73-77 | `["summary","status"]` gives `"summary,status"`; `"summary"` is sent as is |
| `Csv.Join` | jiracloud/issues.py:75 | `",".join` is empty iff the list is empty or `[""]`; two or more parts always produce a comma |
| `Csv.SplitJoin` | jiracloud/issues.py:75 | splitting a join on commas gives the parts back when no part holds a comma |
| `Csv.JoinSplit` | jiracloud/issues.py:75 | joining the comma split of any string gives the string back |

## Left out

- The HTTP transport (`_get`, `_post`, `_delete`) is a recorder. Network
  behaviour, response bodies, HTTP errors and their propagation are not
  modelled.
- Python's dynamic typing. `getattr` defaults become `None` in an `Option`.
  Attribute values other than strings (a truthy non-string cloud id, an
  integer issue id formatted with `str`) are not modelled.
- `int(...)` coercion of `startAt` and `maxResults` is not modelled: the
  model takes integers, and `None` is a missing key. A key that is present
  with the value `None` raises `TypeError` in the source and is not modelled.
- `fields` is `NoFields`, a string (`One`) or a list or tuple (`Many`).
  `str(fields)` on other objects is not modelled.
- Any falsy `jql` value other than `None` and `""` is not modelled.
- In the search, `_base()` runs before the query is read. A coercion error
  after a successful resolution is not modelled, so the cache write that
  happens before it is not shown either.
- The contents of caller `params` and of the `data` payload are opaque
  pass-throughs, with no validation in the source.
- Authentication, `set_cloud_id` and the discovery of accessible resources
  are not part of this model. A reassignment of `cloud_id` is modelled only
  as a plain attribute write (`Sessions.Step`).
- `BASE_URL` and `API_URL` are required constants of `JiraIssues.Client`.
  The source reads them directly, not through `getattr`, so a client without
  either raises `AttributeError` on the compose path, after the cloud-id test
  and before the cache write; that error path is not modelled.
- Thread races on the cache are not modelled: the code is single-threaded.
- A `Sessions.Run` script stops at the first raised error. A caller that
  catches the error and continues is not modelled there. The client is
  unchanged by a failed call either way.
