# pydkron, modelled in Dafny

pydkron is a thin Python client for the HTTP API of the Dkron job scheduler.
This project models its two pieces with logic of their own:

- **The job record** (`pydkron/job.py`, module `Job`): `DkronJob` is a
  dictionary whose attribute reads and writes are checked against a closed
  whitelist of field names and a read-only subset of it. Names starting with
  `_` pass the checks. Construction and `from_dict` store every key they are
  given without any check, plus the back-reference to the client under the
  key `"_client"`; `marshal` drops every underscore-prefixed key. The class
  `Job.DkronJob` holds the entries as a `map<string, Value>` that `SetAttr`
  updates in place; `Assign`, `Public` and `Loaded` are the pure
  specifications of a write, of `marshal` and of construction, and the lemmas
  are stated over them.
- **The client** (`pydkron/client.py`, module `Client`): `DkronClient` holds
  the list of hosts it was given, as the same object the caller owns, modelled
  as an `array<string>`. Every call shuffles that list in place, so the caller
  sees the new order too, then tries the
  hosts in order at `http://<host>/v1<endpoint>`, skipping hosts whose
  request fails at transport level. It returns the first response it gets,
  whatever its status, and raises "No valid host found" when no host
  answers. The resource methods map a 404 to `DkronJobNotFound`, and
  `save_job` accepts nothing but 201. `Client.Dispatch` specifies the walk
  over the shuffled hosts; `Client.DkronClient.Call` is the loop proved
  against it.

The HTTP transport is a parameter `net: Request -> Option<Response>`: `None`
stands for a request that raised a `requests` exception, `Some` for any
response. The shuffle is an arbitrary permutation (`:|` over sequences with
the same multiset).

The job operations `save`, `run`, `delete` and `executions` of job.py call
into the client. Dafny modules cannot import each other in a cycle, so these
four live in module `Client` as `JobSave`, `JobRun`, `JobDelete` and
`JobExecutions`, taking the job as a parameter. `Client.Owner` recovers the
client from the job's `"_client"` entry, as `self._client` does.

Behaviour of the code that the model keeps as written:

- Construction stores unknown and read-only keys without a check, so a job
  built from server data can hold a public key outside the whitelist, and a
  stored unknown key stays unreadable through the attribute hook
  (`Job.ConstructionBypassesSchema`). Only writes keep the whitelist
  (`Job.AssignKeepsSchema`).
- Reading a whitelisted field that was never stored also fails, with the
  dictionary's own `KeyError` (`MissingField`).
- A method string other than get/post/delete sends no request, leaves the
  loop with no response, and ends in "No valid host found".
- `from_dict` unpacks the data as keyword arguments next to the positional
  parameters `self` and `client` of the constructor, so data with a key
  `"self"` or `"client"` raises a `TypeError` (`DuplicateArgument`), and
  data that is not a dictionary raises one too (`NotAMapping`).
- `jobs` iterates the decoded body. A dictionary or a string body yields
  string items, which `from_dict` refuses, so only an empty one gives an
  empty list. Any other non-list body cannot be iterated.
- `get_executions` requests `/jobs/<name>/executions/`.

## Model

| member | source | states |
|---|---|---|
| `Job.Loaded` | pydkron/job.py:40-42 | construction keeps every keyword argument other than `_client` with its value, whatever its name, and sets `"_client"` holding the client (`Null` for None) |
| `Job.LoadJob` | pydkron/job.py:60-65 | `from_dict` succeeds exactly for a dictionary with neither a `"self"` nor a `"client"` key and then stores it as construction does; otherwise not-a-mapping for a non-dictionary and the duplicate-argument TypeError for such a key |
| `Job.Assign` | pydkron/job.py:50-58 | a write succeeds exactly for a writable name (whitelisted and not read-only, or `_`-prefixed); it sets that key and no other; a refused write reports read-only for a recognised name, not-a-valid-field otherwise |
| `Job.Public` | pydkron/job.py:73-82 | the marshalled entries never contain `"_client"` and come from the stored entries |
| `Job.ReadOnlyFieldsAreGuarded` | pydkron/job.py:27-33 | every read-only field is on the whitelist, passes the read check, and is refused on write with the read-only error |
| `Job.AssignKeepsReadOnlyEntries` | pydkron/job.py:50-58 | a successful write never adds, removes or changes a read-only entry |
| `Job.AssignKeepsSchema` | pydkron/job.py:50-58 | if every public key is whitelisted before a write, it still is after |
| `Job.ConstructionBypassesSchema` | pydkron/job.py:40-42 | construction stores any public key outside the whitelist (such as "metadata"), which breaks the whitelist invariant, although a write of that key is refused as not a valid field |
| `Job.AssignThenPublic` | pydkron/job.py:50-82 | after a write the marshalled form gains or updates that key for a public name and is unchanged for a `_`-prefixed one |
| `Job.MarshalRoundTrip` | pydkron/job.py:40-82 | marshalling a job constructed from keyword arguments without `_`-prefixed keys gives exactly those arguments back |
| `Job.FromDictRoundTrip` | pydkron/job.py:60-82 | `from_dict` then `marshal` reproduces input data that has no `_`-prefixed keys and neither a `"self"` nor a `"client"` key |
| `Job.DkronJob.constructor` | pydkron/job.py:40-42 | for keyword arguments Python can bind (neither `"self"` nor `"client"`), the new job's entries are those arguments plus `"_client"`, written through the attribute hook |
| `Job.DkronJob.FromDict` | pydkron/job.py:60-65 | a fresh job holding the loaded entries, or the TypeError of `LoadJob` |
| `Job.DkronJob.GetAttr` | pydkron/job.py:44-47 | a read succeeds exactly for a recognised name that is stored and yields its value; an unrecognised name fails as not a valid field even if stored; a recognised but absent name fails with the lookup's KeyError |
| `Job.DkronJob.SetAttr` | pydkron/job.py:50-58 | the entries become those of `Assign` and the name then reads back the value; a refused write leaves the entries unchanged |
| `Job.DkronJob.Marshal` | pydkron/job.py:73-82 | the loop over the entries yields exactly the entries whose key does not start with `_`, values unchanged |
| `Client.ParseVerb` | pydkron/client.py:55-61 | only "get", "post" and "delete" lead to a request, each mapped to its own HTTP method |
| `Client.Dispatch` | pydkron/client.py:49-66 | the only error the dispatcher raises is "No valid host found", and it raises it for an empty host list or an unknown method |
| `Client.FirstResponder` | pydkron/client.py:51-64 | the index of the first answering host: all hosts before it fail at transport level, it answers, or it is the list length when none answers |
| `Client.DispatchAnswersFirst` | pydkron/client.py:51-66 | the dispatcher returns the response of the first answering host, whatever its status, and "No valid host found" when none answers |
| `Client.DispatchSucceedsIff` | pydkron/client.py:51-66 | a call succeeds exactly when the method is get/post/delete and some host answers |
| `Client.AllHostsDown` | pydkron/client.py:63-66 | if every host fails at transport level for the requested method (or the method is unknown) the call raises "No valid host found" |
| `Client.ShuffleKeepsSuccess` | pydkron/client.py:50-66 | for two orders of the same hosts, either both calls succeed or both fail |
| `Client.RequireFound` | pydkron/client.py:106-108 | a name-keyed result fails with not-found exactly on status 404 and otherwise passes the body through, with no other status check |
| `Client.RequireCreated` | pydkron/client.py:97-99 | a save succeeds exactly on status 201 and returns the body; any other status raises a client error carrying that status |
| `Client.FoundJob` | pydkron/client.py:87-90 | a job is built exactly when the status is not 404 and the body loads as a job, and its entries are the loaded body; a body that does not load gives `from_dict`'s TypeError |
| `Client.LoadAll` | pydkron/client.py:80 | a list of items becomes jobs exactly when every item loads, item by item in order; otherwise the error of the first item that fails |
| `Client.DecodeJobs` | pydkron/client.py:79-80 | a list body is loaded item by item, and an item that does not load gives its `from_dict` TypeError; an empty dictionary or string body gives an empty list and a non-empty one fails as not a mapping; null, boolean and number bodies cannot be iterated |
| `Client.DkronClient.constructor` | pydkron/client.py:35-43 | a list of hosts is stored as the very same list object, shared with the caller; a single host becomes a new one-element list |
| `Client.DkronClient.Shuffle` | pydkron/client.py:50 | the shared host list is rearranged in place into a permutation of itself |
| `Client.DkronClient.Call` | pydkron/client.py:45-67 | the shared host list is reordered in place into a permutation of itself; the result is `Dispatch` over the new order; the requests sent go to the hosts in that order, at most one per host, all but the last failed, the last answered when the call succeeds, and every host was tried when it fails for a known method |
| `Client.DkronClient.Status` | pydkron/client.py:69-73 | GET "/" returns the body of whatever response comes back |
| `Client.DkronClient.Jobs` | pydkron/client.py:75-80 | GET "/jobs" returns one fresh job per decoded item with the loaded entries, or the dispatch or decoding error |
| `Client.DkronClient.GetJob` | pydkron/client.py:83-90 | GET "/jobs/<name>" raises not-found on 404, otherwise returns a fresh job built from the body |
| `Client.DkronClient.SaveJob` | pydkron/client.py:92-99 | POSTs the marshalled job to "/jobs"; succeeds only on 201 |
| `Client.DkronClient.RunJob` | pydkron/client.py:101-108 | POST "/jobs/<name>" without a body; not-found exactly on 404 |
| `Client.DkronClient.DeleteJob` | pydkron/client.py:110-117 | DELETE "/jobs/<name>"; not-found exactly on 404 |
| `Client.DkronClient.CreateJob` | pydkron/client.py:119-125 | returns the locally built job, not the server's echo, and only when the save got 201; bad data fails before any request, leaving the hosts untouched |
| `Client.DkronClient.GetExecutions` | pydkron/client.py:127-134 | GET "/jobs/<name>/executions/"; not-found exactly on 404 |
| `Client.DkronClient.Toggle` | pydkron/client.py:136-152 | POST "/jobs/<name>/toggle"; not-found on 404, otherwise a fresh job built from the body |
| `Client.Owner` | pydkron/job.py:44-46 | `self._client` succeeds exactly when the `"_client"` entry, read through the hook, refers to a client, and yields that client; a missing entry is the lookup's KeyError |
| `Client.NameOf` | pydkron/job.py:88 | `self.name` read through the hook: the stored string, or the lookup's KeyError when absent |
| `Client.JobSave` | pydkron/job.py:67-71 | saves the job through its own client, with that client's save semantics |
| `Client.JobRun` | pydkron/job.py:90-94 | looks up the client, then the name, then runs the job by name through that client |
| `Client.JobDelete` | pydkron/job.py:96-100 | looks up the client, then the name, then deletes the job by name through that client |
| `Client.JobExecutions` | pydkron/job.py:84-88 | looks up the client, then the name, then fetches the executions through that client |

## Left out

- HTTP I/O through `requests`, the 10-second timeout and the JSON content-type header: replaced by the `net` parameter. Because `net` is a function of the whole request (method, URL and payload), an identical request gets the same answer within one model run, for example when a host is listed twice; requests that differ only in method or payload may get different answers.
- JSON encoding and decoding: response bodies are already-decoded `Value`s, `marshal` returns the filtered map instead of a JSON string, and a body that is not valid JSON (a failing `.json()`) is not modelled.
- Numbers in `Value` are integers; JSON floating point is not modelled.
- The randomness of `shuffle`: the model only knows the new order is some permutation of the old one.
- Python attribute resolution beyond the two hooks: plain dictionary operations on a job (item assignment, deletion) bypass the checks and are not modelled.
- Client.NameOf: a `"name"` entry that is not a string is refused with `NameNotString`, whereas the source formats any value into the URL with `%s`.
- Client.Owner: a `"_client"` entry that holds anything other than a `DkronClient` is reported as `NoClient` (Python's AttributeError), even for an object that happens to offer a method of the same name.
- `Client.DkronClient.constructor`: a single host argument is a string; other non-list objects (tuples, numbers) are not modelled.
- Client.DkronClient.constructor: the shared host list is a fixed-length array, so the model cannot express the caller appending to or removing from the list after construction, which the client would see in Python; only reordering and element updates are shared.
- `six.moves.xrange` (Python 2 compatibility) and setup.py (packaging metadata).
- Concurrent use of one client: the in-place shuffle is not thread-safe, and the model has no threads.
