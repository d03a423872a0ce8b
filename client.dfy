/** The Dkron API client (pydkron/client.py): a host-failover dispatcher and
    the resource methods built on it, plus the job operations of
    pydkron/job.py that delegate to the client a job refers to. The HTTP
    transport is a parameter: a request either fails at transport level
    (None) or yields a response with a status code and a decoded body. */
module Client {
  import opened Results
  import opened Job

  const GET: string := "get"
  const POST: string := "post"
  const DELETE: string := "delete"

  datatype Verb = Get | Post | Delete

  /** A job's marshalled form, sent as the body of a POST. */
  type Payload = map<string, Value>

  datatype Request = Request(verb: Verb, url: string, data: Option<Payload>)

  datatype Response = Response(status: int, body: Value)

  /** The transport: None stands for a request that raised a transport-level
      exception (connection error, timeout); Some for any HTTP response,
      whatever its status. */
  type Network = Request -> Option<Response>

  /** The exceptions the client raises. */
  datatype ClientError =
    | NoValidHost                // DkronClientException "No valid host found"
    | NotSaved(status: int)      // DkronClientException "Job could not be saved"
    | JobNotFound(name: string)  // DkronJobNotFound
    | NotIterable                // TypeError: the job list body cannot be iterated
    | NoClient                   // AttributeError: a job's "_client" is not a client
    | NameNotString              // a job's "name" entry is not a string
    | JobFailure(error: JobError)

  /** The `hosts` constructor argument: a list, or any single host. */
  datatype HostsArg = HostList(list: array<string>) | SingleHost(host: string)

  /** The three method strings `_call` issues a request for. */
  function ParseVerb(verb: string): (r: Option<Verb>)
    ensures r.Some? <==> verb in [GET, POST, DELETE]
    ensures verb == GET ==> r == Some(Get)
    ensures verb == POST ==> r == Some(Post)
    ensures verb == DELETE ==> r == Some(Delete)
  {
    if verb == GET then Some(Get)
    else if verb == POST then Some(Post)
    else if verb == DELETE then Some(Delete)
    else None
  }

  function Url(host: string, endpoint: string): string {
    "http://" + host + "/v1" + endpoint
  }

  /** The request `_call` sends to one host; only a POST carries the payload. */
  function RequestTo(verb: Verb, host: string, endpoint: string, payload: Option<Payload>): Request {
    Request(verb, Url(host, endpoint), if verb == Post then payload else None)
  }

  function JobPath(name: string): string {
    "/jobs/" + name
  }

  /** Specification of `_call` after the shuffle: walk the hosts in order,
      skip each whose request fails at transport level, answer with the
      first response. A method string other than get/post/delete sends
      nothing and reaches the "no valid host" error. */
  function Dispatch(order: seq<string>, verb: string, endpoint: string, payload: Option<Payload>, net: Network): (r: Result<Response, ClientError>)
    ensures r.Err? ==> r.error == NoValidHost
    ensures ParseVerb(verb).None? || order == [] ==> r == Err(NoValidHost)
    decreases |order|
  {
    if order == [] then Err(NoValidHost)
    else
      match ParseVerb(verb)
      case None => Err(NoValidHost)
      case Some(v) =>
        match net(RequestTo(v, order[0], endpoint, payload))
        case Some(resp) => Ok(resp)
        case None => Dispatch(order[1..], verb, endpoint, payload, net)
  }

  /** The position of the first host in `order` that answers, or |order|
      when none does. */
  function FirstResponder(order: seq<string>, v: Verb, endpoint: string, payload: Option<Payload>, net: Network): (k: nat)
    ensures k <= |order|
    ensures forall j :: 0 <= j < k ==> net(RequestTo(v, order[j], endpoint, payload)).None?
    ensures k < |order| ==> net(RequestTo(v, order[k], endpoint, payload)).Some?
    decreases |order|
  {
    if order == [] then 0
    else if net(RequestTo(v, order[0], endpoint, payload)).Some? then 0
    else
      var k := 1 + FirstResponder(order[1..], v, endpoint, payload, net);
      assert forall j :: 1 <= j < k ==> order[j] == order[1..][j - 1];
      k
  }

  /** The dispatcher returns exactly the response of the first host that
      answers, whatever its status, and fails when no host answers. */
  lemma {:induction false} DispatchAnswersFirst(order: seq<string>, verb: string, v: Verb, endpoint: string, payload: Option<Payload>, net: Network)
    requires ParseVerb(verb) == Some(v)
    ensures var k := FirstResponder(order, v, endpoint, payload, net);
      Dispatch(order, verb, endpoint, payload, net) ==
        if k == |order| then Err(NoValidHost) else Ok(net(RequestTo(v, order[k], endpoint, payload)).value)
    decreases |order|
  {
    if order != [] && net(RequestTo(v, order[0], endpoint, payload)).None? {
      DispatchAnswersFirst(order[1..], verb, v, endpoint, payload, net);
    }
  }

  /** A call succeeds exactly when the method is one of get/post/delete and
      some host in the list answers. */
  lemma {:induction false} DispatchSucceedsIff(order: seq<string>, verb: string, endpoint: string, payload: Option<Payload>, net: Network)
    ensures Dispatch(order, verb, endpoint, payload, net).Ok? <==>
      ParseVerb(verb).Some? &&
      exists j :: 0 <= j < |order| && net(RequestTo(ParseVerb(verb).value, order[j], endpoint, payload)).Some?
  {
    if ParseVerb(verb).Some? {
      var v := ParseVerb(verb).value;
      DispatchAnswersFirst(order, verb, v, endpoint, payload, net);
      var k := FirstResponder(order, v, endpoint, payload, net);
      if j :| 0 <= j < |order| && net(RequestTo(v, order[j], endpoint, payload)).Some? {
        assert k <= j;
      }
    }
  }

  /** When every host fails at transport level, the call raises "No valid
      host found". */
  lemma {:induction false} AllHostsDown(order: seq<string>, verb: string, endpoint: string, payload: Option<Payload>, net: Network)
    requires ParseVerb(verb).Some? ==>
      forall j :: 0 <= j < |order| ==> net(RequestTo(ParseVerb(verb).value, order[j], endpoint, payload)).None?
    ensures Dispatch(order, verb, endpoint, payload, net) == Err(NoValidHost)
  {
    DispatchSucceedsIff(order, verb, endpoint, payload, net);
  }

  /** Whether a call succeeds does not depend on the order the shuffle
      picked; only which response comes back does. */
  lemma {:induction false} ShuffleKeepsSuccess(a: seq<string>, b: seq<string>, verb: string, endpoint: string, payload: Option<Payload>, net: Network)
    requires multiset(a) == multiset(b)
    ensures Dispatch(a, verb, endpoint, payload, net).Ok? <==> Dispatch(b, verb, endpoint, payload, net).Ok?
  {
    DispatchSucceedsIff(a, verb, endpoint, payload, net);
    DispatchSucceedsIff(b, verb, endpoint, payload, net);
    if ParseVerb(verb).Some? {
      var v := ParseVerb(verb).value;
      if j :| 0 <= j < |a| && net(RequestTo(v, a[j], endpoint, payload)).Some? {
        assert a[j] in multiset(b);
        var i :| 0 <= i < |b| && b[i] == a[j];
      }
      if j :| 0 <= j < |b| && net(RequestTo(v, b[j], endpoint, payload)).Some? {
        assert b[j] in multiset(a);
        var i :| 0 <= i < |a| && a[i] == b[j];
      }
    }
  }

  /** The check every name-keyed resource method applies: 404 means the job
      does not exist, any other status passes the decoded body through. */
  function RequireFound(name: string, d: Result<Response, ClientError>): (r: Result<Value, ClientError>)
    ensures r.Ok? <==> d.Ok? && d.value.status != 404
    ensures r.Ok? ==> r.value == d.value.body
    ensures d.Ok? && d.value.status == 404 ==> r == Err(JobNotFound(name))
    ensures d.Err? ==> r == Err(d.error)
  {
    match d
    case Err(e) => Err(e)
    case Ok(resp) => if resp.status == 404 then Err(JobNotFound(name)) else Ok(resp.body)
  }

  /** The check `save_job` applies: only 201 Created is a success. */
  function RequireCreated(d: Result<Response, ClientError>): (r: Result<Value, ClientError>)
    ensures r.Ok? <==> d.Ok? && d.value.status == 201
    ensures r.Ok? ==> r.value == d.value.body
    ensures d.Ok? && d.value.status != 201 ==> r == Err(NotSaved(d.value.status))
    ensures d.Err? ==> r == Err(d.error)
  {
    match d
    case Err(e) => Err(e)
    case Ok(resp) => if resp.status != 201 then Err(NotSaved(resp.status)) else Ok(resp.body)
  }

  /** A name-keyed response decoded into a job's entries, as `get_job` and
      `toggle` do. */
  function FoundJob(name: string, d: Result<Response, ClientError>, client: object?): (r: Result<map<string, Value>, ClientError>)
    ensures r.Ok? <==> RequireFound(name, d).Ok? && LoadJob(d.value.body, client).Ok?
    ensures r.Ok? ==> r.value == Loaded(d.value.body.fields, client)
    ensures RequireFound(name, d).Err? ==> r == Err(RequireFound(name, d).error)
    ensures RequireFound(name, d).Ok? && LoadJob(d.value.body, client).Err? ==>
      r == Err(JobFailure(LoadJob(d.value.body, client).error))
  {
    match RequireFound(name, d)
    case Err(e) => Err(e)
    case Ok(body) =>
      match LoadJob(body, client)
      case Err(e) => Err(JobFailure(e))
      case Ok(fields) => Ok(fields)
  }

  /** `from_dict` over a list of decoded items, stopping at the first that
      cannot be turned into a job. */
  function LoadAll(items: seq<Value>, client: object?): (r: Result<seq<map<string, Value>>, JobError>)
    ensures r.Ok? <==> forall i :: 0 <= i < |items| ==> LoadJob(items[i], client).Ok?
    ensures r.Ok? ==> |r.value| == |items|
    ensures r.Ok? ==> forall i :: 0 <= i < |items| ==> r.value[i] == LoadJob(items[i], client).value
    ensures r.Err? ==> exists i :: 0 <= i < |items| && LoadJob(items[i], client) == Err(r.error) &&
                                  forall j :: 0 <= j < i ==> LoadJob(items[j], client).Ok?
    decreases |items|
  {
    if items == [] then Ok([])
    else
      match LoadJob(items[0], client)
      case Err(e) => Err(e)
      case Ok(first) =>
        match LoadAll(items[1..], client)
        case Err(e) =>
          assert forall k :: 0 <= k < |items| - 1 ==> items[1..][k] == items[k + 1];
          Err(e)
        case Ok(rest) =>
          assert forall i :: 1 <= i < |items| ==> items[i] == items[1..][i - 1];
          Ok([first] + rest)
  }

  /** What `jobs` makes of the body: a list is decoded item by item;
      iterating a dictionary or a string yields string items, which are not
      mappings, so only an empty one passes; any other value cannot be
      iterated. */
  function DecodeJobs(body: Value, client: object?): (r: Result<seq<map<string, Value>>, ClientError>)
    ensures body.Array? ==> (r.Ok? <==> LoadAll(body.elems, client).Ok?)
    ensures body.Array? && r.Ok? ==> r.value == LoadAll(body.elems, client).value
    ensures body.Array? && LoadAll(body.elems, client).Err? ==> r == Err(JobFailure(LoadAll(body.elems, client).error))
    ensures r.Ok? && !body.Array? ==> r.value == []
    ensures (body.Object? && body.fields != map[]) || (body.Str? && body.s != []) ==> r == Err(JobFailure(NotAMapping))
    ensures (body.Object? && body.fields == map[]) || (body.Str? && body.s == []) ==> r == Ok([])
    ensures body.Null? || body.Bool? || body.Number? ==> r == Err(NotIterable)
  {
    match body
    case Array(items) =>
      (match LoadAll(items, client)
       case Err(e) => Err(JobFailure(e))
       case Ok(all) => Ok(all))
    case Object(fields) => if fields == map[] then Ok([]) else Err(JobFailure(NotAMapping))
    case Str(s) => if s == [] then Ok([]) else Err(JobFailure(NotAMapping))
    case _ => Err(NotIterable)
  }

  /** The client. `hosts` is the list object the caller passed, not a copy:
      every call reorders it in place, so the caller, and any other client
      built from the same list, sees the new order. */
  class DkronClient {
    const hosts: array<string>

    /** A list argument is kept as the same object; any other argument is
        wrapped into a new one-element list. */
    constructor (arg: HostsArg)
      ensures arg.HostList? ==> hosts == arg.list
      ensures arg.SingleHost? ==> fresh(hosts) && hosts[..] == [arg.host]
    {
      match arg
      case HostList(list) => hosts := list;
      case SingleHost(host) => hosts := new string[] [host];
    }

    /** `random.shuffle(self.hosts)`: the list is rearranged in place into
        some permutation of itself. */
    method Shuffle()
      modifies hosts
      ensures multiset(hosts[..]) == old(multiset(hosts[..]))
    {
      var before := hosts[..];
      var order :| |order| == hosts.Length && multiset(order) == multiset(before);
      forall i | 0 <= i < hosts.Length {
        hosts[i] := order[i];
      }
      assert hosts[..] == order;
    }

    /** `_call`: shuffle the hosts in place, then try them in order. The
        ghost `sent` lists the requests made, in order. */
    method Call(verb: string, endpoint: string, payload: Option<Payload>, net: Network)
      returns (r: Result<Response, ClientError>, ghost sent: seq<Request>)
      modifies hosts
      ensures multiset(hosts[..]) == old(multiset(hosts[..]))
      ensures r == Dispatch(hosts[..], verb, endpoint, payload, net)
      ensures |sent| <= hosts.Length
      ensures forall j :: 0 <= j < |sent| ==>
        ParseVerb(verb) == Some(sent[j].verb) && sent[j] == RequestTo(sent[j].verb, hosts[j], endpoint, payload)
      ensures forall j :: 0 <= j < |sent| - 1 ==> net(sent[j]).None?
      ensures r.Ok? ==> sent != [] && net(sent[|sent| - 1]) == Some(r.value)
      ensures r.Err? ==> forall j :: 0 <= j < |sent| ==> net(sent[j]).None?
      ensures r.Err? && ParseVerb(verb).Some? ==> |sent| == hosts.Length
    {
      Shuffle();
      var order := hosts[..];
      var resp: Option<Response> := None;
      sent := [];
      var index := 0;
      while index < hosts.Length
        invariant hosts[..] == order
        invariant 0 <= index <= hosts.Length
        invariant resp.None?
        invariant |sent| == index
        invariant forall j :: 0 <= j < index ==>
          ParseVerb(verb) == Some(sent[j].verb) && sent[j] == RequestTo(sent[j].verb, hosts[j], endpoint, payload)
        invariant forall j :: 0 <= j < index ==> net(sent[j]).None?
        invariant Dispatch(order, verb, endpoint, payload, net) == Dispatch(order[index..], verb, endpoint, payload, net)
      {
        match ParseVerb(verb) {
          case Some(v) =>
            var request := RequestTo(v, order[index], endpoint, payload);
            sent := sent + [request];
            var answer := net(request);
            if answer.None? {
              // the request raised: try the next host
              assert order[index..][1..] == order[index + 1..];
              index := index + 1;
              continue;
            }
            resp := answer;
          case None =>
        }
        break;
      }
      if resp.None? {
        return Err(NoValidHost), sent;
      }
      return Ok(resp.value), sent;
    }

    /** `status`: GET "/". */
    method Status(net: Network) returns (r: Result<Value, ClientError>)
      modifies hosts
      ensures multiset(hosts[..]) == old(multiset(hosts[..]))
      ensures var d := Dispatch(hosts[..], GET, "/", None, net);
        r == if d.Ok? then Ok(d.value.body) else Err(d.error)
    {
      var resp, sent :- Call(GET, "/", None, net);
      return Ok(resp.body);
    }

    /** `jobs`: GET "/jobs" and build a job from every item of the body. */
    method Jobs(net: Network) returns (r: Result<seq<DkronJob>, ClientError>)
      modifies hosts
      ensures multiset(hosts[..]) == old(multiset(hosts[..]))
      ensures var d := Dispatch(hosts[..], GET, "/jobs", None, net);
        var spec := if d.Ok? then DecodeJobs(d.value.body, this) else Err(d.error);
        && (r.Ok? <==> spec.Ok?)
        && (r.Err? ==> r.error == spec.error)
        && (r.Ok? ==> |r.value| == |spec.value|)
        && (r.Ok? ==> forall i :: 0 <= i < |r.value| ==> fresh(r.value[i]) && r.value[i].entries == spec.value[i])
    {
      var resp, sent :- Call(GET, "/jobs", None, net);
      match resp.body {
        case Array(items) =>
          ghost var order := hosts[..];
          var built: seq<DkronJob> := [];
          var i := 0;
          while i < |items|
            invariant hosts[..] == order
            invariant 0 <= i <= |items| && |built| == i
            invariant forall j :: 0 <= j < i ==> LoadJob(items[j], this).Ok?
            invariant forall j :: 0 <= j < i ==> fresh(built[j]) && built[j].entries == LoadJob(items[j], this).value
          {
            var job := DkronJob.FromDict(items[i], this);
            if job.Err? {
              return Err(JobFailure(job.error));
            }
            built := built + [job.value];
            i := i + 1;
          }
          return Ok(built);
        case Object(fields) =>
          if fields != map[] {
            return Err(JobFailure(NotAMapping));
          }
          return Ok([]);
        case Str(s) =>
          if s != [] {
            return Err(JobFailure(NotAMapping));
          }
          return Ok([]);
        case _ =>
          return Err(NotIterable);
      }
    }

    /** `get_job`: GET "/jobs/<name>"; 404 is "not found", any other
        response is decoded into a job. */
    method GetJob(name: string, net: Network) returns (r: Result<DkronJob, ClientError>)
      modifies hosts
      ensures multiset(hosts[..]) == old(multiset(hosts[..]))
      ensures var spec := FoundJob(name, Dispatch(hosts[..], GET, JobPath(name), None, net), this);
        && (r.Ok? <==> spec.Ok?)
        && (r.Ok? ==> fresh(r.value) && r.value.entries == spec.value)
        && (r.Err? ==> r.error == spec.error)
    {
      var resp, sent :- Call(GET, JobPath(name), None, net);
      if resp.status == 404 {
        return Err(JobNotFound(name));
      }
      var job := DkronJob.FromDict(resp.body, this);
      if job.Err? {
        return Err(JobFailure(job.error));
      }
      return Ok(job.value);
    }

    /** `save_job`: POST the marshalled job to "/jobs"; only 201 succeeds. */
    method SaveJob(job: DkronJob, net: Network) returns (r: Result<Value, ClientError>)
      modifies hosts
      ensures multiset(hosts[..]) == old(multiset(hosts[..]))
      ensures r == RequireCreated(Dispatch(hosts[..], POST, "/jobs", Some(Public(job.entries)), net))
    {
      var payload := job.Marshal();
      var resp, sent :- Call(POST, "/jobs", Some(payload), net);
      if resp.status != 201 {
        return Err(NotSaved(resp.status));
      }
      return Ok(resp.body);
    }

    /** `run_job`: POST "/jobs/<name>" with no body. */
    method RunJob(name: string, net: Network) returns (r: Result<Value, ClientError>)
      modifies hosts
      ensures multiset(hosts[..]) == old(multiset(hosts[..]))
      ensures r == RequireFound(name, Dispatch(hosts[..], POST, JobPath(name), None, net))
    {
      var resp, sent :- Call(POST, JobPath(name), None, net);
      if resp.status == 404 {
        return Err(JobNotFound(name));
      }
      return Ok(resp.body);
    }

    /** `delete_job`: DELETE "/jobs/<name>". */
    method DeleteJob(name: string, net: Network) returns (r: Result<Value, ClientError>)
      modifies hosts
      ensures multiset(hosts[..]) == old(multiset(hosts[..]))
      ensures r == RequireFound(name, Dispatch(hosts[..], DELETE, JobPath(name), None, net))
    {
      var resp, sent :- Call(DELETE, JobPath(name), None, net);
      if resp.status == 404 {
        return Err(JobNotFound(name));
      }
      return Ok(resp.body);
    }

    /** `create_job`: build the job locally, save it, and return the local
        job rather than the server's echo. A data error raises before any
        request, so the hosts keep their order. */
    method CreateJob(data: Value, net: Network) returns (r: Result<DkronJob, ClientError>)
      modifies hosts
      ensures LoadJob(data, this).Err? ==> r == Err(JobFailure(LoadJob(data, this).error)) && unchanged(hosts)
      ensures LoadJob(data, this).Ok? ==>
        var saved := RequireCreated(Dispatch(hosts[..], POST, "/jobs", Some(Public(LoadJob(data, this).value)), net));
        && multiset(hosts[..]) == old(multiset(hosts[..]))
        && (r.Ok? <==> saved.Ok?)
        && (r.Ok? ==> fresh(r.value) && r.value.entries == LoadJob(data, this).value)
        && (r.Err? ==> r.error == saved.error)
    {
      var job := DkronJob.FromDict(data, this);
      if job.Err? {
        return Err(JobFailure(job.error));
      }
      var saved :- SaveJob(job.value, net);
      return Ok(job.value);
    }

    /** `get_executions`: GET "/jobs/<name>/executions/". */
    method GetExecutions(name: string, net: Network) returns (r: Result<Value, ClientError>)
      modifies hosts
      ensures multiset(hosts[..]) == old(multiset(hosts[..]))
      ensures r == RequireFound(name, Dispatch(hosts[..], GET, JobPath(name) + "/executions/", None, net))
    {
      var resp, sent :- Call(GET, JobPath(name) + "/executions/", None, net);
      if resp.status == 404 {
        return Err(JobNotFound(name));
      }
      return Ok(resp.body);
    }

    /** `toggle`: POST "/jobs/<name>/toggle"; the response becomes a job. */
    method Toggle(name: string, net: Network) returns (r: Result<DkronJob, ClientError>)
      modifies hosts
      ensures multiset(hosts[..]) == old(multiset(hosts[..]))
      ensures var spec := FoundJob(name, Dispatch(hosts[..], POST, JobPath(name) + "/toggle", None, net), this);
        && (r.Ok? <==> spec.Ok?)
        && (r.Ok? ==> fresh(r.value) && r.value.entries == spec.value)
        && (r.Err? ==> r.error == spec.error)
    {
      var resp, sent :- Call(POST, JobPath(name) + "/toggle", None, net);
      if resp.status == 404 {
        return Err(JobNotFound(name));
      }
      var job := DkronJob.FromDict(resp.body, this);
      if job.Err? {
        return Err(JobFailure(job.error));
      }
      return Ok(job.value);
    }
  }

  /** `self._client` of a job: the "_client" entry, read through the
      attribute hook, which must refer to a client. */
  function Owner(job: DkronJob): (r: Result<DkronClient, ClientError>)
    reads job
    ensures r.Ok? <==> ClientKey in job.entries && job.entries[ClientKey].ClientRef? &&
                       job.entries[ClientKey].client is DkronClient
    ensures r.Ok? ==> job.entries[ClientKey] == ClientRef(r.value)
    ensures ClientKey !in job.entries ==> r == Err(JobFailure(MissingField(ClientKey)))
    ensures ClientKey in job.entries && r.Err? ==> r == Err(NoClient)
  {
    match job.GetAttr(ClientKey)
    case Err(e) => Err(JobFailure(e))
    case Ok(v) => if v.ClientRef? && v.client is DkronClient then Ok(v.client as DkronClient) else Err(NoClient)
  }

  /** The objects a delegated job operation may change: its client's host list. */
  function OwnerFrame(job: DkronJob): set<object>
    reads job
  {
    if Owner(job).Ok? then {Owner(job).value.hosts} else {}
  }

  /** `self.name` of a job, as the string the URL templates need. */
  function NameOf(job: DkronJob): (r: Result<string, ClientError>)
    reads job
    ensures r.Ok? <==> "name" in job.entries && job.entries["name"].Str?
    ensures r.Ok? ==> job.entries["name"] == Str(r.value)
    ensures "name" !in job.entries ==> r == Err(JobFailure(MissingField("name")))
  {
    match job.GetAttr("name")
    case Err(e) => Err(JobFailure(e))
    case Ok(v) => if v.Str? then Ok(v.s) else Err(NameNotString)
  }

  /** `DkronJob.save`: `self._client.save_job(self)`. */
  method JobSave(job: DkronJob, net: Network) returns (r: Result<Value, ClientError>)
    modifies OwnerFrame(job)
    ensures Owner(job).Err? ==> r == Err(Owner(job).error)
    ensures Owner(job).Ok? ==>
      var client := Owner(job).value;
      && multiset(client.hosts[..]) == old(multiset(client.hosts[..]))
      && r == RequireCreated(Dispatch(client.hosts[..], POST, "/jobs", Some(Public(job.entries)), net))
  {
    var owner :- Owner(job);
    r := owner.SaveJob(job, net);
  }

  /** `DkronJob.run`: `self._client.run_job(self.name)`; the client is
      looked up before the name. */
  method JobRun(job: DkronJob, net: Network) returns (r: Result<Value, ClientError>)
    modifies OwnerFrame(job)
    ensures Owner(job).Err? ==> r == Err(Owner(job).error)
    ensures Owner(job).Ok? && NameOf(job).Err? ==> r == Err(NameOf(job).error) && unchanged(Owner(job).value.hosts)
    ensures Owner(job).Ok? && NameOf(job).Ok? ==>
      var client := Owner(job).value;
      && multiset(client.hosts[..]) == old(multiset(client.hosts[..]))
      && r == RequireFound(NameOf(job).value, Dispatch(client.hosts[..], POST, JobPath(NameOf(job).value), None, net))
  {
    var owner :- Owner(job);
    var name :- NameOf(job);
    r := owner.RunJob(name, net);
  }

  /** `DkronJob.delete`: `self._client.delete_job(self.name)`. */
  method JobDelete(job: DkronJob, net: Network) returns (r: Result<Value, ClientError>)
    modifies OwnerFrame(job)
    ensures Owner(job).Err? ==> r == Err(Owner(job).error)
    ensures Owner(job).Ok? && NameOf(job).Err? ==> r == Err(NameOf(job).error) && unchanged(Owner(job).value.hosts)
    ensures Owner(job).Ok? && NameOf(job).Ok? ==>
      var client := Owner(job).value;
      && multiset(client.hosts[..]) == old(multiset(client.hosts[..]))
      && r == RequireFound(NameOf(job).value, Dispatch(client.hosts[..], DELETE, JobPath(NameOf(job).value), None, net))
  {
    var owner :- Owner(job);
    var name :- NameOf(job);
    r := owner.DeleteJob(name, net);
  }

  /** `DkronJob.executions`: `self._client.get_executions(self.name)`. */
  method JobExecutions(job: DkronJob, net: Network) returns (r: Result<Value, ClientError>)
    modifies OwnerFrame(job)
    ensures Owner(job).Err? ==> r == Err(Owner(job).error)
    ensures Owner(job).Ok? && NameOf(job).Err? ==> r == Err(NameOf(job).error) && unchanged(Owner(job).value.hosts)
    ensures Owner(job).Ok? && NameOf(job).Ok? ==>
      var client := Owner(job).value;
      && multiset(client.hosts[..]) == old(multiset(client.hosts[..]))
      && r == RequireFound(NameOf(job).value,
                           Dispatch(client.hosts[..], GET, JobPath(NameOf(job).value) + "/executions/", None, net))
  {
    var owner :- Owner(job);
    var name :- NameOf(job);
    r := owner.GetExecutions(name, net);
  }
}
