/** The job record of the Dkron client (pydkron/job.py): a string-keyed map
    whose attribute-style reads and writes are checked against a closed list
    of field names and a read-only subset of it. Construction stores every
    key it is given without any check. */
module Job {
  import opened Results

  /** A decoded JSON value, plus the back-reference to the owning client that
      the constructor stores under the key "_client". */
  datatype Value =
    | Null
    | Bool(b: bool)
    | Number(n: int)
    | Str(s: string)
    | Array(elems: seq<Value>)
    | Object(fields: map<string, Value>)
    | ClientRef(client: object)

  /** The exceptions the record raises. */
  datatype JobError =
    | NotAValidField(name: string)  // KeyError "<name> not a valid job field"
    | ReadOnlyField(name: string)   // KeyError "<name> is a read only field"
    | MissingField(name: string)    // KeyError raised by the dictionary lookup itself
    | NotAMapping                   // TypeError: the keyword arguments are not a mapping
    | DuplicateArgument             // TypeError: a data key names a parameter ("self" or "client")

  /** The whitelist of job fields. */
  const ValidFields: seq<string> := [
    "name", "schedule", "shell", "command", "owner", "owner_email",
    "success_count", "error_count", "last_success", "last_error",
    "disabled", "tags", "retries", "dependent_jobs", "parent_job",
    "processors", "concurrency"
  ]

  /** The fields the server computes; a client may read but not write them. */
  const ReadOnlyFields: seq<string> := [
    "success_count", "error_count", "last_success", "last_error", "dependent_jobs"
  ]

  /** The key under which the constructor stores the client back-reference. */
  const ClientKey: string := "_client"

  /** The names of the constructor's positional parameters, `self` and
      `client`; a keyword argument with either name binds it a second time. */
  const SelfParameter: string := "self"
  const ClientParameter: string := "client"

  /** Keyword arguments that Python can pass next to the two positional
      parameters of the constructor. */
  predicate Bindable(kwargs: map<string, Value>) {
    SelfParameter !in kwargs && ClientParameter !in kwargs
  }

  /** `name.startswith("_")` */
  predicate IsPrivate(name: string) {
    |name| > 0 && name[0] == '_'
  }

  /** A name the attribute hooks let through. */
  predicate Recognised(name: string) {
    name in ValidFields || IsPrivate(name)
  }

  /** A name an attribute write may change: a whitelisted field outside the
      read-only subset, or any underscore-prefixed name. */
  predicate Writable(name: string) {
    (name in ValidFields && name !in ReadOnlyFields) || IsPrivate(name)
  }

  /** The schema invariant that the record keeps for writes: every public key
      is a whitelisted field. */
  ghost predicate WithinSchema(fields: map<string, Value>) {
    forall k :: k in fields && !IsPrivate(k) ==> k in ValidFields
  }

  /** How a client argument is stored: Python's None becomes Null. */
  function ClientValue(client: object?): Value {
    if client == null then Null else ClientRef(client)
  }

  /** The entries of a freshly constructed job: the keyword arguments as given,
      then "_client" written through the attribute hook. */
  function Loaded(kwargs: map<string, Value>, client: object?): (r: map<string, Value>)
    ensures r.Keys == kwargs.Keys + {ClientKey}
    ensures r[ClientKey] == ClientValue(client)
    ensures forall k :: k in kwargs && k != ClientKey ==> r[k] == kwargs[k]
  {
    kwargs[ClientKey := ClientValue(client)]
  }

  /** The entries `from_dict` gives a job built from decoded data, or the
      TypeError that unpacking the data as keyword arguments raises. */
  function LoadJob(data: Value, client: object?): (r: Result<map<string, Value>, JobError>)
    ensures r.Ok? <==> data.Object? && SelfParameter !in data.fields && ClientParameter !in data.fields
    ensures r.Ok? ==> r.value == Loaded(data.fields, client)
    ensures !data.Object? ==> r == Err(NotAMapping)
    ensures data.Object? && (SelfParameter in data.fields || ClientParameter in data.fields) ==> r == Err(DuplicateArgument)
  {
    match data
    case Object(kwargs) =>
      if Bindable(kwargs) then Ok(Loaded(kwargs, client)) else Err(DuplicateArgument)
    case _ => Err(NotAMapping)
  }

  /** Reference definition of an attribute write: a writable name gets the
      value, any other name is refused with the error that says why. */
  function Assign(fields: map<string, Value>, name: string, value: Value): (r: Result<map<string, Value>, JobError>)
    ensures r.Ok? <==> Writable(name)
    ensures r.Ok? ==> r.value.Keys == fields.Keys + {name} && r.value[name] == value
    ensures r.Ok? ==> forall k :: k in fields && k != name ==> r.value[k] == fields[k]
    ensures r.Err? ==> r.error == if Recognised(name) then ReadOnlyField(name) else NotAValidField(name)
  {
    if Writable(name) then Ok(fields[name := value])
    else if Recognised(name) then Err(ReadOnlyField(name))
    else Err(NotAValidField(name))
  }

  /** The entries `marshal` sends to the server: every entry whose key does
      not start with an underscore. */
  function Public(fields: map<string, Value>): (r: map<string, Value>)
    ensures ClientKey !in r
    ensures r.Keys <= fields.Keys
  {
    map k | k in fields && !IsPrivate(k) :: fields[k]
  }

  /** No read-only field starts with an underscore, so every one of them is
      recognised by the hooks and yet refused on write. */
  lemma ReadOnlyFieldsAreGuarded()
    ensures forall f :: f in ReadOnlyFields ==> f in ValidFields && Recognised(f) && !Writable(f)
    ensures forall f :: f in ReadOnlyFields ==> Assign(map[], f, Null) == Err(ReadOnlyField(f))
  {
  }

  /** A write never changes, adds or removes a read-only entry. */
  lemma AssignKeepsReadOnlyEntries(fields: map<string, Value>, name: string, value: Value)
    requires Assign(fields, name, value).Ok?
    ensures var after := Assign(fields, name, value).value;
      forall f :: f in ReadOnlyFields ==> (f in after <==> f in fields) && (f in fields ==> after[f] == fields[f])
  {
  }

  /** A write keeps the schema invariant. */
  lemma AssignKeepsSchema(fields: map<string, Value>, name: string, value: Value)
    requires WithinSchema(fields)
    requires Assign(fields, name, value).Ok?
    ensures WithinSchema(Assign(fields, name, value).value)
  {
  }

  /** Construction does not keep the schema invariant: data decoded from the
      server may carry a public key outside the whitelist (such as
      "metadata"); the job stores it although no write would accept it. */
  lemma ConstructionBypassesSchema(kwargs: map<string, Value>, key: string, value: Value, client: object?)
    requires key in kwargs && !IsPrivate(key) && key !in ValidFields
    ensures key in Loaded(kwargs, client) && !WithinSchema(Loaded(kwargs, client))
    ensures Assign(kwargs, key, value) == Err(NotAValidField(key))
  {
  }

  /** What a write does to the marshalled form: a public name appears with
      its new value, an underscore-prefixed name leaves it unchanged. */
  lemma AssignThenPublic(fields: map<string, Value>, name: string, value: Value)
    requires Assign(fields, name, value).Ok?
    ensures Public(Assign(fields, name, value).value) ==
      if IsPrivate(name) then Public(fields) else Public(fields)[name := value]
  {
  }

  /** Round trip: marshalling the job built from data with no
      underscore-prefixed keys gives the data back exactly. */
  lemma MarshalRoundTrip(kwargs: map<string, Value>, client: object?)
    requires forall k :: k in kwargs ==> !IsPrivate(k)
    ensures Public(Loaded(kwargs, client)) == kwargs
  {
  }

  /** The same round trip through `from_dict`. */
  lemma FromDictRoundTrip(data: Value, client: object?)
    requires data.Object? && Bindable(data.fields)
    requires forall k :: k in data.fields ==> !IsPrivate(k)
    ensures LoadJob(data, client).Ok? && Public(LoadJob(data, client).value) == data.fields
  {
  }

  /** A job: a dictionary whose attribute hooks guard the field names. */
  class DkronJob {
    var entries: map<string, Value>

    /** `DkronJob(client, **kwargs)`: stores every keyword argument unchecked,
        then writes "_client" through the attribute hook. Python binds `self`
        and `client` positionally, so no keyword argument can name either. */
    constructor (client: object?, kwargs: map<string, Value>)
      requires Bindable(kwargs)
      ensures entries == Loaded(kwargs, client)
    {
      entries := kwargs;
      new;
      var stored := SetAttr(ClientKey, ClientValue(client));
    }

    /** `DkronJob.from_dict(data, client)`. */
    static method FromDict(data: Value, client: object?) returns (r: Result<DkronJob, JobError>)
      ensures r.Ok? <==> LoadJob(data, client).Ok?
      ensures r.Ok? ==> fresh(r.value) && r.value.entries == LoadJob(data, client).value
      ensures r.Err? ==> r.error == LoadJob(data, client).error
    {
      if !data.Object? {
        return Err(NotAMapping);
      }
      if SelfParameter in data.fields || ClientParameter in data.fields {
        return Err(DuplicateArgument);
      }
      var job := new DkronJob(client, data.fields);
      return Ok(job);
    }

    /** `__getattr__`: a recognised name reads its entry, which must exist;
        any other name is refused even when an entry for it is stored. */
    function GetAttr(name: string): (r: Result<Value, JobError>)
      reads this
      ensures r.Ok? <==> Recognised(name) && name in entries
      ensures r.Ok? ==> r.value == entries[name]
      ensures !Recognised(name) ==> r == Err(NotAValidField(name))
      ensures Recognised(name) && name !in entries ==> r == Err(MissingField(name))
    {
      if name in ValidFields || IsPrivate(name) then
        if name in entries then Ok(entries[name]) else Err(MissingField(name))
      else
        Err(NotAValidField(name))
    }

    /** `__setattr__`: checked against the whitelist, then the read-only
        subset; on success exactly one entry changes. */
    method SetAttr(name: string, value: Value) returns (r: Result<(), JobError>)
      modifies this
      ensures r.Ok? <==> Assign(old(entries), name, value).Ok?
      ensures r.Ok? ==> entries == Assign(old(entries), name, value).value && GetAttr(name) == Ok(value)
      ensures r.Err? ==> r.error == Assign(old(entries), name, value).error && entries == old(entries)
    {
      if name in ValidFields || IsPrivate(name) {
        if name in ReadOnlyFields {
          return Err(ReadOnlyField(name));
        }
        entries := entries[name := value];
        return Ok(());
      }
      return Err(NotAValidField(name));
    }

    /** `marshal`: copies every entry whose key does not start with an
        underscore into a fresh map, so "_client" is never sent. */
    method Marshal() returns (data: map<string, Value>)
      ensures data == Public(entries)
    {
      data := map[];
      var pending := entries.Keys;
      while pending != {}
        invariant pending <= entries.Keys
        invariant forall k :: k in data <==> k in entries && k !in pending && !IsPrivate(k)
        invariant forall k :: k in data ==> data[k] == entries[k]
        decreases pending
      {
        var key :| key in pending;
        pending := pending - {key};
        if IsPrivate(key) {
          continue;
        }
        data := data[key := entries[key]];
      }
    }
  }
}
