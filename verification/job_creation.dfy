/** The decision logic of `Jobs.create` and `Job.copy`: GPU type selection,
    dataset resolution, and the filter that decides which config fields are
    sent in the single creation request. */
module JobCreation {
  import opened Wrappers
  import opened Values
  import opened Errors
  import opened DatasetSelection
  import opened JobRecord

  /** An entry of the GPU type catalog. */
  datatype GpuType = GpuType(id: string, name: string, provider: string)

  /** The arguments of `Jobs.create`; `kwargs` holds every other keyword
      argument, of which only `source_job_uuid` is read. */
  datatype CreateArgs = CreateArgs(
    name: Value,
    jobType: Value,
    gpuType: Value,
    gpuCount: Value,
    diskSize: Value,
    workerCount: Value,
    workerCommands: Value,
    environment: Value,
    data: Value,
    model: Value,
    vpn: Value,
    kwargs: map<string, Value>)
  {
    function SourceJobUuid(): Value { Get(kwargs, "source_job_uuid") }
  }

  /** `create` called with only its five required arguments: the defaults
      of the optional ones. */
  function WithDefaults(name: Value, jobType: Value, gpuType: Value, gpuCount: Value, diskSize: Value): CreateArgs {
    CreateArgs(name, jobType, gpuType, gpuCount, diskSize,
      Int(1),
      List([]),
      Dict(map["type" := Str("DEEPLEARNING_PY38")]),
      Dict(map["datasets" := List([])]),
      Dict(map[]),
      Dict(map["net_prefix_type_id" := Int(1)]),
      map[])
  }

  /** The fields of the config dict `create` builds. */
  datatype Field =
    | Name | JobType | Resources | WorkerCount | WorkerCommands
    | Environment | Data | Model | Vpn | SourceJobUuid
  {
    /** The key the field is sent under. */
    function Key(): string {
      match this
      case Name => "name"
      case JobType => "type"
      case Resources => "resources"
      case WorkerCount => "worker_count"
      case WorkerCommands => "worker_commands"
      case Environment => "environment"
      case Data => "data"
      case Model => "model"
      case Vpn => "vpn"
      case SourceJobUuid => "source_job_uuid"
    }
  }

  const AllFields: set<Field> :=
    {Name, JobType, Resources, WorkerCount, WorkerCommands, Environment, Data, Model, Vpn, SourceJobUuid}

  /** Fields sent even when empty, unless the job is a copy. */
  const SentWhenEmpty: set<Field> := {WorkerCommands, Model}

  /** The body of the creation request. */
  type Payload = map<Field, Value>

  /** The outcome of `create` up to its single POST: whether the deprecation
      warning fired, and either the request body or the error raised before
      any request was sent. */
  datatype Creation = Creation(deprecated: bool, post: Result<Payload, Error>)

  predicate GpuMatches(g: GpuType, requested: Value) {
    Str(g.name) == requested || Str(g.id) == requested
  }

  /** `i` is the position of the first GPU type matching by name or id. */
  ghost predicate IsFirstGpu(catalog: seq<GpuType>, requested: Value, i: int) {
    && 0 <= i < |catalog|
    && GpuMatches(catalog[i], requested)
    && forall j :: 0 <= j < i ==> !GpuMatches(catalog[j], requested)
  }

  /** The first catalog entry whose name or id is `requested`. */
  function SelectGpuType(catalog: seq<GpuType>, requested: Value): (r: Result<GpuType, Error>)
    ensures r.Failure? <==> forall j :: 0 <= j < |catalog| ==> !GpuMatches(catalog[j], requested)
    ensures r.Failure? ==> r.error == SpecificationError("gpu_type", GpuTypeNotFound)
    ensures r.Success? ==> exists i :: IsFirstGpu(catalog, requested, i) && catalog[i] == r.value
  {
    match FirstWhere(catalog, g => GpuMatches(g, requested))
    case None => Failure(SpecificationError("gpu_type", GpuTypeNotFound))
    case Some(i) =>
      assert IsFirstGpu(catalog, requested, i);
      Success(catalog[i])
  }

  /** A value the dataset loop iterates zero times: an empty list, string
      or dict. */
  predicate HasNoItems(v: Value) {
    v == List([]) || v == Str("") || v == Dict(map[])
  }

  /** The `data` argument after dataset resolution: a truthy `data` must be
      a dict, and its `datasets` is replaced by its resolution. Iterating an
      empty string or dict yields nothing, so it resolves to `[]`; a
      non-empty one yields strings, on which `.keys()` raises, and a value
      that cannot be iterated raises too. */
  function ResolveData(data: Value, provider: string, mine: seq<Dataset>, public: seq<Dataset>): (r: Result<Value, Error>)
    ensures !Truthy(data) ==> r == Success(data)
    ensures data.Dict? && HasNoItems(Get(data.fields, "datasets")) ==>
      r == Success(Dict(data.fields["datasets" := List([])]))
    ensures data.Dict? && Get(data.fields, "datasets") == List([]) ==> r == Success(data)
    ensures data.Dict? && Get(data.fields, "datasets").List? ==>
      var resolved := CleanDatasets(Get(data.fields, "datasets").items, provider, mine, public);
      && (resolved.Failure? ==> r == Failure(resolved.error))
      && (resolved.Success? ==> r == Success(Dict(data.fields["datasets" := List(resolved.value)])))
    ensures Truthy(data) && data.Dict? && !Get(data.fields, "datasets").List? && !HasNoItems(Get(data.fields, "datasets")) ==>
      r == Failure(Malformed)
    ensures Truthy(data) && !data.Dict? ==> r == Failure(Malformed)
    ensures r.Success? ==> (Truthy(r.value) <==> Truthy(data))
    ensures r.Failure? ==> r.error == Malformed || (r.error.SpecificationError? && r.error.field == "datasets")
  {
    if !Truthy(data) then Success(data)
    else if !data.Dict? then Failure(Malformed)
    else
      var requested := Get(data.fields, "datasets");
      if HasNoItems(requested) then
        var fields := data.fields["datasets" := List([])];
        assert "datasets" in fields;
        assert requested == List([]) ==> fields == data.fields;
        Success(Dict(fields))
      else if !requested.List? then Failure(Malformed)
      else
        var resolved :- CleanDatasets(requested.items, provider, mine, public);
        var fields := data.fields["datasets" := List(resolved)];
        assert "datasets" in fields;
        Success(Dict(fields))
  }

  /** The `resources` sub-object. */
  function ResourcesOf(gpu: GpuType, args: CreateArgs): Value {
    Dict(map["gpu_type_id" := Str(gpu.id), "gpu_count" := args.gpuCount, "disk_size" := args.diskSize])
  }

  /** The argument a config field is taken from, for the fields copied
      from the arguments as they are. */
  function Argument(args: CreateArgs, f: Field): Value
    requires f != Resources && f != Data
  {
    match f
    case Name => args.name
    case JobType => args.jobType
    case WorkerCount => args.workerCount
    case WorkerCommands => args.workerCommands
    case Environment => args.environment
    case Model => args.model
    case Vpn => args.vpn
    case SourceJobUuid => args.SourceJobUuid()
  }

  /** The config dict `create` assembles. */
  function ConfigValue(args: CreateArgs, gpu: GpuType, data: Value, f: Field): Value {
    if f == Resources then ResourcesOf(gpu, args)
    else if f == Data then data
    else Argument(args, f)
  }

  /** The payload filter: truthy values, plus the always-sent fields when
      the job is not a copy. */
  predicate Keep(f: Field, v: Value, sourceJobUuid: Value) {
    Truthy(v) || (f in SentWhenEmpty && !Truthy(sourceJobUuid))
  }

  /** Field `f`, taken from the argument `arg`, is sent exactly when the
      filter keeps it, and then unaltered. */
  ghost predicate SentAsGiven(p: Payload, f: Field, arg: Value, sourceJobUuid: Value) {
    && (f in p <==> Truthy(arg) || (f in SentWhenEmpty && !Truthy(sourceJobUuid)))
    && (f in p ==> p[f] == arg)
  }

  function BuildPayload(args: CreateArgs, gpu: GpuType, data: Value): (p: Payload)
    ensures Resources in p && p[Resources] == ResourcesOf(gpu, args)
    ensures Data in p <==> Truthy(data)
    ensures Data in p ==> p[Data] == data
    ensures forall f :: f in AllFields && f != Resources && f != Data ==>
      SentAsGiven(p, f, Argument(args, f), args.SourceJobUuid())
  {
    assert Truthy(ResourcesOf(gpu, args)) by {
      assert "gpu_type_id" in ResourcesOf(gpu, args).fields;
    }
    map f | f in AllFields && Keep(f, ConfigValue(args, gpu, data, f), args.SourceJobUuid()) :: ConfigValue(args, gpu, data, f)
  }

  /** `Jobs.create` up to its POST. Every error is raised before the request
      is built, so a failing `create` sends nothing. */
  function Create(args: CreateArgs, gpuTypes: seq<GpuType>, mine: seq<Dataset>, public: seq<Dataset>): (c: Creation)
    ensures c.deprecated <==> IsDeprecatedType(args.jobType)
    ensures (forall j :: 0 <= j < |gpuTypes| ==> !GpuMatches(gpuTypes[j], args.gpuType)) ==>
      c.post == Failure(SpecificationError("gpu_type", GpuTypeNotFound))
    ensures c.post.Failure? ==>
      || c.post.error == SpecificationError("gpu_type", GpuTypeNotFound)
      || c.post.error == Malformed
      || (c.post.error.SpecificationError? && c.post.error.field == "datasets")
    ensures c.post.Success? ==> exists i :: (IsFirstGpu(gpuTypes, args.gpuType, i)
      && Resources in c.post.value && c.post.value[Resources] == ResourcesOf(gpuTypes[i], args))
    ensures c.post.Success? ==> forall f :: f in AllFields && f != Resources && f != Data ==>
      SentAsGiven(c.post.value, f, Argument(args, f), args.SourceJobUuid())
    ensures c.post.Success? ==> (Data in c.post.value <==> Truthy(args.data))
    ensures c.post.Success? && !Truthy(args.data) ==> Data !in c.post.value
  {
    var deprecated := IsDeprecatedType(args.jobType);
    match SelectGpuType(gpuTypes, args.gpuType)
    case Failure(e) => Creation(deprecated, Failure(e))
    case Success(gpu) =>
      match ResolveData(args.data, gpu.provider, mine, public)
      case Failure(e) => Creation(deprecated, Failure(e))
      case Success(data) =>
        Creation(deprecated, Success(BuildPayload(args, gpu, data)))
  }

  /** Once the GPU type and the data resolve, the request is the assembled
      config. */
  lemma CreateBuildsPayload(args: CreateArgs, gpuTypes: seq<GpuType>, mine: seq<Dataset>, public: seq<Dataset>,
                            gpu: GpuType, data: Value)
    requires SelectGpuType(gpuTypes, args.gpuType) == Success(gpu)
    requires ResolveData(args.data, gpu.provider, mine, public) == Success(data)
    ensures Create(args, gpuTypes, mine, public).post == Success(BuildPayload(args, gpu, data))
  {
  }

  /** Two first matches are the same match. */
  lemma FirstGpuIsUnique(catalog: seq<GpuType>, requested: Value, i: int, k: int)
    requires IsFirstGpu(catalog, requested, i) && IsFirstGpu(catalog, requested, k)
    ensures i == k
  {
  }

  /** The first matching GPU type is the one selected. */
  lemma SelectsFirstGpu(catalog: seq<GpuType>, requested: Value, i: int)
    requires IsFirstGpu(catalog, requested, i)
    ensures SelectGpuType(catalog, requested) == Success(catalog[i])
  {
    var r := SelectGpuType(catalog, requested);
    assert r.Success?;
    var k :| IsFirstGpu(catalog, requested, k) && catalog[k] == r.value;
    FirstGpuIsUnique(catalog, requested, i, k);
  }

  /** With a GPU type found and a `datasets` list given, the request carries
      the datasets resolved against that GPU type's provider, and a dataset
      that does not resolve stops `create` with its error. */
  lemma CreateSendsResolvedDatasets(args: CreateArgs, gpuTypes: seq<GpuType>, mine: seq<Dataset>, public: seq<Dataset>, i: int)
    requires IsFirstGpu(gpuTypes, args.gpuType, i)
    requires args.data.Dict? && Get(args.data.fields, "datasets").List?
    ensures
      var resolved := CleanDatasets(Get(args.data.fields, "datasets").items, gpuTypes[i].provider, mine, public);
      var c := Create(args, gpuTypes, mine, public);
      && (resolved.Failure? ==> c.post == Failure(resolved.error))
      && (resolved.Success? ==>
            c.post.Success? && Data in c.post.value
            && c.post.value[Data] == Dict(args.data.fields["datasets" := List(resolved.value)]))
  {
    SelectsFirstGpu(gpuTypes, args.gpuType, i);
    var resolved := CleanDatasets(Get(args.data.fields, "datasets").items, gpuTypes[i].provider, mine, public);
    if resolved.Success? {
      var data := Dict(args.data.fields["datasets" := List(resolved.value)]);
      CreateBuildsPayload(args, gpuTypes, mine, public, gpuTypes[i], data);
      assert "datasets" in data.fields;
    }
  }

  /** A fresh job created with only the required arguments: the empty
      `worker_commands` and `model` defaults are still sent, the empty
      dataset list is resolved to itself, and no `source_job_uuid` is sent. */
  lemma DefaultsOfFreshCreate(name: Value, jobType: Value, gpuType: Value, gpuCount: Value, diskSize: Value,
                              gpuTypes: seq<GpuType>, mine: seq<Dataset>, public: seq<Dataset>)
    requires exists j :: 0 <= j < |gpuTypes| && GpuMatches(gpuTypes[j], gpuType)
    ensures
      var c := Create(WithDefaults(name, jobType, gpuType, gpuCount, diskSize), gpuTypes, mine, public);
      && c.post.Success?
      && WorkerCommands in c.post.value && c.post.value[WorkerCommands] == List([])
      && Model in c.post.value && c.post.value[Model] == Dict(map[])
      && WorkerCount in c.post.value && c.post.value[WorkerCount] == Int(1)
      && Data in c.post.value && c.post.value[Data] == Dict(map["datasets" := List([])])
      && SourceJobUuid !in c.post.value
  {
    var args := WithDefaults(name, jobType, gpuType, gpuCount, diskSize);
    var gpu := DefaultsResolve(args, gpuTypes, mine, public);
    DefaultPayload(args, gpu);
  }

  /** The defaults pass GPU selection (given a matching type) and dataset
      resolution unchanged. */
  lemma DefaultsResolve(args: CreateArgs, gpuTypes: seq<GpuType>, mine: seq<Dataset>, public: seq<Dataset>)
    returns (gpu: GpuType)
    requires args == WithDefaults(args.name, args.jobType, args.gpuType, args.gpuCount, args.diskSize)
    requires exists j :: 0 <= j < |gpuTypes| && GpuMatches(gpuTypes[j], args.gpuType)
    ensures Create(args, gpuTypes, mine, public).post == Success(BuildPayload(args, gpu, args.data))
  {
    var r := SelectGpuType(gpuTypes, args.gpuType);
    assert r.Success?;
    gpu := r.value;
    assert ResolveData(args.data, gpu.provider, mine, public) == Success(args.data);
    CreateBuildsPayload(args, gpuTypes, mine, public, gpu, args.data);
  }

  /** The payload assembled from the defaults. */
  lemma DefaultPayload(args: CreateArgs, gpu: GpuType)
    requires args == WithDefaults(args.name, args.jobType, args.gpuType, args.gpuCount, args.diskSize)
    ensures
      var p := BuildPayload(args, gpu, args.data);
      && WorkerCommands in p && p[WorkerCommands] == List([])
      && Model in p && p[Model] == Dict(map[])
      && WorkerCount in p && p[WorkerCount] == Int(1)
      && Data in p && p[Data] == Dict(map["datasets" := List([])])
      && SourceJobUuid !in p
  {
    var p := BuildPayload(args, gpu, args.data);
    assert SentAsGiven(p, Model, Argument(args, Model), Null);
    assert SentAsGiven(p, WorkerCommands, Argument(args, WorkerCommands), Null);
    assert SentAsGiven(p, WorkerCount, Argument(args, WorkerCount), Null);
    assert SentAsGiven(p, SourceJobUuid, Argument(args, SourceJobUuid), Null);
  }

  /** A value copied from the source job's `resources`, or None when the
      job has no `resources` dict. */
  function SourceResource(job: Job, key: string): Value {
    match Get(job.snapshot, "resources")
    case Dict(resources) => Get(resources, key)
    case _ => Null
  }

  /** `override or self._job.get("resources").get(key)`: the second operand
      is evaluated, and raises on a missing `resources`, only when the
      override is falsy. */
  function Inherit(job: Job, overrides: map<string, Value>, key: string, resourceKey: string): (r: Result<Value, Error>)
    ensures r.Success? <==> Truthy(Get(overrides, key)) || Get(job.snapshot, "resources").Dict?
    ensures r.Failure? ==> r.error == Malformed
    ensures r.Success? ==> r.value == (if Truthy(Get(overrides, key)) then Get(overrides, key) else SourceResource(job, resourceKey))
  {
    if Truthy(Get(overrides, key)) then Success(Get(overrides, key))
    else
      match Get(job.snapshot, "resources")
      case Dict(resources) => Success(Get(resources, resourceKey))
      case _ => Failure(Malformed)
  }

  /** The arguments `copy` passes to `create`. Only notebook jobs (including
      the `interactive` alias) can be copied; `model` is not passed, so it
      takes its default. */
  function CopyArgs(job: Job, name: Value, overrides: map<string, Value>): (r: Result<CreateArgs, Error>)
    ensures !IsNotebookType(job.Type()) ==> r == Failure(SpecificationError("job", NotCopyable))
    ensures IsNotebookType(job.Type()) && Get(job.snapshot, "resources").Dict? ==> r.Success?
    ensures r.Failure? ==> r.error == SpecificationError("job", NotCopyable) || r.error == Malformed
    ensures r.Success? ==> r.value.name == name && r.value.SourceJobUuid() == job.Id()
    ensures r.Success? ==>
      r.value.jobType == (if Truthy(Get(overrides, "type")) then Get(overrides, "type") else job.Type())
    ensures r.Success? ==>
      && r.value.gpuType == (if Truthy(Get(overrides, "gpu_type")) then Get(overrides, "gpu_type") else SourceResource(job, "gpu_type_id"))
      && r.value.gpuCount == (if Truthy(Get(overrides, "gpu_count")) then Get(overrides, "gpu_count") else SourceResource(job, "gpu_count"))
      && r.value.diskSize == (if Truthy(Get(overrides, "disk_size")) then Get(overrides, "disk_size") else SourceResource(job, "disk_size"))
    ensures r.Success? ==>
      && r.value.workerCount == Get(overrides, "worker_count")
      && r.value.workerCommands == Get(overrides, "worker_commands")
      && r.value.environment == Get(overrides, "environment")
      && r.value.data == Get(overrides, "data")
      && r.value.vpn == Get(overrides, "vpn")
      && r.value.model == Dict(map[])
  {
    if !IsNotebookType(job.Type()) then Failure(SpecificationError("job", NotCopyable))
    else
      var gpuType :- Inherit(job, overrides, "gpu_type", "gpu_type_id");
      var gpuCount :- Inherit(job, overrides, "gpu_count", "gpu_count");
      var diskSize :- Inherit(job, overrides, "disk_size", "disk_size");
      Success(CreateArgs(
        name,
        Or(Get(overrides, "type"), job.Type()),
        gpuType,
        gpuCount,
        diskSize,
        Get(overrides, "worker_count"),
        Get(overrides, "worker_commands"),
        Get(overrides, "environment"),
        Get(overrides, "data"),
        Dict(map[]),
        Get(overrides, "vpn"),
        map["source_job_uuid" := job.Id()]))
  }

  /** `Job.copy`: a rejected copy never reaches `create`; otherwise the
      copy's request is what `create` makes of the inherited arguments. */
  function Copy(job: Job, name: Value, overrides: map<string, Value>,
                gpuTypes: seq<GpuType>, mine: seq<Dataset>, public: seq<Dataset>): (r: Result<Creation, Error>)
    ensures !IsNotebookType(job.Type()) ==> r == Failure(SpecificationError("job", NotCopyable))
    ensures IsNotebookType(job.Type()) && Get(job.snapshot, "resources").Dict? ==> r.Success?
    ensures r.Failure? ==> r.error == SpecificationError("job", NotCopyable) || r.error == Malformed
  {
    var args :- CopyArgs(job, name, overrides);
    Success(Create(args, gpuTypes, mine, public))
  }

  /** The copy of a job with a truthy id sends no `model`, sends
      `worker_commands` and `worker_count` only when they were given, and
      names its source: the remote side inherits the rest from the source. */
  lemma CopySendsOnlyGivenFields(job: Job, name: Value, overrides: map<string, Value>,
                                 gpuTypes: seq<GpuType>, mine: seq<Dataset>, public: seq<Dataset>, p: Payload)
    requires job.IsTruthy()
    requires var r := Copy(job, name, overrides, gpuTypes, mine, public); r.Success? && r.value.post == Success(p)
    ensures Model !in p
    ensures WorkerCommands in p <==> Truthy(Get(overrides, "worker_commands"))
    ensures WorkerCount in p <==> Truthy(Get(overrides, "worker_count"))
    ensures SourceJobUuid in p && p[SourceJobUuid] == job.Id()
  {
    CopyIsCreate(job, name, overrides, gpuTypes, mine, public);
    SentFieldsOfCopy(job, name, overrides, CopyArgs(job, name, overrides).value, p);
  }

  /** A copy whose arguments are accepted is a `create` of them. */
  lemma CopyIsCreate(job: Job, name: Value, overrides: map<string, Value>,
                     gpuTypes: seq<GpuType>, mine: seq<Dataset>, public: seq<Dataset>)
    requires Copy(job, name, overrides, gpuTypes, mine, public).Success?
    ensures CopyArgs(job, name, overrides).Success?
    ensures Copy(job, name, overrides, gpuTypes, mine, public).value
      == Create(CopyArgs(job, name, overrides).value, gpuTypes, mine, public)
  {
  }

  /** The always-sent fields of a copy's request: with `source_job_uuid`
      truthy, only the given fields are sent. */
  lemma SentFieldsOfCopy(job: Job, name: Value, overrides: map<string, Value>, args: CreateArgs, p: Payload)
    requires job.IsTruthy()
    requires CopyArgs(job, name, overrides) == Success(args)
    requires forall f :: f in AllFields && f != Resources && f != Data ==>
      SentAsGiven(p, f, Argument(args, f), args.SourceJobUuid())
    ensures Model !in p
    ensures WorkerCommands in p <==> Truthy(Get(overrides, "worker_commands"))
    ensures WorkerCount in p <==> Truthy(Get(overrides, "worker_count"))
    ensures SourceJobUuid in p && p[SourceJobUuid] == job.Id()
  {
    var src := args.SourceJobUuid();
    assert !Truthy(args.model);
    assert SentAsGiven(p, Model, Argument(args, Model), src);
    assert SentAsGiven(p, WorkerCommands, Argument(args, WorkerCommands), src);
    assert SentAsGiven(p, WorkerCount, Argument(args, WorkerCount), src);
    assert SentAsGiven(p, SourceJobUuid, Argument(args, SourceJobUuid), src);
  }
}
