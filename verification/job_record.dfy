/** The client-side `Job` object: a snapshot of one remote read, the
    deprecated type aliases, and the connection details projected from it. */
module JobRecord {
  import opened Wrappers
  import opened Values
  import opened Errors

  /** A job as the client holds it. Every property is read from the one
      snapshot, so replacing the snapshot (a refresh) can never leave
      fields of two different reads side by side. */
  datatype Job = Job(snapshot: map<string, Value>) {

    /** `id`, falling back to `job_uuid` only when the key `id` is absent. */
    function Id(): Value {
      if "id" in snapshot then snapshot["id"] else Get(snapshot, "job_uuid")
    }

    function Name(): Value { Get(snapshot, "name") }

    function Provider(): Value { Get(snapshot, "provider") }

    function Status(): Value { Get(snapshot, "status") }

    function Type(): Value { Get(snapshot, "type") }

    function Workers(): Value { Get(snapshot, "workers") }

    /** `bool(job)`: a job is truthy exactly when its id is. */
    predicate IsTruthy() { Truthy(Id()) }
  }

  /** `refresh()`: the new job is built from the response alone. */
  function Refresh(job: Job, response: map<string, Value>): (j: Job)
    ensures forall key :: Get(j.snapshot, key) == Get(response, key)
    ensures forall key :: key in job.snapshot && key !in response ==> Get(j.snapshot, key) == Null
    ensures && j.Name() == Get(response, "name") && j.Provider() == Get(response, "provider")
            && j.Status() == Get(response, "status") && j.Type() == Get(response, "type")
            && j.Workers() == Get(response, "workers")
    ensures "id" in response ==> j.Id() == response["id"]
    ensures "id" !in response ==> j.Id() == Get(response, "job_uuid")
  {
    Job(response)
  }

  /** The refreshed job does not depend on what the job held before. */
  lemma RefreshForgetsOldSnapshot(a: Job, b: Job, response: map<string, Value>)
    ensures Refresh(a, response) == Refresh(b, response)
  {
  }

  /** Job types that are spellings of `training` (`headless` is deprecated). */
  predicate IsTrainingType(t: Value) {
    t == Str("headless") || t == Str("training")
  }

  /** Job types that are spellings of `notebook` (`interactive` is deprecated). */
  predicate IsNotebookType(t: Value) {
    t == Str("interactive") || t == Str("notebook")
  }

  /** The deprecated aliases `create` warns about. */
  predicate IsDeprecatedType(t: Value) {
    t == Str("headless") || t == Str("interactive")
  }

  /** The de-aliased job type. */
  function CanonicalType(t: Value): Value {
    if t == Str("headless") then Str("training")
    else if t == Str("interactive") then Str("notebook")
    else t
  }

  /** The alias checks written out in the source agree with de-aliasing. */
  lemma AliasChecksMatchCanonicalType(t: Value)
    ensures IsTrainingType(t) <==> CanonicalType(t) == Str("training")
    ensures IsNotebookType(t) <==> CanonicalType(t) == Str("notebook")
    ensures IsDeprecatedType(t) <==> CanonicalType(t) != t
  {
  }

  /** What `get_connection_details` returns. */
  datatype ConnectionDetails = ConnectionDetails(cidr: Value, sshPort: Value, inputPath: Value, outputPath: Value)

  /** `get_connection_details`: `vpn` and `data` must be dicts, and a truthy
      `vpn.client` must be one too, or Python raises on `.get`. */
  function GetConnectionDetails(job: Job): (r: Result<ConnectionDetails, Error>)
    ensures r.Success? <==>
      && Get(job.snapshot, "vpn").Dict?
      && Get(job.snapshot, "data").Dict?
      && (Truthy(Get(Get(job.snapshot, "vpn").fields, "client")) ==> Get(Get(job.snapshot, "vpn").fields, "client").Dict?)
    ensures r.Failure? ==> r.error == Malformed
    ensures r.Success? ==> r.value.cidr == Get(Get(job.snapshot, "vpn").fields, "cidr")
    ensures r.Success? ==> r.value.inputPath == Null
    ensures r.Success? ==>
      var client := Get(Get(job.snapshot, "vpn").fields, "client");
      r.value.sshPort == (if Truthy(client) then Get(client.fields, "ssh_port") else Null)
    ensures r.Success? ==>
      var data := Get(job.snapshot, "data").fields;
      r.value.outputPath == (if Get(data, "output_type") == Str("local") then Get(data, "output_uri") else Null)
  {
    match Get(job.snapshot, "vpn")
    case Dict(vpn) =>
      var client := Get(vpn, "client");
      if Truthy(client) && !client.Dict? then Failure(Malformed)
      else (
        match Get(job.snapshot, "data")
        case Dict(data) =>
          Success(ConnectionDetails(
            Get(vpn, "cidr"),
            if Truthy(client) then Get(client.fields, "ssh_port") else Null,
            Null,
            if Get(data, "output_type") == Str("local") then Get(data, "output_uri") else Null))
        case _ => Failure(Malformed))
    case _ => Failure(Malformed)
  }
}
