/** `_clean_datasets_selection`: turning the caller's loosely shaped dataset
    specifications into canonical `{dataset_uuid, type}` entries. */
module DatasetSelection {
  import opened Wrappers
  import opened Values
  import opened Errors

  /** A catalog entry: one of the caller's datasets or a public one. */
  datatype Dataset = Dataset(id: string, name: string, provider: string)

  predicate Matches(d: Dataset, name: Value, provider: string) {
    Str(d.name) == name && d.provider == provider
  }

  /** `i` is the position of the first entry named `name` on `provider`. */
  ghost predicate IsFirstMatch(catalog: seq<Dataset>, name: Value, provider: string, i: int) {
    && 0 <= i < |catalog|
    && Matches(catalog[i], name, provider)
    && forall j :: 0 <= j < i ==> !Matches(catalog[j], name, provider)
  }

  /** The first entry of `catalog` named `name` on `provider`; duplicates
      are not rejected, the earliest one wins. */
  function Lookup(catalog: seq<Dataset>, name: Value, provider: string): (r: Option<Dataset>)
    ensures r.None? <==> forall j :: 0 <= j < |catalog| ==> !Matches(catalog[j], name, provider)
    ensures r.Some? ==> exists i :: IsFirstMatch(catalog, name, provider, i) && catalog[i] == r.value
  {
    match FirstWhere(catalog, d => Matches(d, name, provider))
    case None => None
    case Some(i) =>
      assert IsFirstMatch(catalog, name, provider, i);
      Some(catalog[i])
  }

  /** The canonical entry for a dataset found in a catalog. */
  function Canonical(uuid: Value, kind: Value): Value {
    Dict(map["dataset_uuid" := uuid, "type" := kind])
  }

  /** A `{name, ...}` specification: neither `id` nor `dataset_uuid` given. */
  ghost predicate ByName(entry: Value) {
    entry.Dict? && "id" !in entry.fields && "dataset_uuid" !in entry.fields && "name" in entry.fields
  }

  /** What resolving a `{name, ...}` entry against `catalog` must produce:
      the first entry with that name on that provider, or DatasetNotFound. */
  ghost predicate ResolvedByName(r: Result<Value, Error>, entry: Value, catalog: seq<Dataset>, provider: string)
    requires ByName(entry)
  {
    var name := entry.fields["name"];
    && (r.Failure? <==> forall j :: 0 <= j < |catalog| ==> !Matches(catalog[j], name, provider))
    && (r.Failure? ==> r.error == SpecificationError("datasets", DatasetNotFound))
    && (r.Success? ==> exists i :: IsFirstMatch(catalog, name, provider, i)
                                && r.value == Canonical(Str(catalog[i].id), Get(entry.fields, "type")))
  }

  /** One iteration of the loop: resolve a single requested entry. */
  function ResolveEntry(entry: Value, provider: string, mine: seq<Dataset>, public: seq<Dataset>): (r: Result<Value, Error>)
    ensures entry.Dict? && "id" in entry.fields ==>
      r == Success(Canonical(entry.fields["id"], Get(entry.fields, "type")))
    ensures entry.Dict? && "id" !in entry.fields && "dataset_uuid" in entry.fields ==>
      r == Success(entry)
    ensures ByName(entry) && Get(entry.fields, "type") == Str("existing") ==>
      ResolvedByName(r, entry, mine, provider)
    ensures ByName(entry) && Get(entry.fields, "type") == Str("public") ==>
      ResolvedByName(r, entry, public, provider)
    ensures ByName(entry) && Get(entry.fields, "type") != Str("existing") && Get(entry.fields, "type") != Str("public") ==>
      r == Failure(SpecificationError("datasets", InvalidDatasetType))
    ensures entry.Dict? && "id" !in entry.fields && "dataset_uuid" !in entry.fields && "name" !in entry.fields ==>
      r == Failure(SpecificationError("datasets", MissingDatasetKey))
    ensures !entry.Dict? ==> r == Failure(Malformed)
    ensures r.Failure? ==> r.error == Malformed || (r.error.SpecificationError? && r.error.field == "datasets")
  {
    match entry
    case Dict(spec) =>
      if "id" in spec then
        Success(Canonical(spec["id"], Get(spec, "type")))
      else if "dataset_uuid" in spec then
        Success(entry)
      else if "name" in spec then
        var kind := Get(spec, "type");
        if kind == Str("existing") || kind == Str("public") then
          var catalog := if kind == Str("existing") then mine else public;
          match Lookup(catalog, spec["name"], provider)
          case None => Failure(SpecificationError("datasets", DatasetNotFound))
          case Some(d) => Success(Canonical(Str(d.id), kind))
        else
          Failure(SpecificationError("datasets", InvalidDatasetType))
      else
        Failure(SpecificationError("datasets", MissingDatasetKey))
    case _ => Failure(Malformed)
  }

  /** `k` is the first requested entry that fails to resolve. */
  ghost predicate IsFirstFailure(requested: seq<Value>, provider: string, mine: seq<Dataset>, public: seq<Dataset>, k: int) {
    && 0 <= k < |requested|
    && ResolveEntry(requested[k], provider, mine, public).Failure?
    && forall i :: 0 <= i < k ==> ResolveEntry(requested[i], provider, mine, public).Success?
  }

  /** `k` is the first failing entry, and it fails with `e`. */
  ghost predicate FailsFirstAt(requested: seq<Value>, provider: string, mine: seq<Dataset>, public: seq<Dataset>, k: int, e: Error) {
    IsFirstFailure(requested, provider, mine, public, k) && ResolveEntry(requested[k], provider, mine, public) == Failure(e)
  }

  /** A first failure in the tail is the first failure of the whole list
      when the head resolves. */
  lemma FirstFailureOfTail(requested: seq<Value>, provider: string, mine: seq<Dataset>, public: seq<Dataset>, e: Error)
    requires |requested| > 0 && ResolveEntry(requested[0], provider, mine, public).Success?
    requires exists k :: FailsFirstAt(requested[1..], provider, mine, public, k, e)
    ensures exists k :: FailsFirstAt(requested, provider, mine, public, k, e)
  {
    var k :| FailsFirstAt(requested[1..], provider, mine, public, k, e);
    assert FailsFirstAt(requested, provider, mine, public, k + 1, e);
  }

  /** `_clean_datasets_selection`: entries are resolved in order; the result
      has one canonical entry per requested one, or the first error raised. */
  function CleanDatasets(requested: seq<Value>, provider: string, mine: seq<Dataset>, public: seq<Dataset>): (r: Result<seq<Value>, Error>)
    ensures r.Success? ==> |r.value| == |requested|
    ensures r.Success? ==> forall i :: 0 <= i < |requested| ==>
      ResolveEntry(requested[i], provider, mine, public) == Success(r.value[i])
    ensures r.Failure? ==> exists k :: FailsFirstAt(requested, provider, mine, public, k, r.error)
    ensures r.Failure? ==> r.error == Malformed || (r.error.SpecificationError? && r.error.field == "datasets")
  {
    if |requested| == 0 then Success([])
    else
      var head := ResolveEntry(requested[0], provider, mine, public);
      if head.Failure? then
        assert FailsFirstAt(requested, provider, mine, public, 0, head.error);
        Failure(head.error)
      else
        var tail := CleanDatasets(requested[1..], provider, mine, public);
        if tail.Failure? then
          FirstFailureOfTail(requested, provider, mine, public, tail.error);
          Failure(tail.error)
        else
          Success([head.value] + tail.value)
  }

  /** Resolution succeeds exactly when every requested entry resolves. */
  lemma {:induction false} CleanSucceedsIffEveryEntryResolves(requested: seq<Value>, provider: string, mine: seq<Dataset>, public: seq<Dataset>)
    ensures CleanDatasets(requested, provider, mine, public).Success? <==>
      forall i :: 0 <= i < |requested| ==> ResolveEntry(requested[i], provider, mine, public).Success?
  {
    var r := CleanDatasets(requested, provider, mine, public);
    if r.Failure? {
      var k :| FailsFirstAt(requested, provider, mine, public, k, r.error);
    }
  }

  /** The scenario of a public dataset found by name: a catalog holding one
      `CIFAR-10` entry for the provider resolves `{name: CIFAR-10, type: public}`
      to that entry's id. */
  lemma PublicNameScenario(provider: string, mine: seq<Dataset>, id: string)
    ensures
      var entry := Dict(map["name" := Str("CIFAR-10"), "type" := Str("public")]);
      CleanDatasets([entry], provider, mine, [Dataset(id, "CIFAR-10", provider)])
        == Success([Canonical(Str(id), Str("public"))])
  {
    var entry := Dict(map["name" := Str("CIFAR-10"), "type" := Str("public")]);
    var public := [Dataset(id, "CIFAR-10", provider)];
    assert Matches(public[0], Str("CIFAR-10"), provider);
    assert Lookup(public, Str("CIFAR-10"), provider) == Some(public[0]);
    assert "id" !in entry.fields && "dataset_uuid" !in entry.fields;
    assert ResolveEntry(entry, provider, mine, public) == Success(Canonical(Str(id), Str("public")));
    assert [entry][1..] == [];
    assert CleanDatasets([entry][1..], provider, mine, public) == Success([]);
    var r := CleanDatasets([entry], provider, mine, public);
    assert r.Success?;
    assert r.value == [Canonical(Str(id), Str("public"))];
  }
}
