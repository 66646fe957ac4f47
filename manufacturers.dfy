/**
 The manufacturers data source of internal/provider/data_source_manufacturers.go:
 the upstream record and the typed model it is lifted into, the declared
 schema, and the data source object with Configure and Read.
 */
module Manufacturers {
  import opened Wrappers
  import opened Framework
  import Provider

  /** A decoded JSON value (Go's interface{}), carried through unexamined;
      encoding/json decodes every number into it as a float64. */
  datatype JsonValue =
    | JNull
    | JBool(b: bool)
    | JNumber(n: real)
    | JString(s: string)
    | JArray(items: seq<JsonValue>)
    | JObject(members: map<string, JsonValue>)

  /** manufacturersApiModel: one record as the upstream returns it. */
  datatype ManufacturerRecord = ManufacturerRecord(
    id: string,
    created: string,
    description: string,
    customFields: map<string, JsonValue>,
    deviceTypeCount: int64,
    display: string,
    inventoryItemCount: int64,
    lastUpdated: string,
    name: string,
    notesUrl: string,
    platformCount: int64,
    slug: string,
    url: string)

  /** manufacturersModel: one element of the `manufacturers` attribute. */
  datatype ManufacturerModel = ManufacturerModel(
    id: Attr<string>,
    created: Attr<string>,
    description: Attr<string>,
    customFields: Attr<map<string, JsonValue>>,
    deviceTypeCount: Attr<int64>,
    display: Attr<string>,
    inventoryItemCount: Attr<int64>,
    lastUpdated: Attr<string>,
    name: Attr<string>,
    notesUrl: Attr<string>,
    platformCount: Attr<int64>,
    slug: Attr<string>,
    url: Attr<string>)

  /** manufacturersDataSourceModel: the state a successful read publishes. */
  datatype ManufacturersState = ManufacturersState(manufacturers: seq<ManufacturerModel>)

  /** apiResponse: the decoded list envelope. */
  datatype ApiResponse = ApiResponse(
    next: JsonValue,
    previous: JsonValue,
    count: int64,
    results: seq<ManufacturerRecord>)

  /** The outcome of DcimManufacturersListWithResponse: an error, or the raw body. */
  datatype FetchResult = FetchFailed(message: string) | Fetched(body: seq<byte>)

  /** The outcome of json.Unmarshal into an apiResponse. */
  datatype DecodeResult = Decoded(response: ApiResponse) | DecodeFailed(message: string)

  /** The parts of a ReadResponse that Read writes; `state` is None when Read
      never sets it. */
  datatype ReadResponse = ReadResponse(diagnostics: seq<Diagnostic>, state: Option<ManufacturersState>)

  const FetchErrorSummary: string := "failed to get manufacturers list"
  const DecodeErrorSummary: string := "Failed to serialize"
  const TypeNameSuffix: string := "_manufacturers"

  /** The loop body of Read: every field becomes a known value of the
      same-named upstream field. */
  function Lift(r: ManufacturerRecord): (m: ManufacturerModel)
    ensures m.id == Known(r.id) && m.created == Known(r.created)
    ensures m.description == Known(r.description) && m.customFields == Known(r.customFields)
    ensures m.deviceTypeCount == Known(r.deviceTypeCount) && m.display == Known(r.display)
    ensures m.inventoryItemCount == Known(r.inventoryItemCount)
    ensures m.lastUpdated == Known(r.lastUpdated) && m.name == Known(r.name)
    ensures m.notesUrl == Known(r.notesUrl) && m.platformCount == Known(r.platformCount)
    ensures m.slug == Known(r.slug) && m.url == Known(r.url)
  {
    ManufacturerModel(
      Known(r.id), Known(r.created), Known(r.description), Known(r.customFields),
      Known(r.deviceTypeCount), Known(r.display), Known(r.inventoryItemCount),
      Known(r.lastUpdated), Known(r.name), Known(r.notesUrl), Known(r.platformCount),
      Known(r.slug), Known(r.url))
  }

  /** The inverse of Lift: the record a model with only known fields stands for. */
  function Lower(m: ManufacturerModel): (r: Option<ManufacturerRecord>)
    ensures r.Some? <==> AllKnown(m)
    ensures r.Some? ==>
              && m.id == Known(r.value.id) && m.created == Known(r.value.created)
              && m.description == Known(r.value.description)
              && m.customFields == Known(r.value.customFields)
              && m.deviceTypeCount == Known(r.value.deviceTypeCount)
              && m.display == Known(r.value.display)
              && m.inventoryItemCount == Known(r.value.inventoryItemCount)
              && m.lastUpdated == Known(r.value.lastUpdated) && m.name == Known(r.value.name)
              && m.notesUrl == Known(r.value.notesUrl)
              && m.platformCount == Known(r.value.platformCount)
              && m.slug == Known(r.value.slug) && m.url == Known(r.value.url)
  {
    if AllKnown(m) then
      Some(ManufacturerRecord(
        m.id.value, m.created.value, m.description.value, m.customFields.value,
        m.deviceTypeCount.value, m.display.value, m.inventoryItemCount.value,
        m.lastUpdated.value, m.name.value, m.notesUrl.value, m.platformCount.value,
        m.slug.value, m.url.value))
    else
      None
  }

  predicate AllKnown(m: ManufacturerModel)
  {
    && m.id.Known? && m.created.Known? && m.description.Known? && m.customFields.Known?
    && m.deviceTypeCount.Known? && m.display.Known? && m.inventoryItemCount.Known?
    && m.lastUpdated.Known? && m.name.Known? && m.notesUrl.Known? && m.platformCount.Known?
    && m.slug.Known? && m.url.Known?
  }

  /** Lifting loses nothing: lowering a lifted record gives the record back,
      so no two records lift to the same model. */
  lemma LiftRoundTrip(r: ManufacturerRecord)
    ensures AllKnown(Lift(r))
    ensures Lower(Lift(r)) == Some(r)
  {
  }

  /** Lifting a lowered model gives the model back, so Lower and Lift are
      inverse on models whose fields are all known. */
  lemma LowerRoundTrip(m: ManufacturerModel)
    requires Lower(m).Some?
    ensures Lift(Lower(m).value) == m
  {
  }

  lemma LiftInjective(r1: ManufacturerRecord, r2: ManufacturerRecord)
    requires Lift(r1) == Lift(r2)
    ensures r1 == r2
  {
    LiftRoundTrip(r1);
    LiftRoundTrip(r2);
  }

  /** The model's fields under their tfsdk tags. */
  datatype Leaf =
    | StringLeaf(s: Attr<string>)
    | Int64Leaf(i: Attr<int64>)
    | ObjectMapLeaf(o: Attr<map<string, JsonValue>>)

  function LeafType(leaf: Leaf): AttrType
  {
    match leaf
    case StringLeaf(_) => StringType
    case Int64Leaf(_) => Int64Type
    case ObjectMapLeaf(_) => MapOfObjectsType
  }

  predicate LeafKnown(leaf: Leaf)
  {
    match leaf
    case StringLeaf(a) => a.Known?
    case Int64Leaf(a) => a.Known?
    case ObjectMapLeaf(a) => a.Known?
  }

  predicate LeafNull(leaf: Leaf)
  {
    match leaf
    case StringLeaf(a) => a.Null?
    case Int64Leaf(a) => a.Null?
    case ObjectMapLeaf(a) => a.Null?
  }

  /** The field of `m` whose tag is `tag`, if there is one. */
  function Field(m: ManufacturerModel, tag: string): Option<Leaf>
  {
    if tag == "id" then Some(StringLeaf(m.id))
    else if tag == "created" then Some(StringLeaf(m.created))
    else if tag == "description" then Some(StringLeaf(m.description))
    else if tag == "custom_fields" then Some(ObjectMapLeaf(m.customFields))
    else if tag == "devicetype_count" then Some(Int64Leaf(m.deviceTypeCount))
    else if tag == "display" then Some(StringLeaf(m.display))
    else if tag == "inventoryitem_count" then Some(Int64Leaf(m.inventoryItemCount))
    else if tag == "last_updated" then Some(StringLeaf(m.lastUpdated))
    else if tag == "name" then Some(StringLeaf(m.name))
    else if tag == "notes_url" then Some(StringLeaf(m.notesUrl))
    else if tag == "platform_count" then Some(Int64Leaf(m.platformCount))
    else if tag == "slug" then Some(StringLeaf(m.slug))
    else if tag == "url" then Some(StringLeaf(m.url))
    else None
  }

  /** The tags of manufacturersModel, in declaration order. */
  const ModelTags: seq<string> := [
    "id", "created", "description", "custom_fields", "devicetype_count", "display",
    "inventoryitem_count", "last_updated", "name", "notes_url", "platform_count",
    "slug", "url"]

  function StringAttribute(description: string, required: bool, optional: bool, computed: bool): AttrDecl
  {
    AttrDecl(StringType, required, optional, computed, false, description)
  }

  function Int64Attribute(description: string): AttrDecl
  {
    AttrDecl(Int64Type, false, false, true, false, description)
  }

  /** The attributes of one element of `manufacturers` (see NestedAttributeCount
      and NestedDispositions for what they are). */
  function NestedAttributes(): map<string, AttrDecl>
  {
    map[
      "created" := StringAttribute("Manufacturer's creation date.", false, false, true),
      "description" := StringAttribute("Manufacturer's description.", false, true, false),
      "custom_fields" := AttrDecl(MapOfObjectsType, false, true, true, false, "Manufacturer custom fields."),
      "devicetype_count" := Int64Attribute("Manufacturer's device count."),
      "display" := StringAttribute("Manufacturer's display name.", false, true, true),
      "id" := StringAttribute("Manufacturer's UUID.", false, false, true),
      "inventoryitem_count" := Int64Attribute("Manufacturer's inventory item count."),
      "last_updated" := StringAttribute("Manufacturer's last update.", false, false, true),
      "name" := StringAttribute("Manufacturer's name.", true, false, false),
      "notes_url" := StringAttribute("Notes for manufacturer.", false, true, true),
      "platform_count" := Int64Attribute("Manufacturer's platform count."),
      "slug" := StringAttribute("Manufacturer's slug.", false, true, true),
      "url" := StringAttribute("Manufacturer's URL.", false, true, true)
    ]
  }

  /** manufacturersDataSource.Schema: the single computed list
      `manufacturers` of nested objects. */
  function Schema(): (s: map<string, AttrDecl>)
    ensures s.Keys == {"manufacturers"}
    ensures var a := s["manufacturers"];
              a.computed && !a.required && !a.optional && a.typ == ListNestedType(NestedAttributes())
  {
    map["manufacturers" := AttrDecl(ListNestedType(NestedAttributes()), false, false, true, false, "")]
  }

  /** manufacturersDataSource.Metadata: the provider's type name with the
      suffix "_manufacturers". */
  function TypeName(providerTypeName: string): (r: string)
    ensures |r| == |providerTypeName| + |TypeNameSuffix|
    ensures r[..|providerTypeName|] == providerTypeName
    ensures r[|providerTypeName|..] == TypeNameSuffix
  {
    providerTypeName + TypeNameSuffix
  }

  /** Different providers give different type names. */
  lemma TypeNameInjective(p: string, q: string)
    requires TypeName(p) == TypeName(q)
    ensures p == q
  {
    assert |p| == |q|;
    assert p == TypeName(p)[..|p|];
  }

  /** The one data source the provider registers is "nautobot_manufacturers". */
  lemma RegisteredTypeName()
    ensures Provider.DataSources() == [Provider.NewManufacturersDataSource]
    ensures TypeName(Provider.Metadata()) == "nautobot_manufacturers"
  {
  }

  /** A sequence without repetitions has as many distinct elements as it is long. */
  lemma {:induction false} CardinalityOfDistinct<T>(s: seq<T>)
    requires forall i, j :: 0 <= i < j < |s| ==> s[i] != s[j]
    ensures |set t | t in s| == |s|
  {
    if s != [] {
      CardinalityOfDistinct(s[1..]);
      assert (set t | t in s) == (set t | t in s[1..]) + {s[0]};
      assert s[0] !in s[1..];
    }
  }

  lemma ModelTagsDistinct()
    ensures forall i, j :: 0 <= i < j < |ModelTags| ==> ModelTags[i] != ModelTags[j]
  {
  }

  /** Exactly the tags of manufacturersModel are fields of a model. */
  lemma FieldsAreTags(m: ManufacturerModel)
    ensures forall tag :: Field(m, tag).Some? <==> tag in NestedAttributes()
    ensures forall tag :: tag in NestedAttributes() ==>
              Field(m, tag).Some? && LeafType(Field(m, tag).value) == NestedAttributes()[tag].typ
  {
    FieldsAreDeclared(m);
    DeclaredFieldTypes(m);
  }

  /** A model has a field under exactly the declared tags. */
  lemma FieldsAreDeclared(m: ManufacturerModel)
    ensures forall tag :: Field(m, tag).Some? <==> tag in NestedAttributes()
  {
  }

  /** Each declared attribute has the type of the field under its tag. */
  lemma DeclaredFieldTypes(m: ManufacturerModel)
    ensures forall tag :: tag in NestedAttributes() ==>
              Field(m, tag).Some? && LeafType(Field(m, tag).value) == NestedAttributes()[tag].typ
  {
  }

  /** The nested attributes are the 13 tags of manufacturersModel. */
  lemma NestedAttributeCount()
    ensures NestedAttributes().Keys == set t | t in ModelTags
    ensures |ModelTags| == 13 && |NestedAttributes()| == 13
  {
    ModelTagsDistinct();
    CardinalityOfDistinct(ModelTags);
    assert NestedAttributes().Keys == set t | t in ModelTags;
  }

  /** The schema has the single computed list `manufacturers`, whose elements
      declare exactly the 13 tags of manufacturersModel, each with the type of
      the field under that tag. */
  lemma SchemaMatchesModel(m: ManufacturerModel)
    ensures Schema().Keys == {"manufacturers"}
    ensures var a := Schema()["manufacturers"];
              a.computed && !a.required && !a.optional && a.typ == ListNestedType(NestedAttributes())
    ensures NestedAttributes().Keys == set t | t in ModelTags
    ensures |ModelTags| == 13 && |NestedAttributes()| == 13
    ensures forall tag :: Field(m, tag).Some? <==> tag in NestedAttributes()
    ensures forall tag :: tag in NestedAttributes() ==>
              Field(m, tag).Some? && LeafType(Field(m, tag).value) == NestedAttributes()[tag].typ
  {
    NestedAttributeCount();
    FieldsAreTags(m);
  }

  /** The dispositions of the nested attributes: name is required only,
      description optional only, id, created, last_updated and the counts
      computed only, and the rest optional and computed. */
  lemma NestedDispositions()
    ensures var a := NestedAttributes()["name"]; a.required && !a.optional && !a.computed
    ensures var a := NestedAttributes()["description"]; !a.required && a.optional && !a.computed
    ensures forall t :: t in {"id", "created", "last_updated", "devicetype_count", "inventoryitem_count", "platform_count"} ==>
              t in NestedAttributes() && !NestedAttributes()[t].required
              && !NestedAttributes()[t].optional && NestedAttributes()[t].computed
    ensures forall t :: t in {"display", "slug", "notes_url", "url", "custom_fields"} ==>
              t in NestedAttributes() && !NestedAttributes()[t].required
              && NestedAttributes()[t].optional && NestedAttributes()[t].computed
    ensures forall t :: t in NestedAttributes() ==> !NestedAttributes()[t].sensitive
  {
  }

  /** Every field of a lifted record is known. */
  lemma LiftIsKnown(r: ManufacturerRecord)
    ensures forall tag :: Field(Lift(r), tag).Some? ==> LeafKnown(Field(Lift(r), tag).value)
  {
  }

  /** A lifted record conforms to the schema: every declared field is known,
      so in particular no required field is null. */
  lemma LiftConforms(r: ManufacturerRecord)
    ensures forall tag :: tag in NestedAttributes() ==>
              Field(Lift(r), tag).Some? && LeafKnown(Field(Lift(r), tag).value)
    ensures forall tag :: tag in NestedAttributes() && NestedAttributes()[tag].required ==>
              !LeafNull(Field(Lift(r), tag).value)
  {
    FieldsAreTags(Lift(r));
    LiftIsKnown(r);
  }

  /** manufacturersDataSource; `client` is nil until Configure supplies one. */
  class ManufacturersDataSource {
    var client: Option<Provider.ApiClient>

    /** NewManufacturersDataSource. */
    constructor ()
      ensures client == None
    {
      client := None;
    }

    /** manufacturersDataSource.Configure: keep the client the provider
        exported, if it exported one. */
    method Configure(providerData: Option<Provider.ApiClient>)
      modifies this
      ensures providerData.None? ==> client == old(client)
      ensures providerData.Some? ==> client == providerData
    {
      if providerData.None? {
        return;
      }
      client := providerData;
    }

    /** manufacturersDataSource.Read, given what the list call returned and
        the JSON decoder. */
    method Read(fetch: FetchResult, unmarshal: seq<byte> -> DecodeResult) returns (resp: ReadResponse)
      requires client.Some?
      // A failed call is reported once and leaves the state alone.
      ensures fetch.FetchFailed? ==>
                resp == ReadResponse([PlainError(FetchErrorSummary, fetch.message)], None)
      // A body that does not decode is reported once and leaves the state alone.
      ensures fetch.Fetched? && unmarshal(fetch.body).DecodeFailed? ==>
                resp == ReadResponse([PlainError(DecodeErrorSummary, unmarshal(fetch.body).message)], None)
      // The state is set exactly when the body decoded, and then without diagnostics.
      ensures resp.state.Some? <==> fetch.Fetched? && unmarshal(fetch.body).Decoded?
      ensures resp.state.Some? ==> resp.diagnostics == []
      // Record i of the response becomes element i of the state: nothing is
      // dropped, added or reordered.
      ensures resp.state.Some? ==>
                var results := unmarshal(fetch.body).response.results;
                var manufacturers := resp.state.value.manufacturers;
                && |manufacturers| == |results|
                && forall i :: 0 <= i < |results| ==> manufacturers[i] == Lift(results[i])
    {
      if fetch.FetchFailed? {
        return ReadResponse(Add([], PlainError(FetchErrorSummary, fetch.message)), None);
      }

      var body := fetch.body;
      var decoded := unmarshal(body);
      if decoded.DecodeFailed? {
        return ReadResponse(Add([], PlainError(DecodeErrorSummary, decoded.message)), None);
      }

      var results := decoded.response.results;
      var manufacturers: seq<ManufacturerModel> := [];
      var i := 0;
      while i < |results|
        invariant 0 <= i <= |results|
        invariant |manufacturers| == i
        invariant forall k :: 0 <= k < i ==> manufacturers[k] == Lift(results[k])
      {
        manufacturers := manufacturers + [Lift(results[i])];
        i := i + 1;
      }
      resp := ReadResponse([], Some(ManufacturersState(manufacturers)));
    }
  }
}
