# Nautobot provider: configuration and the manufacturers read

A Dafny model of the two decision procedures at the core of the Nautobot
Terraform provider (`internal/provider/`).

- **Provider configuration** (`provider.go`). `Configure` takes the provider
  block's `url` and `token`, each Null, Unknown or Known, together with the
  process environment. It works in three phases, and each phase halts when an
  error has been recorded:
  1. It keeps the diagnostics of decoding the configuration.
  2. It reports every Unknown value.
  3. It falls back to `NAUTOBOT_URL` / `NAUTOBOT_TOKEN` for Null values and
     reports every empty result.

  Only when no error was recorded does it build the API client. It hands that
  same client to the data sources and the resources. The provider's type name,
  its schema and its registrations are constants.
- **Manufacturers data source** (`data_source_manufacturers.go`). `Configure`
  keeps the client the provider exported. `Metadata` derives the type name
  `<provider>_manufacturers`. `Schema` declares one computed list of 13 nested
  attributes. `Read` has two early exits: a failed list call and a body that
  does not decode. Each gives exactly one diagnostic. Otherwise `Read` lifts
  every upstream record, in order, field by field, into a model of Known
  values and publishes the list.

Files:
- `wrappers.dfy`: `Option`.
- `framework.dfy`: the plugin framework pieces the code relies on.
  - Tri-state `Attr<T>` and `int64`.
  - Diagnostics. `Diagnostics.Append` in terraform-plugin-framework skips a
    diagnostic equal to one already present; `Framework.Add` models that. This
    behaviour belongs to the framework, not to the provider's own code.
  - `HasError` and the schema attribute declarations.
- `provider.dfy`: module `Provider`.
- `manufacturers.dfy`: module `Manufacturers`. The data source is a class,
  because `Configure` updates its `client` field in place.

`Provider.Configure` returns the `ConfigureResponse` fields it writes as a
datatype. The framework passes a fresh response, so this matches writing into
it. `Read` does the same with the fields of its `ReadResponse`. Its `state` is
`None` when `Read` never calls `State.Set`.

Inputs:
- `Config.Get` becomes an input: the decoded `ProviderModel` with its diagnostics.
- The environment is a `map<string, string>`. A variable that is not set reads
  as `""`, like `os.Getenv`.
- The list call becomes a `FetchResult` (an error message, or the body bytes).
- `json.Unmarshal` becomes a function parameter from bytes to `DecodeResult`.

## Model

| member | source | states |
|---|---|---|
| Framework.Add | internal/provider/provider.go:68-73 | A diagnostic not yet present is appended at the end and earlier ones are kept in place; one already present leaves the list unchanged; the list has an error exactly when it had one before or the added diagnostic is an error |
| Framework.NoErrorMeansWarningsOnly | internal/provider/provider.go:63 | HasError is false exactly when every diagnostic is a warning, so warnings from Config.Get do not halt |
| Framework.AppendAll | internal/provider/provider.go:61-65 | Appending Config.Get's diagnostics keeps the earlier ones as a prefix; the result has an error iff either list had one, which is what the first halt tests |
| Framework.AppendAllMembers | internal/provider/provider.go:62 | Appending keeps exactly the diagnostics of both lists |
| Framework.AppendAllKeepsDistinct | internal/provider/provider.go:62 | Appending to a list without repeats never introduces one |
| Framework.AppendAllDeduplicates | internal/provider/provider.go:62 | Starting from an empty response, the kept diagnostics are those of Config.Get without repeats; a list without repeats is kept as it is |
| Provider.ConfigurationErrorsDistinct | internal/provider/provider.go:67-116 | The unknown and empty diagnostics are all errors, and those on path url differ from those on path token, so both can accumulate in one call |
| Provider.Resolve | internal/provider/provider.go:89-98 | A non-Null configured value overrides the environment (Known("") included); a Null one falls back to the environment value |
| Provider.Getenv | internal/provider/provider.go:89-90 | A set variable reads as its value, an unset one as the empty string |
| Provider.ResolvedUrl | internal/provider/provider.go:89-93 | The url is the Known configured value (Known("") included), and `NAUTOBOT_URL` when the configured value is Null |
| Provider.ResolvedToken | internal/provider/provider.go:90-97 | The token is the Known configured value (Known("") included), and `NAUTOBOT_TOKEN` when the configured value is Null |
| Provider.Configure | internal/provider/provider.go:58-142 | An error from Config.Get halts with those diagnostics. Otherwise every Unknown value gets a diagnostic on its path, and the call halts without using the environment. Otherwise every empty resolved value gets a diagnostic on its path. A client exists iff no error was recorded; it is then built from the resolved url and token, both non-empty, and DataSourceData and ResourceData are the same client (neither is set on an error path) |
| Provider.Metadata | internal/provider/provider.go:39-41 | The provider's type name is "nautobot" |
| Provider.Schema | internal/provider/provider.go:43-56 | The schema has exactly url and token, both optional strings, neither required nor computed, and only token sensitive |
| Provider.DataSources | internal/provider/provider.go:144-148 | Exactly one constructor is returned, the manufacturers data source's |
| Provider.Resources | internal/provider/provider.go:150-152 | No resource constructor is returned |
| Manufacturers.Lift | internal/provider/data_source_manufacturers.go:191-205 | Each of the 13 fields of the model is Known of the same-named field of the upstream record (custom_fields passed through) |
| Manufacturers.Lower | internal/provider/data_source_manufacturers.go:191-205 | The inverse of the lift: it gives back a record exactly when every field of the model is Known, and each field of that record is the value of the same-named model field |
| Manufacturers.LiftRoundTrip | internal/provider/data_source_manufacturers.go:191-205 | A lifted record has only Known fields, and lowering it returns that record |
| Manufacturers.LowerRoundTrip | internal/provider/data_source_manufacturers.go:191-205 | Lifting a lowered model returns that model, so lift and lower are inverse both ways |
| Manufacturers.LiftInjective | internal/provider/data_source_manufacturers.go:189-211 | Distinct records lift to distinct models: the lift maps one-to-one |
| Manufacturers.LiftIsKnown | internal/provider/data_source_manufacturers.go:191-205 | No field of a lifted record is Null or Unknown |
| Manufacturers.LiftConforms | internal/provider/data_source_manufacturers.go:191-205 | Every attribute the nested schema declares is present and Known in a lifted record, so no Required attribute is Null |
| Manufacturers.TypeName | internal/provider/data_source_manufacturers.go:40-42 | The type name is the provider's type name followed by "_manufacturers" |
| Manufacturers.TypeNameInjective | internal/provider/data_source_manufacturers.go:40-42 | Different provider type names give different data source type names |
| Manufacturers.RegisteredTypeName | internal/provider/data_source_manufacturers.go:40-42 | Under the provider named "nautobot", the one registered data source is called "nautobot_manufacturers" |
| Manufacturers.FieldsAreTags | internal/provider/data_source_manufacturers.go:64-78 | A tag names a field of manufacturersModel iff the nested schema declares it, and the declared type matches the field's type (for custom_fields, see Left out) |
| Manufacturers.NestedAttributeCount | internal/provider/data_source_manufacturers.go:94-152 | The nested attributes are exactly the 13 distinct tags of manufacturersModel |
| Manufacturers.Schema | internal/provider/data_source_manufacturers.go:88-158 | The schema has the one attribute manufacturers, a computed (not required, not optional) list of the nested attributes |
| Manufacturers.SchemaMatchesModel | internal/provider/data_source_manufacturers.go:88-158 | The schema has one attribute, the computed list manufacturers; its elements declare exactly the 13 model tags, each with its field's type (for custom_fields, see Left out) |
| Manufacturers.NestedDispositions | internal/provider/data_source_manufacturers.go:94-152 | name is Required only; description is Optional only; id, created, last_updated and the three counts are Computed only; display, slug, notes_url, url and custom_fields are Optional and Computed; none is sensitive |
| Manufacturers.ManufacturersDataSource.constructor | internal/provider/data_source_manufacturers.go:22-24 | A new data source has no client |
| Manufacturers.ManufacturersDataSource.Configure | internal/provider/data_source_manufacturers.go:31-37 | Nil provider data leaves the client unchanged; otherwise the client becomes the supplied apiClient |
| Manufacturers.ManufacturersDataSource.Read | internal/provider/data_source_manufacturers.go:161-219 | A fetch error gives exactly one diagnostic, "failed to get manufacturers list", with the error text. A decode error gives exactly one, "Failed to serialize". In both cases the state is not set. The state is set exactly when the body decoded, with no diagnostic, and element i of it is the lift of result i: same length, no filtering, reordering or dedup |

## Left out

- The generated Nautobot client: `nb.NewClientWithResponses`, `nb.NewClient`, `NewSecurityProviderNautobotToken` and its request editor. They are calls into code that is not part of this model. `ApiClient` keeps only the server URL and the token it was built from. The construction errors that `Configure` discards are not modelled.
- The HTTP call `DcimManufacturersListWithResponse`. It is an input (`FetchResult`). The HTTP status is not modelled, because `Read` only looks at the call's error.
- `json.Unmarshal`, a library parser. It is a parameter producing `DecodeResult`.
- Pagination: `next`, `previous` and `count` are decoded but never used.
- `custom_fields`: carried through as a Known map of decoded JSON values. The framework conversion of the `types.ObjectValue` call is not modelled, and neither are the commented-out alternatives.
- Manufacturers.FieldsAreTags: for custom_fields the source does not agree with itself. The model field is typed `types.ObjectType` (data_source_manufacturers.go:68), the schema declares a map of objects (:103-105) and the lift calls `types.ObjectValue` (:195). The model treats all three as one map-of-objects leaf, so the type match for this tag holds by that choice; it is exact for the other 12 tags.
- Manufacturers.SchemaMatchesModel: its type clause for custom_fields rests on the same choice as FieldsAreTags.
- Manufacturers.JsonValue: JSON numbers are unbounded reals, not float64, so the rounding of encoding/json is not modelled. Nothing in the model inspects these values.
- Provider.DataSources: the returned constructor is the one value of `Factory`, which names NewManufacturersDataSource. Only the length of the list carries content, and the link to `ManufacturersDataSource`'s constructor is by name only, since Dafny constructors are not values.
- `resp.State.Set` and its diagnostics. A successful `Read` is modelled as setting the state with no further diagnostic. The framework's handling of a nil slice (no results) versus an empty list is not modelled.
- `tflog` logging, the `bytes`/`ioutil` copy of the body and the deferred `Body.Close`: these are I/O.
- Concurrency between reads: the framework handles it.
- Manufacturers.ManufacturersDataSource.Read: requires a configured client. The Go code dereferences `d.client` without checking it, so a read without one would panic rather than return.
