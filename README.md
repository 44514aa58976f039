# meshery-istio adapter core, modelled in Dafny

This project models the core of the Istio adapter for Meshery: `istio/istio.go`. It covers three
sequential decision procedures that lie under the Go glue.

- **Operation dispatch** (`ApplyOperation`). The adapter ingests the request's kubeconfigs and reads
  the operations catalog. Either failure is returned at once. Otherwise the operation name selects
  one of nine handlers, or the `default` branch. Each handler calls one collaborator and finalises
  the request's event record. On failure the record gets the error's text, code, probable cause and
  remedy. On success it gets a templated summary and details. The Istio handler first resolves the
  version: the requested one if the catalog lists it, otherwise the last one listed. With no versions
  listed it fails with `ErrFetchIstioVersions`. The istio-vet handler forwards the records its
  producer sends, in order, and reclassifies each one.
- **Kubeconfig ingestion** (`CreateKubeconfigs`). Each payload is parsed, then written key by key
  into the kubeconfig handler's store: three scalars, then four collections. The first failure
  inside a payload records one error, and the loop moves on to the next payload. The result is nil
  only when no error was recorded.
- **OAM processing** (`ProcessOAM`). Components that fail to parse are dropped, keeping input order.
  A configuration that fails to parse falls back to its zero value. With the delete flag set,
  configuration is handled before components; otherwise components come first. The first phase to
  fail returns early. Full success returns `msg1 + "\n" + msg2`.

Layout, one module per concern:

- `wrappers.dfy`: `Option` and `Result`.
- `errors.dfy`: the error envelope.
- `events.dfy`: the event record and the `EventsResponse` class.
- `collaborators.dfy`: the collaborators as oracles, and the `Call` trace entries.
- `kubeconfig.dfy`: ingestion, specified as functions, plus the `KubeconfigHandler` class.
- `operations.dfy`: dispatch, specified as functions.
- `oam.dfy`: OAM processing.
- `istio.dfy`: the `Istio` class. Its methods change state step by step, like the Go code, and each
  is proved against the functions above.

Handlers run to completion where Go starts a goroutine. Streaming a record appends it to the
`events` sequence. Every collaborator call is appended to `calls`, so call order and calls that
never happen can be stated. The per-handler functions `IstioRun`, `SampleAppRun`, `SmiRun`,
`PolicyRun`, `CustomRun`, `LabelRun`, `AddonRun` and `EnvoyFilterRun` carry no contract of their own.
What they promise is stated by `Handle` and by the lemmas below.

Behaviours of the source worth noting:

- Kubeconfig collections are overwritten by each later payload (`SetObject` replaces the key).
  They do not accumulate.
- In teardown, a configuration failure returns the configuration message alone, and components are
  never handled.
- An operation name missing from the catalog is not an error by itself. The catalog
  (`adapter.Operations`) maps names to `*Operation`, so the lookup yields a nil pointer. Every handler
  that reads a field of the entry panics on it before calling anything: istio, the sample
  applications, SMI, the policies, the addons and the Envoy filter. The custom-manifest and label
  handlers, istio-vet and the default branch never read the entry. They run as usual. The model
  writes the entry as an `Option` and records the panic (`crashed`).
- The SMI conformance handler indexes `Templates[0]`. With no templates this panics before
  `RunSMITest` is called. The model records the panic (`crashed`): no call is made and no record is
  published.

## Model

| member | source | states |
|---|---|---|
| `Events.Classify` | istio/istio.go:216-222 | StreamErr/StreamWarn set the event type and copy the error's code, cause and remedy; every other field is kept |
| `Events.Failed` | istio/istio.go:76-82 | a failure record is an error record carrying the error's text, code, cause and remedy, under the given summary, for the same operation id and component |
| `Events.Succeeded` | istio/istio.go:85-87 | a success record is an information record with the given summary and details; every other field is kept |
| `Events.EventsResponse.constructor` | istio/istio.go:55-61 | a record object holds exactly the given field values |
| `Kubeconfigs.FirstRefusal` | istio/istio.go:268-290 | the index of the first collection SetObject refuses: every earlier one is accepted; it is refused, or it is the end |
| `Kubeconfigs.IngestOne` | istio/istio.go:257-262 | a payload that fails to parse leaves the store unchanged and records its parse error |
| `Kubeconfigs.IngestAll` | istio/istio.go:255-291 | the loop records at most one error per payload |
| `Kubeconfigs.WriteCollectionsStopsAtFirstRefusal` | istio/istio.go:268-290 | collection writes stop at the first refusal: the collections before it are written, and the refusal is the error returned |
| `Kubeconfigs.ScalarsBeforeCollections` | istio/istio.go:265-290 | kind, apiVersion and current-context are written first and stay written; the refused collection and all after it keep their old values |
| `Kubeconfigs.IngestOneAccepted` | istio/istio.go:258-290 | a payload records no error exactly when it parses and all four SetObject writes succeed |
| `Kubeconfigs.IngestAllSucceeds` | istio/istio.go:292-295 | CreateKubeconfigs returns nil exactly when every payload is accepted |
| `Kubeconfigs.IngestAllAppend` | istio/istio.go:256-291 | later payloads are processed whatever happened before: ingesting a then b gives b's store and a's errors followed by b's |
| `Kubeconfigs.KubeconfigHandler.SetKey` | istio/istio.go:265-267 | the key now holds the string; nothing else changes |
| `Kubeconfigs.KubeconfigHandler.SetObject` | istio/istio.go:268 | returns the refusal, if any; writes the key only when there is none |
| `Operations.KindOf` | istio/istio.go:62-248 | a name falls to the default branch exactly when it is none of the nineteen operation constants |
| `Operations.ResolveVersion` | istio/istio.go:67-73 | no versions is ErrFetchIstioVersions; otherwise the result is listed, equals the request exactly when the request is listed, and is the last one otherwise |
| `Operations.LabelVerb` | istio/istio.go:167-170 | "removed" exactly when the delete flag is set, else "enabled" |
| `Operations.AddonVerb` | istio/istio.go:191-194 | "uninstall" exactly when the delete flag is set, else "install" |
| `Operations.Reclassify` | istio/istio.go:216-223 | istio-vet records keep their type and text; errors and warnings get ErrIstioVet's envelope; information passes unchanged |
| `Operations.Entry` | istio/istio.go:48-67 | the catalog lookup yields the entry exactly when the name is in the catalog, and nil otherwise |
| `Operations.Handle` | istio/istio.go:62-248 | a handler panics exactly when it reads a nil entry or SMI's entry has no templates, and then calls and publishes nothing; otherwise every handler but istio-vet makes at most one call and publishes exactly one record, for the request's operation id; the default branch calls nothing |
| `Operations.MissingEntry` | istio/istio.go:64-245 | a name missing from the catalog crashes every handler that reads its entry, with no call and no record; the others behave exactly as with any entry |
| `Operations.PreChecks` | istio/istio.go:42-53 | a failed ingestion or unreadable catalog is returned and nothing runs; past them the result is nil whatever the handler does |
| `Operations.IstioVersionChoice` | istio/istio.go:67-74 | with no versions: one error record with ErrFetchIstioVersions and installIstio never called; otherwise installIstio is called once, with the requested version if listed, else the last |
| `Operations.HandlerFinalisesOnce` | istio/istio.go:64-245 | each handler publishes one record for the request's id; it is an error record exactly when the handler's collaborator failed, and then carries that error's envelope |
| `Operations.UnsupportedOperation` | istio/istio.go:246-247 | an unknown name yields exactly one error record with ErrOpInvalid's code and the initial summary and details; no call is made |
| `Operations.VerbsInReports` | istio/istio.go:164-208 | the label and addon reports embed the verb the delete flag selects, the namespace and the operation name |
| `Operations.VetForwardsInOrder` | istio/istio.go:209-227 | the istio-vet consumer forwards every record, in production order, each reclassified |
| `OAM.Parsed` | istio/istio.go:305-313 | no more components than descriptors, and as many exactly when every descriptor parses |
| `OAM.ConfigurationOf` | istio/istio.go:315-318 | a configuration parse failure is not fatal: the zero configuration is used |
| `OAM.ParseComponents` | istio/istio.go:305-313 | the loop's components are exactly the parsed survivors, in input order |
| `OAM.ParsedAppend` | istio/istio.go:306-313 | filtering keeps order: the survivors of a + b are a's survivors followed by b's |
| `OAM.SkipsMalformed` | istio/istio.go:306-311 | a descriptor that fails to parse is skipped and blocks nothing around it |
| `OAM.IngestionFailureStops` | istio/istio.go:300-303 | a failed ingestion returns "" and its error, and no phase runs |
| `OAM.DeleteHandlesConfigurationFirst` | istio/istio.go:321-335 | with delete set, configuration is handled first; its failure returns msg2 alone and components are never handled |
| `OAM.CreateHandlesComponentsFirst` | istio/istio.go:337-349 | without delete, components are handled first; their failure returns msg1 alone and configuration is never handled |
| `OAM.FullSuccess` | istio/istio.go:320-349 | both phases succeeding return nil and msg1 + "\n" + msg2, whatever the flag |
| `Adapter.Istio.constructor` | istio/istio.go:30-39 | New: the adapter over its handlers, with nothing yet published or called |
| `Adapter.Istio.StreamErr` | istio/istio.go:247 | the record is classified as an error with the error's envelope and appended to the sink |
| `Adapter.Istio.StreamWarn` | istio/istio.go:220 | the record is classified as a warning with the error's envelope and appended to the sink |
| `Adapter.Istio.StreamInfo` | istio/istio.go:222 | the record is classified as information and appended to the sink |
| `Adapter.Istio.Fail` | istio/istio.go:76-83 | the failure block: exactly the failure record is appended to the sink |
| `Adapter.Istio.Succeed` | istio/istio.go:85-87 | the success block: exactly the success record is appended to the sink |
| `Adapter.Istio.CreateKubeconfigs` | istio/istio.go:254-296 | the store and the result are those of the ingestion specification |
| `Adapter.Istio.IstioHandler` | istio/istio.go:64-88 | calls and records are exactly those of the Istio handler specification |
| `Adapter.Istio.SampleAppHandler` | istio/istio.go:90-105 | calls and records are exactly those of the sample-application handler specification |
| `Adapter.Istio.SmiHandler` | istio/istio.go:107-131 | calls, records and the panic are exactly those of the SMI handler specification |
| `Adapter.Istio.PolicyHandler` | istio/istio.go:133-147 | calls and records are exactly those of the policy handler specification |
| `Adapter.Istio.CustomHandler` | istio/istio.go:149-163 | calls and records are exactly those of the custom-manifest handler specification |
| `Adapter.Istio.LabelHandler` | istio/istio.go:165-183 | calls and records are exactly those of the label handler specification |
| `Adapter.Istio.AddonHandler` | istio/istio.go:185-208 | calls and records are exactly those of the addon handler specification |
| `Adapter.Istio.VetHandler` | istio/istio.go:210-227 | RunVet is called once, and the sink gains the reclassified feed in order |
| `Adapter.Istio.EnvoyFilterHandler` | istio/istio.go:229-245 | calls and records are exactly those of the Envoy-filter handler specification |
| `Adapter.Istio.ApplyOperation` | istio/istio.go:42-251 | store, result, calls and records are exactly those of ingestion followed by the dispatch specification |
| `Adapter.Istio.ProcessOAM` | istio/istio.go:299-350 | store, message, error and calls are exactly those of ingestion followed by the OAM specification; nothing is published |

## Left out

- Concurrency. Each handler runs inline where Go starts a goroutine, so the order of records across
  concurrent operations is not modelled. The istio-vet producer/consumer channel becomes the
  sequence of records `RunVet` sends.
- Collaborator bodies (`installIstio`, `installSampleApp`, `RunSMITest`, `applyPolicy`,
  `applyCustomOperation`, `LoadNamespaceToMesh`, `installAddon`, `RunVet`, `patchWithEnvoyFilter`,
  `HandleComponents`, `HandleApplicationConfiguration`). They are not in this file; each is an
  oracle from its arguments to (status, error). The kubeconfigs every collaborator receives, and
  the constant arguments, are left out of the recorded calls. These are `false` and `"default"` for
  `installIstio`, and for `RunSMITest` the context, the `istio-injection: enabled` label and the
  empty annotations.
- YAML unmarshalling and OAM parsing. They are library code, so each is an oracle. A configuration
  that fails to parse is assumed to come back as the zero configuration.
- The body of `mergeErrors`. It is not in this file. The aggregate is kept as `Merged(errs)` with
  every part.
- istio/error.go is not part of this model. The codes and texts of `ErrFetchIstioVersions`,
  `ErrOpInvalid`, `ErrIstioVet` and `ErrProcessOAM` are stand-ins. The codes are distinct. The
  `ErrIstioVet` text is taken to be the details it wraps, and the `ErrProcessOAM` text to be that of
  the error it wraps. Their cause and remedy are empty. No record depends on these texts.
- The values of the operation-name constants, the `status.*` words and the property keys. They are
  defined in internal/config and the adapter library, which are not part of this model, so the model
  uses distinct stand-in strings.
- Meshkit's `GetCode`, `GetCause` and `GetRemedy`, `Config.GetObject`, and the stream helpers. These
  are foreign calls. Errors carry the envelope directly. The catalog read is a `Result` parameter.
  Streaming sets the record's type (and envelope, for errors and warnings) and appends it to the
  sink.
- What happens after a panic. In Go a panicking handler ends the adapter process. The model sets
  `crashed`, and `ApplyOperation` and `ProcessOAM` require it to be false.
- Logging: the `Log.Error` calls for unparsable OAM descriptors, and `Log.Info("Done")`. They have
  no effect on results.
- The `Component` and `ComponentName` server settings are a parameter (`ServerConfig`).
- `fmt.Sprintf` is rendered as string concatenation.
- `context.Context` and cancellation. The source has no cancellation path.
