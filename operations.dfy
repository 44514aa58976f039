/**
 * Operation dispatch (ApplyOperation): the operation name selects a handler; each
 * handler calls its collaborator once and finalises the request's event record,
 * on failure with the error's envelope, on success with a templated summary.
 * This module states every handler as a function from (request, catalog entry,
 * initial record, collaborators) to the calls it makes and the records it publishes.
 */
module Operations {
  import opened Wrappers
  import opened Errors
  import opened Events
  import opened Collaborators

  datatype OperationRequest = OperationRequest(
    operationName: string,
    namespace: string,
    isDeleteOperation: bool,
    version: string,
    k8sConfigs: seq<string>,
    customBody: string,
    operationId: string)

  /** A catalog entry (adapter.Operation). */
  datatype Operation = Operation(
    description: string,
    versions: seq<string>,
    templates: seq<string>,
    additionalProperties: map<string, string>)

  /** The operations catalog read from the configuration under OperationsKey
      (adapter.Operations, a map from names to *Operation). */
  type Operations = map<string, Operation>

  /** operations[name]: the entry, or None for the nil pointer a Go map of
      pointers yields for a name it does not hold. */
  function Entry(ops: Operations, name: string): (r: Option<Operation>)
    ensures r.Some? <==> name in ops
    ensures r.Some? ==> r.value == ops[name]
  {
    if name in ops then Some(ops[name]) else None
  }

  function Property(op: Operation, key: string): string
  {
    if key in op.additionalProperties then op.additionalProperties[key] else ""
  }

  // Operation names. The values stand in for the constants of internal/config and of
  // the adapter library's common package, which are not part of this model; only
  // their being distinct matters (Go refuses duplicate constant cases in a switch).
  const IstioOperation := "istio"
  const BookInfoOperation := "bookinfo"
  const HTTPBinOperation := "httpbin"
  const ImageHubOperation := "imagehub"
  const EmojiVotoOperation := "emojivoto"
  const SmiConformanceOperation := "smi_conformance"
  const DenyAllPolicyOperation := "deny-all-policy-operation"
  const StrictMTLSPolicyOperation := "strict-mtls-policy-operation"
  const MutualMTLSPolicyOperation := "mutual-mtls-policy-operation"
  const DisableMTLSPolicyOperation := "disable-mtls-policy-operation"
  const CustomOperation := "custom"
  const LabelNamespace := "label-namespace"
  const PrometheusAddon := "prometheus-addon"
  const GrafanaAddon := "grafana-addon"
  const KialiAddon := "kiali-addon"
  const JaegerAddon := "jaeger-addon"
  const ZipkinAddon := "zipkin-addon"
  const IstioVetOperation := "istio-vet"
  const EnvoyFilterOperation := "envoy-filter-operation"

  // Keys of a catalog entry's additional properties (stand-in values).
  const ServiceName := "svc_name"
  const ServicePatchFile := "service_patch_file"
  const FilterPatchFile := "filter_patch_file"

  // The adapter library's status words (stand-in values).
  const Deploying := "deploying"
  const Running := "running"
  const Completed := "completed"
  const Deployed := "deployed"

  const NotSupported := "Operation is not supported"

  /** The cases of the switch in ApplyOperation. */
  datatype Kind =
    | IstioLifecycle | SampleApp | SmiConformance | Policy | CustomManifest
    | Label | Addon | Vet | EnvoyFilter | Unsupported

  const KnownOperations: set<string> := {
    IstioOperation, BookInfoOperation, HTTPBinOperation, ImageHubOperation, EmojiVotoOperation,
    SmiConformanceOperation, DenyAllPolicyOperation, StrictMTLSPolicyOperation,
    MutualMTLSPolicyOperation, DisableMTLSPolicyOperation, CustomOperation, LabelNamespace,
    PrometheusAddon, GrafanaAddon, KialiAddon, JaegerAddon, ZipkinAddon, IstioVetOperation,
    EnvoyFilterOperation}

  /** The case of the switch that `name` selects. */
  function KindOf(name: string): (k: Kind)
    ensures k == Unsupported <==> name !in KnownOperations
  {
    if name == IstioOperation then IstioLifecycle
    else if name in {BookInfoOperation, HTTPBinOperation, ImageHubOperation, EmojiVotoOperation} then SampleApp
    else if name == SmiConformanceOperation then SmiConformance
    else if name in {DenyAllPolicyOperation, StrictMTLSPolicyOperation, MutualMTLSPolicyOperation,
                     DisableMTLSPolicyOperation} then Policy
    else if name == CustomOperation then CustomManifest
    else if name == LabelNamespace then Label
    else if name in {PrometheusAddon, GrafanaAddon, KialiAddon, JaegerAddon, ZipkinAddon} then Addon
    else if name == IstioVetOperation then Vet
    else if name == EnvoyFilterOperation then EnvoyFilter
    else Unsupported
  }

  /** internalconfig.ServerConfig["type"] and ["name"]. */
  datatype ServerConfig = ServerConfig(componentType: string, componentName: string)

  /** The record ApplyOperation builds before it selects a handler. */
  function InitialEvent(req: OperationRequest, server: ServerConfig): Event
  {
    Event(req.operationId, InfoEvent, Deploying, NotSupported, "", "", "",
          server.componentType, server.componentName)
  }

  /**
   * The Istio version to install: the requested one when the catalog lists it,
   * otherwise the last one listed; no version at all is ErrFetchIstioVersions.
   */
  function ResolveVersion(versions: seq<string>, requested: string): (r: Result<string, Error>)
    ensures r.Failure? <==> |versions| == 0
    ensures r.Failure? ==> r.error == FetchIstioVersions
    ensures r.Success? ==> r.value in versions
    ensures r.Success? ==> (r.value == requested <==> requested in versions)
    ensures r.Success? && requested !in versions ==> r.value == versions[|versions| - 1]
  {
    if |versions| == 0 then Failure(FetchIstioVersions)
    else if requested in versions then Success(requested)
    else Success(versions[|versions| - 1])
  }

  /** The word the namespace-label handler reports. */
  function LabelVerb(delete: bool): (w: string)
    ensures w == "removed" || w == "enabled"
    ensures w == "removed" <==> delete
  {
    if delete then "removed" else "enabled"
  }

  /** The word the addon handler reports. */
  function AddonVerb(delete: bool): (w: string)
    ensures w == "uninstall" || w == "install"
    ensures w == "uninstall" <==> delete
  {
    if delete then "uninstall" else "install"
  }

  /** What one handler did: the collaborator calls it made, the records it
      published, and whether it panicked (which ends the adapter process). */
  datatype Run = Run(calls: seq<Call>, published: seq<Event>, crashed: bool)

  const NoRun := Run([], [], false)

  /** A panic before any call: reading a field of a nil entry, or Templates[0] of an empty list. */
  const Crash := Run([], [], true)

  /** The cases whose handler reads fields of the catalog entry. */
  predicate ReadsEntry(k: Kind)
  {
    k in {IstioLifecycle, SampleApp, SmiConformance, Policy, Addon, EnvoyFilter}
  }

  /** A handler's single terminal record: the failure record or the success record. */
  function Finish(init: Event, err: Option<Error>, errSummary: string, okSummary: string, okDetails: string): Event
  {
    match err
    case Some(e) => Failed(init, errSummary, e)
    case None => Succeeded(init, okSummary, okDetails)
  }

  function IstioRun(req: OperationRequest, entry: Option<Operation>, init: Event, c: Collaborators): Run
  {
    match entry
    case None => Crash
    case Some(op) =>
      match ResolveVersion(op.versions, req.version)
      case Failure(e) => Run([], [Failed(init, "Error while " + "" + " Istio service mesh " + "", e)], false)
      case Success(v) =>
        var o := c.installIstio(req.isDeleteOperation, v, req.namespace);
        Run([InstallIstio(req.isDeleteOperation, v, req.namespace)],
            [Finish(init, o.err, "Error while " + o.stat + " Istio service mesh " + v,
                    "Istio service mesh " + v + " " + o.stat + " successfully",
                    "The Istio service mesh " + v + " is now " + o.stat + ".")], false)
  }

  function SampleAppRun(req: OperationRequest, entry: Option<Operation>, init: Event, c: Collaborators): Run
  {
    if entry.None? then Crash else
    var op := entry.value;
    var app := Property(op, ServiceName);
    var o := c.installSampleApp(req.namespace, req.isDeleteOperation, op.templates);
    Run([InstallSampleApp(req.namespace, req.isDeleteOperation, op.templates)],
        [Finish(init, o.err, "Error while " + o.stat + " Istio service mesh",
                app + " application " + o.stat + " successfully",
                "The " + app + " application is now " + o.stat + ".")], false)
  }

  /** An entry without templates makes Templates[0] panic before RunSMITest is called. */
  function SmiRun(req: OperationRequest, entry: Option<Operation>, init: Event, c: Collaborators): Run
  {
    if entry.None? then Crash else
    var op := entry.value;
    if |op.templates| == 0 then Crash
    else
      var name := op.description;
      var o := c.runSMITest(init.operationId, "meshery", op.templates[0]);
      Run([RunSMITest(init.operationId, "meshery", op.templates[0])],
          [Finish(init, o.err, "Error while " + Running + " " + name + " test",
                  name + " test " + Completed + " successfully", "")], false)
  }

  function PolicyRun(req: OperationRequest, entry: Option<Operation>, init: Event, c: Collaborators): Run
  {
    if entry.None? then Crash else
    var op := entry.value;
    var o := c.applyPolicy(req.namespace, req.isDeleteOperation, op.templates);
    Run([ApplyPolicy(req.namespace, req.isDeleteOperation, op.templates)],
        [Finish(init, o.err, "Error while " + o.stat + " policy", "Policy " + Deployed + " successfully", "")], false)
  }

  function CustomRun(req: OperationRequest, init: Event, c: Collaborators): Run
  {
    var o := c.applyCustomOperation(req.namespace, req.customBody, req.isDeleteOperation);
    Run([ApplyCustomOperation(req.namespace, req.customBody, req.isDeleteOperation)],
        [Finish(init, o.err, "Error while " + o.stat + " custom operation",
                "Manifest " + Deployed + " successfully", "")], false)
  }

  function LabelRun(req: OperationRequest, init: Event, c: Collaborators): Run
  {
    var err := c.loadNamespaceToMesh(req.namespace, req.isDeleteOperation);
    Run([LoadNamespaceToMesh(req.namespace, req.isDeleteOperation)],
        [Finish(init, err, "Error while labeling " + req.namespace,
                "Label updated on " + req.namespace + " namespace",
                "ISTIO-INJECTION label " + LabelVerb(req.isDeleteOperation) + " on " + req.namespace + " namespace")], false)
  }

  function AddonRun(req: OperationRequest, entry: Option<Operation>, init: Event, c: Collaborators): Run
  {
    if entry.None? then Crash else
    var op := entry.value;
    var svc := Property(op, ServiceName);
    var patches := [Property(op, ServicePatchFile)];
    var o := c.installAddon(req.namespace, req.isDeleteOperation, svc, patches, op.templates);
    var verb := AddonVerb(req.isDeleteOperation);
    Run([InstallAddon(req.namespace, req.isDeleteOperation, svc, patches, op.templates)],
        [Finish(init, o.err, "Error while " + verb + "ing " + req.operationName,
                "Successfully " + verb + "ed " + req.operationName,
                "Successfully " + verb + "ed " + req.operationName + " from the " + req.namespace + " namespace")], false)
  }

  function EnvoyFilterRun(req: OperationRequest, entry: Option<Operation>, init: Event, c: Collaborators): Run
  {
    if entry.None? then Crash else
    var op := entry.value;
    var app := Property(op, ServiceName);
    var patchFile := Property(op, FilterPatchFile);
    var o := c.patchWithEnvoyFilter(req.namespace, req.isDeleteOperation, app, op.templates, patchFile);
    Run([PatchWithEnvoyFilter(req.namespace, req.isDeleteOperation, app, op.templates, patchFile)],
        [Finish(init, o.err, "Error while " + o.stat + " " + app + " application",
                app + " application " + o.stat + " successfully",
                "The " + app + " application is now " + o.stat + ".")], false)
  }

  /** How the istio-vet consumer forwards one record from the producer: errors and
      warnings with the envelope of ErrIstioVet built from the record's details,
      anything else as information. */
  function Reclassify(msg: Event): (r: Event)
    ensures r.eventType == msg.eventType
    ensures r.operationId == msg.operationId && r.summary == msg.summary && r.details == msg.details
    ensures msg.eventType == InfoEvent ==> r == msg
    ensures msg.eventType != InfoEvent ==>
      r.errorCode == Code(IstioVet(msg.details)) && r.probableCause == Cause(IstioVet(msg.details))
      && r.suggestedRemediation == Remedy(IstioVet(msg.details))
  {
    match msg.eventType
    case ErrorEvent => Classify(msg, ErrorEvent, IstioVet(msg.details))
    case WarnEvent => Classify(msg, WarnEvent, IstioVet(msg.details))
    case InfoEvent => msg.(eventType := InfoEvent)
  }

  /** Everything the istio-vet consumer forwards, in the order the producer sent it. */
  function Forwarded(msgs: seq<Event>): seq<Event>
    decreases |msgs|
  {
    if msgs == [] then [] else Forwarded(msgs[..|msgs| - 1]) + [Reclassify(msgs[|msgs| - 1])]
  }

  /** The body of the handler that case `k` starts, given operations[name]. */
  function Handle(k: Kind, req: OperationRequest, entry: Option<Operation>, init: Event, c: Collaborators): (r: Run)
    ensures r.crashed <==> (ReadsEntry(k) && entry.None?)
                           || (k == SmiConformance && entry.Some? && |entry.value.templates| == 0)
    ensures r.crashed ==> r.calls == [] && r.published == []
    ensures k != Vet ==> |r.calls| <= 1
    ensures k != Vet && !r.crashed ==> |r.published| == 1 && r.published[0].operationId == init.operationId
    ensures k == Unsupported ==> r.calls == []
  {
    match k
    case IstioLifecycle => IstioRun(req, entry, init, c)
    case SampleApp => SampleAppRun(req, entry, init, c)
    case SmiConformance => SmiRun(req, entry, init, c)
    case Policy => PolicyRun(req, entry, init, c)
    case CustomManifest => CustomRun(req, init, c)
    case Label => LabelRun(req, init, c)
    case Addon => AddonRun(req, entry, init, c)
    case Vet => Run([RunVet], Forwarded(c.vetFeed), false)
    case EnvoyFilter => EnvoyFilterRun(req, entry, init, c)
    case Unsupported => Run([], [Classify(init, ErrorEvent, OpInvalid)], false)
  }

  /** The failure, if any, that the handler of case `k` runs into. */
  function HandlerError(k: Kind, req: OperationRequest, op: Operation, c: Collaborators): Option<Error>
  {
    match k
    case IstioLifecycle =>
      (match ResolveVersion(op.versions, req.version)
       case Failure(e) => Some(e)
       case Success(v) => c.installIstio(req.isDeleteOperation, v, req.namespace).err)
    case SampleApp => c.installSampleApp(req.namespace, req.isDeleteOperation, op.templates).err
    case SmiConformance =>
      if |op.templates| == 0 then None else c.runSMITest(req.operationId, "meshery", op.templates[0]).err
    case Policy => c.applyPolicy(req.namespace, req.isDeleteOperation, op.templates).err
    case CustomManifest => c.applyCustomOperation(req.namespace, req.customBody, req.isDeleteOperation).err
    case Label => c.loadNamespaceToMesh(req.namespace, req.isDeleteOperation)
    case Addon =>
      c.installAddon(req.namespace, req.isDeleteOperation, Property(op, ServiceName),
                     [Property(op, ServicePatchFile)], op.templates).err
    case Vet => None
    case EnvoyFilter =>
      c.patchWithEnvoyFilter(req.namespace, req.isDeleteOperation, Property(op, ServiceName),
                             op.templates, Property(op, FilterPatchFile)).err
    case Unsupported => Some(OpInvalid)
  }

  /** What ApplyOperation returns and what its handler then does. */
  datatype Dispatched = Dispatched(err: Option<Error>, run: Run)

  /**
   * ApplyOperation, given the outcome of kubeconfig ingestion and of reading the
   * catalog: either fails synchronously, or returns nil and runs the handler.
   */
  function ApplyOperationSpec(ingested: Option<Error>, catalog: Result<Operations, Error>,
                              req: OperationRequest, server: ServerConfig, c: Collaborators): Dispatched
  {
    if ingested.Some? then Dispatched(ingested, NoRun)
    else if catalog.Failure? then Dispatched(Some(catalog.error), NoRun)
    else
      Dispatched(None, Handle(KindOf(req.operationName), req, Entry(catalog.value, req.operationName),
                              InitialEvent(req, server), c))
  }

  /**
   * The synchronous pre-checks: a failed ingestion or an unreadable catalog is
   * returned and nothing runs; past them ApplyOperation returns nil whatever the
   * handler's outcome.
   */
  lemma PreChecks(ingested: Option<Error>, catalog: Result<Operations, Error>,
                  req: OperationRequest, server: ServerConfig, c: Collaborators)
    ensures var d := ApplyOperationSpec(ingested, catalog, req, server, c);
      && (d.err.Some? <==> ingested.Some? || catalog.Failure?)
      && (ingested.Some? ==> d.err == ingested)
      && (ingested.None? && catalog.Failure? ==> d.err == Some(catalog.error))
      && (d.err.Some? ==> d.run.calls == [] && d.run.published == [])
  {
  }

  /**
   * Istio version resolution: with no version listed the handler reports
   * ErrFetchIstioVersions and never calls installIstio; otherwise it installs the
   * requested version when listed, else the last one listed.
   */
  lemma IstioVersionChoice(req: OperationRequest, op: Operation, init: Event, c: Collaborators)
    ensures var r := Handle(IstioLifecycle, req, Some(op), init, c);
      && (|op.versions| == 0 ==>
            r.calls == [] && r.published[0].eventType == ErrorEvent
            && r.published[0].errorCode == Code(FetchIstioVersions))
      && (|op.versions| > 0 ==>
            var v := if req.version in op.versions then req.version else op.versions[|op.versions| - 1];
            r.calls == [InstallIstio(req.isDeleteOperation, v, req.namespace)])
  {
  }

  /**
   * Every handler but istio-vet publishes exactly one record, for the request's
   * operation id; it is an error record exactly when the collaborator (or version
   * resolution) failed, and then it carries that error's message, code, cause and
   * remedy; otherwise it is an information record with no envelope of its own.
   */
  lemma HandlerFinalisesOnce(k: Kind, req: OperationRequest, op: Operation, init: Event, c: Collaborators)
    requires k != Vet && k != Unsupported
    requires k == SmiConformance ==> |op.templates| > 0
    requires init.operationId == req.operationId
    ensures var r := Handle(k, req, Some(op), init, c);
      var err := HandlerError(k, req, op, c);
      && !r.crashed && |r.published| == 1
      && (|r.calls| == 1 || (k == IstioLifecycle && |op.versions| == 0 && r.calls == []))
      && r.published[0].operationId == init.operationId
      && r.published[0].component == init.component
      && (r.published[0].eventType == ErrorEvent <==> err.Some?)
      && (err.Some? ==> CarriesEnvelope(r.published[0], err.value))
      && (err.None? ==> r.published[0].eventType == InfoEvent
                        && r.published[0].errorCode == init.errorCode)
  {
  }

  /**
   * A name the catalog does not hold: every handler that reads the entry panics on
   * the nil pointer before calling anything or publishing; the custom-manifest and
   * label handlers, istio-vet and the default branch never read it, so they behave
   * as they would with any entry.
   */
  lemma MissingEntry(k: Kind, req: OperationRequest, op: Operation, init: Event, c: Collaborators)
    ensures var r := Handle(k, req, None, init, c);
      && (ReadsEntry(k) ==> r == Crash)
      && (!ReadsEntry(k) ==> r == Handle(k, req, Some(op), init, c) && !r.crashed)
  {
  }

  /**
   * A name that matches no case: exactly one error record carrying ErrOpInvalid's
   * code, whose summary and details are still the initial ones; no handler runs.
   */
  lemma UnsupportedOperation(catalog: Operations, req: OperationRequest, server: ServerConfig, c: Collaborators)
    requires req.operationName !in KnownOperations
    ensures var d := ApplyOperationSpec(None, Success(catalog), req, server, c);
      && d.err.None? && d.run.calls == [] && |d.run.published| == 1
      && d.run.published[0].eventType == ErrorEvent
      && d.run.published[0].errorCode == Code(OpInvalid)
      && d.run.published[0].operationId == req.operationId
      && d.run.published[0].summary == Deploying
      && d.run.published[0].details == NotSupported
  {
  }

  /** The label and addon handlers put the verb the delete flag selects, and the
      namespace, into what they report. */
  lemma VerbsInReports(req: OperationRequest, op: Operation, init: Event, c: Collaborators)
    ensures var r := Handle(Label, req, Some(op), init, c);
      HandlerError(Label, req, op, c).None? ==>
        && r.published[0].summary == "Label updated on " + req.namespace + " namespace"
        && r.published[0].details == "ISTIO-INJECTION label " + (if req.isDeleteOperation then "removed" else "enabled")
                                     + " on " + req.namespace + " namespace"
    ensures var r := Handle(Addon, req, Some(op), init, c);
      var verb := if req.isDeleteOperation then "uninstall" else "install";
      && (HandlerError(Addon, req, op, c).None? ==>
            && r.published[0].summary == "Successfully " + verb + "ed " + req.operationName
            && r.published[0].details == "Successfully " + verb + "ed " + req.operationName
                                         + " from the " + req.namespace + " namespace")
      && (HandlerError(Addon, req, op, c).Some? ==>
            r.published[0].summary == "Error while " + verb + "ing " + req.operationName)
  {
  }

  /** The istio-vet consumer forwards every record, in production order, reclassified. */
  lemma {:induction false} VetForwardsInOrder(msgs: seq<Event>)
    ensures |Forwarded(msgs)| == |msgs|
    ensures forall i :: 0 <= i < |msgs| ==> Forwarded(msgs)[i] == Reclassify(msgs[i])
    decreases |msgs|
  {
    if msgs != [] {
      VetForwardsInOrder(msgs[..|msgs| - 1]);
    }
  }
}
