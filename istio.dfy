/**
 * The Istio adapter (istio.Istio) as an object: it owns the kubeconfig handler, the
 * sink the event streamer publishes to, and the record of collaborator calls. Its
 * methods change that state step by step, as the Go code does, and each is proved
 * against the specification functions of the modules it imports.
 */
module Adapter {
  import opened Wrappers
  import opened Errors
  import opened Events
  import opened Collaborators
  import opened Kubeconfigs
  import opened Operations
  import opened OAM

  class Istio {
    const server: ServerConfig
    const collaborators: Collaborators
    const parseKubeconfig: Kubeconfigs.Parser
    const parseComponent: ComponentParser
    const parseConfiguration: ConfigurationParser
    const kubeconfigHandler: KubeconfigHandler
    /** Every record the event streamer has published, in publishing order. */
    var events: seq<Event>
    /** Every collaborator call made, in order. */
    var calls: seq<Call>
    /** A handler panicked, which in Go ends the adapter process; ApplyOperation and
        ProcessOAM are therefore only called while it is false. */
    var crashed: bool

    /** New: the adapter around its kubeconfig handler and event streamer. */
    constructor (server: ServerConfig, collaborators: Collaborators, parseKubeconfig: Kubeconfigs.Parser,
                 parseComponent: ComponentParser, parseConfiguration: ConfigurationParser,
                 kubeconfigHandler: KubeconfigHandler)
      ensures this.server == server && this.collaborators == collaborators
      ensures this.parseKubeconfig == parseKubeconfig && this.parseComponent == parseComponent
      ensures this.parseConfiguration == parseConfiguration && this.kubeconfigHandler == kubeconfigHandler
      ensures events == [] && calls == [] && !crashed
    {
      this.server := server;
      this.collaborators := collaborators;
      this.parseKubeconfig := parseKubeconfig;
      this.parseComponent := parseComponent;
      this.parseConfiguration := parseConfiguration;
      this.kubeconfigHandler := kubeconfigHandler;
      events := [];
      calls := [];
      crashed := false;
    }

    /** Between the two states, exactly the calls and records of `r` were added. */
    twostate predicate Performed(r: Run)
      reads this
    {
      && events == old(events) + r.published
      && calls == old(calls) + r.calls
      && crashed == (old(crashed) || r.crashed)
    }

    method StreamErr(ee: EventsResponse, err: Error)
      modifies this`events, ee
      ensures ee.Value() == Classify(old(ee.Value()), ErrorEvent, err)
      ensures events == old(events) + [ee.Value()]
    {
      ee.eventType := ErrorEvent;
      ee.errorCode := Code(err);
      ee.probableCause := Cause(err);
      ee.suggestedRemediation := Remedy(err);
      events := events + [ee.Value()];
    }

    method StreamWarn(ee: EventsResponse, err: Error)
      modifies this`events, ee
      ensures ee.Value() == Classify(old(ee.Value()), WarnEvent, err)
      ensures events == old(events) + [ee.Value()]
    {
      ee.eventType := WarnEvent;
      ee.errorCode := Code(err);
      ee.probableCause := Cause(err);
      ee.suggestedRemediation := Remedy(err);
      events := events + [ee.Value()];
    }

    method StreamInfo(ee: EventsResponse)
      modifies this`events, ee
      ensures ee.Value() == old(ee.Value()).(eventType := InfoEvent)
      ensures events == old(events) + [ee.Value()]
    {
      ee.eventType := InfoEvent;
      events := events + [ee.Value()];
    }

    /** The failure path every handler shares: copy the error into the record, then stream it. */
    method Fail(ee: EventsResponse, summary: string, err: Error)
      modifies this`events, ee
      ensures events == old(events) + [Failed(old(ee.Value()), summary, err)]
    {
      ee.summary := summary;
      ee.details := Message(err);
      ee.errorCode := Code(err);
      ee.probableCause := Cause(err);
      ee.suggestedRemediation := Remedy(err);
      StreamErr(ee, err);
    }

    /** The success path every handler shares. */
    method Succeed(ee: EventsResponse, summary: string, details: string)
      modifies this`events, ee
      ensures events == old(events) + [Succeeded(old(ee.Value()), summary, details)]
    {
      ee.summary := summary;
      ee.details := details;
      StreamInfo(ee);
    }

    /** CreateKubeconfigs: the ingestion loop, recording at most one error per payload. */
    method CreateKubeconfigs(kubeconfigs: seq<string>) returns (err: Option<Error>)
      modifies kubeconfigHandler
      ensures var r := IngestAll(old(kubeconfigHandler.store), kubeconfigs, parseKubeconfig, kubeconfigHandler.refuse);
        kubeconfigHandler.store == r.store && err == Aggregate(r.errs)
    {
      var kh := kubeconfigHandler;
      var errs: seq<Error> := [];
      for i := 0 to |kubeconfigs|
        invariant IngestAll(old(kh.store), kubeconfigs[..i], parseKubeconfig, kh.refuse) == Ingested(kh.store, errs)
      {
        IngestAllStep(old(kh.store), kubeconfigs, i, parseKubeconfig, kh.refuse);
        ghost var before := kh.store;
        var parsed := parseKubeconfig(kubeconfigs[i]);
        if parsed.Failure? {
          errs := errs + [parsed.error];
          continue;
        }
        var k := parsed.value;
        ghost var cs := Collections(k);
        ghost var ingest := IngestOne(before, kubeconfigs[i], parseKubeconfig, kh.refuse);
        kh.SetKey("kind", k.kind);
        kh.SetKey("apiVersion", k.apiVersion);
        kh.SetKey("current-context", k.currentContext);
        ScalarsWritten(before, k);
        assert ingest == WriteCollections(kh.store, cs, kh.refuse);
        var e := kh.SetObject("preferences", Object(k.preferences));
        if e.Some? {
          assert ingest == (kh.store, e);
          errs := errs + [e.value];
          continue;
        }
        assert ingest == WriteCollections(kh.store, cs[1..], kh.refuse);
        e := kh.SetObject("clusters", Object(k.clusters));
        if e.Some? {
          assert ingest == (kh.store, e);
          errs := errs + [e.value];
          continue;
        }
        assert ingest == WriteCollections(kh.store, cs[2..], kh.refuse);
        e := kh.SetObject("users", Object(k.users));
        if e.Some? {
          assert ingest == (kh.store, e);
          errs := errs + [e.value];
          continue;
        }
        assert ingest == WriteCollections(kh.store, cs[3..], kh.refuse);
        e := kh.SetObject("contexts", Object(k.contexts));
        if e.Some? {
          assert ingest == (kh.store, e);
          errs := errs + [e.value];
          continue;
        }
        assert ingest == WriteCollections(kh.store, cs[4..], kh.refuse);
      }
      assert kubeconfigs[..|kubeconfigs|] == kubeconfigs;
      if |errs| == 0 {
        return None;
      }
      return Some(Merged(errs));
    }

    /** The handler of IstioOperation: resolve the version, then install or uninstall Istio. */
    method IstioHandler(req: OperationRequest, entry: Option<Operation>, ee: EventsResponse)
      modifies this, ee
      ensures Performed(IstioRun(req, entry, old(ee.Value()), collaborators))
    {
      if entry.None? {
        crashed := true;
        return;
      }
      var op := entry.value;
      var err: Option<Error> := None;
      var stat, version := "", "";
      if |op.versions| == 0 {
        err := Some(FetchIstioVersions);
      } else {
        version := op.versions[|op.versions| - 1];
        if req.version in op.versions {
          version := req.version;
        }
        var o := collaborators.installIstio(req.isDeleteOperation, version, req.namespace);
        calls := calls + [InstallIstio(req.isDeleteOperation, version, req.namespace)];
        stat, err := o.stat, o.err;
      }
      if err.Some? {
        Fail(ee, "Error while " + stat + " Istio service mesh " + version, err.value);
        return;
      }
      Succeed(ee, "Istio service mesh " + version + " " + stat + " successfully",
              "The Istio service mesh " + version + " is now " + stat + ".");
    }

    /** The handler of the sample applications (BookInfo, HTTPBin, ImageHub, EmojiVoto). */
    method SampleAppHandler(req: OperationRequest, entry: Option<Operation>, ee: EventsResponse)
      modifies this, ee
      ensures Performed(SampleAppRun(req, entry, old(ee.Value()), collaborators))
    {
      if entry.None? {
        crashed := true;
        return;
      }
      var op := entry.value;
      var appName := Property(op, ServiceName);
      var o := collaborators.installSampleApp(req.namespace, req.isDeleteOperation, op.templates);
      calls := calls + [InstallSampleApp(req.namespace, req.isDeleteOperation, op.templates)];
      if o.err.Some? {
        Fail(ee, "Error while " + o.stat + " Istio service mesh", o.err.value);
        return;
      }
      Succeed(ee, appName + " application " + o.stat + " successfully",
              "The " + appName + " application is now " + o.stat + ".");
    }

    /** The handler of the SMI conformance test. */
    method SmiHandler(req: OperationRequest, entry: Option<Operation>, ee: EventsResponse)
      modifies this, ee
      ensures Performed(SmiRun(req, entry, old(ee.Value()), collaborators))
    {
      if entry.None? {
        crashed := true;
        return;
      }
      var op := entry.value;
      var name := op.description;
      if |op.templates| == 0 {
        crashed := true;
        return;
      }
      var o := collaborators.runSMITest(ee.operationId, "meshery", op.templates[0]);
      calls := calls + [RunSMITest(ee.operationId, "meshery", op.templates[0])];
      if o.err.Some? {
        Fail(ee, "Error while " + Running + " " + name + " test", o.err.value);
        return;
      }
      Succeed(ee, name + " test " + Completed + " successfully", "");
    }

    /** The handler of the four mTLS and deny-all policies. */
    method PolicyHandler(req: OperationRequest, entry: Option<Operation>, ee: EventsResponse)
      modifies this, ee
      ensures Performed(PolicyRun(req, entry, old(ee.Value()), collaborators))
    {
      if entry.None? {
        crashed := true;
        return;
      }
      var op := entry.value;
      var o := collaborators.applyPolicy(req.namespace, req.isDeleteOperation, op.templates);
      calls := calls + [ApplyPolicy(req.namespace, req.isDeleteOperation, op.templates)];
      if o.err.Some? {
        Fail(ee, "Error while " + o.stat + " policy", o.err.value);
        return;
      }
      Succeed(ee, "Policy " + Deployed + " successfully", "");
    }

    /** The handler of a caller-supplied manifest. */
    method CustomHandler(req: OperationRequest, ee: EventsResponse)
      modifies this, ee
      ensures Performed(CustomRun(req, old(ee.Value()), collaborators))
    {
      var o := collaborators.applyCustomOperation(req.namespace, req.customBody, req.isDeleteOperation);
      calls := calls + [ApplyCustomOperation(req.namespace, req.customBody, req.isDeleteOperation)];
      if o.err.Some? {
        Fail(ee, "Error while " + o.stat + " custom operation", o.err.value);
        return;
      }
      Succeed(ee, "Manifest " + Deployed + " successfully", "");
    }

    /** The handler that labels a namespace for sidecar injection. */
    method LabelHandler(req: OperationRequest, ee: EventsResponse)
      modifies this, ee
      ensures Performed(LabelRun(req, old(ee.Value()), collaborators))
    {
      var err := collaborators.loadNamespaceToMesh(req.namespace, req.isDeleteOperation);
      calls := calls + [LoadNamespaceToMesh(req.namespace, req.isDeleteOperation)];
      var operation := "enabled";
      if req.isDeleteOperation {
        operation := "removed";
      }
      if err.Some? {
        Fail(ee, "Error while labeling " + req.namespace, err.value);
        return;
      }
      Succeed(ee, "Label updated on " + req.namespace + " namespace",
              "ISTIO-INJECTION label " + operation + " on " + req.namespace + " namespace");
    }

    /** The handler of the addons (Prometheus, Grafana, Kiali, Jaeger, Zipkin). */
    method AddonHandler(req: OperationRequest, entry: Option<Operation>, ee: EventsResponse)
      modifies this, ee
      ensures Performed(AddonRun(req, entry, old(ee.Value()), collaborators))
    {
      if entry.None? {
        crashed := true;
        return;
      }
      var op := entry.value;
      var svcname := Property(op, ServiceName);
      var patches: seq<string> := [];
      patches := patches + [Property(op, ServicePatchFile)];
      assert patches == [Property(op, ServicePatchFile)];
      var o := collaborators.installAddon(req.namespace, req.isDeleteOperation, svcname, patches, op.templates);
      calls := calls + [InstallAddon(req.namespace, req.isDeleteOperation, svcname, patches, op.templates)];
      var operation := "install";
      if req.isDeleteOperation {
        operation := "uninstall";
      }
      if o.err.Some? {
        Fail(ee, "Error while " + operation + "ing " + req.operationName, o.err.value);
        return;
      }
      Succeed(ee, "Successfully " + operation + "ed " + req.operationName,
              "Successfully " + operation + "ed " + req.operationName + " from the " + req.namespace + " namespace");
    }

    /** The istio-vet consumer: forward every record RunVet sends, in order, reclassified. */
    method VetHandler()
      modifies this
      ensures Performed(Run([RunVet], Forwarded(collaborators.vetFeed), false))
    {
      calls := calls + [RunVet];
      var feed := collaborators.vetFeed;
      for i := 0 to |feed|
        invariant events == old(events) + Forwarded(feed[..i])
        invariant calls == old(calls) + [RunVet] && crashed == old(crashed)
      {
        assert feed[..i + 1][..i] == feed[..i];
        var msg := new EventsResponse(feed[i]);
        match msg.eventType {
          case ErrorEvent => StreamErr(msg, IstioVet(msg.details));
          case WarnEvent => StreamWarn(msg, IstioVet(msg.details));
          case InfoEvent => StreamInfo(msg);
        }
      }
      assert feed[..|feed|] == feed;
    }

    /** The handler of the Envoy filter patch. */
    method EnvoyFilterHandler(req: OperationRequest, entry: Option<Operation>, ee: EventsResponse)
      modifies this, ee
      ensures Performed(EnvoyFilterRun(req, entry, old(ee.Value()), collaborators))
    {
      if entry.None? {
        crashed := true;
        return;
      }
      var op := entry.value;
      var appName := Property(op, ServiceName);
      var patchFile := Property(op, FilterPatchFile);
      var o := collaborators.patchWithEnvoyFilter(req.namespace, req.isDeleteOperation, appName, op.templates, patchFile);
      calls := calls + [PatchWithEnvoyFilter(req.namespace, req.isDeleteOperation, appName, op.templates, patchFile)];
      if o.err.Some? {
        Fail(ee, "Error while " + o.stat + " " + appName + " application", o.err.value);
        return;
      }
      Succeed(ee, appName + " application " + o.stat + " successfully",
              "The " + appName + " application is now " + o.stat + ".");
    }

    /**
     * ApplyOperation: the synchronous pre-checks, then the handler the operation
     * name selects, run to completion here where the Go code starts a goroutine.
     * `catalog` is what Config.GetObject(OperationsKey) yields.
     */
    method ApplyOperation(req: OperationRequest, catalog: Result<Operations, Error>) returns (err: Option<Error>)
      requires !crashed
      modifies this, kubeconfigHandler
      ensures var ingested := IngestAll(old(kubeconfigHandler.store), req.k8sConfigs, parseKubeconfig, kubeconfigHandler.refuse);
        var d := ApplyOperationSpec(Aggregate(ingested.errs), catalog, req, server, collaborators);
        && kubeconfigHandler.store == ingested.store
        && err == d.err
        && Performed(d.run)
    {
      err := CreateKubeconfigs(req.k8sConfigs);
      if err.Some? {
        return;
      }
      if catalog.Failure? {
        return Some(catalog.error);
      }
      var operations := catalog.value;
      var ee := new EventsResponse(InitialEvent(req, server));
      var entry := Entry(operations, req.operationName);
      match KindOf(req.operationName) {
        case IstioLifecycle => IstioHandler(req, entry, ee);
        case SampleApp => SampleAppHandler(req, entry, ee);
        case SmiConformance => SmiHandler(req, entry, ee);
        case Policy => PolicyHandler(req, entry, ee);
        case CustomManifest => CustomHandler(req, ee);
        case Label => LabelHandler(req, ee);
        case Addon => AddonHandler(req, entry, ee);
        case Vet => VetHandler();
        case EnvoyFilter => EnvoyFilterHandler(req, entry, ee);
        case Unsupported => StreamErr(ee, OpInvalid);
      }
    }

    /** ProcessOAM: ingest the kubeconfigs, parse, then run the two phases. */
    method ProcessOAM(req: OAMRequest) returns (msg: string, err: Option<Error>)
      requires !crashed
      modifies this, kubeconfigHandler
      ensures var ingested := IngestAll(old(kubeconfigHandler.store), req.k8sConfigs, parseKubeconfig, kubeconfigHandler.refuse);
        var p := ProcessOAMSpec(Aggregate(ingested.errs), req, parseComponent, parseConfiguration, collaborators);
        && kubeconfigHandler.store == ingested.store
        && msg == p.msg && err == p.err
        && Performed(Run(p.calls, [], false))
    {
      err := CreateKubeconfigs(req.k8sConfigs);
      if err.Some? {
        return "", err;
      }
      var comps := ParseComponents(req.oamComps, parseComponent);
      var config := ZeroConfiguration;
      var parsed := parseConfiguration(req.oamConfig);
      if parsed.Success? {
        config := parsed.value;
      }
      if req.deleteOp {
        var o2 := collaborators.handleApplicationConfiguration(config, req.deleteOp);
        calls := calls + [HandleApplicationConfiguration(config, req.deleteOp)];
        if o2.err.Some? {
          return o2.stat, Some(Error.ProcessOAM(o2.err.value));
        }
        var o1 := collaborators.handleComponents(comps, req.deleteOp);
        calls := calls + [HandleComponents(comps, req.deleteOp)];
        if o1.err.Some? {
          return o1.stat + "\n" + o2.stat, Some(Error.ProcessOAM(o1.err.value));
        }
        return o1.stat + "\n" + o2.stat, None;
      }
      var o1 := collaborators.handleComponents(comps, req.deleteOp);
      calls := calls + [HandleComponents(comps, req.deleteOp)];
      if o1.err.Some? {
        return o1.stat, Some(Error.ProcessOAM(o1.err.value));
      }
      var o2 := collaborators.handleApplicationConfiguration(config, req.deleteOp);
      calls := calls + [HandleApplicationConfiguration(config, req.deleteOp)];
      if o2.err.Some? {
        return o1.stat + "\n" + o2.stat, Some(Error.ProcessOAM(o2.err.value));
      }
      return o1.stat + "\n" + o2.stat, None;
    }
  }
}
