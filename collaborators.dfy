/**
 * The collaborators the adapter calls but whose code is not part of this model
 * (installIstio, installSampleApp, RunSMITest, applyPolicy, applyCustomOperation,
 * LoadNamespaceToMesh, installAddon, RunVet, patchWithEnvoyFilter, HandleComponents,
 * HandleApplicationConfiguration). Each is an oracle: a function from its arguments
 * to what it returns, (status message, error). Every call the adapter makes is
 * recorded as a `Call`, so that the order of calls, and calls that never happen,
 * can be stated.
 */
module Collaborators {
  import opened Wrappers
  import opened Errors
  import opened Events

  /** A parsed OAM component (v1alpha1.Component); its contents are opaque here. */
  datatype Component = Component(name: string, spec: string)

  /** A parsed OAM application configuration (v1alpha1.Configuration). */
  datatype Configuration = Configuration(name: string, spec: string)

  /** The zero value Go hands on when the configuration did not parse. */
  const ZeroConfiguration := Configuration("", "")

  /** What a collaborator returns: a status string and an error, if any. */
  datatype Outcome = Outcome(stat: string, err: Option<Error>)

  datatype Call =
    | InstallIstio(delete: bool, version: string, namespace: string)
    | InstallSampleApp(namespace: string, delete: bool, templates: seq<string>)
    | RunSMITest(operationId: string, namespace: string, manifest: string)
    | ApplyPolicy(namespace: string, delete: bool, templates: seq<string>)
    | ApplyCustomOperation(namespace: string, body: string, delete: bool)
    | LoadNamespaceToMesh(namespace: string, delete: bool)
    | InstallAddon(namespace: string, delete: bool, service: string, patches: seq<string>, templates: seq<string>)
    | RunVet
    | PatchWithEnvoyFilter(namespace: string, delete: bool, app: string, templates: seq<string>, patchFile: string)
    | HandleComponents(components: seq<Component>, delete: bool)
    | HandleApplicationConfiguration(configuration: Configuration, delete: bool)

  /** The oracles; arguments are those of the Go calls, less the kubeconfigs every call receives
      and the constant arguments (installIstio's `false` and "default"; RunSMITest's context,
      istio-injection label and empty annotations). */
  datatype Collaborators = Collaborators(
    installIstio: (bool, string, string) -> Outcome,
    installSampleApp: (string, bool, seq<string>) -> Outcome,
    runSMITest: (string, string, string) -> Outcome,
    applyPolicy: (string, bool, seq<string>) -> Outcome,
    applyCustomOperation: (string, string, bool) -> Outcome,
    loadNamespaceToMesh: (string, bool) -> Option<Error>,
    installAddon: (string, bool, string, seq<string>, seq<string>) -> Outcome,
    /** the records RunVet sends on its channel, in the order it sends them */
    vetFeed: seq<Event>,
    patchWithEnvoyFilter: (string, bool, string, seq<string>, string) -> Outcome,
    handleComponents: (seq<Component>, bool) -> Outcome,
    handleApplicationConfiguration: (Configuration, bool) -> Outcome)
}
