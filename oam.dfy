/**
 * OAM processing (ProcessOAM): components that fail to parse are dropped, the
 * configuration falls back to its zero value, and the two phases, components and
 * application configuration, run in an order set by the delete flag; the first
 * phase to fail ends the processing.
 */
module OAM {
  import opened Wrappers
  import opened Errors
  import opened Collaborators

  datatype OAMRequest = OAMRequest(
    oamComps: seq<string>,
    oamConfig: string,
    deleteOp: bool,
    k8sConfigs: seq<string>)

  /** oam.ParseApplicationComponent; its error is discarded by the caller. */
  type ComponentParser = string -> Option<Component>

  /** oam.ParseApplicationConfiguration. */
  type ConfigurationParser = string -> Result<Configuration, Error>

  /** The components that parse, in input order. */
  function Parsed(raws: seq<string>, parse: ComponentParser): (comps: seq<Component>)
    ensures |comps| <= |raws|
    ensures |comps| == |raws| <==> forall i :: 0 <= i < |raws| ==> parse(raws[i]).Some?
    decreases |raws|
  {
    if raws == [] then []
    else
      var prev := Parsed(raws[..|raws| - 1], parse);
      match parse(raws[|raws| - 1])
      case Some(comp) => prev + [comp]
      case None => prev
  }

  /** The configuration the phases receive: the parsed one, or the zero value. */
  function ConfigurationOf(raw: string, parse: ConfigurationParser): (config: Configuration)
    ensures parse(raw).Failure? ==> config == ZeroConfiguration
    ensures parse(raw).Success? ==> config == parse(raw).value
  {
    match parse(raw)
    case Success(config) => config
    case Failure(_) => ZeroConfiguration
  }

  /** What ProcessOAM returns, and the collaborator calls it made. */
  datatype Processed = Processed(msg: string, err: Option<Error>, calls: seq<Call>)

  /** The two phases in the order the delete flag selects, returning at the first failure. */
  function Phases(comps: seq<Component>, config: Configuration, delete: bool, c: Collaborators): Processed
  {
    var compsCall := HandleComponents(comps, delete);
    var configCall := HandleApplicationConfiguration(config, delete);
    var o1 := c.handleComponents(comps, delete);
    var o2 := c.handleApplicationConfiguration(config, delete);
    if delete then
      if o2.err.Some? then Processed(o2.stat, Some(ProcessOAM(o2.err.value)), [configCall])
      else if o1.err.Some? then Processed(o1.stat + "\n" + o2.stat, Some(ProcessOAM(o1.err.value)), [configCall, compsCall])
      else Processed(o1.stat + "\n" + o2.stat, None, [configCall, compsCall])
    else
      if o1.err.Some? then Processed(o1.stat, Some(ProcessOAM(o1.err.value)), [compsCall])
      else if o2.err.Some? then Processed(o1.stat + "\n" + o2.stat, Some(ProcessOAM(o2.err.value)), [compsCall, configCall])
      else Processed(o1.stat + "\n" + o2.stat, None, [compsCall, configCall])
  }

  /** ProcessOAM, given the outcome of kubeconfig ingestion. */
  function ProcessOAMSpec(ingested: Option<Error>, req: OAMRequest, parseComponent: ComponentParser,
                          parseConfiguration: ConfigurationParser, c: Collaborators): Processed
  {
    if ingested.Some? then Processed("", ingested, [])
    else Phases(Parsed(req.oamComps, parseComponent), ConfigurationOf(req.oamConfig, parseConfiguration),
                req.deleteOp, c)
  }

  /** The loop that builds `comps`: each component that parses is appended; one that does not is skipped. */
  method ParseComponents(raws: seq<string>, parse: ComponentParser) returns (comps: seq<Component>)
    ensures comps == Parsed(raws, parse)
  {
    comps := [];
    for i := 0 to |raws|
      invariant comps == Parsed(raws[..i], parse)
    {
      assert raws[..i + 1][..i] == raws[..i];
      var comp := parse(raws[i]);
      if comp.None? {
        continue;
      }
      comps := comps + [comp.value];
    }
    assert raws[..|raws|] == raws;
  }

  /** Filtering keeps input order: the survivors of `a + b` are those of `a`, then those of `b`. */
  lemma {:induction false} ParsedAppend(a: seq<string>, b: seq<string>, parse: ComponentParser)
    ensures Parsed(a + b, parse) == Parsed(a, parse) + Parsed(b, parse)
    decreases |b|
  {
    if b == [] {
      assert a + b == a;
    } else {
      var b' := b[..|b| - 1];
      ParsedAppend(a, b', parse);
      assert (a + b)[..|a + b| - 1] == a + b';
      assert (a + b)[|a + b| - 1] == b[|b| - 1];
    }
  }

  /** One descriptor that fails to parse is skipped and blocks nothing around it. */
  lemma SkipsMalformed(a: seq<string>, bad: string, b: seq<string>, parse: ComponentParser)
    requires parse(bad).None?
    ensures Parsed(a + [bad] + b, parse) == Parsed(a, parse) + Parsed(b, parse)
  {
    ParsedAppend(a + [bad], b, parse);
    ParsedAppend(a, [bad], parse);
    assert [bad][..0] == [];
  }

  /** A failed ingestion is returned at once, with no message and no phase run. */
  lemma IngestionFailureStops(ingested: Option<Error>, req: OAMRequest, pc: ComponentParser,
                              pcfg: ConfigurationParser, c: Collaborators)
    requires ingested.Some?
    ensures ProcessOAMSpec(ingested, req, pc, pcfg, c) == Processed("", ingested, [])
  {
  }

  /**
   * Teardown: configuration first. If it fails, its message alone is returned and
   * the components are never handled; otherwise the components are handled next.
   */
  lemma DeleteHandlesConfigurationFirst(comps: seq<Component>, config: Configuration, c: Collaborators)
    ensures var r := Phases(comps, config, true, c);
      var o1 := c.handleComponents(comps, true);
      var o2 := c.handleApplicationConfiguration(config, true);
      && r.calls[0] == HandleApplicationConfiguration(config, true)
      && (o2.err.Some? ==> r.calls == [HandleApplicationConfiguration(config, true)]
                           && r.msg == o2.stat && r.err == Some(ProcessOAM(o2.err.value)))
      && (o2.err.None? ==> r.calls == [HandleApplicationConfiguration(config, true), HandleComponents(comps, true)]
                           && r.msg == o1.stat + "\n" + o2.stat
                           && (r.err.Some? <==> o1.err.Some?))
  {
  }

  /**
   * Deployment: components first. If they fail, their message alone is returned and
   * the configuration is never handled; otherwise the configuration is handled next.
   */
  lemma CreateHandlesComponentsFirst(comps: seq<Component>, config: Configuration, c: Collaborators)
    ensures var r := Phases(comps, config, false, c);
      var o1 := c.handleComponents(comps, false);
      var o2 := c.handleApplicationConfiguration(config, false);
      && r.calls[0] == HandleComponents(comps, false)
      && (o1.err.Some? ==> r.calls == [HandleComponents(comps, false)]
                           && r.msg == o1.stat && r.err == Some(ProcessOAM(o1.err.value)))
      && (o1.err.None? ==> r.calls == [HandleComponents(comps, false), HandleApplicationConfiguration(config, false)]
                           && r.msg == o1.stat + "\n" + o2.stat
                           && (r.err.Some? <==> o2.err.Some?))
  {
  }

  /** Whatever the flag, both phases succeeding returns nil and msg1 + "\n" + msg2. */
  lemma FullSuccess(comps: seq<Component>, config: Configuration, delete: bool, c: Collaborators)
    requires c.handleComponents(comps, delete).err.None?
    requires c.handleApplicationConfiguration(config, delete).err.None?
    ensures var r := Phases(comps, config, delete, c);
      && r.err.None? && |r.calls| == 2
      && r.msg == c.handleComponents(comps, delete).stat + "\n" + c.handleApplicationConfiguration(config, delete).stat
  {
  }
}
