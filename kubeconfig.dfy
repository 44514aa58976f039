/**
 * Kubeconfig ingestion (CreateKubeconfigs): every payload is parsed on its own and,
 * when it parses, written key by key into the KubeconfigHandler's store. The first
 * failure inside a payload records one error and moves on to the next payload.
 */
module Kubeconfigs {
  import opened Wrappers
  import opened Errors

  /** What the store holds under a key: a string (SetKey) or a serialised object (SetObject). */
  datatype Value = Text(text: string) | Object(entries: seq<string>)

  type Store = map<string, Value>

  /** models.Kubeconfig, reduced to the fields the adapter copies. */
  datatype Kubeconfig = Kubeconfig(
    kind: string,
    apiVersion: string,
    currentContext: string,
    preferences: seq<string>,
    clusters: seq<string>,
    users: seq<string>,
    contexts: seq<string>)

  /** yaml.Unmarshal into a models.Kubeconfig. */
  type Parser = string -> Result<Kubeconfig, Error>

  /** Whether KubeconfigHandler.SetObject rejects writing `value` under `key`, and with what error. */
  type Refusal = (string, Value) -> Option<Error>

  /** The three scalar keys, in the order they are written (SetKey never fails). */
  function Scalars(k: Kubeconfig): seq<(string, Value)>
  {
    [("kind", Text(k.kind)), ("apiVersion", Text(k.apiVersion)), ("current-context", Text(k.currentContext))]
  }

  /** The four collections, in the order they are written (SetObject may fail). */
  function Collections(k: Kubeconfig): seq<(string, Value)>
  {
    [("preferences", Object(k.preferences)), ("clusters", Object(k.clusters)),
     ("users", Object(k.users)), ("contexts", Object(k.contexts))]
  }

  /** The store after writing every pair of `kvs`, in order. */
  function WriteAll(s: Store, kvs: seq<(string, Value)>): Store
    decreases |kvs|
  {
    if kvs == [] then s else WriteAll(s[kvs[0].0 := kvs[0].1], kvs[1..])
  }

  /** The index of the first pair SetObject refuses, or |kvs| when it refuses none. */
  function FirstRefusal(kvs: seq<(string, Value)>, refuse: Refusal): (i: nat)
    ensures i <= |kvs|
    ensures forall j :: 0 <= j < i ==> refuse(kvs[j].0, kvs[j].1).None?
    ensures i < |kvs| ==> refuse(kvs[i].0, kvs[i].1).Some?
    decreases |kvs|
  {
    if kvs == [] then 0
    else if refuse(kvs[0].0, kvs[0].1).Some? then 0
    else 1 + FirstRefusal(kvs[1..], refuse)
  }

  /** The SetObject writes of one payload: each in turn, stopping at the first refusal. */
  function WriteCollections(s: Store, kvs: seq<(string, Value)>, refuse: Refusal): (Store, Option<Error>)
    decreases |kvs|
  {
    if kvs == [] then (s, None)
    else match refuse(kvs[0].0, kvs[0].1)
      case Some(e) => (s, Some(e))
      case None => WriteCollections(s[kvs[0].0 := kvs[0].1], kvs[1..], refuse)
  }

  /** One iteration of the ingestion loop: the store afterwards and the error it records, if any. */
  function IngestOne(s: Store, payload: string, parse: Parser, refuse: Refusal): (r: (Store, Option<Error>))
    ensures parse(payload).Failure? ==> r.0 == s && r.1 == Some(parse(payload).error)
  {
    match parse(payload)
    case Failure(e) => (s, Some(e))
    case Success(k) => WriteCollections(WriteAll(s, Scalars(k)), Collections(k), refuse)
  }

  /** The payload parses and SetObject accepts all four of its collections. */
  predicate Accepted(payload: string, parse: Parser, refuse: Refusal)
  {
    match parse(payload)
    case Failure(_) => false
    case Success(k) => forall j :: 0 <= j < 4 ==> refuse(Collections(k)[j].0, Collections(k)[j].1).None?
  }

  datatype Ingested = Ingested(store: Store, errs: seq<Error>)

  /** The whole loop over `payloads`: the final store and the `errs` slice it accumulates. */
  function IngestAll(s: Store, payloads: seq<string>, parse: Parser, refuse: Refusal): (r: Ingested)
    ensures |r.errs| <= |payloads|
    decreases |payloads|
  {
    if payloads == [] then Ingested(s, [])
    else
      var prev := IngestAll(s, payloads[..|payloads| - 1], parse, refuse);
      var step := IngestOne(prev.store, payloads[|payloads| - 1], parse, refuse);
      Ingested(step.0, prev.errs + if step.1.Some? then [step.1.value] else [])
  }

  /** One more iteration of the loop: the payload at index i, ingested from where the first i left off. */
  lemma IngestAllStep(s: Store, payloads: seq<string>, i: nat, parse: Parser, refuse: Refusal)
    requires i < |payloads|
    ensures var prev := IngestAll(s, payloads[..i], parse, refuse);
      var step := IngestOne(prev.store, payloads[i], parse, refuse);
      IngestAll(s, payloads[..i + 1], parse, refuse)
        == Ingested(step.0, prev.errs + if step.1.Some? then [step.1.value] else [])
  {
    assert payloads[..i + 1][..i] == payloads[..i];
  }

  /** What CreateKubeconfigs returns once the loop is over: nil, or mergeErrors(errs). */
  function Aggregate(errs: seq<Error>): Option<Error>
  {
    if |errs| == 0 then None else Some(Merged(errs))
  }

  lemma {:induction false} WriteCollectionsStopsAtFirstRefusal(s: Store, kvs: seq<(string, Value)>, refuse: Refusal)
    ensures var i := FirstRefusal(kvs, refuse);
      WriteCollections(s, kvs, refuse)
        == (WriteAll(s, kvs[..i]), if i < |kvs| then refuse(kvs[i].0, kvs[i].1) else None)
    decreases |kvs|
  {
    if kvs != [] && refuse(kvs[0].0, kvs[0].1).None? {
      WriteCollectionsStopsAtFirstRefusal(s[kvs[0].0 := kvs[0].1], kvs[1..], refuse);
      var i := FirstRefusal(kvs[1..], refuse);
      assert kvs[..i + 1][1..] == kvs[1..][..i];
    }
  }

  /** The three SetKey calls, in order, leave the store WriteAll(s, Scalars(k)). */
  lemma ScalarsWritten(s: Store, k: Kubeconfig)
    ensures WriteAll(s, Scalars(k))
         == s["kind" := Text(k.kind)]["apiVersion" := Text(k.apiVersion)]["current-context" := Text(k.currentContext)]
  {
    var sc := Scalars(k);
    var s1 := s["kind" := Text(k.kind)];
    var s2 := s1["apiVersion" := Text(k.apiVersion)];
    assert WriteAll(s, sc) == WriteAll(s1, sc[1..]);
    assert WriteAll(s1, sc[1..]) == WriteAll(s2, sc[1..][1..]);
    assert WriteAll(s2, sc[1..][1..]) == WriteAll(s2["current-context" := Text(k.currentContext)], sc[1..][1..][1..]);
    assert sc[1..][1..][1..] == [];
  }

  /** A key that no pair of `kvs` names keeps what it had. */
  lemma {:induction false} WriteAllLeavesOtherKeys(s: Store, kvs: seq<(string, Value)>, key: string)
    requires forall j :: 0 <= j < |kvs| ==> kvs[j].0 != key
    ensures key in WriteAll(s, kvs) <==> key in s
    ensures key in s ==> WriteAll(s, kvs)[key] == s[key]
    decreases |kvs|
  {
    if kvs != [] {
      WriteAllLeavesOtherKeys(s[kvs[0].0 := kvs[0].1], kvs[1..], key);
    }
  }

  /** Writing `kvs` leaves the last value written under each of its keys. */
  lemma {:induction false} WriteAllWrites(s: Store, kvs: seq<(string, Value)>, j: nat)
    requires j < |kvs|
    requires forall m :: j < m < |kvs| ==> kvs[m].0 != kvs[j].0
    ensures kvs[j].0 in WriteAll(s, kvs) && WriteAll(s, kvs)[kvs[j].0] == kvs[j].1
    decreases |kvs|
  {
    if j == 0 {
      WriteAllLeavesOtherKeys(s[kvs[0].0 := kvs[0].1], kvs[1..], kvs[0].0);
    } else {
      WriteAllWrites(s[kvs[0].0 := kvs[0].1], kvs[1..], j - 1);
    }
  }

  /**
   * Within one payload that parses: the three scalars are written first and stay
   * written; the collections are written in order up to the first one SetObject
   * refuses; that one and every collection after it are left as they were.
   */
  lemma ScalarsBeforeCollections(s: Store, payload: string, parse: Parser, refuse: Refusal)
    requires parse(payload).Success?
    ensures var k := parse(payload).value;
      var i := FirstRefusal(Collections(k), refuse);
      var r := IngestOne(s, payload, parse, refuse);
      && r.0 == WriteAll(WriteAll(s, Scalars(k)), Collections(k)[..i])
      && r.1 == (if i < 4 then refuse(Collections(k)[i].0, Collections(k)[i].1) else None)
      && "kind" in r.0 && r.0["kind"] == Text(k.kind)
      && "apiVersion" in r.0 && r.0["apiVersion"] == Text(k.apiVersion)
      && "current-context" in r.0 && r.0["current-context"] == Text(k.currentContext)
      && forall j :: i <= j < 4 ==>
           (Collections(k)[j].0 in r.0 <==> Collections(k)[j].0 in s)
           && (Collections(k)[j].0 in s ==> r.0[Collections(k)[j].0] == s[Collections(k)[j].0])
  {
    var k := parse(payload).value;
    var cs := Collections(k);
    var i := FirstRefusal(cs, refuse);
    var s0 := WriteAll(s, Scalars(k));
    WriteCollectionsStopsAtFirstRefusal(s0, cs, refuse);
    var done := cs[..i];
    assert forall m :: 0 <= m < |done| ==> done[m].0 == cs[m].0;
    WriteAllWrites(s, Scalars(k), 0);
    WriteAllWrites(s, Scalars(k), 1);
    WriteAllWrites(s, Scalars(k), 2);
    WriteAllLeavesOtherKeys(s0, done, "kind");
    WriteAllLeavesOtherKeys(s0, done, "apiVersion");
    WriteAllLeavesOtherKeys(s0, done, "current-context");
    forall j | i <= j < 4
      ensures (cs[j].0 in WriteAll(s0, done) <==> cs[j].0 in s)
      ensures cs[j].0 in s ==> WriteAll(s0, done)[cs[j].0] == s[cs[j].0]
    {
      WriteAllLeavesOtherKeys(s, Scalars(k), cs[j].0);
      WriteAllLeavesOtherKeys(s0, done, cs[j].0);
    }
  }

  /** One payload records no error exactly when it is accepted. */
  lemma IngestOneAccepted(s: Store, payload: string, parse: Parser, refuse: Refusal)
    ensures IngestOne(s, payload, parse, refuse).1.None? <==> Accepted(payload, parse, refuse)
  {
    if parse(payload).Success? {
      ScalarsBeforeCollections(s, payload, parse, refuse);
    }
  }

  /** CreateKubeconfigs returns nil exactly when every payload is accepted. */
  lemma {:induction false} IngestAllSucceeds(s: Store, payloads: seq<string>, parse: Parser, refuse: Refusal)
    ensures Aggregate(IngestAll(s, payloads, parse, refuse).errs).None?
        <==> forall j :: 0 <= j < |payloads| ==> Accepted(payloads[j], parse, refuse)
    decreases |payloads|
  {
    if payloads != [] {
      var init := payloads[..|payloads| - 1];
      var last := payloads[|payloads| - 1];
      IngestAllSucceeds(s, init, parse, refuse);
      IngestOneAccepted(IngestAll(s, init, parse, refuse).store, last, parse, refuse);
      assert forall j :: 0 <= j < |init| ==> init[j] == payloads[j];
    }
  }

  /**
   * Later payloads are processed whatever happened to earlier ones: ingesting
   * `a + b` is ingesting `a`, then ingesting `b` from the store `a` left, and the
   * errors are those of `a` followed by those of `b`.
   */
  lemma {:induction false} IngestAllAppend(s: Store, a: seq<string>, b: seq<string>, parse: Parser, refuse: Refusal)
    ensures var ra := IngestAll(s, a, parse, refuse);
      var rb := IngestAll(ra.store, b, parse, refuse);
      IngestAll(s, a + b, parse, refuse) == Ingested(rb.store, ra.errs + rb.errs)
    decreases |b|
  {
    if b == [] {
      assert a + b == a;
    } else {
      var b' := b[..|b| - 1];
      IngestAllAppend(s, a, b', parse, refuse);
      assert (a + b)[..|a + b| - 1] == a + b';
      assert (a + b)[|a + b| - 1] == b[|b| - 1];
    }
  }

  /** A KubeconfigHandler: the key/value store the kubeconfig data is written into. */
  class KubeconfigHandler {
    const refuse: Refusal
    var store: Store

    constructor (refuse: Refusal)
      ensures this.refuse == refuse && store == map[]
    {
      this.refuse := refuse;
      store := map[];
    }

    method SetKey(key: string, value: string)
      modifies this
      ensures store == old(store)[key := Text(value)]
    {
      store := store[key := Text(value)];
    }

    method SetObject(key: string, value: Value) returns (err: Option<Error>)
      modifies this
      ensures err == refuse(key, value)
      ensures store == if err.None? then old(store)[key := value] else old(store)
    {
      err := refuse(key, value);
      if err.None? {
        store := store[key := value];
      }
    }
  }
}
