/** The labels that tie runtime resources to a run, a command and a role, and
  * the label filters sent to the container runtime.
  */
module Labels {
  import opened Wrappers
  import opened Uuids

  type LabelMap = map<string, string>

  const APP := "app"
  const APP_VALUE := "automation-executor"
  const RUN_ID := "automation-executor-run-id"
  const CMD_ID := "automation-executor-cmd-id"
  const CONTAINER_TYPE := "automation-executor-container-type"
  const PAYLOAD := "payload"
  const SUPPORT := "support"

  /** What an executor is built with; it never changes afterwards. */
  datatype Config = Config(
    runId: Uuid, extraLabels: LabelMap, extraMounts: map<string, string>, workspace: string)

  function RoleName(support: bool): string {
    if support then SUPPORT else PAYLOAD
  }

  function CommonLabels(cfg: Config): LabelMap {
    map[RUN_ID := Format(cfg.runId), APP := APP_VALUE]
  }

  /** Configured labels may replace common ones; `labels` replace both. */
  function ResourceLabels(cfg: Config, labels: LabelMap): LabelMap {
    CommonLabels(cfg) + cfg.extraLabels + labels
  }

  /** The labels of the container of command `id`. */
  function ContainerLabels(cfg: Config, id: Uuid, support: bool): LabelMap {
    ResourceLabels(cfg, map[CMD_ID := Format(id)])[CONTAINER_TYPE := RoleName(support)]
  }

  /** Queries leave the configured labels out: those may change between runs. */
  function QueryLabels(cfg: Config, support: bool): LabelMap {
    CommonLabels(cfg)[CONTAINER_TYPE := RoleName(support)]
  }

  function CommandIdOf(labels: LabelMap): Option<Uuid> {
    if CMD_ID !in labels then None
    else match Parse(labels[CMD_ID])
      case None => None
      case Some(id) => if IsNil(id) then None else Some(id)
  }

  function RoleOf(labels: LabelMap): Option<bool> {
    if CONTAINER_TYPE in labels then Some(labels[CONTAINER_TYPE] == SUPPORT) else None
  }

  /** A resource with labels `labels` answers a query. An empty value in the query asks for the key alone. */
  predicate Matches(query: LabelMap, labels: LabelMap) {
    forall k :: k in query ==> k in labels && (query[k] == "" || labels[k] == query[k])
  }

  /** The configured labels leave the two common keys as they are. */
  predicate KeepsCommon(cfg: Config) {
    forall k :: k in CommonLabels(cfg) && k in cfg.extraLabels ==> cfg.extraLabels[k] == CommonLabels(cfg)[k]
  }

  // --- builders that fill a map in place

  method BuildResourceLabels(cfg: Config, labels: LabelMap) returns (target: LabelMap)
    ensures target == ResourceLabels(cfg, labels)
  {
    hide CommonLabels;
    target := CommonLabels(cfg) + cfg.extraLabels;
    var pending := labels.Keys;
    while pending != {}
      invariant pending <= labels.Keys
      invariant target == ResourceLabels(cfg, Outside(labels, pending))
      decreases |pending|
    {
      var key :| key in pending;
      target := target[key := labels[key]];
      OneMore(cfg, labels, pending, key);
      pending := pending - {key};
    }
    assert Outside(labels, {}) == labels;
  }

  /** The entries whose key is not in `keys`. */
  ghost function Outside(labels: LabelMap, keys: set<string>): LabelMap {
    map k | k in labels && k !in keys :: labels[k]
  }

  lemma OneMore(cfg: Config, labels: LabelMap, keys: set<string>, key: string)
    requires key in keys && keys <= labels.Keys
    ensures ResourceLabels(cfg, Outside(labels, keys))[key := labels[key]]
      == ResourceLabels(cfg, Outside(labels, keys - {key}))
  {
    hide CommonLabels;
    assert Outside(labels, keys - {key}) == Outside(labels, keys)[key := labels[key]];
  }

  method BuildContainerLabels(cfg: Config, id: Uuid, support: bool) returns (target: LabelMap)
    ensures target == ContainerLabels(cfg, id, support)
  {
    target := BuildResourceLabels(cfg, map[CMD_ID := Format(id)]);
    target := target[CONTAINER_TYPE := RoleName(support)];
  }

  // --- the filter strings of the runtime's query interface

  function Filter(key: string, value: string): string {
    if value == "" then key else key + "=" + value
  }

  /** Index of the first '=' of `text`, or its length. */
  function FirstEquals(text: string): (i: nat)
    ensures i <= |text|
    ensures forall j :: 0 <= j < i ==> text[j] != '='
    ensures i < |text| ==> text[i] == '='
  {
    if text == "" || text[0] == '=' then 0
    else 1 + FirstEquals(text[1..])
  }

  /** How the runtime reads one filter: key up to the first '=', the rest is the value. */
  predicate FilterAccepts(filter: string, labels: LabelMap) {
    var i := FirstEquals(filter);
    var key := filter[..i];
    var value := if i == |filter| then "" else filter[i + 1..];
    key in labels && (value == "" || labels[key] == value)
  }

  /** One filter per entry of the query. */
  ghost predicate IsFilterList(query: LabelMap, filters: seq<string>) {
    forall f :: f in filters <==> exists k :: k in query && f == Filter(k, query[k])
  }

  predicate AcceptsAll(filters: seq<string>, labels: LabelMap) {
    forall f :: f in filters ==> FilterAccepts(f, labels)
  }

  method BuildLabelFilters(query: LabelMap) returns (filters: seq<string>)
    ensures |filters| == |query|
    ensures IsFilterList(query, filters)
  {
    filters := [];
    var pending := query.Keys;
    while pending != {}
      invariant pending <= query.Keys && |filters| + |pending| == |query.Keys|
      invariant forall f :: f in filters <==> exists k :: k in query && k !in pending && f == Filter(k, query[k])
      decreases |pending|
    {
      var key :| key in pending;
      filters := filters + [Filter(key, query[key])];
      pending := pending - {key};
    }
  }

  lemma FilterParts(key: string, value: string)
    requires '=' !in key
    ensures FirstEquals(Filter(key, value)) == |key|
    ensures Filter(key, value)[..|key|] == key
    ensures value != "" ==> Filter(key, value)[|key| + 1..] == value
  {
    var f := Filter(key, value);
    var i := FirstEquals(f);
    assert f[..|key|] == key;
    assert forall j :: 0 <= j < |key| ==> f[j] == key[j] && key[j] in key;
    assert value != "" ==> f[|key|] == '=';
  }

  /** The filters select exactly the resources that match the query, when no key contains '='. */
  lemma FiltersSelectMatches(query: LabelMap, filters: seq<string>, labels: LabelMap)
    requires forall k :: k in query ==> '=' !in k
    requires IsFilterList(query, filters)
    ensures AcceptsAll(filters, labels) <==> Matches(query, labels)
  {
    forall k | k in query
      ensures FilterAccepts(Filter(k, query[k]), labels)
         <==> k in labels && (query[k] == "" || labels[k] == query[k])
    {
      FilterParts(k, query[k]);
    }
    if AcceptsAll(filters, labels) {
      forall k | k in query
        ensures k in labels && (query[k] == "" || labels[k] == query[k])
      {
        assert Filter(k, query[k]) in filters;
      }
    }
  }

  /** The key the runtime reads contains no '='. */
  lemma ReadsAnotherKey(key: string, value: string)
    requires '=' in key
    ensures var i := FirstEquals(Filter(key, value));
      i < |key| && Filter(key, value)[..i] == key[..i] && '=' !in key[..i]
  {
    var f := Filter(key, value);
    var at :| 0 <= at < |key| && key[at] == '=';
    assert f[at] == '=';
    assert f[..FirstEquals(f)] == key[..FirstEquals(f)];
  }

  /** Taking a key with '=' away does not change what the filters say. */
  lemma SameWithout(query: LabelMap, key: string, k: string)
    requires '=' in key && k in query
    ensures FilterAccepts(Filter(k, query[k]), query - {key}) == FilterAccepts(Filter(k, query[k]), query)
  {
    if '=' in k {
      ReadsAnotherKey(k, query[k]);
    } else {
      FilterParts(k, query[k]);
    }
  }

  /** Labels that the filters judge wrongly: the query itself, or the query without the key. */
  function Misjudged(query: LabelMap, filters: seq<string>, key: string): LabelMap {
    if AcceptsAll(filters, query) then query - {key} else query
  }

  /** A key that contains '=' always breaks the agreement. */
  lemma EqualsMisjudges(query: LabelMap, filters: seq<string>, key: string)
    requires IsFilterList(query, filters) && key in query && '=' in key
    ensures var labels := Misjudged(query, filters, key); AcceptsAll(filters, labels) != Matches(query, labels)
  {
    forall f | f in filters ensures FilterAccepts(f, query - {key}) == FilterAccepts(f, query) {
      var k :| k in query && f == Filter(k, query[k]);
      SameWithout(query, key, k);
    }
  }

  /** The filters agree with the query on all labels if and only if no key of the query contains '='. */
  lemma FiltersAgreeWhen(query: LabelMap, filters: seq<string>)
    requires IsFilterList(query, filters)
    ensures (forall labels :: AcceptsAll(filters, labels) <==> Matches(query, labels))
      <==> forall k :: k in query ==> '=' !in k
  {
    if key :| key in query && '=' in key {
      EqualsMisjudges(query, filters, key);
    } else {
      forall labels ensures AcceptsAll(filters, labels) <==> Matches(query, labels) {
        FiltersSelectMatches(query, filters, labels);
      }
    }
  }

  /** A key with '=' in it breaks the agreement: here the runtime reads another key. */
  lemma FilterKeyWithEquals()
    ensures FilterAccepts(Filter("a=b", "c"), map["a" := "b=c"])
    ensures !Matches(map["a=b" := "c"], map["a" := "b=c"])
  {
    var f := Filter("a=b", "c");
    assert f == "a=b=c";
    assert FirstEquals(f) == 1 by {
      assert f[0] == 'a' && f[1] == '=';
      assert f[1..][0] == '=';
    }
    assert f[..1] == "a" && f[2..] == "b=c";
    assert "a=b" in map["a=b" := "c"];
    assert "a=b" !in map["a" := "b=c"] by { assert |"a=b"| != |"a"|; }
  }

  lemma NoEqualsInQueries(cfg: Config, support: bool)
    ensures forall k :: k in QueryLabels(cfg, support) || k in CommonLabels(cfg) ==> '=' !in k
  { }

  // --- which resources the executor's own queries find

  lemma DistinctKeys()
    ensures RUN_ID != APP && RUN_ID != CMD_ID && RUN_ID != CONTAINER_TYPE
    ensures APP != CMD_ID && APP != CONTAINER_TYPE && CMD_ID != CONTAINER_TYPE
    ensures PAYLOAD != SUPPORT
  {
    assert |RUN_ID| == |CMD_ID| && RUN_ID[20] == 'r' && CMD_ID[20] == 'c';
    assert |APP| == 3 && |RUN_ID| == 26 && |CONTAINER_TYPE| == 34;
    assert PAYLOAD[0] != SUPPORT[0];
  }

  /** The labels of a command's container, word by word: its role and id over the configured
    * labels over the two common ones.
    */
  lemma LabelsTell(cfg: Config, id: Uuid, support: bool)
    ensures ContainerLabels(cfg, id, support).Keys == cfg.extraLabels.Keys
      + {"app", "automation-executor-run-id", "automation-executor-cmd-id", "automation-executor-container-type"}
    ensures var labels := ContainerLabels(cfg, id, support);
      forall k :: k in labels ==>
        labels[k] ==
        if k == "automation-executor-container-type" then (if support then "support" else "payload")
        else if k == "automation-executor-cmd-id" then Format(id)
        else if k in cfg.extraLabels then cfg.extraLabels[k]
        else if k == "automation-executor-run-id" then Format(cfg.runId)
        else "automation-executor"
  {
    DistinctKeys();
  }

  /** What is read from a container's labels, word by word: an id that parses and is not all
    * zeros, and the support role exactly for the word `support`.
    */
  lemma ReadsTell(labels: LabelMap)
    ensures CommandIdOf(labels).Some? <==>
      && "automation-executor-cmd-id" in labels && Parse(labels["automation-executor-cmd-id"]).Some?
      && exists i :: 0 <= i < 32 && Parse(labels["automation-executor-cmd-id"]).value[i] != 0
    ensures CommandIdOf(labels).Some? ==> CommandIdOf(labels) == Parse(labels["automation-executor-cmd-id"])
    ensures RoleOf(labels).Some? <==> "automation-executor-container-type" in labels
    ensures RoleOf(labels) == Some(true) <==>
      "automation-executor-container-type" in labels && labels["automation-executor-container-type"] == "support"
  {
    hide Parse;
  }

  /** What the executor asks for: its role's containers, or its volumes, of its own run. */
  lemma QueriesTell(cfg: Config, support: bool)
    ensures QueryLabels(cfg, support) == map[
      "app" := "automation-executor", "automation-executor-run-id" := Format(cfg.runId),
      "automation-executor-container-type" := if support then "support" else "payload"]
    ensures CommonLabels(cfg) == map[
      "app" := "automation-executor", "automation-executor-run-id" := Format(cfg.runId)]
  {
    DistinctKeys();
  }

  /** A container built for one role is found by the query of that role only,
    * and only when the configuration keeps the common labels.
    */
  lemma QueryFindsContainer(cfg: Config, id: Uuid, built: bool, asked: bool)
    ensures Matches(QueryLabels(cfg, asked), ContainerLabels(cfg, id, built))
       <==> built == asked && KeepsCommon(cfg)
  {
    DistinctKeys();
    var query, labels := QueryLabels(cfg, asked), ContainerLabels(cfg, id, built);
    assert CONTAINER_TYPE in query && RUN_ID in query && APP in query;
    assert |query[RUN_ID]| == 36 && |query[APP]| == 19 && |query[CONTAINER_TYPE]| == 7;
  }

  lemma QueryFindsVolume(cfg: Config)
    ensures Matches(CommonLabels(cfg), ResourceLabels(cfg, map[])) <==> KeepsCommon(cfg)
  {
    DistinctKeys();
    var query := CommonLabels(cfg);
    assert RUN_ID in query && APP in query;
    assert |query[RUN_ID]| == 36 && |query[APP]| == 19;
  }

  /** The command id and the role written into the labels are read back. */
  lemma LabelsReadBack(cfg: Config, id: Uuid, support: bool)
    ensures CommandIdOf(ContainerLabels(cfg, id, support)) == if IsNil(id) then None else Some(id)
    ensures RoleOf(ContainerLabels(cfg, id, support)) == Some(support)
  {
    DistinctKeys();
    ParseFormat(id);
  }
}
