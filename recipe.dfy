/**
  The recipe entity of the installer and its normaliser: how the untyped YAML tree
  of a recipe document becomes an OpenInstallationRecipe (the custom UnmarshalYAML
  and its expand/to-by-field-name helpers), the capability queries on a recipe, and
  the package-level recipe variable map.

  Every unchecked Go type assertion `v.(T)` that fails is a runtime panic in the
  program; here it is the error TypeAssertionPanic, never a silently empty value.
 */
module RecipeTypes {
  import opened Wrappers
  import opened Errors
  import opened Yaml

  const InfraAgentRecipeName := "infrastructure-agent-installer"
  const LoggingRecipeName := "logs-integration"
  /** OpenInstallationTargetTypeTypes.HOST and .APPLICATION of the client library. */
  const HostTargetType := "HOST"
  const ApplicationTargetType := "APPLICATION"

  datatype InstallTarget = InstallTarget(
    targetType: string, os: string, platform: string, platformFamily: string,
    platformVersion: string, kernelVersion: string, kernelArch: string)

  datatype InputVariable = InputVariable(name: string, prompt: string, default: string, secret: bool)

  datatype LogAttributes = LogAttributes(logtype: string)

  datatype LogMatch = LogMatch(
    name: string, file: string, pattern: string, systemd: string, attributes: LogAttributes)

  datatype PreInstallConfig = PreInstallConfig(info: string, prompt: string)

  datatype PostInstallConfig = PostInstallConfig(info: string)

  datatype SuccessLinkConfig = SuccessLinkConfig(linkType: string, filter: string)

  /** OpenInstallationRecipe as a value (the Quickstarts field is commented out in the source and absent here). */
  datatype Recipe = Recipe(
    id: string, name: string, displayName: string, description: string,
    repository: string, file: string, dependencies: seq<string>,
    inputVars: seq<InputVariable>, install: string, installTargets: seq<InstallTarget>,
    keywords: seq<string>, logMatch: seq<LogMatch>, postInstall: PostInstallConfig,
    preInstall: PreInstallConfig, processMatch: seq<string>, stability: string,
    successLinkConfig: SuccessLinkConfig, validationNrql: string)

  const ZeroTarget := InstallTarget("", "", "", "", "", "", "")
  const ZeroInputVariable := InputVariable("", "", "", false)
  const ZeroLogMatch := LogMatch("", "", "", "", LogAttributes(""))

  /** The Go zero value of OpenInstallationRecipe. */
  const ZeroRecipe := Recipe(
    "", "", "", "", "", "", [], [], "", [], [], [], PostInstallConfig(""),
    PreInstallConfig("", ""), [], "", SuccessLinkConfig("", ""), "")

  // ---------------------------------------------------------------------------
  // Scalar fields of a string-keyed map

  /** toStringByFieldName: "" when the key is absent, the string when it is one, a panic otherwise. */
  function ToStringByFieldName(fieldName: string, data: StrMap): (r: Result<string, Error>)
    ensures fieldName !in data ==> r == Success("")
    ensures fieldName in data ==> (r.Success? <==> data[fieldName].Str?)
    ensures fieldName in data && r.Success? ==> r.value == data[fieldName].s
    ensures r.Failure? ==> r.error == TypeAssertionPanic
  {
    if fieldName !in data then Success("")
    else if data[fieldName].Str? then Success(data[fieldName].s)
    else Failure(TypeAssertionPanic)
  }

  /** toBoolByFieldName: false when the key is absent, the bool when it is one, a panic otherwise. */
  function ToBoolByFieldName(fieldName: string, data: StrMap): (r: Result<bool, Error>)
    ensures fieldName !in data ==> r == Success(false)
    ensures fieldName in data ==> (r.Success? <==> data[fieldName].Bool?)
    ensures fieldName in data && r.Success? ==> r.value == data[fieldName].b
    ensures r.Failure? ==> r.error == TypeAssertionPanic
  {
    if fieldName !in data then Success(false)
    else if data[fieldName].Bool? then Success(data[fieldName].b)
    else Failure(TypeAssertionPanic)
  }

  // ---------------------------------------------------------------------------
  // Re-keying a map[interface{}]interface{} into a map[string]interface{}

  /** `v.(map[interface{}]interface{})` then `out[k.(string)] = v` for every entry, in entry order. */
  function StringKeyed(v: Node): (r: Result<StrMap, Error>)
    ensures r.Failure? ==> r.error == TypeAssertionPanic
  {
    if v.Map? then StringKeyedEntries(v.entries) else Failure(TypeAssertionPanic)
  }

  function StringKeyedEntries(entries: seq<(Node, Node)>): (r: Result<StrMap, Error>)
    ensures r.Failure? ==> r.error == TypeAssertionPanic
  {
    if entries == [] then Success(map[])
    else
      var init :- StringKeyedEntries(entries[..|entries| - 1]);
      var (k, x) := entries[|entries| - 1];
      if k.Str? then Success(init[k.s := x]) else Failure(TypeAssertionPanic)
  }

  /** A mapping re-keys exactly when all of its keys are strings; the result has exactly those keys. */
  lemma {:induction false} StringKeyedEntriesKeys(entries: seq<(Node, Node)>)
    ensures StringKeyedEntries(entries).Success? <==> forall i | 0 <= i < |entries| :: entries[i].0.Str?
    ensures StringKeyedEntries(entries).Success? ==>
      forall k :: k in StringKeyedEntries(entries).value <==> exists i | 0 <= i < |entries| :: entries[i].0 == Str(k)
  {
    if entries != [] {
      var init := entries[..|entries| - 1];
      StringKeyedEntriesKeys(init);
      assert forall i | 0 <= i < |init| :: init[i] == entries[i];
    }
  }

  /** The re-keying loop over one mapping. */
  method ToStringKeyed(v: Node) returns (r: Result<StrMap, Error>)
    ensures r == StringKeyed(v)
  {
    if !v.Map? {
      return Failure(TypeAssertionPanic);
    }
    var entries := v.entries;
    var out: StrMap := map[];
    for i := 0 to |entries|
      invariant StringKeyedEntries(entries[..i]) == Success(out)
    {
      var (k, x) := entries[i];
      assert entries[..i + 1][..i] == entries[..i];
      if !k.Str? {
        StringKeyedPrefixFailure(entries, i + 1);
        return Failure(TypeAssertionPanic);
      }
      out := out[k.s := x];
    }
    assert entries[..|entries|] == entries;
    return Success(out);
  }

  lemma {:induction false} StringKeyedPrefixFailure(entries: seq<(Node, Node)>, n: nat)
    requires n <= |entries|
    requires StringKeyedEntries(entries[..n]).Failure?
    ensures StringKeyedEntries(entries) == Failure(TypeAssertionPanic)
  {
    if n < |entries| {
      assert entries[..|entries| - 1][..n] == entries[..n];
      StringKeyedPrefixFailure(entries[..|entries| - 1], n);
    } else {
      assert entries[..n] == entries;
    }
  }

  // ---------------------------------------------------------------------------
  // List-of-strings fields: dependencies, keywords, processMatch

  /** interfaceSliceToStringSlice: every element asserted to be a string, in order. */
  function StringsOf(slice: seq<Node>): (r: Result<seq<string>, Error>)
    ensures r.Success? <==> forall i | 0 <= i < |slice| :: slice[i].Str?
    ensures r.Success? ==> |r.value| == |slice| && forall i | 0 <= i < |slice| :: r.value[i] == slice[i].s
    ensures r.Failure? ==> r.error == TypeAssertionPanic
  {
    if forall i | 0 <= i < |slice| :: slice[i].Str? then
      Success(seq(|slice|, i requires 0 <= i < |slice| => slice[i].s))
    else Failure(TypeAssertionPanic)
  }

  method InterfaceSliceToStringSlice(slice: seq<Node>) returns (r: Result<seq<string>, Error>)
    ensures r.Success? <==> forall i | 0 <= i < |slice| :: slice[i].Str?
    ensures r.Success? ==> |r.value| == |slice| && forall i | 0 <= i < |slice| :: r.value[i] == slice[i].s
    ensures r == StringsOf(slice)
  {
    var out := new string[|slice|];
    for i := 0 to |slice|
      invariant forall j | 0 <= j < i :: slice[j].Str? && out[j] == slice[j].s
    {
      if !slice[i].Str? {
        return Failure(TypeAssertionPanic);
      }
      out[i] := slice[i].s;
    }
    assert out[..] == seq(|slice|, i requires 0 <= i < |slice| => slice[i].s);
    return Success(out[..]);
  }

  /** `recipe[key].([]interface{})` then interfaceSliceToStringSlice: an absent or non-list value panics. */
  function StringListField(recipe: StrMap, key: string): (r: Result<seq<string>, Error>)
    ensures r.Failure? ==> r.error == TypeAssertionPanic
    ensures key !in recipe ==> r == Failure(TypeAssertionPanic)
    ensures key in recipe && !recipe[key].List? ==> r == Failure(TypeAssertionPanic)
    ensures key in recipe && recipe[key].List? ==> r == StringsOf(recipe[key].items)
    ensures r.Success? ==> key in recipe && recipe[key].List? && r == StringsOf(recipe[key].items)
  {
    if key in recipe && recipe[key].List? then StringsOf(recipe[key].items)
    else Failure(TypeAssertionPanic)
  }

  method ReadStringList(recipe: StrMap, key: string) returns (r: Result<seq<string>, Error>)
    ensures r == StringListField(recipe, key)
  {
    if key !in recipe || !recipe[key].List? {
      return Failure(TypeAssertionPanic);
    }
    r := InterfaceSliceToStringSlice(recipe[key].items);
  }

  // ---------------------------------------------------------------------------
  // List-of-mappings fields: installTargets, inputVars, logMatch

  /**
    Building every re-keyed element in order (the second loop of each expand helper);
    the first element that fails to build decides the failure.
   */
  function BuildAll<T>(maps: seq<StrMap>, build: StrMap -> Result<T, Error>): (r: Result<seq<T>, Error>)
    ensures r.Failure? ==> r.error == TypeAssertionPanic
  {
    if maps == [] then Success([])
    else
      var init :- BuildAll(maps[..|maps| - 1], build);
      var last := build(maps[|maps| - 1]);
      if last.Failure? then Failure(TypeAssertionPanic) else Success(init + [last.value])
  }

  /**
    expandInstallTargets / expandInputVars / expandLogMatch: an absent key gives an
    empty list; otherwise the value must be a list whose elements are all mappings
    with string keys (first loop), and each element is then built (second loop).
   */
  function ExpandedList<T>(recipe: StrMap, key: string, build: StrMap -> Result<T, Error>): (r: Result<seq<T>, Error>)
    ensures r.Failure? ==> r.error == TypeAssertionPanic
  {
    if key !in recipe then Success([])
    else if !recipe[key].List? then Failure(TypeAssertionPanic)
    else
      var items := recipe[key].items;
      if exists i | 0 <= i < |items| :: StringKeyed(items[i]).Failure? then Failure(TypeAssertionPanic)
      else BuildAll(seq(|items|, i requires 0 <= i < |items| => StringKeyed(items[i]).value), build)
  }

  /** BuildAll succeeds iff every element builds, and then element i is built from map i alone. */
  lemma {:induction false} BuildAllIndexwise<T>(maps: seq<StrMap>, build: StrMap -> Result<T, Error>)
    ensures BuildAll(maps, build).Success? <==> forall i | 0 <= i < |maps| :: build(maps[i]).Success?
    ensures BuildAll(maps, build).Success? ==>
      |BuildAll(maps, build).value| == |maps| &&
      forall i | 0 <= i < |maps| :: BuildAll(maps, build).value[i] == build(maps[i]).value
  {
    if maps != [] {
      var init := maps[..|maps| - 1];
      BuildAllIndexwise(init, build);
      assert forall i | 0 <= i < |init| :: init[i] == maps[i];
    }
  }

  lemma {:induction false} BuildAllPrefixFailure<T>(maps: seq<StrMap>, n: nat, build: StrMap -> Result<T, Error>)
    requires n <= |maps|
    requires BuildAll(maps[..n], build).Failure?
    ensures BuildAll(maps, build) == BuildAll(maps[..n], build)
  {
    if n < |maps| {
      assert maps[..|maps| - 1][..n] == maps[..n];
      BuildAllPrefixFailure(maps[..|maps| - 1], n, build);
    } else {
      assert maps[..n] == maps;
    }
  }

  /**
    The list-field contract: no key gives [], a present key gives a list of exactly the
    input's length whose element i is built from input element i only.
   */
  lemma ExpandedListShape<T>(recipe: StrMap, key: string, build: StrMap -> Result<T, Error>)
    ensures key !in recipe ==> ExpandedList(recipe, key, build) == Success([])
    ensures key in recipe && !recipe[key].List? ==> ExpandedList(recipe, key, build) == Failure(TypeAssertionPanic)
    ensures key in recipe && recipe[key].List? && ExpandedList(recipe, key, build).Success? ==>
      var items := recipe[key].items;
      var out := ExpandedList(recipe, key, build).value;
      |out| == |items| &&
      forall i | 0 <= i < |items| ::
        && StringKeyed(items[i]).Success?
        && build(StringKeyed(items[i]).value).Success?
        && out[i] == build(StringKeyed(items[i]).value).value
  {
    if key in recipe && recipe[key].List? {
      var items := recipe[key].items;
      if forall i | 0 <= i < |items| :: StringKeyed(items[i]).Success? {
        var maps := seq(|items|, i requires 0 <= i < |items| => StringKeyed(items[i]).value);
        assert ExpandedList(recipe, key, build) == BuildAll(maps, build);
        BuildAllIndexwise(maps, build);
        assert forall i | 0 <= i < |items| :: maps[i] == StringKeyed(items[i]).value;
      }
    }
  }

  /** An element mapping with no keys (dataz[i] left nil) reads as the empty map. */
  lemma EmptyElementIsEmptyMap()
    ensures StringKeyed(Map([])) == Success(map[])
  {
  }

  /** The first loop of each expand helper: assert every element is a mapping and re-key it into dataz. */
  method ElementMaps(items: seq<Node>) returns (r: Result<seq<StrMap>, Error>)
    ensures r.Success? <==> forall i | 0 <= i < |items| :: StringKeyed(items[i]).Success?
    ensures r.Success? ==> r.value == seq(|items|, i requires 0 <= i < |items| => StringKeyed(items[i]).value)
    ensures r.Failure? ==> r.error == TypeAssertionPanic
  {
    var dataz := new StrMap[|items|](_ => map[]);
    for i := 0 to |items|
      invariant forall j | 0 <= j < i :: StringKeyed(items[j]).Success? && dataz[j] == StringKeyed(items[j]).value
      invariant forall j | i <= j < |items| :: dataz[j] == map[]
    {
      var varr := ToStringKeyed(items[i]);
      if varr.Failure? {
        return Failure(TypeAssertionPanic);
      }
      if |varr.value| > 0 {
        dataz[i] := varr.value;
      } else {
        assert varr.value == map[];
      }
    }
    assert dataz[..] == seq(|items|, i requires 0 <= i < |items| => StringKeyed(items[i]).value);
    return Success(dataz[..]);
  }

  /** The second loop of expandInstallTargets and expandInputVars: build element i into dataOut[i]. */
  method BuildEach<T(0)>(maps: seq<StrMap>, build: StrMap -> Result<T, Error>) returns (r: Result<seq<T>, Error>)
    ensures r == BuildAll(maps, build)
  {
    var dataOut := new T[|maps|];
    for i := 0 to |maps|
      invariant BuildAll(maps[..i], build) == Success(dataOut[..i])
    {
      assert maps[..i + 1][..i] == maps[..i];
      assert maps[..i + 1][i] == maps[i];
      var vOut := build(maps[i]);
      if vOut.Failure? {
        BuildAllPrefixFailure(maps, i + 1, build);
        return Failure(TypeAssertionPanic);
      }
      ghost var done := dataOut[..i];
      dataOut[i] := vOut.value;
      assert dataOut[..i + 1] == done + [vOut.value];
    }
    assert maps[..|maps|] == maps;
    assert dataOut[..] == dataOut[..|maps|];
    return Success(dataOut[..]);
  }

  /** One install target: the three version/arch strings, then os, platform, platformFamily and type. */
  function InstallTargetOf(v: StrMap): Result<InstallTarget, Error>
  {
    var kernelArch :- ToStringByFieldName("kernelArch", v);
    var kernelVersion :- ToStringByFieldName("kernelVersion", v);
    var platformVersion :- ToStringByFieldName("platformVersion", v);
    var os :- ToStringByFieldName("os", v);
    var platform :- ToStringByFieldName("platform", v);
    var platformFamily :- ToStringByFieldName("platformFamily", v);
    var targetType :- ToStringByFieldName("type", v);
    Success(InstallTarget(targetType, os, platform, platformFamily, platformVersion, kernelVersion, kernelArch))
  }

  /** One input variable: default, name and prompt strings and the secret flag. */
  function InputVariableOf(v: StrMap): Result<InputVariable, Error>
  {
    var default :- ToStringByFieldName("default", v);
    var name :- ToStringByFieldName("name", v);
    var prompt :- ToStringByFieldName("prompt", v);
    var secret :- ToBoolByFieldName("secret", v);
    Success(InputVariable(name, prompt, default, secret))
  }

  /** The string-to-string pairs of a log-match `attributes` mapping: keys and values must all be strings. */
  function StringPairs(entries: seq<(Node, Node)>): (r: Result<map<string, string>, Error>)
    ensures r.Success? <==> forall i | 0 <= i < |entries| :: entries[i].0.Str? && entries[i].1.Str?
    ensures r.Failure? ==> r.error == TypeAssertionPanic
  {
    if entries == [] then Success(map[])
    else
      var init :- StringPairs(entries[..|entries| - 1]);
      var (k, x) := entries[|entries| - 1];
      if k.Str? && x.Str? then Success(init[k.s := x.s]) else Failure(TypeAssertionPanic)
  }

  /** The string pairs hold exactly the entries' keys, each bound to the value of one of its entries. */
  lemma {:induction false} StringPairsEntries(entries: seq<(Node, Node)>)
    requires StringPairs(entries).Success?
    ensures forall k :: k in StringPairs(entries).value <==> exists i | 0 <= i < |entries| :: entries[i].0 == Str(k)
    ensures forall k | k in StringPairs(entries).value ::
      exists i | 0 <= i < |entries| :: entries[i] == (Str(k), Str(StringPairs(entries).value[k]))
  {
    if entries != [] {
      var init := entries[..|entries| - 1];
      StringPairsEntries(init);
      assert forall i | 0 <= i < |init| :: init[i] == entries[i];
      var last := entries[|entries| - 1];
      assert StringPairs(entries).value == StringPairs(init).value[last.0.s := last.1.s];
    }
  }

  /**
    expandLogAttributes: no `attributes` key gives an empty logtype; otherwise the value
    must be a mapping of strings to strings, and only its `logtype` entry is kept.
   */
  function LogAttributesOf(data: StrMap): (r: Result<LogAttributes, Error>)
    ensures "attributes" !in data ==> r == Success(LogAttributes(""))
    ensures "attributes" in data && !data["attributes"].Map? ==> r == Failure(TypeAssertionPanic)
    ensures "attributes" in data && data["attributes"].Map? ==>
      var es := data["attributes"].entries;
      && (r.Success? <==> forall i | 0 <= i < |es| :: es[i].0.Str? && es[i].1.Str?)
      && (r.Success? && (forall i | 0 <= i < |es| :: es[i].0 != Str("logtype")) ==> r.value.logtype == "")
      && (r.Success? && (exists i | 0 <= i < |es| :: es[i].0 == Str("logtype")) ==>
            exists i | 0 <= i < |es| :: es[i] == (Str("logtype"), Str(r.value.logtype)))
    ensures r.Failure? ==> r.error == TypeAssertionPanic
  {
    if "attributes" !in data then Success(LogAttributes(""))
    else if !data["attributes"].Map? then Failure(TypeAssertionPanic)
    else
      var attrs :- StringPairs(data["attributes"].entries);
      StringPairsEntries(data["attributes"].entries);
      Success(LogAttributes(if "logtype" in attrs then attrs["logtype"] else ""))
  }

  /** Of a log match's attributes only `logtype` is kept; any other string attribute is dropped. */
  lemma LogtypeIsKept(data: StrMap, logtype: string, other: string)
    requires other != "logtype"
    requires "attributes" in data
    requires data["attributes"] == Map([(Str(other), Str("x")), (Str("logtype"), Str(logtype))])
    ensures LogAttributesOf(data) == Success(LogAttributes(logtype))
  {
    var es := data["attributes"].entries;
    assert es[..1][..0] == [];
    assert StringPairs(es[..1]) == Success(map[other := "x"]);
    assert StringPairs(es) == Success(map[other := "x"]["logtype" := logtype]);
  }

  method ExpandLogAttributes(data: StrMap) returns (r: Result<LogAttributes, Error>)
    ensures r == LogAttributesOf(data)
  {
    if "attributes" !in data {
      return Success(LogAttributes(""));
    }
    var v := data["attributes"];
    if !v.Map? {
      return Failure(TypeAssertionPanic);
    }
    var attrs := v.entries;
    var attrsOut: map<string, string> := map[];
    for i := 0 to |attrs|
      invariant StringPairs(attrs[..i]) == Success(attrsOut)
    {
      var (k, x) := attrs[i];
      assert attrs[..i + 1][..i] == attrs[..i];
      if !k.Str? || !x.Str? {
        StringPairsPrefixFailure(attrs, i + 1);
        return Failure(TypeAssertionPanic);
      }
      attrsOut := attrsOut[k.s := x.s];
    }
    assert attrs[..|attrs|] == attrs;
    var logtype := "";
    if "logtype" in attrsOut {
      logtype := attrsOut["logtype"];
    }
    return Success(LogAttributes(logtype));
  }

  lemma {:induction false} StringPairsPrefixFailure(entries: seq<(Node, Node)>, n: nat)
    requires n <= |entries|
    requires StringPairs(entries[..n]).Failure?
    ensures StringPairs(entries) == StringPairs(entries[..n])
  {
    if n < |entries| {
      assert entries[..|entries| - 1][..n] == entries[..n];
      StringPairsPrefixFailure(entries[..|entries| - 1], n);
    } else {
      assert entries[..n] == entries;
    }
  }

  /** One log-match entry: attributes, then file, name, pattern and systemd. */
  function LogMatchOf(v: StrMap): Result<LogMatch, Error>
  {
    var attributes :- LogAttributesOf(v);
    var file :- ToStringByFieldName("file", v);
    var name :- ToStringByFieldName("name", v);
    var pattern :- ToStringByFieldName("pattern", v);
    var systemd :- ToStringByFieldName("systemd", v);
    Success(LogMatch(name, file, pattern, systemd, attributes))
  }

  /** An element mapping with no keys gives a target, variable and log match whose fields are all empty. */
  lemma EmptyElementsAreZero()
    ensures InstallTargetOf(map[]) == Success(ZeroTarget)
    ensures InputVariableOf(map[]) == Success(ZeroInputVariable)
    ensures LogMatchOf(map[]) == Success(ZeroLogMatch)
  {
  }

  method ExpandInstallTargets(recipe: StrMap) returns (r: Result<seq<InstallTarget>, Error>)
    ensures r == ExpandedList(recipe, "installTargets", InstallTargetOf)
  {
    if "installTargets" !in recipe {
      return Success([]);
    }
    if !recipe["installTargets"].List? {
      return Failure(TypeAssertionPanic);
    }
    var dataz := ElementMaps(recipe["installTargets"].items);
    if dataz.Failure? {
      return Failure(dataz.error);
    }
    r := BuildEach(dataz.value, InstallTargetOf);
  }

  method ExpandInputVars(recipe: StrMap) returns (r: Result<seq<InputVariable>, Error>)
    ensures r == ExpandedList(recipe, "inputVars", InputVariableOf)
  {
    if "inputVars" !in recipe {
      return Success([]);
    }
    if !recipe["inputVars"].List? {
      return Failure(TypeAssertionPanic);
    }
    var varz := ElementMaps(recipe["inputVars"].items);
    if varz.Failure? {
      return Failure(varz.error);
    }
    r := BuildEach(varz.value, InputVariableOf);
  }

  /** The body of expandLogMatch's second loop: the attributes, then the four strings of one entry. */
  method ReadLogMatch(v: StrMap) returns (r: Result<LogMatch, Error>)
    ensures r == LogMatchOf(v)
  {
    var attributes := ExpandLogAttributes(v);
    var file := ToStringByFieldName("file", v);
    var name := ToStringByFieldName("name", v);
    var pattern := ToStringByFieldName("pattern", v);
    var systemd := ToStringByFieldName("systemd", v);
    if attributes.Failure? || file.Failure? || name.Failure? || pattern.Failure? || systemd.Failure? {
      return Failure(TypeAssertionPanic);
    }
    return Success(LogMatch(name.value, file.value, pattern.value, systemd.value, attributes.value));
  }

  method ExpandLogMatch(recipe: StrMap) returns (r: Result<seq<LogMatch>, Error>)
    ensures r == ExpandedList(recipe, "logMatch", LogMatchOf)
  {
    if "logMatch" !in recipe {
      return Success([]);
    }
    if !recipe["logMatch"].List? {
      return Failure(TypeAssertionPanic);
    }
    var dataz := ElementMaps(recipe["logMatch"].items);
    if dataz.Failure? {
      return Failure(dataz.error);
    }
    var maps := dataz.value;
    var dataOut := new LogMatch[|maps|];
    for i := 0 to |maps|
      invariant BuildAll(maps[..i], LogMatchOf) == Success(dataOut[..i])
    {
      assert maps[..i + 1][..i] == maps[..i];
      assert maps[..i + 1][i] == maps[i];
      var vOut := ReadLogMatch(maps[i]);
      if vOut.Failure? {
        BuildAllPrefixFailure(maps, i + 1, LogMatchOf);
        return Failure(TypeAssertionPanic);
      }
      ghost var done := dataOut[..i];
      dataOut[i] := vOut.value;
      assert dataOut[..i + 1] == done + [vOut.value];
    }
    assert maps[..|maps|] == maps;
    assert dataOut[..] == dataOut[..|maps|];
    return Success(dataOut[..]);
  }

  // ---------------------------------------------------------------------------
  // Single-mapping fields: install, preInstall, postInstall, successLinkConfig

  /** expandInstalllMapToString: `install` is required, re-keyed, then rendered to YAML text. */
  function InstallText(codec: Codec, recipe: StrMap): (r: Result<string, Error>)
    ensures "install" !in recipe ==> r == Failure(MissingInstall)
    ensures r.Success? ==> "install" in recipe && StringKeyed(recipe["install"]).Success?
                           && codec.render(StringKeyed(recipe["install"]).value) == Success(r.value)
    ensures "install" in recipe && StringKeyed(recipe["install"]).Failure? ==> r == Failure(TypeAssertionPanic)
    ensures "install" in recipe && StringKeyed(recipe["install"]).Success? ==>
      var rendered := codec.render(StringKeyed(recipe["install"]).value);
      && (rendered.Success? ==> r == Success(rendered.value))
      && (rendered.Failure? ==> r == Failure(InstallMarshal(rendered.error)))
  {
    if "install" !in recipe then Failure(MissingInstall)
    else
      var installOut :- StringKeyed(recipe["install"]);
      match codec.render(installOut)
      case Success(text) => Success(text)
      case Failure(detail) => Failure(InstallMarshal(detail))
  }

  method ExpandInstallMapToString(codec: Codec, recipe: StrMap) returns (r: Result<string, Error>)
    ensures r == InstallText(codec, recipe)
  {
    if "install" !in recipe {
      return Failure(MissingInstall);
    }
    var installOut := ToStringKeyed(recipe["install"]);
    if installOut.Failure? {
      return Failure(installOut.error);
    }
    var rendered := codec.render(installOut.value);
    if rendered.Failure? {
      return Failure(InstallMarshal(rendered.error));
    }
    return Success(rendered.value);
  }

  /**
    expandPreInstall: no key gives the empty config; otherwise the value is re-keyed and
    `info` and `prompt` are read from it as strings ("" when absent).
   */
  function PreInstallOf(recipe: StrMap): (r: Result<PreInstallConfig, Error>)
    ensures "preInstall" !in recipe ==> r == Success(PreInstallConfig("", ""))
    ensures "preInstall" in recipe && StringKeyed(recipe["preInstall"]).Failure? ==> r == Failure(TypeAssertionPanic)
    ensures "preInstall" in recipe && StringKeyed(recipe["preInstall"]).Success? ==>
      var m := StringKeyed(recipe["preInstall"]).value;
      && (r.Success? <==> ToStringByFieldName("info", m).Success? && ToStringByFieldName("prompt", m).Success?)
      && (r.Success? ==> Success(r.value.info) == ToStringByFieldName("info", m))
      && (r.Success? ==> Success(r.value.prompt) == ToStringByFieldName("prompt", m))
    ensures r.Failure? ==> r.error == TypeAssertionPanic
  {
    if "preInstall" !in recipe then Success(PreInstallConfig("", ""))
    else
      var infoOut :- StringKeyed(recipe["preInstall"]);
      var info :- ToStringByFieldName("info", infoOut);
      var prompt :- ToStringByFieldName("prompt", infoOut);
      Success(PreInstallConfig(info, prompt))
  }

  method ExpandPreInstall(recipe: StrMap) returns (r: Result<PreInstallConfig, Error>)
    ensures r == PreInstallOf(recipe)
  {
    if "preInstall" !in recipe {
      return Success(PreInstallConfig("", ""));
    }
    var infoOut :- ToStringKeyed(recipe["preInstall"]);
    var info :- ToStringByFieldName("info", infoOut);
    var prompt :- ToStringByFieldName("prompt", infoOut);
    return Success(PreInstallConfig(info, prompt));
  }

  /** expandPostInstall: no key gives the empty config; otherwise `info` is read from the re-keyed value. */
  function PostInstallOf(recipe: StrMap): (r: Result<PostInstallConfig, Error>)
    ensures "postInstall" !in recipe ==> r == Success(PostInstallConfig(""))
    ensures "postInstall" in recipe && StringKeyed(recipe["postInstall"]).Failure? ==> r == Failure(TypeAssertionPanic)
    ensures "postInstall" in recipe && StringKeyed(recipe["postInstall"]).Success? ==>
      var m := StringKeyed(recipe["postInstall"]).value;
      && (r.Success? <==> ToStringByFieldName("info", m).Success?)
      && (r.Success? ==> Success(r.value.info) == ToStringByFieldName("info", m))
    ensures r.Failure? ==> r.error == TypeAssertionPanic
  {
    if "postInstall" !in recipe then Success(PostInstallConfig(""))
    else
      var infoOut :- StringKeyed(recipe["postInstall"]);
      var info :- ToStringByFieldName("info", infoOut);
      Success(PostInstallConfig(info))
  }

  method ExpandPostInstall(recipe: StrMap) returns (r: Result<PostInstallConfig, Error>)
    ensures r == PostInstallOf(recipe)
  {
    if "postInstall" !in recipe {
      return Success(PostInstallConfig(""));
    }
    var infoOut :- ToStringKeyed(recipe["postInstall"]);
    var info :- ToStringByFieldName("info", infoOut);
    return Success(PostInstallConfig(info));
  }

  /**
    expandSuccessLinkConfig: no key gives the empty config; otherwise `filter` and the
    optional `type` are read from the re-keyed value as strings ("" when absent).
   */
  function SuccessLinkConfigOf(recipe: StrMap): (r: Result<SuccessLinkConfig, Error>)
    ensures "successLinkConfig" !in recipe ==> r == Success(SuccessLinkConfig("", ""))
    ensures "successLinkConfig" in recipe && StringKeyed(recipe["successLinkConfig"]).Failure? ==>
      r == Failure(TypeAssertionPanic)
    ensures "successLinkConfig" in recipe && StringKeyed(recipe["successLinkConfig"]).Success? ==>
      var m := StringKeyed(recipe["successLinkConfig"]).value;
      && (r.Success? <==> ToStringByFieldName("filter", m).Success? && ToStringByFieldName("type", m).Success?)
      && (r.Success? ==> Success(r.value.filter) == ToStringByFieldName("filter", m))
      && (r.Success? ==> Success(r.value.linkType) == ToStringByFieldName("type", m))
    ensures r.Failure? ==> r.error == TypeAssertionPanic
  {
    if "successLinkConfig" !in recipe then Success(SuccessLinkConfig("", ""))
    else
      var reData :- StringKeyed(recipe["successLinkConfig"]);
      var filter :- ToStringByFieldName("filter", reData);
      var linkType :- ToStringByFieldName("type", reData);
      Success(SuccessLinkConfig(linkType, filter))
  }

  /** The pre-install strings are read by key, whatever order the mapping lists them in. */
  lemma PreInstallReadsByKey(recipe: StrMap, info: string, prompt: string)
    requires "preInstall" in recipe
    requires recipe["preInstall"] == Map([(Str("prompt"), Str(prompt)), (Str("info"), Str(info))])
    ensures PreInstallOf(recipe) == Success(PreInstallConfig(info, prompt))
  {
    var es := recipe["preInstall"].entries;
    assert es[..1][..0] == [];
    assert StringKeyedEntries(es[..1]) == Success(map["prompt" := Str(prompt)]);
    assert StringKeyed(recipe["preInstall"]) == Success(map["prompt" := Str(prompt)]["info" := Str(info)]);
  }

  /** The success-link strings are read by key: `type` becomes the link type and `filter` the filter. */
  lemma SuccessLinkReadsByKey(recipe: StrMap, linkType: string, filter: string)
    requires "successLinkConfig" in recipe
    requires recipe["successLinkConfig"] == Map([(Str("type"), Str(linkType)), (Str("filter"), Str(filter))])
    ensures SuccessLinkConfigOf(recipe) == Success(SuccessLinkConfig(linkType, filter))
  {
    var es := recipe["successLinkConfig"].entries;
    assert es[..1][..0] == [];
    assert StringKeyedEntries(es[..1]) == Success(map["type" := Str(linkType)]);
    assert StringKeyed(recipe["successLinkConfig"]) == Success(map["type" := Str(linkType)]["filter" := Str(filter)]);
  }

  method ExpandSuccessLinkConfig(recipe: StrMap) returns (r: Result<SuccessLinkConfig, Error>)
    ensures r == SuccessLinkConfigOf(recipe)
  {
    if "successLinkConfig" !in recipe {
      return Success(SuccessLinkConfig("", ""));
    }
    var reData :- ToStringKeyed(recipe["successLinkConfig"]);
    var filter :- ToStringByFieldName("filter", reData);
    var linkType := "";
    if "type" in reData {
      if !reData["type"].Str? {
        return Failure(TypeAssertionPanic);
      }
      linkType := reData["type"].s;
    }
    return Success(SuccessLinkConfig(linkType, filter));
  }

  // ---------------------------------------------------------------------------
  // The whole document

  /**
    How the yaml library decodes a mapping key into a Go string: a string is itself, a
    bool its text, a number or timestamp the text it was written with and null the empty
    string; a list or a mapping cannot be a string key.
   */
  function KeyText(k: Node): (t: Option<string>)
    ensures k.Str? ==> t == Some(k.s)
    ensures t.None? <==> k.List? || k.Map?
  {
    match k
    case Str(s) => Some(s)
    case Bool(b) => Some(if b then "true" else "false")
    case Null => Some("")
    case Num(text) => Some(text)
    case _ => None
  }

  /** The entries of the top-level mapping, each key decoded with KeyText; a later entry overrides an earlier one. */
  function TopEntries(entries: seq<(Node, Node)>): (r: Result<StrMap, Error>)
    ensures r.Success? <==> forall i | 0 <= i < |entries| :: KeyText(entries[i].0).Some?
    ensures r.Failure? ==> r.error == NotAMapping
  {
    if entries == [] then Success(map[])
    else
      var init :- TopEntries(entries[..|entries| - 1]);
      var (k, x) := entries[|entries| - 1];
      if KeyText(k).Some? then Success(init[KeyText(k).value := x]) else Failure(NotAMapping)
  }

  /** Where the re-keying of a nested mapping succeeds, the top-level decoding agrees with it. */
  lemma {:induction false} TopEntriesStringKeys(entries: seq<(Node, Node)>)
    ensures StringKeyedEntries(entries).Success? ==> TopEntries(entries) == StringKeyedEntries(entries)
  {
    if entries != [] {
      TopEntriesStringKeys(entries[..|entries| - 1]);
    }
  }

  /** A bool and a null top-level key decode to their text, "true" and "". */
  lemma ScalarTopLevelKeys(x: Node, y: Node)
    ensures TopLevel(Map([(Bool(true), x), (Null, y)])) == Success(map["true" := x, "" := y])
  {
    var es := [(Bool(true), x), (Null, y)];
    assert es[..1][..0] == [];
    assert TopEntries(es[..1]) == Success(map["true" := x]);
  }

  /**
    `unmarshal(&recipe)` into a map[string]interface{}: a nil document leaves the map
    nil (no keys); a mapping decodes when every key is a scalar; anything else is a
    decoding error.
   */
  function TopLevel(doc: Node): (r: Result<StrMap, Error>)
    ensures doc.Null? ==> r == Success(map[])
    ensures doc.Map? ==> r == TopEntries(doc.entries)
    ensures doc.Map? && StringKeyed(doc).Success? ==> r == StringKeyed(doc)
    ensures !doc.Null? && !doc.Map? ==> r == Failure(NotAMapping)
    ensures r.Failure? ==> r.error == NotAMapping
  {
    if doc.Null? then Success(map[])
    else if !doc.Map? then Failure(NotAMapping)
    else
      TopEntriesStringKeys(doc.entries);
      TopEntries(doc.entries)
  }

  predicate HasTopKey(doc: Node, key: string) {
    TopLevel(doc).Success? && key in TopLevel(doc).value
  }

  /** The fields UnmarshalYAML assigns before it looks at `install`. */
  datatype Head = Head(
    dependencies: seq<string>, description: string, displayName: string,
    file: string, id: string, inputVars: seq<InputVariable>)

  /**
    The fields UnmarshalYAML assigns after `install`; stability and validationNrql are
    None when their keys are absent, because the source then leaves them untouched.
   */
  datatype Tail = Tail(
    installTargets: seq<InstallTarget>, keywords: seq<string>, logMatch: seq<LogMatch>,
    name: string, postInstall: PostInstallConfig, preInstall: PreInstallConfig,
    processMatch: seq<string>, repository: string, stability: Option<string>,
    successLinkConfig: SuccessLinkConfig, validationNrql: Option<string>)

  /** The fields read before `install`, each by its own reader; it succeeds iff every reader does. */
  function HeadOf(recipe: StrMap): (r: Result<Head, Error>)
    ensures r.Success? <==>
      && StringListField(recipe, "dependencies").Success?
      && ToStringByFieldName("description", recipe).Success?
      && ToStringByFieldName("displayName", recipe).Success?
      && ToStringByFieldName("file", recipe).Success?
      && ToStringByFieldName("id", recipe).Success?
      && ExpandedList(recipe, "inputVars", InputVariableOf).Success?
    ensures r.Success? ==>
      && Success(r.value.dependencies) == StringListField(recipe, "dependencies")
      && Success(r.value.description) == ToStringByFieldName("description", recipe)
      && Success(r.value.displayName) == ToStringByFieldName("displayName", recipe)
      && Success(r.value.file) == ToStringByFieldName("file", recipe)
      && Success(r.value.id) == ToStringByFieldName("id", recipe)
      && Success(r.value.inputVars) == ExpandedList(recipe, "inputVars", InputVariableOf)
    ensures r.Failure? ==> r.error == TypeAssertionPanic
  {
    var dependencies :- StringListField(recipe, "dependencies");
    var description :- ToStringByFieldName("description", recipe);
    var displayName :- ToStringByFieldName("displayName", recipe);
    var file :- ToStringByFieldName("file", recipe);
    var id :- ToStringByFieldName("id", recipe);
    var inputVars :- ExpandedList(recipe, "inputVars", InputVariableOf);
    Success(Head(dependencies, description, displayName, file, id, inputVars))
  }

  /** `if v, ok := recipe[key]; ok { field = v.(string) }` */
  function OptionalString(recipe: StrMap, key: string): (r: Result<Option<string>, Error>)
    ensures key !in recipe ==> r == Success(None)
    ensures key in recipe && recipe[key].Str? ==> r == Success(Some(recipe[key].s))
    ensures key in recipe && !recipe[key].Str? ==> r == Failure(TypeAssertionPanic)
  {
    if key !in recipe then Success(None)
    else if recipe[key].Str? then Success(Some(recipe[key].s))
    else Failure(TypeAssertionPanic)
  }

  /** The fields read after `install`, each by its own reader; it succeeds iff every reader does. */
  function TailOf(recipe: StrMap): (r: Result<Tail, Error>)
    ensures r.Success? <==>
      && ExpandedList(recipe, "installTargets", InstallTargetOf).Success?
      && StringListField(recipe, "keywords").Success?
      && ExpandedList(recipe, "logMatch", LogMatchOf).Success?
      && ToStringByFieldName("name", recipe).Success?
      && PostInstallOf(recipe).Success?
      && PreInstallOf(recipe).Success?
      && StringListField(recipe, "processMatch").Success?
      && ToStringByFieldName("repository", recipe).Success?
      && OptionalString(recipe, "stability").Success?
      && SuccessLinkConfigOf(recipe).Success?
      && OptionalString(recipe, "validationNrql").Success?
    ensures r.Success? ==>
      && Success(r.value.installTargets) == ExpandedList(recipe, "installTargets", InstallTargetOf)
      && Success(r.value.keywords) == StringListField(recipe, "keywords")
      && Success(r.value.logMatch) == ExpandedList(recipe, "logMatch", LogMatchOf)
      && Success(r.value.name) == ToStringByFieldName("name", recipe)
      && Success(r.value.postInstall) == PostInstallOf(recipe)
      && Success(r.value.preInstall) == PreInstallOf(recipe)
      && Success(r.value.processMatch) == StringListField(recipe, "processMatch")
      && Success(r.value.repository) == ToStringByFieldName("repository", recipe)
      && Success(r.value.stability) == OptionalString(recipe, "stability")
      && Success(r.value.successLinkConfig) == SuccessLinkConfigOf(recipe)
      && Success(r.value.validationNrql) == OptionalString(recipe, "validationNrql")
    ensures r.Failure? ==> r.error == TypeAssertionPanic
  {
    var installTargets :- ExpandedList(recipe, "installTargets", InstallTargetOf);
    var keywords :- StringListField(recipe, "keywords");
    var logMatch :- ExpandedList(recipe, "logMatch", LogMatchOf);
    var name :- ToStringByFieldName("name", recipe);
    var postInstall :- PostInstallOf(recipe);
    var preInstall :- PreInstallOf(recipe);
    var processMatch :- StringListField(recipe, "processMatch");
    var repository :- ToStringByFieldName("repository", recipe);
    var stability :- OptionalString(recipe, "stability");
    var successLinkConfig :- SuccessLinkConfigOf(recipe);
    var validationNrql :- OptionalString(recipe, "validationNrql");
    Success(Tail(installTargets, keywords, logMatch, name, postInstall, preInstall,
                 processMatch, repository, stability, successLinkConfig, validationNrql))
  }

  function WithHead(r: Recipe, h: Head): Recipe
  {
    r.(dependencies := h.dependencies, description := h.description, displayName := h.displayName,
       file := h.file, id := h.id, inputVars := h.inputVars)
  }

  function WithTail(r: Recipe, t: Tail): Recipe
  {
    r.(installTargets := t.installTargets, keywords := t.keywords, logMatch := t.logMatch,
       name := t.name, postInstall := t.postInstall, preInstall := t.preInstall,
       processMatch := t.processMatch, repository := t.repository,
       stability := if t.stability.Some? then t.stability.value else r.stability,
       successLinkConfig := t.successLinkConfig,
       validationNrql := if t.validationNrql.Some? then t.validationNrql.value else r.validationNrql)
  }

  /**
    The custom UnmarshalYAML run on a receiver that held `prior`: the fields in the
    order the source assigns them, the first failure (returned error or panic) winning.
   */
  function Normalize(codec: Codec, doc: Node, prior: Recipe): (r: Result<Recipe, Error>)
    ensures r.Success? ==> HasTopKey(doc, "install")
    ensures !HasTopKey(doc, "install") ==> r.Failure?
    ensures r.Success? ==> HasTopKey(doc, "dependencies") && HasTopKey(doc, "keywords") && HasTopKey(doc, "processMatch")
    ensures r.Success? && !HasTopKey(doc, "description") ==> r.value.description == ""
    ensures r.Success? && !HasTopKey(doc, "displayName") ==> r.value.displayName == ""
    ensures r.Success? && !HasTopKey(doc, "file") ==> r.value.file == ""
    ensures r.Success? && !HasTopKey(doc, "id") ==> r.value.id == ""
    ensures r.Success? && !HasTopKey(doc, "name") ==> r.value.name == ""
    ensures r.Success? && !HasTopKey(doc, "repository") ==> r.value.repository == ""
    ensures r.Success? && !HasTopKey(doc, "inputVars") ==> r.value.inputVars == []
    ensures r.Success? && !HasTopKey(doc, "installTargets") ==> r.value.installTargets == []
    ensures r.Success? && !HasTopKey(doc, "logMatch") ==> r.value.logMatch == []
    ensures r.Success? && !HasTopKey(doc, "stability") ==> r.value.stability == prior.stability
    ensures r.Success? && !HasTopKey(doc, "validationNrql") ==> r.value.validationNrql == prior.validationNrql
    ensures r.Success? && HasTopKey(doc, "stability") ==> Success(r.value.stability) == ToStringByFieldName("stability", TopLevel(doc).value)
    ensures r.Success? && HasTopKey(doc, "validationNrql") ==> Success(r.value.validationNrql) == ToStringByFieldName("validationNrql", TopLevel(doc).value)
    ensures TopLevel(doc).Failure? ==> r == Failure(NotAMapping)
    ensures TopLevel(doc).Success? && HeadOf(TopLevel(doc).value).Failure? ==> r == Failure(TypeAssertionPanic)
    ensures TopLevel(doc).Success? && HeadOf(TopLevel(doc).value).Success? ==>
      var install := InstallText(codec, TopLevel(doc).value);
      && (install.Failure? ==> r == Failure(install.error))
      && (install.Success? ==> (r.Success? <==> TailOf(TopLevel(doc).value).Success?))
    ensures r.Success? ==>
      var m := TopLevel(doc).value;
      && Success(r.value.dependencies) == StringListField(m, "dependencies")
      && Success(r.value.description) == ToStringByFieldName("description", m)
      && Success(r.value.displayName) == ToStringByFieldName("displayName", m)
      && Success(r.value.file) == ToStringByFieldName("file", m)
      && Success(r.value.id) == ToStringByFieldName("id", m)
      && Success(r.value.inputVars) == ExpandedList(m, "inputVars", InputVariableOf)
      && Success(r.value.install) == InstallText(codec, m)
    ensures r.Success? ==>
      var m := TopLevel(doc).value;
      && Success(r.value.installTargets) == ExpandedList(m, "installTargets", InstallTargetOf)
      && Success(r.value.keywords) == StringListField(m, "keywords")
      && Success(r.value.logMatch) == ExpandedList(m, "logMatch", LogMatchOf)
      && Success(r.value.name) == ToStringByFieldName("name", m)
      && Success(r.value.postInstall) == PostInstallOf(m)
      && Success(r.value.preInstall) == PreInstallOf(m)
      && Success(r.value.processMatch) == StringListField(m, "processMatch")
      && Success(r.value.repository) == ToStringByFieldName("repository", m)
      && Success(r.value.successLinkConfig) == SuccessLinkConfigOf(m)
  {
    var recipe :- TopLevel(doc);
    var head :- HeadOf(recipe);
    var install :- InstallText(codec, recipe);
    var tail :- TailOf(recipe);
    Success(WithTail(WithHead(prior, head).(install := install), tail))
  }

  /**
    yaml.Unmarshal of one parsed document into a receiver holding `prior`: the yaml
    library does not call a custom UnmarshalYAML for a null (or empty) document, and
    stores the zero value instead.
   */
  function Decode(codec: Codec, doc: Node, prior: Recipe): (r: Result<Recipe, Error>)
    ensures doc.Null? ==> r == Success(ZeroRecipe)
    ensures r.Success? && !doc.Null? ==> HasTopKey(doc, "install")
    ensures !doc.Null? && TopLevel(doc).Success? && "install" !in TopLevel(doc).value ==> r.Failure?
  {
    if doc.Null? then Success(ZeroRecipe) else Normalize(codec, doc, prior)
  }

  /** yaml.Unmarshal of a recipe document's text into a zero-valued OpenInstallationRecipe. */
  function Unmarshal(codec: Codec, text: string): (r: Result<Recipe, Error>)
    ensures codec.parse(text).Failure? ==> r == Failure(YamlSyntax(codec.parse(text).error))
    ensures codec.parse(text).Success? ==> r == Decode(codec, codec.parse(text).value, ZeroRecipe)
  {
    match codec.parse(text)
    case Failure(detail) => Failure(YamlSyntax(detail))
    case Success(doc) => Decode(codec, doc, ZeroRecipe)
  }

  /**
    A null or empty document decodes, without error, to the zero recipe: no name and
    no install payload.
   */
  lemma NullDocumentDecodesToZero(codec: Codec, text: string)
    requires codec.parse(text) == Success(Null)
    ensures Unmarshal(codec, text) == Success(ZeroRecipe)
    ensures Unmarshal(codec, text).value.install == "" && Unmarshal(codec, text).value.name == ""
  {
  }

  /** Without an `install` key there is no recipe: decoding fails with a panic or with MissingInstall. */
  lemma MissingInstallFails(codec: Codec, doc: Node, prior: Recipe)
    requires TopLevel(doc).Success? && "install" !in TopLevel(doc).value
    ensures Normalize(codec, doc, prior).Failure?
    ensures HeadOf(TopLevel(doc).value).Success? ==> Normalize(codec, doc, prior) == Failure(MissingInstall)
    ensures HeadOf(TopLevel(doc).value).Failure? ==> Normalize(codec, doc, prior) == Failure(TypeAssertionPanic)
  {
  }

  /** A mapping without a `dependencies` list is not a recipe: the first read already panics. */
  lemma MissingDependenciesPanics(codec: Codec, doc: Node, prior: Recipe)
    requires TopLevel(doc).Success?
    requires "dependencies" !in TopLevel(doc).value || !TopLevel(doc).value["dependencies"].List?
    ensures Normalize(codec, doc, prior) == Failure(TypeAssertionPanic)
  {
  }

  /** A number where a string is read (`name: 123`) fails the unchecked string assertion and panics. */
  lemma NumericNamePanics(codec: Codec, doc: Node, prior: Recipe)
    requires TopLevel(doc).Success?
    requires "name" in TopLevel(doc).value && TopLevel(doc).value["name"].Num?
    requires HeadOf(TopLevel(doc).value).Success? && InstallText(codec, TopLevel(doc).value).Success?
    ensures Normalize(codec, doc, prior) == Failure(TypeAssertionPanic)
  {
  }

  /** The reads UnmarshalYAML makes before `install`, each stopping at its own failure. */
  method ReadHead(recipe: StrMap) returns (r: Result<Head, Error>)
    ensures r == HeadOf(recipe)
  {
    var deps := ReadStringList(recipe, "dependencies");
    if deps.Failure? { return Failure(deps.error); }
    var desc := ToStringByFieldName("description", recipe);
    if desc.Failure? { return Failure(desc.error); }
    var display := ToStringByFieldName("displayName", recipe);
    if display.Failure? { return Failure(display.error); }
    var f := ToStringByFieldName("file", recipe);
    if f.Failure? { return Failure(f.error); }
    var ident := ToStringByFieldName("id", recipe);
    if ident.Failure? { return Failure(ident.error); }
    var vars := ExpandInputVars(recipe);
    if vars.Failure? { return Failure(vars.error); }
    return Success(Head(deps.value, desc.value, display.value, f.value, ident.value, vars.value));
  }

  /** The reads UnmarshalYAML makes after `install`, each stopping at its own failure. */
  method ReadTail(recipe: StrMap) returns (r: Result<Tail, Error>)
    ensures r == TailOf(recipe)
  {
    var targets := ExpandInstallTargets(recipe);
    if targets.Failure? { return Failure(targets.error); }
    var kw := ReadStringList(recipe, "keywords");
    if kw.Failure? { return Failure(kw.error); }
    var lm := ExpandLogMatch(recipe);
    if lm.Failure? { return Failure(lm.error); }
    var nm := ToStringByFieldName("name", recipe);
    if nm.Failure? { return Failure(nm.error); }
    var post := ExpandPostInstall(recipe);
    if post.Failure? { return Failure(post.error); }
    var pre := ExpandPreInstall(recipe);
    if pre.Failure? { return Failure(pre.error); }
    var pm := ReadStringList(recipe, "processMatch");
    if pm.Failure? { return Failure(pm.error); }
    var repo := ToStringByFieldName("repository", recipe);
    if repo.Failure? { return Failure(repo.error); }
    var stab := OptionalString(recipe, "stability");
    if stab.Failure? { return Failure(stab.error); }
    var link := ExpandSuccessLinkConfig(recipe);
    if link.Failure? { return Failure(link.error); }
    var nrql := OptionalString(recipe, "validationNrql");
    if nrql.Failure? { return Failure(nrql.error); }
    return Success(Tail(targets.value, kw.value, lm.value, nm.value, post.value, pre.value,
                        pm.value, repo.value, stab.value, link.value, nrql.value));
  }

  // ---------------------------------------------------------------------------
  // The receiver of UnmarshalYAML

  /**
    A *OpenInstallationRecipe being decoded into. The struct is a value behind the
    receiver pointer; UnmarshalYAML overwrites its fields one at a time.
   */
  class MutableRecipe {
    var value: Recipe

    /** `var r types.OpenInstallationRecipe`: the zero value. */
    constructor ()
      ensures value == ZeroRecipe
    {
      value := ZeroRecipe;
    }

    /**
      UnmarshalYAML. On success the receiver holds the normalised recipe. A document
      whose `install` is missing, does not re-key or does not render fails with
      dependencies, description, displayName, file, id and inputVars already written and
      every later field untouched; a document that does not decode as a mapping changes
      nothing.
     */
    method UnmarshalYAML(codec: Codec, doc: Node) returns (err: Option<Error>)
      modifies this
      ensures Normalize(codec, doc, old(value)).Failure? ==> err == Some(Normalize(codec, doc, old(value)).error)
      ensures Normalize(codec, doc, old(value)).Success? ==> err.None? && value == Normalize(codec, doc, old(value)).value
      ensures TopLevel(doc).Failure? ==> value == old(value)
      ensures TopLevel(doc).Success? && HeadOf(TopLevel(doc).value).Success? && InstallText(codec, TopLevel(doc).value).Failure? ==>
        value == WithHead(old(value), HeadOf(TopLevel(doc).value).value)
      ensures Normalize(codec, doc, old(value)) == Failure(MissingInstall) ==>
        && "install" !in TopLevel(doc).value
        && HeadOf(TopLevel(doc).value).Success?
        && value == WithHead(old(value), HeadOf(TopLevel(doc).value).value)
    {
      var top := TopLevel(doc);
      if top.Failure? {
        return Some(top.error);
      }
      var recipe := top.value;
      var head := ReadHead(recipe);
      if head.Failure? {
        return Some(head.error);
      }
      value := WithHead(value, head.value);
      var installAsString := ExpandInstallMapToString(codec, recipe);
      if installAsString.Failure? {
        return Some(installAsString.error);
      }
      value := value.(install := installAsString.value);
      var tail := ReadTail(recipe);
      if tail.Failure? {
        return Some(tail.error);
      }
      value := WithTail(value, tail.value);
      return None;
    }

    /** yaml.Unmarshal(text, r): parse the text, then run UnmarshalYAML on the tree unless it is null. */
    method UnmarshalText(codec: Codec, text: string) returns (err: Option<Error>)
      modifies this
      ensures codec.parse(text).Failure? ==> err == Some(YamlSyntax(codec.parse(text).error)) && value == old(value)
      ensures codec.parse(text).Success? ==>
        var d := Decode(codec, codec.parse(text).value, old(value));
        && (d.Failure? ==> err == Some(d.error))
        && (d.Success? ==> err.None? && value == d.value)
    {
      var doc := codec.parse(text);
      if doc.Failure? {
        return Some(YamlSyntax(doc.error));
      }
      if doc.value.Null? {
        value := ZeroRecipe;
        return None;
      }
      err := UnmarshalYAML(codec, doc.value);
    }

    /** AddVar: its body is commented out in the source, so it changes nothing. */
    method AddVar(key: string, v: Node)
      ensures value == old(value)
    {
    }
  }

  // ---------------------------------------------------------------------------
  // Capability queries

  /** An ASCII-only stand-in for strings.EqualFold. */
  function LowerAscii(c: char): char
  {
    if 'A' <= c <= 'Z' then (c as int + 32) as char else c
  }

  predicate EqualFold(a: string, b: string)
  {
    |a| == |b| && forall i | 0 <= i < |a| :: LowerAscii(a[i]) == LowerAscii(b[i])
  }

  /** HasKeyword: a case-insensitive search of the keywords. */
  method HasKeyword(r: Recipe, keyword: string) returns (found: bool)
    ensures found <==> exists i | 0 <= i < |r.keywords| :: EqualFold(r.keywords[i], keyword)
    ensures r.keywords == [] ==> !found
  {
    if |r.keywords| == 0 {
      return false;
    }
    for i := 0 to |r.keywords|
      invariant forall j | 0 <= j < i :: !EqualFold(r.keywords[j], keyword)
    {
      if EqualFold(r.keywords[i], keyword) {
        return true;
      }
    }
    return false;
  }

  /** IsApm is HasKeyword("apm"). */
  method IsApm(r: Recipe) returns (apm: bool)
    ensures apm <==> exists i | 0 <= i < |r.keywords| :: EqualFold(r.keywords[i], "apm")
  {
    apm := HasKeyword(r, "apm");
  }

  /** HasTargetType: an exact search of the install targets' types. */
  method HasTargetType(r: Recipe, t: string) returns (found: bool)
    ensures found <==> exists i | 0 <= i < |r.installTargets| :: r.installTargets[i].targetType == t
    ensures r.installTargets == [] ==> !found
  {
    if |r.installTargets| == 0 {
      return false;
    }
    for i := 0 to |r.installTargets|
      invariant forall j | 0 <= j < i :: r.installTargets[j].targetType != t
    {
      if r.installTargets[i].targetType == t {
        return true;
      }
    }
    return false;
  }

  method HasHostTargetType(r: Recipe) returns (found: bool)
    ensures found <==> exists i | 0 <= i < |r.installTargets| :: r.installTargets[i].targetType == HostTargetType
  {
    found := HasTargetType(r, HostTargetType);
  }

  method HasApplicationTargetType(r: Recipe) returns (found: bool)
    ensures found <==> exists i | 0 <= i < |r.installTargets| :: r.installTargets[i].targetType == ApplicationTargetType
  {
    found := HasTargetType(r, ApplicationTargetType);
  }

  /** PreInstallMessage: the pre-install info text ("" when there is none). */
  function PreInstallMessage(r: Recipe): (msg: string)
    ensures msg == r.preInstall.info
  {
    if r.preInstall.info != "" then r.preInstall.info else ""
  }

  /** PostInstallMessage: the post-install info text ("" when there is none). */
  function PostInstallMessage(r: Recipe): (msg: string)
    ensures msg == r.postInstall.info
  {
    if r.postInstall.info != "" then r.postInstall.info else ""
  }

  // ---------------------------------------------------------------------------
  // The package-level RecipeVariables map

  /** The process-wide RecipeVariables map (a package variable in the source). */
  class RecipeVariables {
    var vars: map<string, string>

    /** `RecipeVariables = map[string]string{}` */
    constructor ()
      ensures vars == map[]
    {
      vars := map[];
    }

    /** SetRecipeVar: binds key to value and leaves every other entry as it was. */
    method SetRecipeVar(key: string, value: string)
      modifies this
      ensures vars == old(vars)[key := value]
      ensures key in vars && vars[key] == value
      ensures forall k | k != key :: (k in vars <==> k in old(vars)) && (k in vars ==> vars[k] == old(vars)[k])
    {
      vars := vars[key := value];
    }
  }
}
