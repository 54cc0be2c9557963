/** `Configuration`: the dashboard metadata (defaults, then the YAML
    `dashboard_metadata`, then `--<key>` command-line overrides), the graph
    templates, the `multiple_graphs` flag and the node groups. */
module Configuration {
  import opened Wrappers
  import opened Values
  import opened RangeExpansion

  datatype ConfigError =
    | MissingKey(key: string)        // a `KeyError` on a mandatory top-level key
    | NoNodes                        // 'No nodes in config file or from stdin'
    | MissingAttribute(name: string) // an `AttributeError` on `self`

  /** A graph template: the mapping under one name of `dashboard_graphs`. */
  type GraphTemplate = map<string, Value>

  /** The top-level keys of the loaded YAML document that the program reads.
      `None` stands for an absent key; an empty `nodes` stands for an absent,
      null or empty `nodes` section, all of which Python treats as false. */
  datatype YamlConfig = YamlConfig(
    dashboardMetadata: Option<map<string, Value>>,
    dashboardGraphs: Option<map<string, GraphTemplate>>,
    nodes: seq<(string, string)>)

  /** A node group: its name (the template variable) and its values in order. */
  datatype NodeGroup = NodeGroup(name: string, values: seq<string>)

  datatype Config = Config(
    dashboardMetadata: map<string, Value>,
    dashboardGraphs: map<string, GraphTemplate>,
    multipleGraphs: bool,
    nodes: seq<NodeGroup>)

  /** The defaults `_set_dashboard_metadata` starts from. */
  function DefaultMetadata(): (d: map<string, Value>)
    ensures d.Keys == {"tessera-url", "dashboard-id", "layout", "title", "category", "tags"}
  {
    map[
      "tessera-url" := Str("http://127.0.0.1:5000"),
      "dashboard-id" := Null,
      "layout" := Str("fixed"),
      "title" := Str("New Dashboard"),
      "category" := Str("New Category"),
      "tags" := List([])]
  }

  /** The command-line option that overrides metadata key `k`. */
  function OptionName(k: string): string {
    "--" + k
  }

  /** The metadata as the layering defines it: a key is a default key or a
      YAML key; its value is the command line's `--<key>` value when that is
      truthy, otherwise the YAML value, otherwise the default. */
  function MergedMetadata(yaml: map<string, Value>, cli: map<string, Value>): map<string, Value> {
    Overridden(DefaultMetadata() + yaml, cli)
  }

  /** Every key of `base` replaced by its truthy command-line value. */
  function Overridden(base: map<string, Value>, cli: map<string, Value>): map<string, Value> {
    map k | k in base :: OverriddenValue(base, cli, k)
  }

  function OverriddenValue(base: map<string, Value>, cli: map<string, Value>, k: string): Value
    requires k in base
  {
    if Truthy(Get(cli, OptionName(k))) then cli[OptionName(k)] else base[k]
  }

  /** `Configuration._set_dashboard_metadata`: `metadata.update(yaml)`, then
      an in-place pass over the keys replacing each by its truthy
      command-line value. The order of that pass does not matter; the set of
      keys still to visit models it. */
  method SetDashboardMetadata(yaml: map<string, Value>, cli: map<string, Value>)
    returns (metadata: map<string, Value>)
    ensures metadata == MergedMetadata(yaml, cli)
  {
    metadata := DefaultMetadata() + yaml;
    metadata := ApplyOverrides(metadata, cli);
  }

  /** The loop over the metadata keys: each key whose `--<key>` option is
      truthy takes the command-line value. */
  method ApplyOverrides(base: map<string, Value>, cli: map<string, Value>)
    returns (metadata: map<string, Value>)
    ensures metadata == Overridden(base, cli)
  {
    metadata := base;
    var pending := base.Keys;
    while pending != {}
      invariant pending <= base.Keys
      invariant metadata.Keys == base.Keys
      invariant forall k :: k in pending ==> metadata[k] == base[k]
      invariant forall k :: k in base && k !in pending ==> metadata[k] == OverriddenValue(base, cli, k)
      decreases |pending|
    {
      var option :| option in pending;
      var dashed := OptionName(option);
      if Truthy(Get(cli, dashed)) {
        metadata := metadata[option := cli[dashed]];
      }
      pending := pending - {option};
    }
  }

  /** Precedence, key by key: every default key survives, no command-line
      option adds a key, a truthy command-line value beats the YAML value,
      which beats the default. */
  lemma MetadataPrecedence(yaml: map<string, Value>, cli: map<string, Value>, k: string)
    ensures DefaultMetadata().Keys <= MergedMetadata(yaml, cli).Keys
    ensures k in MergedMetadata(yaml, cli) <==> k in DefaultMetadata() || k in yaml
    ensures k in MergedMetadata(yaml, cli) && Truthy(Get(cli, OptionName(k))) ==>
      MergedMetadata(yaml, cli)[k] == cli[OptionName(k)]
    ensures k in yaml && !Truthy(Get(cli, OptionName(k))) ==>
      MergedMetadata(yaml, cli)[k] == yaml[k]
    ensures k in DefaultMetadata() && k !in yaml && !Truthy(Get(cli, OptionName(k))) ==>
      MergedMetadata(yaml, cli)[k] == DefaultMetadata()[k]
  {
  }

  /** Python 2 `string.whitespace`, which `str.strip()` removes. */
  predicate IsSpace(c: char) {
    c == ' ' || c == '\t' || c == '\n' || c == '\r' || c == '\U{B}' || c == '\U{C}'
  }

  /** `s.split(sep)` with an explicit one-character separator: empty fields
      are kept and the result is never empty. */
  function Split(s: string, sep: char): (parts: seq<string>)
    ensures |parts| >= 1
    ensures forall i :: 0 <= i < |parts| ==> sep !in parts[i]
    decreases |s|
  {
    if s == [] then [""]
    else
      var rest := Split(s[1..], sep);
      if s[0] == sep then [""] + rest
      else [[s[0]] + rest[0]] + rest[1..]
  }

  /** `sep.join(parts)`. */
  function Join(parts: seq<string>, sep: char): string
    requires |parts| >= 1
    decreases |parts|
  {
    if |parts| == 1 then parts[0] else parts[0] + [sep] + Join(parts[1..], sep)
  }

  /** Splitting then joining with the same separator gives the line back. */
  lemma {:induction false} SplitJoin(s: string, sep: char)
    ensures Join(Split(s, sep), sep) == s
    decreases |s|
  {
    if s != [] {
      var rest := Split(s[1..], sep);
      SplitJoin(s[1..], sep);
      if s[0] == sep {
        assert Split(s, sep) == [""] + rest;
        assert (["" ] + rest)[1..] == rest;
      } else {
        var parts := Split(s, sep);
        assert parts == [[s[0]] + rest[0]] + rest[1..];
        if |rest| == 1 {
          assert Join(rest, sep) == rest[0];
        } else {
          assert parts[1..] == rest[1..];
          assert Join(rest, sep) == rest[0] + [sep] + Join(rest[1..], sep);
        }
      }
    }
  }

  /** The number of whitespace characters `str.strip()` removes at the front. */
  function LeadingSpaces(s: string): (n: nat)
    ensures n <= |s|
    ensures forall i :: 0 <= i < n ==> IsSpace(s[i])
    ensures n < |s| ==> !IsSpace(s[n])
    decreases |s|
  {
    if s != [] && IsSpace(s[0]) then 1 + LeadingSpaces(s[1..]) else 0
  }

  /** The number of whitespace characters `str.strip()` removes at the back. */
  function TrailingSpaces(s: string): (n: nat)
    ensures n <= |s|
    ensures forall i :: |s| - n <= i < |s| ==> IsSpace(s[i])
    ensures n < |s| ==> !IsSpace(s[|s| - n - 1])
    decreases |s|
  {
    if s != [] && IsSpace(s[|s| - 1]) then 1 + TrailingSpaces(s[..|s| - 1]) else 0
  }

  /** `r` is `s` without its leading and trailing whitespace: it sits right
      after the leading run, only whitespace follows it, and it neither
      starts nor ends with whitespace. */
  predicate Trimmed(r: string, s: string) {
    var lead := LeadingSpaces(s);
    && lead + |r| <= |s| && s[lead..lead + |r|] == r
    && (forall i :: lead + |r| <= i < |s| ==> IsSpace(s[i]))
    && (r == [] || (!IsSpace(r[0]) && !IsSpace(r[|r| - 1])))
  }

  /** `s.strip()`: the text between the leading and the trailing whitespace,
      empty exactly when `s` is all whitespace. */
  function Strip(s: string): (r: string)
    ensures Trimmed(r, s)
    ensures r == [] <==> forall i :: 0 <= i < |s| ==> IsSpace(s[i])
  {
    var lead := LeadingSpaces(s);
    if lead == |s| then
      assert s[0..0] == [];
      []
    else
      var trail := TrailingSpaces(s);
      assert trail < |s| - lead;
      assert !IsSpace(s[lead]);
      s[lead..|s| - trail]
  }

  /** `[x.strip() for x in line.split(' ')]`: one token per space-separated
      field, each the field without its surrounding whitespace. */
  function LineTokens(line: string): (tokens: seq<string>)
    ensures |tokens| == |Split(line, ' ')|
    ensures forall i :: 0 <= i < |tokens| ==> Trimmed(tokens[i], Split(line, ' ')[i])
  {
    var parts := Split(line, ' ');
    seq(|parts|, i requires 0 <= i < |parts| => Strip(parts[i]))
  }

  /** The node groups of `Configuration.__init__`: a non-empty YAML `nodes`
      section wins and every token in it is range-expanded; otherwise, with
      the `-` flag, every line read from standard input rebinds the single
      group `node` to that line's tokens, so the last line wins (and no line
      leaves no group); otherwise the configuration is rejected. */
  function ResolveNodes(yamlNodes: seq<(string, string)>, readStdin: bool, stdinLines: seq<string>)
    : (r: Result<seq<NodeGroup>, ConfigError>)
    ensures yamlNodes != [] ==>
      (r.Ok? && |r.value| == |yamlNodes|
       && forall i :: 0 <= i < |yamlNodes| ==>
            r.value[i] == NodeGroup(yamlNodes[i].0, DevelopRange(yamlNodes[i].1)))
    ensures yamlNodes == [] && readStdin ==>
      r == Ok(if stdinLines == [] then [] else [NodeGroup("node", LineTokens(stdinLines[|stdinLines| - 1]))])
    ensures r.Err? <==> yamlNodes == [] && !readStdin
    ensures r.Err? ==> r.error == NoNodes
  {
    if yamlNodes != [] then
      Ok(seq(|yamlNodes|, i requires 0 <= i < |yamlNodes| => NodeGroup(yamlNodes[i].0, DevelopRange(yamlNodes[i].1))))
    else if readStdin then
      Ok(ReadStdinGroups(stdinLines))
    else
      Err(NoNodes)
  }

  /** The node resolution as written: the YAML branch calls
      `self._develop_range` on the `Configuration` object, but that method is
      defined on `Dashboard` only, so the first token of a non-empty `nodes`
      section raises `AttributeError`. The other branches are those of
      `ResolveNodes`. */
  function ResolveNodesAsWritten(yamlNodes: seq<(string, string)>, readStdin: bool, stdinLines: seq<string>)
    : (r: Result<seq<NodeGroup>, ConfigError>)
    ensures yamlNodes != [] ==> r == Err(MissingAttribute("_develop_range"))
    ensures yamlNodes == [] ==> r == ResolveNodes(yamlNodes, readStdin, stdinLines)
  {
    if yamlNodes != [] then Err(MissingAttribute("_develop_range"))
    else if readStdin then Ok(ReadStdinGroups(stdinLines))
    else Err(NoNodes)
  }

  /** The two disagree exactly on configurations with a `nodes` section:
      there the code fails while the intended resolution expands every
      token. */
  lemma ResolveNodesDiscrepancy(yamlNodes: seq<(string, string)>, readStdin: bool, stdinLines: seq<string>)
    ensures ResolveNodesAsWritten(yamlNodes, readStdin, stdinLines) != ResolveNodes(yamlNodes, readStdin, stdinLines)
      <==> yamlNodes != []
    ensures yamlNodes != [] ==>
      ResolveNodesAsWritten(yamlNodes, readStdin, stdinLines).Err?
      && ResolveNodes(yamlNodes, readStdin, stdinLines).Ok?
  {
  }

  /** The loop over `sys.stdin.readlines()`. */
  function ReadStdinGroups(lines: seq<string>): (groups: seq<NodeGroup>)
    ensures lines == [] ==> groups == []
    ensures lines != [] ==> groups == [NodeGroup("node", LineTokens(lines[|lines| - 1]))]
    decreases |lines|
  {
    if lines == [] then []
    else if |lines| == 1 then [NodeGroup("node", LineTokens(lines[0]))]
    else ReadStdinGroups(lines[1..])
  }

  /** `Configuration.__init__` once the YAML file is loaded: the metadata
      first (a missing `dashboard_metadata` raises), then the templates (a
      missing `dashboard_graphs` raises) and `multiple_graphs`, then the nodes. */
  method LoadConfiguration(yaml: YamlConfig, cli: map<string, Value>, stdinLines: seq<string>)
    returns (r: Result<Config, ConfigError>)
    ensures yaml.dashboardMetadata.None? ==> r == Err(MissingKey("dashboard_metadata"))
    ensures yaml.dashboardMetadata.Some? && yaml.dashboardGraphs.None? ==> r == Err(MissingKey("dashboard_graphs"))
    ensures yaml.dashboardMetadata.Some? && yaml.dashboardGraphs.Some? ==>
      var nodes := ResolveNodes(yaml.nodes, Truthy(Get(cli, "-")), stdinLines);
      (nodes.Err? ==> r == Err(nodes.error))
      && (nodes.Ok? ==>
            (r.Ok?
             && r.value.dashboardMetadata == MergedMetadata(yaml.dashboardMetadata.value, cli)
             && r.value.dashboardGraphs == yaml.dashboardGraphs.value
             && r.value.multipleGraphs == (|yaml.dashboardGraphs.value| > 1)
             && r.value.nodes == nodes.value))
  {
    if yaml.dashboardMetadata.None? {
      return Err(MissingKey("dashboard_metadata"));
    }
    var metadata := SetDashboardMetadata(yaml.dashboardMetadata.value, cli);
    if yaml.dashboardGraphs.None? {
      return Err(MissingKey("dashboard_graphs"));
    }
    var graphs := yaml.dashboardGraphs.value;
    var multipleGraphs := false;
    if |graphs| > 1 {
      multipleGraphs := true;
    }
    var nodes := ResolveNodes(yaml.nodes, Truthy(Get(cli, "-")), stdinLines);
    if nodes.Err? {
      return Err(nodes.error);
    }
    r := Ok(Config(metadata, graphs, multipleGraphs, nodes.value));
  }

  /** What every loaded configuration satisfies and the builder relies on. */
  predicate ValidConfig(c: Config) {
    DefaultMetadata().Keys <= c.dashboardMetadata.Keys
    && c.multipleGraphs == (|c.dashboardGraphs| > 1)
  }

  lemma LoadedConfigValid(yaml: map<string, Value>, cli: map<string, Value>, graphs: map<string, GraphTemplate>, nodes: seq<NodeGroup>)
    ensures ValidConfig(Config(MergedMetadata(yaml, cli), graphs, |graphs| > 1, nodes))
  {
  }
}
