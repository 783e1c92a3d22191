/** The configuration built from imported nodes, and the closure of its references. */
module ConfigBuild {
  import opened Options
  import opened UriImport

  const MODE_RULE := "rule"
  const MODE_GLOBAL := "global"
  const MODE_DIRECT := "direct"
  const PROXY := "proxy"
  const DIRECT := "direct"
  const BLOCK := "block"

  datatype BuildOptions = BuildOptions(listen: string, port: nat, mode: string)

  datatype Outbound =
    | NodeOutbound(tag: string, typ: string, fields: map<string, string>)
    | Selector(tag: string, members: seq<string>, default: string)
    | Plain(tag: string, typ: string)

  datatype Config = Config(listen: string, port: nat, outbounds: seq<Outbound>, final: string)

  datatype BuildError = EmptyTag | EmptyType | DuplicateTag(tag: string) | UnsupportedMode

  datatype BuildResult = Built(config: Config) | Rejected(error: BuildError)

  function NormalizeOptions(options: BuildOptions): BuildOptions {
    BuildOptions(
      if options.listen == "" then "127.0.0.1" else options.listen,
      if options.port == 0 then 7890 else options.port,
      if options.mode == "" then MODE_RULE else options.mode)
  }

  predicate ValidMode(mode: string) {
    mode in {MODE_RULE, MODE_GLOBAL, MODE_DIRECT}
  }

  function RouteFinal(mode: string, hasNodes: bool): string {
    if mode == MODE_DIRECT || !hasNodes then DIRECT else PROXY
  }

  function OutboundOf(node: ParsedOutbound): Outbound {
    NodeOutbound(node.tag, node.typ, node.outbound["tag" := node.tag]["type" := node.typ])
  }

  function OutboundsOf(nodes: seq<ParsedOutbound>): seq<Outbound> {
    seq(|nodes|, i requires 0 <= i < |nodes| => OutboundOf(nodes[i]))
  }

  function OutboundTags(outbounds: seq<Outbound>): seq<string> {
    seq(|outbounds|, i requires 0 <= i < |outbounds| => outbounds[i].tag)
  }

  /** Selector, nodes, and a direct and a block outbound unless a node has taken the tag. */
  ghost predicate Assembled(nodes: seq<ParsedOutbound>, outbounds: seq<Outbound>) {
    var tags := TagsOf(nodes);
    outbounds ==
      (if nodes == [] then [] else [Selector(PROXY, tags, tags[0])])
      + OutboundsOf(nodes)
      + (if DIRECT in tags then [] else [Plain(DIRECT, DIRECT)])
      + (if BLOCK in tags then [] else [Plain(BLOCK, BLOCK)])
  }

  /** Every reference names an outbound of the list. */
  ghost predicate Closed(config: Config) {
    var tags := OutboundTags(config.outbounds);
    && config.final in tags
    && forall i :: 0 <= i < |config.outbounds| && config.outbounds[i].Selector? ==>
         && config.outbounds[i].default in tags
         && forall m <- config.outbounds[i].members :: m in tags
  }

  // ----- Properties of an assembled list -----

  lemma TagsConcat(a: seq<Outbound>, b: seq<Outbound>)
    ensures OutboundTags(a + b) == OutboundTags(a) + OutboundTags(b)
  {
  }

  /** The tags of an assembled list, in order. */
  lemma AssembledTags(nodes: seq<ParsedOutbound>, outbounds: seq<Outbound>)
    requires Assembled(nodes, outbounds)
    ensures var tags := TagsOf(nodes);
            OutboundTags(outbounds) ==
              (if nodes == [] then [] else [PROXY]) + tags
              + (if DIRECT in tags then [] else [DIRECT]) + (if BLOCK in tags then [] else [BLOCK])
  {
    var tags := TagsOf(nodes);
    var a := if nodes == [] then [] else [Selector(PROXY, tags, tags[0])];
    var c := if DIRECT in tags then [] else [Plain(DIRECT, DIRECT)];
    var d := if BLOCK in tags then [] else [Plain(BLOCK, BLOCK)];
    TagsConcat(a + OutboundsOf(nodes) + c, d);
    TagsConcat(a + OutboundsOf(nodes), c);
    TagsConcat(a, OutboundsOf(nodes));
    assert OutboundTags(OutboundsOf(nodes)) == tags;
  }

  /** The tags that an assembled list is sure to hold, and its one selector. */
  lemma AssembledHolds(nodes: seq<ParsedOutbound>, outbounds: seq<Outbound>)
    requires Assembled(nodes, outbounds)
    ensures var all := OutboundTags(outbounds);
            && (forall t <- TagsOf(nodes) :: t in all) && DIRECT in all && (nodes != [] ==> PROXY in all)
    ensures forall i | 0 <= i < |outbounds| && outbounds[i].Selector? ::
              nodes != [] && outbounds[i] == Selector(PROXY, TagsOf(nodes), TagsOf(nodes)[0])
  {
    var tags, all := TagsOf(nodes), OutboundTags(outbounds);
    AssembledTags(nodes, outbounds);
    var head := if nodes == [] then [] else [PROXY];
    assert all[..|head| + |tags|] == head + tags;
    assert forall i | 0 <= i < |tags| :: all[|head| + i] == tags[i];
    assert nodes != [] ==> all[0] == PROXY;
  }

  /** Every node is in the list, with its own tag and type over whatever its fields said, and its other fields. */
  lemma NodesAreCarriedOver(nodes: seq<ParsedOutbound>, outbounds: seq<Outbound>, i: nat)
    requires Assembled(nodes, outbounds) && i < |nodes|
    ensures i + 1 < |outbounds| && outbounds[i + 1].NodeOutbound?
    ensures var o := outbounds[i + 1];
            && o.tag == nodes[i].tag && o.typ == nodes[i].typ
            && "tag" in o.fields && o.fields["tag"] == nodes[i].tag
            && "type" in o.fields && o.fields["type"] == nodes[i].typ
            && (forall key | key != "tag" && key != "type" ::
                  && (key in o.fields <==> key in nodes[i].outbound)
                  && (key in o.fields ==> o.fields[key] == nodes[i].outbound[key]))
  {
    assert outbounds[i + 1] == OutboundsOf(nodes)[i];
    assert "tag" != "type";
  }

  lemma AssembledIsClosed(nodes: seq<ParsedOutbound>, config: Config, mode: string)
    requires Assembled(nodes, config.outbounds) && config.final == RouteFinal(mode, nodes != [])
    ensures Closed(config)
  {
    AssembledHolds(nodes, config.outbounds);
  }

  /** Tags are pairwise distinct exactly when no node is tagged "proxy". */
  lemma AssembledIsDistinct(nodes: seq<ParsedOutbound>, outbounds: seq<Outbound>)
    requires Assembled(nodes, outbounds) && Importable(nodes)
    ensures Distinct(OutboundTags(outbounds)) <==> PROXY !in TagsOf(nodes)
  {
    var tags, all := TagsOf(nodes), OutboundTags(outbounds);
    AssembledTags(nodes, outbounds);
    if PROXY in tags {
      var i :| 0 <= i < |tags| && tags[i] == PROXY;
      assert all[0] == PROXY && all[i + 1] == PROXY;
    }
  }

  // ----- The builder -----

  /** The first loop: nodes are copied out one by one, and refused on the first fault. */
  method CopyNodes(nodes: seq<ParsedOutbound>)
    returns (error: Option<BuildError>, outbounds: seq<Outbound>, tags: seq<string>, seen: set<string>)
    ensures error.None? <==> Importable(nodes)
    ensures error.None? ==> outbounds == OutboundsOf(nodes) && tags == TagsOf(nodes) && seen == set t | t in tags
    ensures error.Some? ==> exists i :: 0 <= i < |nodes| && Importable(nodes[..i]) && Faulty(nodes, i, error.value)
  {
    error, outbounds, tags, seen := None, [], [], {};
    for i := 0 to |nodes|
      invariant error.None? && Importable(nodes[..i])
      invariant outbounds == OutboundsOf(nodes[..i]) && tags == TagsOf(nodes[..i]) && seen == set t | t in tags
    {
      var node := nodes[i];
      if node.tag == "" {
        assert Faulty(nodes, i, EmptyTag);
        return Some(EmptyTag), outbounds, tags, seen;
      }
      if node.typ == "" {
        assert Faulty(nodes, i, EmptyType);
        return Some(EmptyType), outbounds, tags, seen;
      }
      if node.tag in seen {
        DuplicateIsFault(nodes, i);
        return Some(DuplicateTag(node.tag)), outbounds, tags, seen;
      }
      ImportableGrows(nodes, i);
      outbounds := outbounds + [OutboundOf(node)];
      tags := tags + [node.tag];
      seen := seen + {node.tag};
    }
    assert nodes[..|nodes|] == nodes;
  }

  ghost predicate Faulty(nodes: seq<ParsedOutbound>, i: nat, error: BuildError)
    requires i < |nodes|
  {
    match error
    case EmptyTag => nodes[i].tag == ""
    case EmptyType => nodes[i].tag != "" && nodes[i].typ == ""
    case DuplicateTag(tag) => nodes[i].tag == tag && tag in TagsOf(nodes[..i])
    case UnsupportedMode => false
  }

  lemma DuplicateIsFault(nodes: seq<ParsedOutbound>, i: nat)
    requires i < |nodes| && nodes[i].tag in TagsOf(nodes[..i])
    ensures Faulty(nodes, i, DuplicateTag(nodes[i].tag)) && !Distinct(TagsOf(nodes))
  {
    var k :| 0 <= k < i && TagsOf(nodes[..i])[k] == nodes[i].tag;
    assert TagsOf(nodes)[k] == TagsOf(nodes)[i];
  }

  lemma ImportableGrows(nodes: seq<ParsedOutbound>, i: nat)
    requires i < |nodes| && Importable(nodes[..i])
    requires nodes[i].tag != "" && nodes[i].typ != "" && nodes[i].tag !in TagsOf(nodes[..i])
    ensures Importable(nodes[..i + 1])
    ensures OutboundsOf(nodes[..i + 1]) == OutboundsOf(nodes[..i]) + [OutboundOf(nodes[i])]
    ensures TagsOf(nodes[..i + 1]) == TagsOf(nodes[..i]) + [nodes[i].tag]
  {
    var tags := TagsOf(nodes[..i]);
    assert TagsOf(nodes[..i + 1]) == tags + [nodes[i].tag];
    assert forall k :: 0 <= k < i ==> tags[k] in tags;
    assert forall k :: 0 <= k <= i ==> nodes[..i + 1][k] == if k < i then nodes[..i][k] else nodes[i];
  }

  method BuildOutbounds(nodes: seq<ParsedOutbound>)
    returns (error: Option<BuildError>, outbounds: seq<Outbound>, tags: seq<string>)
    ensures error.None? <==> Importable(nodes)
    ensures error.None? ==> Assembled(nodes, outbounds) && tags == TagsOf(nodes)
    ensures error.Some? ==> exists i :: 0 <= i < |nodes| && Importable(nodes[..i]) && Faulty(nodes, i, error.value)
  {
    var copied, seen;
    error, copied, tags, seen := CopyNodes(nodes);
    outbounds := [];
    if error.Some? {
      return;
    }
    if |tags| > 0 {
      outbounds := [Selector(PROXY, tags, tags[0])];
      seen := seen + {PROXY};
    }
    outbounds := outbounds + copied;
    if DIRECT !in seen {
      outbounds := outbounds + [Plain(DIRECT, DIRECT)];
    }
    if BLOCK !in seen {
      outbounds := outbounds + [Plain(BLOCK, BLOCK)];
    }
  }

  method Build(nodes: seq<ParsedOutbound>, options: BuildOptions) returns (result: BuildResult)
    ensures var mode := options.mode;
            result.Built? <==>
              (mode == "" || mode == "rule" || mode == "global" || mode == "direct") && Importable(nodes)
    ensures result.Built? ==>
              && Closed(result.config) && Assembled(nodes, result.config.outbounds)
              && (Distinct(OutboundTags(result.config.outbounds)) <==> PROXY !in TagsOf(nodes))
    ensures result.Built? ==>
              && result.config.final == (if options.mode == "direct" || nodes == [] then "direct" else "proxy")
              && result.config.listen == (if options.listen == "" then "127.0.0.1" else options.listen)
              && result.config.port == (if options.port == 0 then 7890 else options.port)
    ensures result == Rejected(UnsupportedMode) <==> !ValidMode(NormalizeOptions(options).mode)
    ensures ValidMode(NormalizeOptions(options).mode) && result.Rejected? ==>
              exists i :: 0 <= i < |nodes| && Importable(nodes[..i]) && Faulty(nodes, i, result.error)
  {
    var normalized := NormalizeOptions(options);
    if !ValidMode(normalized.mode) {
      return Rejected(UnsupportedMode);
    }
    var error, outbounds, tags := BuildOutbounds(nodes);
    if error.Some? {
      return Rejected(error.value);
    }
    var config := Config(normalized.listen, normalized.port, outbounds, RouteFinal(normalized.mode, |tags| > 0));
    AssembledIsClosed(nodes, config, normalized.mode);
    AssembledIsDistinct(nodes, outbounds);
    return Built(config);
  }

  /** From text to configuration: what Parse accepts, Build accepts in every valid mode. */
  method Import(text: string, body: BodyParser, options: BuildOptions)
    returns (parsed: ParseResult, result: Option<BuildResult>)
    ensures result.Some? <==> parsed.Parsed?
    ensures parsed.Parsed? ==> (result.value.Built? <==> ValidMode(NormalizeOptions(options).mode))
    ensures result.Some? && result.value.Built? ==>
              && Closed(result.value.config) && Assembled(parsed.outbounds, result.value.config.outbounds)
              && (Distinct(OutboundTags(result.value.config.outbounds)) <==> PROXY !in TagsOf(parsed.outbounds))
  {
    parsed := Parse(text, body);
    if !parsed.Parsed? {
      return parsed, None;
    }
    var built := Build(parsed.outbounds, options);
    result := Some(built);
  }
}
