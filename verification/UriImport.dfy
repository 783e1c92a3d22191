/**
  Import of a list of proxy URIs: one outbound a line, with tags made unique by a search that remembers,
  for every tag, how far it has got.
 */
module UriImport {
  import opened Options
  import opened Text

  datatype ParsedOutbound = ParsedOutbound(tag: string, typ: string, outbound: map<string, string>)

  /** What the body of one URI gives: the raw tag and the fields. The field mapping itself is not modelled. */
  type BodyParser = string -> Option<(string, map<string, string>)>

  datatype ParseResult = Parsed(outbounds: seq<ParsedOutbound>) | BadLine(number: nat) | NoLines

  // ----- Unique tags -----

  /** The tag as uniqueTag starts from it. */
  function BaseTag(tag: string): string {
    var trimmed := TrimSpace(tag);
    if trimmed == "" then "outbound" else trimmed
  }

  function Candidate(tag: string, n: nat): string {
    tag + "-" + Decimal(n)
  }

  lemma CandidateIsInjective(tag: string, m: nat, n: nat)
    requires Candidate(tag, m) == Candidate(tag, n)
    ensures m == n
  {
    assert Candidate(tag, m)[|tag| + 1..] == Decimal(m);
    assert Candidate(tag, n)[|tag| + 1..] == Decimal(n);
    DecimalIsInjective(m, n);
  }

  lemma CandidateDiffers(tag: string, n: nat)
    ensures Candidate(tag, n) != tag
  {
    assert |Candidate(tag, n)| > |tag|;
  }

  /** A search from scratch: the tag itself, or else the least suffix from 2 upward that is free. */
  ghost predicate FirstFree(used: set<string>, tag: string, result: string) {
    if tag !in used then result == tag
    else exists n: nat :: result == Candidate(tag, n) && LeastFree(used, tag, n)
  }

  ghost predicate LeastFree(used: set<string>, tag: string, n: nat) {
    n >= 2 && Candidate(tag, n) !in used && forall k: nat :: 2 <= k < n ==> Candidate(tag, k) in used
  }

  lemma FirstFreeIsUnique(used: set<string>, tag: string, a: string, b: string)
    requires FirstFree(used, tag, a) && FirstFree(used, tag, b)
    ensures a == b && a !in used
  {
    if tag in used {
      var m: nat :| a == Candidate(tag, m) && LeastFree(used, tag, m);
      var n: nat :| b == Candidate(tag, n) && LeastFree(used, tag, n);
      assert m == n;
    }
  }

  /** Every suffix up to the remembered one is taken. */
  ghost predicate Remembered(seen: map<string, nat>) {
    forall t <- seen :: seen[t] >= 1 && forall k: nat :: 2 <= k <= seen[t] ==> Candidate(t, k) in seen
  }

  lemma RegisterGrows(seen: map<string, nat>, tag: string, count: nat)
    requires Remembered(seen) && tag in seen && count >= 2 && Candidate(tag, count) !in seen
    requires forall k: nat :: 2 <= k < count ==> Candidate(tag, k) in seen
    ensures var more := seen[tag := count][Candidate(tag, count) := 1];
            Remembered(more) && more.Keys == seen.Keys + {Candidate(tag, count)}
  {
    CandidateDiffers(tag, count);
  }

  /** The tags given out so far, each with the last suffix that was tried for it. */
  class TagRegister {
    var seen: map<string, nat>

    ghost predicate Valid()
      reads this
    {
      Remembered(seen)
    }

    constructor ()
      ensures Valid() && seen == map[]
    {
      seen := map[];
    }

    method UniqueTag(raw: string) returns (result: string)
      requires Valid()
      modifies this
      ensures Valid() && seen.Keys == old(seen.Keys) + {result}
      ensures result != ""
      ensures FirstFree(old(seen.Keys), if TrimSpace(raw) == "" then "outbound" else TrimSpace(raw), result)
    {
      var tag := TrimSpace(raw);
      if tag == "" {
        tag := "outbound";
      }
      var count := if tag in seen then seen[tag] else 0;
      if count == 0 {
        seen := seen[tag := 1];
        return tag;
      }
      ghost var unpassed := seen.Keys;
      while true
        invariant count >= 1 && seen == old(seen) && tag in seen && unpassed <= seen.Keys
        invariant forall k: nat :: 2 <= k <= count ==> Candidate(tag, k) in seen
        invariant forall k: nat :: k > count && Candidate(tag, k) in seen ==> Candidate(tag, k) in unpassed
        decreases unpassed
      {
        count := count + 1;
        var candidate := Candidate(tag, count);
        if candidate !in seen {
          RegisterGrows(seen, tag, count);
          seen := seen[tag := count][candidate := 1];
          return candidate;
        }
        forall k: nat | k > count && Candidate(tag, k) in seen
          ensures Candidate(tag, k) in unpassed - {candidate}
        {
          if Candidate(tag, k) == candidate {
            CandidateIsInjective(tag, k, count);
          }
        }
        unpassed := unpassed - {candidate};
      }
    }
  }

  // ----- Lines -----

  function TypeOfLine(line: string): Option<string> {
    if HasPrefix(line, "ss://") then Some("shadowsocks")
    else if HasPrefix(line, "vmess://") then Some("vmess")
    else if HasPrefix(line, "vless://") then Some("vless")
    else if HasPrefix(line, "trojan://") then Some("trojan")
    else if HasPrefix(line, "hysteria2://") then Some("hysteria2")
    else None
  }

  /** Exactly these five schemes are known, each for one type. */
  lemma SchemeDecidesType(line: string)
    ensures TypeOfLine(line) == Some("shadowsocks") <==> "ss://" <= line
    ensures TypeOfLine(line) == Some("vmess") <==> "vmess://" <= line
    ensures TypeOfLine(line) == Some("vless") <==> "vless://" <= line
    ensures TypeOfLine(line) == Some("trojan") <==> "trojan://" <= line
    ensures TypeOfLine(line) == Some("hysteria2") <==> "hysteria2://" <= line
    ensures TypeOfLine(line).Some? ==>
              || "ss://" <= line || "vmess://" <= line || "vless://" <= line || "trojan://" <= line
              || "hysteria2://" <= line
  {
    assert "vmess://" <= line ==> line[1] == 'm';
    assert "vless://" <= line ==> line[1] == 'l';
    assert "ss://" <= line ==> line[0] == 's';
    assert "trojan://" <= line ==> line[0] == 't';
    assert "hysteria2://" <= line ==> line[0] == 'h';
  }

  function ParseLine(line: string, body: BodyParser): Option<ParsedOutbound> {
    match TypeOfLine(line)
    case None => None
    case Some(typ) =>
      match body(line)
      case None => None
      case Some((tag, fields)) => Some(ParsedOutbound(tag, typ, fields["type" := typ]["tag" := tag]))
  }

  predicate Blank(line: string) {
    TrimSpace(line) == ""
  }

  predicate Accepted(line: string, body: BodyParser) {
    Blank(line) || ParseLine(TrimSpace(line), body).Some?
  }

  predicate AllAccepted(lines: seq<string>, body: BodyParser) {
    forall k :: 0 <= k < |lines| ==> Accepted(lines[k], body)
  }

  /** The outbounds of the lines that are not blank, tags as written. */
  function Raw(lines: seq<string>, body: BodyParser): seq<ParsedOutbound>
    requires AllAccepted(lines, body)
  {
    if lines == [] then []
    else
      var last := lines[|lines| - 1];
      Raw(lines[..|lines| - 1], body) + if Blank(last) then [] else [ParseLine(TrimSpace(last), body).value]
  }

  function TagsOf(nodes: seq<ParsedOutbound>): seq<string> {
    seq(|nodes|, i requires 0 <= i < |nodes| => nodes[i].tag)
  }

  ghost predicate Distinct(tags: seq<string>) {
    forall i, j :: 0 <= i < j < |tags| ==> tags[i] != tags[j]
  }

  /** `nodes` is `raw` with every tag replaced by the first free one after those before it. */
  ghost predicate Retagged(raw: seq<ParsedOutbound>, nodes: seq<ParsedOutbound>) {
    && |nodes| == |raw|
    && forall i :: 0 <= i < |nodes| ==>
         && nodes[i].typ == raw[i].typ && nodes[i].outbound == raw[i].outbound["tag" := nodes[i].tag]
         && nodes[i].tag != ""
         && FirstFree(UsedBefore(nodes, i), BaseTag(raw[i].tag), nodes[i].tag)
  }

  ghost function UsedBefore(nodes: seq<ParsedOutbound>, i: nat): set<string>
    requires i <= |nodes|
  {
    set j | 0 <= j < i :: nodes[j].tag
  }

  lemma RetaggedIsDistinct(raw: seq<ParsedOutbound>, nodes: seq<ParsedOutbound>)
    requires Retagged(raw, nodes)
    ensures Distinct(TagsOf(nodes))
  {
    forall i, j | 0 <= i < j < |nodes|
      ensures nodes[i].tag != nodes[j].tag
    {
      FirstFreeIsUnique(UsedBefore(nodes, j), BaseTag(raw[j].tag), nodes[j].tag, nodes[j].tag);
      assert nodes[i].tag in UsedBefore(nodes, j);
    }
  }

  /** What a builder of configurations asks of its nodes. */
  ghost predicate Importable(nodes: seq<ParsedOutbound>) {
    Distinct(TagsOf(nodes)) && forall i :: 0 <= i < |nodes| ==> nodes[i].tag != "" && nodes[i].typ != ""
  }

  lemma RetagOne(raw: seq<ParsedOutbound>, nodes: seq<ParsedOutbound>, from: ParsedOutbound, tag: string)
    requires Retagged(raw, nodes) && tag != ""
    requires FirstFree(UsedBefore(nodes, |nodes|), BaseTag(from.tag), tag)
    ensures var more := nodes + [ParsedOutbound(tag, from.typ, from.outbound["tag" := tag])];
            Retagged(raw + [from], more) && UsedBefore(more, |more|) == UsedBefore(nodes, |nodes|) + {tag}
  {
    var more := nodes + [ParsedOutbound(tag, from.typ, from.outbound["tag" := tag])];
    forall i | 0 <= i <= |nodes|
      ensures UsedBefore(more, i) == UsedBefore(nodes, i)
    {
      assert forall j :: 0 <= j < i ==> more[j] == nodes[j];
    }
    assert more[|nodes|].tag == tag;
    assert UsedBefore(more, |more|) == UsedBefore(nodes, |nodes|) + {tag} by {
      forall t | t in UsedBefore(more, |more|)
        ensures t in UsedBefore(nodes, |nodes|) + {tag}
      {
        var j :| 0 <= j < |more| && more[j].tag == t;
        assert j < |nodes| ==> nodes[j].tag == t;
      }
      forall t | t in UsedBefore(nodes, |nodes|)
        ensures t in UsedBefore(more, |more|)
      {
        var j :| 0 <= j < |nodes| && nodes[j].tag == t;
        assert more[j].tag == t;
      }
    }
  }

  /** One turn of the loop: the next outbound under its first free tag. */
  method RetagNext(register: TagRegister, raw: seq<ParsedOutbound>, nodes: seq<ParsedOutbound>)
    returns (more: seq<ParsedOutbound>)
    requires register.Valid() && |nodes| < |raw| && Retagged(raw[..|nodes|], nodes)
    requires register.seen.Keys == UsedBefore(nodes, |nodes|)
    modifies register
    ensures register.Valid() && |more| == |nodes| + 1 && Retagged(raw[..|more|], more)
    ensures register.seen.Keys == UsedBefore(more, |more|)
  {
    var next := raw[|nodes|];
    ghost var used := register.seen.Keys;
    var tag := register.UniqueTag(next.tag);
    assert FirstFree(used, BaseTag(next.tag), tag);
    RetagOne(raw[..|nodes|], nodes, next, tag);
    more := nodes + [ParsedOutbound(tag, next.typ, next.outbound["tag" := tag])];
    assert raw[..|more|] == raw[..|nodes|] + [next];
  }

  method Retag(raw: seq<ParsedOutbound>) returns (nodes: seq<ParsedOutbound>)
    ensures Retagged(raw, nodes)
  {
    var register := new TagRegister();
    nodes := [];
    assert raw[..0] == [];
    while |nodes| < |raw|
      invariant register.Valid() && fresh(register)
      invariant |nodes| <= |raw| && Retagged(raw[..|nodes|], nodes)
      invariant register.seen.Keys == UsedBefore(nodes, |nodes|)
    {
      nodes := RetagNext(register, raw, nodes);
    }
    assert raw[..|raw|] == raw;
  }

  lemma RawGrows(lines: seq<string>, line: string, body: BodyParser)
    requires AllAccepted(lines, body) && Accepted(line, body)
    ensures AllAccepted(lines + [line], body)
    ensures Raw(lines + [line], body) ==
            Raw(lines, body) + if Blank(line) then [] else [ParseLine(TrimSpace(line), body).value]
  {
    assert (lines + [line])[..|lines|] == lines;
  }

  lemma {:induction false} RawOfLines(lines: seq<string>, body: BodyParser)
    requires AllAccepted(lines, body)
    ensures forall i :: 0 <= i < |Raw(lines, body)| ==> Raw(lines, body)[i].typ != ""
    ensures Raw(lines, body) == [] <==> forall k :: 0 <= k < |lines| ==> Blank(lines[k])
    decreases |lines|
  {
    if lines != [] {
      var rest, last := lines[..|lines| - 1], lines[|lines| - 1];
      assert lines == rest + [last];
      RawGrows(rest, last, body);
      RawOfLines(rest, body);
      if Blank(last) {
        assert Raw(lines, body) == Raw(rest, body);
        assert forall k :: 0 <= k < |rest| ==> rest[k] == lines[k];
      } else {
        assert Raw(lines, body) != [];
      }
    }
  }

  /** The first loop of Parse: the outbounds of all lines, or the number of the first bad one. */
  method Collect(lines: seq<string>, body: BodyParser) returns (raw: seq<ParsedOutbound>, bad: nat)
    ensures bad == 0 ==> AllAccepted(lines, body) && raw == Raw(lines, body)
    ensures bad != 0 ==> bad <= |lines| && !Accepted(lines[bad - 1], body) && AllAccepted(lines[..bad - 1], body)
  {
    raw, bad := [], 0;
    for i := 0 to |lines|
      invariant AllAccepted(lines[..i], body) && raw == Raw(lines[..i], body)
    {
      var line := TrimSpace(lines[i]);
      if line != "" {
        var outbound := ParseLine(line, body);
        if outbound.None? {
          return raw, i + 1;
        }
        raw := raw + [outbound.value];
      }
      RawGrows(lines[..i], lines[i], body);
      assert lines[..i + 1] == lines[..i] + [lines[i]];
    }
    assert lines[..|lines|] == lines;
  }

  /** Tags of accepted text are distinct and not empty, each the first free one after those before it. */
  method Parse(text: string, body: BodyParser) returns (result: ParseResult)
    ensures var lines := SplitLines(text);
            match result
            case Parsed(nodes) => AllAccepted(lines, body) && nodes != [] && Retagged(Raw(lines, body), nodes)
            case BadLine(n) =>
              1 <= n <= |lines| && !Accepted(lines[n - 1], body) && AllAccepted(lines[..n - 1], body)
            case NoLines => forall k :: 0 <= k < |lines| ==> Blank(lines[k])
    ensures result.Parsed? ==> Importable(result.outbounds)
  {
    var lines := SplitLines(text);
    var raw, bad := Collect(lines, body);
    if bad != 0 {
      return BadLine(bad);
    }
    RawOfLines(lines, body);
    if |raw| == 0 {
      return NoLines;
    }
    var nodes := Retag(raw);
    RetaggedIsDistinct(raw, nodes);
    return Parsed(nodes);
  }
}
