/** The documentation generator's naming and its Mermaid flowchart of a
    workflow (doc_generator.py): the model name it suggests for a tool, the
    node text of one tool, and the lines of the whole diagram. */
module Docs {
  import opened Wrappers
  import opened Text
  import Models
  import Naming
  import Seqs

  // ---------------------------------------------------------------------
  // Suggested model names
  // ---------------------------------------------------------------------

  /** The text `_suggest_model_name` sanitizes: the table name, annotation
      or plugin name (the first that is not empty), overridden by the stem
      of the source path or, failing that, of the target path. */
  function BaseName(n: Models.Node): String {
    var fallback :=
      if n.tableName != [] then n.tableName
      else if n.annotation != [] then n.annotation
      else n.pluginName;
    if n.sourcePath != [] then Naming.Stem(n.sourcePath)
    else if n.targetPath != [] then Naming.Stem(n.targetPath)
    else fallback
  }

  /** The order in which the base name's candidates take precedence. */
  lemma BaseNamePrecedence(n: Models.Node)
    ensures n.sourcePath != [] ==> BaseName(n) == Naming.Stem(n.sourcePath)
    ensures n.sourcePath == [] && n.targetPath != [] ==> BaseName(n) == Naming.Stem(n.targetPath)
    ensures n.sourcePath == [] && n.targetPath == [] ==>
      BaseName(n) == (if n.tableName != [] then n.tableName
                      else if n.annotation != [] then n.annotation
                      else n.pluginName)
  {
  }

  /** The prefix a layer gives a model name; gold is `fct_` only for a
      Summarize tool. */
  function LayerPrefix(n: Models.Node, layer: Models.MedallionLayer): (p: String)
    ensures |p| == 4 && p in ["stg_", "int_", "fct_", "dim_"]
  {
    match layer
    case Bronze => "stg_"
    case Silver => "int_"
    case Gold => if n.pluginName == "Summarize" then "fct_" else "dim_"
  }

  /** `_suggest_model_name`: the layer prefix followed by the sanitized base
      name, a name of `[a-z0-9_]` of at most 54 characters. */
  function SuggestModelName(n: Models.Node, layer: Models.MedallionLayer): (r: String)
    ensures |r| > 4 && r[..4] == LayerPrefix(n, layer) && r[4..] == Naming.Sanitize(BaseName(n))
    ensures |r| <= 4 + Naming.MaxNameLength && Naming.AllNameChars(r)
  {
    var prefix := LayerPrefix(n, layer);
    var sanitized := Naming.Sanitize(BaseName(n));
    PrefixedName(prefix, sanitized);
    prefix + sanitized
  }

  /** The prefix tells the layer: `stg_` for bronze, `int_` for silver, and
      `fct_` (a Summarize tool) or `dim_` for gold. */
  lemma SuggestModelNameLayer(n: Models.Node, layer: Models.MedallionLayer)
    ensures var r := SuggestModelName(n, layer);
      (layer == Models.Bronze <==> StartsWith(r, "stg_"))
      && (layer == Models.Silver <==> StartsWith(r, "int_"))
      && (layer == Models.Gold <==> StartsWith(r, "fct_") || StartsWith(r, "dim_"))
      && (StartsWith(r, "fct_") <==> layer == Models.Gold && n.pluginName == "Summarize")
  {
    var r := SuggestModelName(n, layer);
    var prefix := LayerPrefix(n, layer);
    assert StartsWith(r, prefix);
  }

  /** What a layer prefix in front of a sanitized name gives. */
  lemma PrefixedName(prefix: String, name: String)
    requires prefix in ["stg_", "int_", "fct_", "dim_"]
    requires name != [] && |name| <= Naming.MaxNameLength && Naming.AllNameChars(name)
    ensures var r := prefix + name;
      |r| > 4 && r[..4] == prefix && r[4..] == name && Naming.AllNameChars(r)
  {
    var r := prefix + name;
    assert r[..4] == prefix && r[4..] == name;
    assert Naming.AllNameChars(prefix);
    assert forall i :: 4 <= i < |r| ==> r[i] == name[i - 4];
  }

  /** A tool that reads `dir/base.ext` is named after base. */
  lemma SuggestFromFile(n: Models.Node, layer: Models.MedallionLayer, dir: String, base: String, ext: String)
    requires n.sourcePath == dir + base + "." + ext
    requires dir == [] || dir[|dir| - 1] == '/'
    requires base != [] && ext != [] && '/' !in base && '/' !in ext && '.' !in ext
    ensures SuggestModelName(n, layer)[4..] == Naming.Sanitize(base)
  {
    Naming.StemOfFile(dir, base, ext);
  }

  // ---------------------------------------------------------------------
  // One tool as a Mermaid node
  // ---------------------------------------------------------------------

  /** The three characters a node label may not hold. */
  predicate Reserved(c: char) { c == '"' || c == '[' || c == ']' }

  function EscapeChar(c: char): char {
    if c == '"' then '\'' else if c == '[' then '(' else if c == ']' then ')' else c
  }

  /** Every c in s replaced by d. */
  function SwapChar(s: String, c: char, d: char): (r: String)
    ensures |r| == |s|
  {
    seq(|s|, i requires 0 <= i < |s| => if s[i] == c then d else s[i])
  }

  /** `s.replace(c, d)` for single characters swaps every c for d. */
  lemma {:induction false} ReplaceOneChar(s: String, c: char, d: char)
    ensures Replace(s, [c], [d]) == SwapChar(s, c, d)
    decreases |s|
  {
    if |s| >= 1 {
      ReplaceOneChar(s[1..], c, d);
      assert s[..1] == [s[0]];
      assert SwapChar(s, c, d) == SwapChar(s[..1], c, d) + SwapChar(s[1..], c, d);
    }
  }

  /** The label escaping: `"` becomes `'`, `[` becomes `(` and `]` becomes `)`;
      no reserved character is left and every other character stays. */
  function Escape(s: String): (r: String)
    ensures |r| == |s|
    ensures forall i :: 0 <= i < |r| ==> !Reserved(r[i])
    ensures forall i :: 0 <= i < |s| && !Reserved(s[i]) ==> r[i] == s[i]
  {
    seq(|s|, i requires 0 <= i < |s| => EscapeChar(s[i]))
  }

  /** The escaping is the chain of three `replace` calls the source makes. */
  lemma EscapeIsReplaces(s: String)
    ensures Escape(s) == Replace(Replace(Replace(s, "\"", "'"), "[", "("), "]", ")")
  {
    var a := SwapChar(s, '"', '\'');
    var b := SwapChar(a, '[', '(');
    var c := SwapChar(b, ']', ')');
    ReplaceOneChar(s, '"', '\'');
    ReplaceOneChar(a, '[', '(');
    ReplaceOneChar(b, ']', ')');
    assert Escape(s) == c;
  }

  /** The longest label a node shows. */
  const MaxLabel: nat := 40

  /** The label of `_create_mermaid_node`: the escaped display name, cut to
      37 characters and "..." when it is longer than 40. */
  function MermaidLabel(n: Models.Node): (r: String)
    ensures |r| <= MaxLabel
    ensures forall i :: 0 <= i < |r| ==> !Reserved(r[i])
    ensures |n.DisplayName()| <= MaxLabel ==> r == Escape(n.DisplayName())
    ensures |n.DisplayName()| > MaxLabel ==>
      |r| == MaxLabel && EndsWith(r, "...")
      && forall i :: 0 <= i < 37 ==> r[i] == EscapeChar(n.DisplayName()[i])
  {
    var caption := Escape(n.DisplayName());
    if |caption| > MaxLabel then
      var r := caption[..37] + "...";
      assert r[37..] == "...";
      r
    else caption
  }

  /** The four node shapes of the flowchart. */
  datatype Shape = Cylinder | Subroutine | Hexagon | Box

  /** Input tools are drawn as cylinders, then output tools as subroutines,
      then macros as hexagons; everything else is a box. */
  function ShapeOf(n: Models.Node): (s: Shape)
    ensures s == Cylinder <==> n.category == Models.Input
    ensures s == Subroutine <==> n.category == Models.Output
    ensures s == Hexagon <==> n.category != Models.Input && n.category != Models.Output && n.isMacro
  {
    if n.category == Models.Input then Cylinder
    else if n.category == Models.Output then Subroutine
    else if n.isMacro then Hexagon
    else Box
  }

  function Open(s: Shape): String {
    match s
    case Cylinder => "[("
    case Subroutine => "[["
    case Hexagon => "{{"
    case Box => "["
  }

  function Close(s: Shape): String {
    match s
    case Cylinder => ")]"
    case Subroutine => "]]"
    case Hexagon => "}}"
    case Box => "]"
  }

  /** The Mermaid identifier of a tool. */
  function NodeId(id: int): String {
    "N" + IntToString(id)
  }

  /** `_create_mermaid_node`. */
  function MermaidNode(n: Models.Node): String {
    var s := ShapeOf(n);
    NodeId(n.toolId) + Open(s) + "\"" + MermaidLabel(n) + "\"" + Close(s)
  }

  /** A node identifier holds `N`, digits and a sign: neither of the
      characters the flowchart uses to delimit labels. */
  lemma NodeIdChars(id: int)
    ensures '"' !in NodeId(id) && '|' !in NodeId(id)
  {
    var t := IntToString(id);
    if id < 0 {
      var d := NatToString(-id);
      assert forall k :: 1 <= k < |t| ==> t[k] == d[k - 1];
    }
    assert forall k :: 0 <= k < |t| ==> IsDigit(t[k]) || t[k] == '-';
    assert forall k :: 1 <= k < |NodeId(id)| ==> NodeId(id)[k] == t[k - 1];
  }

  /** The two characters after the identifier tell the shape. */
  lemma ShapeMarks(id: String, s: Shape, caption: String)
    ensures var r := id + Open(s) + "\"" + caption + "\"" + Close(s);
      var k := |id|;
      k + 2 <= |r|
      && (r[k] == '[' && r[k + 1] == '(' <==> s == Cylinder)
      && (r[k] == '[' && r[k + 1] == '[' <==> s == Subroutine)
      && (r[k] == '{' && r[k + 1] == '{' <==> s == Hexagon)
  {
    var r := id + Open(s) + "\"" + caption + "\"" + Close(s);
    var k := |id|;
    assert r[k] == Open(s)[0];
    assert r[k + 1] == (Open(s) + "\"")[1];
  }

  /** The brackets of a shape hold no double quote. */
  lemma BracketsUnquoted(s: Shape)
    ensures '"' !in Open(s) && '"' !in Close(s)
  {
  }

  /** Two texts without a character joined hold none either. */
  lemma AbsentFromBoth(a: String, b: String, c: char)
    requires c !in a && c !in b
    ensures c !in a + b
  {
    assert forall k :: |a| <= k < |a + b| ==> (a + b)[k] == b[k - |a|];
  }

  /** Text with no double quote, quoted between two others. */
  lemma Quoted(pre: String, caption: String, post: String)
    requires '"' !in pre && '"' !in caption && '"' !in post
    ensures var r := pre + "\"" + caption + "\"" + post;
      |pre| + 1 + |caption| <= |r| && r[|pre| + 1..|pre| + 1 + |caption|] == caption && multiset(r)['"'] == 2
  {
    var q: String := "\"";
    var r := pre + q + caption + q + post;
    assert r[|pre| + 1..|pre| + 1 + |caption|] == caption;
    assert multiset(pre)['"'] == 0;
    assert multiset(caption)['"'] == 0;
    assert multiset(post)['"'] == 0;
  }

  /** `_create_mermaid_node` read back: the shape marks after the identifier
      follow the category precedence, and the text holds exactly two double
      quotes, around the label (`Quoted`). */
  lemma MermaidNodeParts(n: Models.Node)
    ensures |NodeId(n.toolId)| + 2 <= |MermaidNode(n)|
    ensures var r, k := MermaidNode(n), |NodeId(n.toolId)|;
      r[k] == '[' && r[k + 1] == '(' <==> n.category == Models.Input
    ensures var r, k := MermaidNode(n), |NodeId(n.toolId)|;
      r[k] == '[' && r[k + 1] == '[' <==> n.category == Models.Output
    ensures var r, k := MermaidNode(n), |NodeId(n.toolId)|;
      r[k] == '{' && r[k + 1] == '{' <==> n.category != Models.Input && n.category != Models.Output && n.isMacro
    ensures multiset(MermaidNode(n))['"'] == 2
  {
    var id := NodeId(n.toolId);
    var caption := MermaidLabel(n);
    var s := ShapeOf(n);
    NodeIdChars(n.toolId);
    assert '"' !in caption by {
      assert forall i :: 0 <= i < |caption| ==> !Reserved(caption[i]);
    }
    ShapeMarks(id, s, caption);
    BracketsUnquoted(s);
    AbsentFromBoth(id, Open(s), '"');
    Quoted(id + Open(s), caption, Close(s));
  }

  // ---------------------------------------------------------------------
  // The diagram
  // ---------------------------------------------------------------------

  predicate IsContainer(n: Models.Node) { n.category == Models.Container }

  /** The containers among the first i tools, in order. */
  function ContainersUpTo(nodes: seq<Models.Node>, i: nat): (r: seq<Models.Node>)
    requires i <= |nodes|
    ensures forall c :: c in r ==> IsContainer(c)
    ensures forall k :: 0 <= k < i && IsContainer(nodes[k]) ==> nodes[k] in r
  {
    if i == 0 then []
    else if IsContainer(nodes[i - 1]) then ContainersUpTo(nodes, i - 1) + [nodes[i - 1]]
    else ContainersUpTo(nodes, i - 1)
  }

  /** The ids that some container among the first i tools lists as its child. */
  function ChildIdsUpTo(nodes: seq<Models.Node>, i: nat): set<int>
    requires i <= |nodes|
  {
    if i == 0 then {}
    else if IsContainer(nodes[i - 1]) then ChildIdsUpTo(nodes, i - 1) + IdSet(nodes[i - 1].childToolIds)
    else ChildIdsUpTo(nodes, i - 1)
  }

  function IdSet(ids: seq<int>): set<int> {
    set x | x in ids
  }

  /** An id is a child id exactly when some container lists it. */
  lemma {:induction false} ChildIdsMembers(nodes: seq<Models.Node>, i: nat, id: int)
    requires i <= |nodes|
    ensures id in ChildIdsUpTo(nodes, i) <==>
      exists k :: 0 <= k < i && IsContainer(nodes[k]) && id in nodes[k].childToolIds
  {
    if i > 0 {
      ChildIdsMembers(nodes, i - 1, id);
    }
  }

  /** The subgraph title of a container: its annotation, else its plugin
      name, with `"` turned into `'` and cut to 30 characters. */
  function ContainerLabel(c: Models.Node): (r: String)
    ensures var l := if c.annotation != [] then c.annotation else c.pluginName;
      |r| == (if |l| < 30 then |l| else 30)
      && forall i :: 0 <= i < |r| ==> r[i] == (if l[i] == '"' then '\'' else l[i])
    ensures '"' !in r
  {
    var l := if c.annotation != [] then c.annotation else c.pluginName;
    var q := SwapChar(l, '"', '\'');
    if |q| > 30 then q[..30] else q
  }

  /** One line of the diagram, by what it draws. */
  datatype Line =
    | GraphHeader
    | SubgraphStart(container: Models.Node)
    | ChildNode(child: Models.Node)
    | SubgraphEnd
    | TopNode(node: Models.Node)
    | Arrow(conn: Models.Connection)

  /** The arrow of a connection, with its anchor as label unless that is
      the standard `Output` or `Output1`. */
  function EdgeLine(c: Models.Connection): String {
    var caption := if c.originAnchor != "Output" && c.originAnchor != "Output1" then c.originAnchor else [];
    if caption != [] then "    " + NodeId(c.originId) + " -->|" + caption + "| " + NodeId(c.destinationId)
    else "    " + NodeId(c.originId) + " --> " + NodeId(c.destinationId)
  }

  /** The text the generator writes for each kind of line. */
  function Render(l: Line): String {
    match l
    case GraphHeader => "graph LR"
    case SubgraphStart(c) => "    subgraph C" + IntToString(c.toolId) + "[\"" + ContainerLabel(c) + "\"]"
    case ChildNode(n) => "        " + MermaidNode(n)
    case SubgraphEnd => "    end"
    case TopNode(n) => "    " + MermaidNode(n)
    case Arrow(c) => EdgeLine(c)
  }

  /** The text of a list of lines. */
  function RenderAll(ls: seq<Line>): (r: seq<String>)
    ensures |r| == |ls|
  {
    Seqs.Map(Render, ls)
  }

  /** An arrow carries a `|label|` exactly when the anchor is not empty and
      not a standard output. */
  lemma EdgeLineLabelled(c: Models.Connection)
    ensures '|' in EdgeLine(c) <==>
      c.originAnchor != [] && c.originAnchor != "Output" && c.originAnchor != "Output1"
  {
    var o := NodeId(c.originId);
    var d := NodeId(c.destinationId);
    NodeIdChars(c.originId);
    NodeIdChars(c.destinationId);
    var line := EdgeLine(c);
    if c.originAnchor != [] && c.originAnchor != "Output" && c.originAnchor != "Output1" {
      assert line[|"    " + o + " -->"|] == '|';
    } else {
      assert line == "    " + o + " --> " + d;
    }
  }

  /** `get_node_by_id` of the workflow, as a lookup. */
  function Lookup(wf: Models.Workflow): int -> Option<Models.Node> {
    id => wf.NodeById(id)
  }

  /** The line of one listed child: the tool the lookup finds, if any. */
  function ChildLine(find: int -> Option<Models.Node>, id: int): seq<Line> {
    match find(id)
    case Some(child) => [ChildNode(child)]
    case None => []
  }

  /** The lines of the first j children of a container. */
  function ChildLinesUpTo(find: int -> Option<Models.Node>, ids: seq<int>, j: nat): (r: seq<Line>)
    requires j <= |ids|
  {
    if j == 0 then [] else ChildLinesUpTo(find, ids, j - 1) + ChildLine(find, ids[j - 1])
  }

  /** A child id that names a tool gives that tool's line; an id that names
      none gives nothing; every line comes from a listed id. */
  lemma {:induction false} ChildLinesMembers(find: int -> Option<Models.Node>, ids: seq<int>, j: nat)
    requires j <= |ids|
    ensures |ChildLinesUpTo(find, ids, j)| <= j
    ensures forall k :: 0 <= k < j && find(ids[k]).Some? ==>
      ChildNode(find(ids[k]).value) in ChildLinesUpTo(find, ids, j)
    ensures forall l :: l in ChildLinesUpTo(find, ids, j) ==>
      exists k :: 0 <= k < j && find(ids[k]).Some? && l == ChildNode(find(ids[k]).value)
  {
    if j > 0 {
      ChildLinesMembers(find, ids, j - 1);
    }
  }

  /** The subgraph of one container: its title, its child lines, `end`. */
  function Subgraph(find: int -> Option<Models.Node>, c: Models.Node): seq<Line> {
    [SubgraphStart(c)] + ChildLinesUpTo(find, c.childToolIds, |c.childToolIds|) + [SubgraphEnd]
  }

  function SubgraphsUpTo(find: int -> Option<Models.Node>, cs: seq<Models.Node>, k: nat): seq<Line>
    requires k <= |cs|
  {
    if k == 0 then [] else SubgraphsUpTo(find, cs, k - 1) + Subgraph(find, cs[k - 1])
  }

  /** Every container opens a subgraph, and each subgraph has at least its
      title and its `end`. */
  lemma {:induction false} SubgraphStarts(find: int -> Option<Models.Node>, cs: seq<Models.Node>, k: nat)
    requires k <= |cs|
    ensures forall i :: 0 <= i < k ==> SubgraphStart(cs[i]) in SubgraphsUpTo(find, cs, k)
    ensures |SubgraphsUpTo(find, cs, k)| >= 2 * k
  {
    if k > 0 {
      SubgraphStarts(find, cs, k - 1);
      var prev := SubgraphsUpTo(find, cs, k - 1);
      var g := Subgraph(find, cs[k - 1]);
      assert g[0] == SubgraphStart(cs[k - 1]);
      forall i | 0 <= i < k
        ensures SubgraphStart(cs[i]) in prev + g
      {
        if i < k - 1 {
          assert SubgraphStart(cs[i]) in prev;
        } else {
          assert (prev + g)[|prev|] == g[0];
        }
      }
    }
  }

  /** A tool drawn outside every subgraph: not a container and not listed
      as any container's child. */
  predicate IsTopLevel(n: Models.Node, children: set<int>) {
    !IsContainer(n) && n.toolId !in children
  }

  function TopLinesUpTo(nodes: seq<Models.Node>, children: set<int>, i: nat): seq<Line>
    requires i <= |nodes|
  {
    if i == 0 then []
    else if IsTopLevel(nodes[i - 1], children) then TopLinesUpTo(nodes, children, i - 1) + [TopNode(nodes[i - 1])]
    else TopLinesUpTo(nodes, children, i - 1)
  }

  /** The top-level lines are exactly those of the top-level tools. */
  lemma {:induction false} TopLinesMembers(nodes: seq<Models.Node>, children: set<int>, i: nat)
    requires i <= |nodes|
    ensures forall k :: 0 <= k < i && IsTopLevel(nodes[k], children) ==>
      TopNode(nodes[k]) in TopLinesUpTo(nodes, children, i)
    ensures forall l :: l in TopLinesUpTo(nodes, children, i) ==>
      exists k :: 0 <= k < i && IsTopLevel(nodes[k], children) && l == TopNode(nodes[k])
  {
    if i > 0 {
      TopLinesMembers(nodes, children, i - 1);
    }
  }

  function EdgeLinesUpTo(conns: seq<Models.Connection>, i: nat): seq<Line>
    requires i <= |conns|
  {
    if i == 0 then [] else EdgeLinesUpTo(conns, i - 1) + [Arrow(conns[i - 1])]
  }

  /** One arrow per connection, in connection order. */
  lemma {:induction false} EdgeLinesEach(conns: seq<Models.Connection>, i: nat)
    requires i <= |conns|
    ensures |EdgeLinesUpTo(conns, i)| == i
    ensures forall k :: 0 <= k < i ==> EdgeLinesUpTo(conns, i)[k] == Arrow(conns[k])
  {
    if i > 0 {
      EdgeLinesEach(conns, i - 1);
    }
  }

  /** The lines of `_generate_mermaid_diagram`: the header, the subgraph of
      every container, the top-level tools and one arrow per connection. */
  function DiagramLines(wf: Models.Workflow): seq<Line> {
    var cs := ContainersUpTo(wf.nodes, |wf.nodes|);
    [GraphHeader]
      + SubgraphsUpTo(Lookup(wf), cs, |cs|)
      + TopLinesUpTo(wf.nodes, ChildIdsUpTo(wf.nodes, |wf.nodes|), |wf.nodes|)
      + EdgeLinesUpTo(wf.connections, |wf.connections|)
  }

  /** The diagram text: its lines joined by newlines. */
  function DiagramText(wf: Models.Workflow): String {
    Join(RenderAll(DiagramLines(wf)), "\n")
  }

  /** The diagram text starts with the flowchart header. */
  lemma DiagramHeader(wf: Models.Workflow)
    ensures StartsWith(DiagramText(wf), "graph LR")
  {
    var lines := RenderAll(DiagramLines(wf));
    assert DiagramLines(wf)[0] == GraphHeader;
    assert lines[0] == "graph LR";
    if |lines| > 1 {
      assert Join(lines, "\n") == lines[0] + "\n" + Join(lines[1..], "\n");
    }
  }

  /** `_generate_mermaid_diagram`: its four loops are the helper methods
      below, each returning the lines it appends. */
  method GenerateMermaidDiagram(wf: Models.Workflow) returns (text: String)
    ensures text == DiagramText(wf)
  {
    var lines: seq<String> := ["graph LR"];
    var containers, containerNodes := FindContainers(wf.nodes);
    var subgraphLines := SubgraphLines(wf, containers);
    var nodeLines := TopLevelLines(wf.nodes, containerNodes);
    var edgeLines := ConnectionLines(wf.connections);
    lines := lines + subgraphLines + nodeLines + edgeLines;
    RenderDiagram(SubgraphsUpTo(Lookup(wf), containers, |containers|),
      TopLinesUpTo(wf.nodes, containerNodes.Keys, |wf.nodes|),
      EdgeLinesUpTo(wf.connections, |wf.connections|));
    text := Join(lines, "\n");
  }

  /** The first loop: the containers in order, and every child id mapped to
      the container that lists it. */
  method FindContainers(nodes: seq<Models.Node>) returns (containers: seq<Models.Node>, containerNodes: map<int, int>)
    ensures containers == ContainersUpTo(nodes, |nodes|)
    ensures containerNodes.Keys == ChildIdsUpTo(nodes, |nodes|)
  {
    containerNodes := map[];
    containers := [];
    var i := 0;
    while i < |nodes|
      invariant i <= |nodes|
      invariant containers == ContainersUpTo(nodes, i)
      invariant containerNodes.Keys == ChildIdsUpTo(nodes, i)
    {
      var node := nodes[i];
      if node.category == Models.Container {
        containers := containers + [node];
        containerNodes := AddChildren(containerNodes, node.childToolIds, node.toolId);
      }
      i := i + 1;
    }
  }

  /** The subgraph loop. */
  method SubgraphLines(wf: Models.Workflow, containers: seq<Models.Node>) returns (lines: seq<String>)
    ensures lines == RenderAll(SubgraphsUpTo(Lookup(wf), containers, |containers|))
  {
    lines := [];
    var k := 0;
    while k < |containers|
      invariant k <= |containers|
      invariant lines == RenderAll(SubgraphsUpTo(Lookup(wf), containers, k))
    {
      var part := OneSubgraph(wf, containers[k]);
      Seqs.MapConcat(Render, SubgraphsUpTo(Lookup(wf), containers, k), Subgraph(Lookup(wf), containers[k]));
      lines := lines + part;
      k := k + 1;
    }
  }

  /** The body of the subgraph loop: title, children, `end`. */
  method OneSubgraph(wf: Models.Workflow, container: Models.Node) returns (lines: seq<String>)
    ensures lines == RenderAll(Subgraph(Lookup(wf), container))
  {
    var title := ContainerLabel(container);
    var body := SubgraphBody(wf, container);
    RenderSubgraph(Lookup(wf), container);
    lines := ["    subgraph C" + IntToString(container.toolId) + "[\"" + title + "\"]"] + body + ["    end"];
  }

  /** The loop over the tools outside every subgraph. */
  method TopLevelLines(nodes: seq<Models.Node>, containerNodes: map<int, int>) returns (lines: seq<String>)
    ensures lines == RenderAll(TopLinesUpTo(nodes, containerNodes.Keys, |nodes|))
  {
    lines := [];
    var i := 0;
    while i < |nodes|
      invariant i <= |nodes|
      invariant lines == RenderAll(TopLinesUpTo(nodes, containerNodes.Keys, i))
    {
      var node := nodes[i];
      TopLinesStep(nodes, containerNodes.Keys, i);
      if node.category != Models.Container && node.toolId !in containerNodes {
        lines := lines + ["    " + MermaidNode(node)];
      }
      i := i + 1;
    }
  }

  /** The loop over the connections. */
  method ConnectionLines(conns: seq<Models.Connection>) returns (lines: seq<String>)
    ensures lines == RenderAll(EdgeLinesUpTo(conns, |conns|))
  {
    lines := [];
    var e := 0;
    while e < |conns|
      invariant e <= |conns|
      invariant lines == RenderAll(EdgeLinesUpTo(conns, e))
    {
      var conn := conns[e];
      var origin := NodeId(conn.originId);
      var dest := NodeId(conn.destinationId);
      var caption: String := [];
      if conn.originAnchor != "Output" && conn.originAnchor != "Output1" {
        caption := conn.originAnchor;
      }
      EdgeLinesStep(conns, e);
      if caption != [] {
        lines := lines + ["    " + origin + " -->|" + caption + "| " + dest];
      } else {
        lines := lines + ["    " + origin + " --> " + dest];
      }
      e := e + 1;
    }
  }

  /** A container's subgraph renders as its title, its rendered children
      and `end`. */
  lemma RenderSubgraph(find: int -> Option<Models.Node>, c: Models.Node)
    ensures RenderAll(Subgraph(find, c))
      == ["    subgraph C" + IntToString(c.toolId) + "[\"" + ContainerLabel(c) + "\"]"]
         + RenderAll(ChildLinesUpTo(find, c.childToolIds, |c.childToolIds|)) + ["    end"]
  {
    var children := ChildLinesUpTo(find, c.childToolIds, |c.childToolIds|);
    Seqs.MapConcat(Render, [SubgraphStart(c)] + children, [SubgraphEnd]);
    Seqs.MapConcat(Render, [SubgraphStart(c)], children);
  }

  /** One more tool adds its line when it is drawn at the top level. */
  lemma TopLinesStep(nodes: seq<Models.Node>, children: set<int>, i: nat)
    requires i < |nodes|
    ensures RenderAll(TopLinesUpTo(nodes, children, i + 1))
      == RenderAll(TopLinesUpTo(nodes, children, i))
         + (if IsTopLevel(nodes[i], children) then ["    " + MermaidNode(nodes[i])] else [])
  {
    if IsTopLevel(nodes[i], children) {
      Seqs.MapConcat(Render, TopLinesUpTo(nodes, children, i), [TopNode(nodes[i])]);
    }
  }

  /** One more connection adds its arrow. */
  lemma EdgeLinesStep(conns: seq<Models.Connection>, e: nat)
    requires e < |conns|
    ensures RenderAll(EdgeLinesUpTo(conns, e + 1)) == RenderAll(EdgeLinesUpTo(conns, e)) + [EdgeLine(conns[e])]
  {
    Seqs.MapConcat(Render, EdgeLinesUpTo(conns, e), [Arrow(conns[e])]);
  }

  /** One more child id adds the line of the tool it names, if any. */
  lemma ChildLinesStep(wf: Models.Workflow, ids: seq<int>, j: nat)
    requires j < |ids|
    ensures RenderAll(ChildLinesUpTo(Lookup(wf), ids, j + 1))
      == RenderAll(ChildLinesUpTo(Lookup(wf), ids, j))
         + (match wf.NodeById(ids[j]) case Some(child) => ["        " + MermaidNode(child)] case None => [])
  {
    Seqs.MapConcat(Render, ChildLinesUpTo(Lookup(wf), ids, j), ChildLine(Lookup(wf), ids[j]));
  }

  /** The rendered diagram is the rendered parts one after another. */
  lemma RenderDiagram(subgraphs: seq<Line>, top: seq<Line>, edges: seq<Line>)
    ensures RenderAll([GraphHeader] + subgraphs + top + edges)
      == ["graph LR"] + RenderAll(subgraphs) + RenderAll(top) + RenderAll(edges)
  {
    Seqs.MapConcat(Render, [GraphHeader] + subgraphs + top, edges);
    Seqs.MapConcat(Render, [GraphHeader] + subgraphs, top);
    Seqs.MapConcat(Render, [GraphHeader], subgraphs);
  }

  /** The loop that records every child id of one container. */
  method AddChildren(m: map<int, int>, ids: seq<int>, owner: int) returns (r: map<int, int>)
    ensures r.Keys == m.Keys + IdSet(ids)
    ensures forall id :: id in IdSet(ids) ==> r[id] == owner
    ensures forall id :: id in m && id !in IdSet(ids) ==> r[id] == m[id]
  {
    r := m;
    var j := 0;
    while j < |ids|
      invariant j <= |ids|
      invariant r.Keys == m.Keys + IdSet(ids[..j])
      invariant forall id :: id in IdSet(ids[..j]) ==> r[id] == owner
      invariant forall id :: id in m && id !in IdSet(ids[..j]) ==> r[id] == m[id]
    {
      assert ids[..j + 1] == ids[..j] + [ids[j]];
      r := r[ids[j] := owner];
      j := j + 1;
    }
    assert ids[..j] == ids;
  }

  /** The loop over one container's children, skipping ids that name no tool. */
  method SubgraphBody(wf: Models.Workflow, container: Models.Node) returns (body: seq<String>)
    ensures body == RenderAll(ChildLinesUpTo(Lookup(wf), container.childToolIds, |container.childToolIds|))
  {
    body := [];
    var j := 0;
    while j < |container.childToolIds|
      invariant j <= |container.childToolIds|
      invariant body == RenderAll(ChildLinesUpTo(Lookup(wf), container.childToolIds, j))
    {
      var child := wf.NodeById(container.childToolIds[j]);
      ChildLinesStep(wf, container.childToolIds, j);
      if child.Some? {
        body := body + ["        " + MermaidNode(child.value)];
      }
      j := j + 1;
    }
  }
}
