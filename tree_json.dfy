/**
 * The tree printer of tiny_parser/src/main.rs: the rules main applies to its
 * command-line arguments and to the parsed root, and jsonify_node, which maps a
 * parse-tree node to the JSON object the tree viewer draws.
 *
 * The parser itself (parse, Node, NodeType) is not part of this model: a node is
 * given abstractly by its type, its text, its span and its children. The class
 * name that the optional args[4] switches on is one fixed literal in the
 * source (it is both the word compared with that argument and the class it
 * selects); the model takes it as the parameter overrideWord.
 */
module TreeJson {
  import opened Wrappers
  import opened Json

  /** The node types jsonify_node tells apart; every other type is Other. */
  datatype NodeType =
    | Stmt(kind: string)
    | Error(kind: string, detail: string)
    | Null
    | Other(name: string)

  datatype Node = Node(nType: NodeType, value: string, span: (nat, nat), children: seq<Node>)

  /** The Debug rendering of a node type, as derive(Debug) writes it. */
  function DebugName(t: NodeType): string
  {
    match t
    case Stmt(k) => "Stmt(" + k + ")"
    case Error(k, d) => "Error(" + k + ", " + d + ")"
    case Null => "Null"
    case Other(name) => name
  }

  /** The keys of every object jsonify_node builds, in the order it inserts them. */
  const NodeKeys: seq<string> := ["text", "pseudo", "span", "children", "HTMLclass"]

  /** The CSS class of a node: the override word when the override is on, else by node type. */
  function HtmlClass(t: NodeType, classOverride: bool, overrideWord: string): (c: string)
    ensures classOverride ==> c == overrideWord
    ensures !classOverride ==> (c == "stmt" <==> t.Stmt?)
    ensures !classOverride ==> (c == "error" <==> t.Error?)
    ensures !classOverride ==> (c == "normie" <==> !t.Stmt? && !t.Error?)
  {
    if classOverride then overrideWord
    else if t.Stmt? then "stmt"
    else if t.Error? then "error"
    else "normie"
  }

  /** The text payload: the node's text when simplified, else its type name. */
  function Text(n: Node, simplified: bool): JsonValue
  {
    if simplified then Object([("value", String(n.value))])
    else
      var name := match n.nType
        case Error(e, _) => e
        case _ => DebugName(n.nType);
      Object([("type", String(name))])
  }

  /** Five fields in the given order. */
  function Fields5(k0: string, k1: string, k2: string, k3: string, k4: string,
                   v0: JsonValue, v1: JsonValue, v2: JsonValue, v3: JsonValue, v4: JsonValue): seq<(string, JsonValue)>
  {
    [(k0, v0)] + ([(k1, v1)] + ([(k2, v2)] + ([(k3, v3)] + [(k4, v4)])))
  }

  /** With five distinct keys, each key finds its own value. */
  lemma LookupFields5(k0: string, k1: string, k2: string, k3: string, k4: string,
                      v0: JsonValue, v1: JsonValue, v2: JsonValue, v3: JsonValue, v4: JsonValue)
    requires k0 != k1 && k0 != k2 && k0 != k3 && k0 != k4
    requires k1 != k2 && k1 != k3 && k1 != k4
    requires k2 != k3 && k2 != k4 && k3 != k4
    ensures var f := Fields5(k0, k1, k2, k3, k4, v0, v1, v2, v3, v4);
      && Keys(f) == [k0, k1, k2, k3, k4]
      && Lookup(f, k0) == Some(v0) && Lookup(f, k1) == Some(v1) && Lookup(f, k2) == Some(v2)
      && Lookup(f, k3) == Some(v3) && Lookup(f, k4) == Some(v4)
  {
    var f4 := [(k4, v4)];
    var f3 := [(k3, v3)] + f4;
    var f2 := [(k2, v2)] + f3;
    var f1 := [(k1, v1)] + f2;
    var f := [(k0, v0)] + f1;
    assert f[1..] == f1 && f1[1..] == f2 && f2[1..] == f3 && f3[1..] == f4;
    assert Lookup(f3, k4) == Some(v4);
    assert Lookup(f2, k3) == Some(v3) && Lookup(f2, k4) == Some(v4);
    assert Lookup(f1, k2) == Some(v2) && Lookup(f1, k3) == Some(v3) && Lookup(f1, k4) == Some(v4);
    assert f[0].0 == k0 && f[1].0 == k1 && f[2].0 == k2 && f[3].0 == k3 && f[4].0 == k4;
  }

  /** The object jsonify_node builds from its five parts; each key holds its own part. */
  function NodeObject(text: JsonValue, pseudo: bool, span: (nat, nat), children: seq<JsonValue>, cls: string): (r: JsonValue)
    ensures r.Object? && Keys(r.fields) == NodeKeys
    ensures Get(r, "text") == Some(text)
    ensures Get(r, "pseudo") == Some(Boolean(pseudo))
    ensures Get(r, "span") == Some(Array([Number(span.0), Number(span.1)]))
    ensures Get(r, "children") == Some(Array(children))
    ensures Get(r, "HTMLclass") == Some(String(cls))
  {
    // "text" and "span" have the same length; every other pair differs in length
    assert "text"[0] != "span"[0];
    LookupFields5(NodeKeys[0], NodeKeys[1], NodeKeys[2], NodeKeys[3], NodeKeys[4],
      text, Boolean(pseudo), Array([Number(span.0), Number(span.1)]), Array(children), String(cls));
    Object(Fields5(NodeKeys[0], NodeKeys[1], NodeKeys[2], NodeKeys[3], NodeKeys[4],
      text, Boolean(pseudo), Array([Number(span.0), Number(span.1)]), Array(children), String(cls)))
  }

  /** jsonify_node: the node as an object, its children mapped the same way in order. */
  function Jsonify(n: Node, simplified: bool, classOverride: bool, overrideWord: string): (r: JsonValue)
    ensures r.Object? && Keys(r.fields) == NodeKeys
    decreases n
  {
    var nodeArr := seq(|n.children|, k requires 0 <= k < |n.children| =>
      Jsonify(n.children[k], simplified, classOverride, overrideWord));
    NodeObject(Text(n, simplified), n.nType.Null?, n.span, nodeArr, HtmlClass(n.nType, classOverride, overrideWord))
  }

  // ---------------------------------------------------------------------------
  // What a client reading the object finds under each key

  /** j is an object with exactly the five keys, and each key holds what the node says. */
  ghost predicate DescribesNode(n: Node, j: JsonValue, simplified: bool, classOverride: bool, overrideWord: string)
  {
    && j.Object? && Keys(j.fields) == NodeKeys
    && (forall key :: key !in NodeKeys ==> Get(j, key) == None)
    && (simplified ==> Get(j, "text") == Some(Object([("value", String(n.value))])))
    && (!simplified && n.nType.Error? ==> Get(j, "text") == Some(Object([("type", String(n.nType.kind))])))
    && (!simplified && !n.nType.Error? ==> Get(j, "text") == Some(Object([("type", String(DebugName(n.nType)))])))
    && Get(j, "pseudo") == Some(Boolean(n.nType.Null?))
    && Get(j, "span") == Some(Array([Number(n.span.0), Number(n.span.1)]))
    && Get(j, "HTMLclass") == Some(String(HtmlClass(n.nType, classOverride, overrideWord)))
    && (exists items :: Get(j, "children") == Some(Array(items)) && |items| == |n.children|)
  }

  /** The items of j's children array (empty when there is none). */
  function ChildItems(j: JsonValue): seq<JsonValue>
  {
    match Get(j, "children")
    case Some(Array(items)) => items
    case _ => []
  }

  /** DescribesNode holds of every node of the tree and the object at the same place in the JSON tree. */
  ghost predicate DescribesTree(n: Node, j: JsonValue, simplified: bool, classOverride: bool, overrideWord: string)
    decreases n
  {
    && DescribesNode(n, j, simplified, classOverride, overrideWord)
    && |ChildItems(j)| == |n.children|
    && forall k :: 0 <= k < |n.children| ==>
         DescribesTree(n.children[k], ChildItems(j)[k], simplified, classOverride, overrideWord)
  }

  /** Each child entry is the child mapped with the same two flags. */
  lemma JsonifyChildren(n: Node, simplified: bool, classOverride: bool, overrideWord: string)
    ensures |ChildItems(Jsonify(n, simplified, classOverride, overrideWord))| == |n.children|
    ensures forall k :: 0 <= k < |n.children| ==>
      ChildItems(Jsonify(n, simplified, classOverride, overrideWord))[k]
        == Jsonify(n.children[k], simplified, classOverride, overrideWord)
  {
  }

  lemma JsonifyDescribesNode(n: Node, simplified: bool, classOverride: bool, overrideWord: string)
    ensures DescribesNode(n, Jsonify(n, simplified, classOverride, overrideWord), simplified, classOverride, overrideWord)
  {
    var j := Jsonify(n, simplified, classOverride, overrideWord);
    assert Get(j, "children") == Some(Array(ChildItems(j)));
    forall key | key !in NodeKeys
      ensures Get(j, key) == None
    {
      LookupSound(j.fields, key);
    }
  }

  /** Every node of the tree, at every depth, is described by the object at its place. */
  lemma {:induction false} JsonifyDescribesTree(n: Node, simplified: bool, classOverride: bool, overrideWord: string)
    ensures DescribesTree(n, Jsonify(n, simplified, classOverride, overrideWord), simplified, classOverride, overrideWord)
    decreases n
  {
    JsonifyDescribesNode(n, simplified, classOverride, overrideWord);
    JsonifyChildren(n, simplified, classOverride, overrideWord);
    forall k | 0 <= k < |n.children|
      ensures DescribesTree(n.children[k], ChildItems(Jsonify(n, simplified, classOverride, overrideWord))[k],
                            simplified, classOverride, overrideWord)
    {
      JsonifyDescribesTree(n.children[k], simplified, classOverride, overrideWord);
    }
  }

  // ---------------------------------------------------------------------------
  // main: the arguments and the root

  datatype Config = Config(inPath: string, outPath: string, simplified: bool, classOverride: bool)

  /** Where main stops: an argument index past the end of args, or an empty child list at the root. */
  datatype MainError = MissingArgument(index: nat) | NoFirstChild

  /** Rust's bool::from_str: exactly "true" and "false" parse. */
  function ParseBool(s: string): (r: Option<bool>)
    ensures r == Some(true) <==> s == "true"
    ensures r == Some(false) <==> s == "false"
  {
    if s == "true" then Some(true)
    else if s == "false" then Some(false)
    else None
  }

  /** args[3] as a boolean, true when it does not parse. */
  function SimplifiedFlag(arg: string): (b: bool)
    ensures !b <==> arg == "false"
  {
    match ParseBool(arg)
    case Some(v) => v
    case None => true
  }

  /**
   * The arguments main reads: input path, output path, the simplified flag and,
   * when args[4] is present, whether it equals the override word.
   * Indexing past the end of args stops main; the error names the first index
   * out of range.
   */
  function ParseArgs(args: seq<string>, overrideWord: string): (r: Result<Config, MainError>)
    ensures r.Success? <==> |args| >= 4
    ensures r.Success? ==> r.value.inPath == args[1] && r.value.outPath == args[2]
    ensures r.Success? ==> (r.value.simplified <==> args[3] != "false")
    ensures r.Success? ==> (r.value.classOverride <==> |args| > 4 && args[4] == overrideWord)
    ensures r.Failure? ==> r.error == MissingArgument(if |args| <= 1 then 1 else |args|)
  {
    if |args| <= 1 then Failure(MissingArgument(1))
    else if |args| == 2 then Failure(MissingArgument(2))
    else if |args| == 3 then Failure(MissingArgument(3))
    else
      var simplified := SimplifiedFlag(args[3]);
      var classOverride := if |args| > 4 then args[4] == overrideWord else false;
      Success(Config(args[1], args[2], simplified, classOverride))
  }

  /** The tree main serialises: in simplified mode the root's first child (removed from the root), else the root. */
  function TreeToPrint(root: Node, simplified: bool): (r: Result<Node, MainError>)
    ensures !simplified ==> r == Success(root)
    ensures simplified ==> (r.Success? <==> |root.children| > 0)
    ensures simplified && r.Success? ==> r.value == root.children[0]
  {
    if simplified then
      if |root.children| == 0 then Failure(NoFirstChild) else Success(root.children[0])
    else Success(root)
  }

  /**
   * The JSON main writes for the parsed root: it exists exactly when there are
   * enough arguments and, in simplified mode, the root has a child; every node
   * of the printed tree is then described by the object at its place.
   */
  function MainOutput(args: seq<string>, root: Node, overrideWord: string): (r: Result<JsonValue, MainError>)
    ensures r.Success? <==> |args| >= 4 && (args[3] == "false" || |root.children| > 0)
    ensures r.Success? ==>
      var simplified := args[3] != "false";
      var classOverride := |args| > 4 && args[4] == overrideWord;
      var tree := if simplified then root.children[0] else root;
      DescribesTree(tree, r.value, simplified, classOverride, overrideWord)
  {
    match ParseArgs(args, overrideWord)
    case Failure(e) => Failure(e)
    case Success(cfg) =>
      match TreeToPrint(root, cfg.simplified)
      case Failure(e) => Failure(e)
      case Success(tree) =>
        JsonifyDescribesTree(tree, cfg.simplified, cfg.classOverride, overrideWord);
        Success(Jsonify(tree, cfg.simplified, cfg.classOverride, overrideWord))
  }
}
