/**
 * Turning the host's selected SVG nodes into circles: the `Circle`
 * constructor, `is_circle`, and what `get_circles_from_effect` collects.
 * Number parsing (Python's `float`) is a parameter: it either yields a
 * real or fails, and a failure makes the node be skipped.
 */
module Ingestion {

  datatype Option<T> = None | Some(value: T)

  /** A selected SVG element: its namespace-qualified tag and its attributes. */
  datatype Node = Node(tag: string, attributes: map<string, string>)

  /** One shot mark: centre (x, y) and radius r, in document units. */
  datatype Circle = Circle(id: Option<string>, x: real, y: real, r: real)

  const SvgNamespace: string := "http://www.w3.org/2000/svg"

  /** `inkex.addNS(name, ns)`: a tag qualified by its namespace, as `{ns}name`. */
  function AddNs(name: string, ns: string): string
  {
    "{" + ns + "}" + name
  }

  /** The tag `draw_circle` gives the circles it writes: `addNS('circle', 'svg')`. */
  const SvgCircleTag: string := AddNs("circle", SvgNamespace)

  /** `is_circle`: compares the tag with the literal Clark-notation name, which is the tag circles are written with. */
  function IsCircle(node: Node): (b: bool)
    ensures b <==> node.tag == SvgCircleTag
  {
    assert SvgCircleTag == "{" + "http://www.w3.org/2000/svg" + "}" + "circle";
    assert "{http://www.w3.org/2000/svg}circle" == SvgCircleTag;
    node.tag == "{http://www.w3.org/2000/svg}circle"
  }

  /** `node.get(key)`: the attribute's text, or None when it is absent. */
  function Attribute(node: Node, key: string): Option<string>
  {
    if key in node.attributes then Some(node.attributes[key]) else None
  }

  /** `float(text)`: fails on a missing attribute as well as on text that is not a number. */
  function ToFloat(text: Option<string>, parse: string -> Option<real>): Option<real>
  {
    match text
    case None => None
    case Some(s) => parse(s)
  }

  /** The `Circle` constructor; None stands for the exception it raises. */
  function NewCircle(node: Node, parse: string -> Option<real>): (c: Option<Circle>)
    ensures c.Some? <==>
      && ToFloat(Attribute(node, "cx"), parse).Some?
      && ToFloat(Attribute(node, "cy"), parse).Some?
      && ToFloat(Attribute(node, "r"), parse).Some?
    ensures c.Some? ==>
      && c.value.id == Attribute(node, "id")
      && Some(c.value.x) == ToFloat(Attribute(node, "cx"), parse)
      && Some(c.value.y) == ToFloat(Attribute(node, "cy"), parse)
      && Some(c.value.r) == ToFloat(Attribute(node, "r"), parse)
  {
    var id := Attribute(node, "id");
    match (ToFloat(Attribute(node, "cx"), parse), ToFloat(Attribute(node, "cy"), parse), ToFloat(Attribute(node, "r"), parse))
    case (Some(x), Some(y), Some(r)) => Some(Circle(id, x, y, r))
    case _ => None
  }

  /** The node that draws a circle writes: `cx`, `cy` and `r` rendered as text. */
  function CircleNode(c: Circle, show: real -> string): Node
  {
    var geometry := map["cx" := show(c.x), "cy" := show(c.y), "r" := show(c.r)];
    Node(SvgCircleTag, match c.id case Some(i) => geometry["id" := i] case None => geometry)
  }

  /** A circle node whose three numbers read back as written yields the same circle. */
  lemma {:induction false} NewCircleRoundTrip(c: Circle, show: real -> string, parse: string -> Option<real>)
    requires parse(show(c.x)) == Some(c.x) && parse(show(c.y)) == Some(c.y) && parse(show(c.r)) == Some(c.r)
    ensures IsCircle(CircleNode(c, show))
    ensures NewCircle(CircleNode(c, show), parse) == Some(c)
  {
    var node := CircleNode(c, show);
    assert Attribute(node, "cx") == Some(show(c.x));
    assert Attribute(node, "cy") == Some(show(c.y));
    assert Attribute(node, "r") == Some(show(c.r));
    assert Attribute(node, "id") == c.id;
  }

  /** A node survives ingestion when it is an SVG circle and its constructor succeeds. */
  function Accepted(node: Node, parse: string -> Option<real>): (b: bool)
    ensures b <==>
      && IsCircle(node)
      && ToFloat(Attribute(node, "cx"), parse).Some?
      && ToFloat(Attribute(node, "cy"), parse).Some?
      && ToFloat(Attribute(node, "r"), parse).Some?
  {
    IsCircle(node) && NewCircle(node, parse).Some?
  }

  /** The circles collected from `nodes`, in iteration order. */
  function Ingested(nodes: seq<Node>, parse: string -> Option<real>): (cs: seq<Circle>)
    ensures |cs| <= |nodes|
  {
    if nodes == [] then []
    else
      var last := nodes[|nodes| - 1];
      Ingested(nodes[..|nodes| - 1], parse)
        + (if Accepted(last, parse) then [NewCircle(last, parse).value] else [])
  }

  /** Ingesting one more node of a selection adds its circle when it is accepted. */
  lemma {:induction false} IngestedStep(nodes: seq<Node>, i: nat, parse: string -> Option<real>)
    requires i < |nodes|
    ensures Ingested(nodes[..i + 1], parse) ==
      Ingested(nodes[..i], parse) + (if Accepted(nodes[i], parse) then [NewCircle(nodes[i], parse).value] else [])
  {
    assert nodes[..i + 1][..i] == nodes[..i];
  }

  lemma {:induction false} IngestedAppend(a: seq<Node>, b: seq<Node>, parse: string -> Option<real>)
    ensures Ingested(a + b, parse) == Ingested(a, parse) + Ingested(b, parse)
    decreases |b|
  {
    if b == [] {
      assert a + b == a;
    } else {
      var b' := b[..|b| - 1];
      assert (a + b)[..|a + b| - 1] == a + b';
      IngestedAppend(a, b', parse);
    }
  }

  /** A rejected node anywhere in the selection is skipped without affecting the others. */
  lemma {:induction false} SkipsRejected(a: seq<Node>, node: Node, b: seq<Node>, parse: string -> Option<real>)
    requires !Accepted(node, parse)
    ensures Ingested(a + [node] + b, parse) == Ingested(a + b, parse)
  {
    IngestedAppend(a + [node], b, parse);
    IngestedAppend(a, [node], parse);
    IngestedAppend(a, b, parse);
    assert [node][..0] == [];
  }

  /** An accepted node contributes its circle exactly at its place in iteration order. */
  lemma {:induction false} KeepsAccepted(a: seq<Node>, node: Node, b: seq<Node>, parse: string -> Option<real>)
    requires Accepted(node, parse)
    ensures Ingested(a + [node] + b, parse) == Ingested(a, parse) + [NewCircle(node, parse).value] + Ingested(b, parse)
  {
    IngestedAppend(a + [node], b, parse);
    IngestedAppend(a, [node], parse);
    assert [node][..0] == [];
  }

  /** Node i of the selection is a circle node whose constructor yields c. */
  predicate BuildsAt(nodes: seq<Node>, i: int, c: Circle, parse: string -> Option<real>)
  {
    0 <= i < |nodes| && IsCircle(nodes[i]) && NewCircle(nodes[i], parse) == Some(c)
  }

  /** A circle is collected exactly when some selected circle node constructs it. */
  lemma {:induction false} IngestedMembership(nodes: seq<Node>, parse: string -> Option<real>, c: Circle)
    ensures c in Ingested(nodes, parse) <==> exists i :: BuildsAt(nodes, i, c, parse)
  {
    if nodes != [] {
      var init := nodes[..|nodes| - 1];
      var last := nodes[|nodes| - 1];
      IngestedMembership(init, parse, c);
      if c in Ingested(init, parse) {
        var i :| BuildsAt(init, i, c, parse);
        assert BuildsAt(nodes, i, c, parse);
      } else if Accepted(last, parse) && NewCircle(last, parse).value == c {
        assert BuildsAt(nodes, |nodes| - 1, c, parse);
      }
      if exists i :: BuildsAt(nodes, i, c, parse) {
        var i :| BuildsAt(nodes, i, c, parse);
        if i < |init| {
          assert BuildsAt(init, i, c, parse);
        }
      }
    }
  }
}
