/**
 * The parsed page, as BeautifulSoup presents it to the parsers: a tree of
 * tags and strings, and the few queries the parsers make on it (`find`,
 * `find_all`, `.string`, `get_text`, `stripped_strings`). Parsing the text of
 * a response into this tree is done by lxml and is not modelled: a response
 * carries its tree.
 */
module Html {
  import opened Wrappers
  import opened Text

  datatype Node =
    /** A `NavigableString`. */
    | Str(text: string)
    /** A `Comment`, `Doctype` or other subclass of `NavigableString` that `get_text` skips. */
    | Special(text: string)
    /** A `Tag`; `class` is kept apart from the other attributes because bs4 makes it a list. */
    | Tag(name: string, attrs: seq<(string, string)>, classes: seq<string>, children: seq<Node>)

  /** The arguments of `find`/`find_all`: a tag name and at most one attribute. */
  datatype Query = Query(name: Option<string>, attr: Option<(string, string)>)

  function Named(name: string): Query { Query(Some(name), None) }
  function NamedWith(name: string, key: string, value: string): Query { Query(Some(name), Some((key, value))) }
  function WithAttr(key: string, value: string): Query { Query(None, Some((key, value))) }

  /** The class names and styles of `HtmlTag` (its values are placeholders here). */
  const TitleClass := "TITLE"
  const ContentClass := "CONTENT"
  const TitleStyle := "title-style"
  const ContentStyle := "content-style"

  /** `tag.get(key)` for an attribute other than `class`. */
  function GetAttr(attrs: seq<(string, string)>, key: string): Option<string> {
    if attrs == [] then None
    else if attrs[0].0 == key then Some(attrs[0].1)
    else GetAttr(attrs[1..], key)
  }

  /** `tag[key] = value`: replaces the attribute, or adds it at the end. */
  function SetAttr(attrs: seq<(string, string)>, key: string, value: string): seq<(string, string)> {
    if attrs == [] then [(key, value)]
    else if attrs[0].0 == key then [(key, value)] + attrs[1..]
    else [attrs[0]] + SetAttr(attrs[1..], key, value)
  }

  lemma {:induction false} GetSetAttr(attrs: seq<(string, string)>, key: string, value: string)
    ensures GetAttr(SetAttr(attrs, key, value), key) == Some(value)
  {
    if attrs != [] && attrs[0].0 != key {
      GetSetAttr(attrs[1..], key, value);
    }
  }

  function SetStyle(n: Node, style: string): Node
    requires n.Tag?
  {
    n.(attrs := SetAttr(n.attrs, "style", style))
  }

  /** A single-word attribute query matches a class when it is one of the tag's classes. */
  predicate Matches(n: Node, q: Query) {
    && n.Tag?
    && (q.name.None? || q.name.value == n.name)
    && match q.attr
       case None => true
       case Some(kv) => if kv.0 == "class" then kv.1 in n.classes else GetAttr(n.attrs, kv.0) == Some(kv.1)
  }

  /** `find`: the first matching tag among `nodes` and their descendants, in document order. */
  function Find(nodes: seq<Node>, q: Query): (r: Option<Node>)
    ensures r.Some? ==> Matches(r.value, q)
    decreases nodes
  {
    if nodes == [] then None
    else if Matches(nodes[0], q) then Some(nodes[0])
    else
      var inside := if nodes[0].Tag? then Find(nodes[0].children, q) else None;
      if inside.Some? then inside else Find(nodes[1..], q)
  }

  /** `find_all`: every matching tag among `nodes` and their descendants, in document order. */
  function FindAll(nodes: seq<Node>, q: Query): (r: seq<Node>)
    ensures forall m :: m in r ==> Matches(m, q)
    decreases nodes
  {
    if nodes == [] then []
    else
      var here := if Matches(nodes[0], q) then [nodes[0]] else [];
      var inside := if nodes[0].Tag? then FindAll(nodes[0].children, q) else [];
      here + inside + FindAll(nodes[1..], q)
  }

  /** `.string`: a string, or the `.string` of a tag's only child; None otherwise. */
  function StringOf(n: Node): Option<string> {
    match n
    case Str(s) => Some(s)
    case Special(s) => Some(s)
    case Tag(_, _, _, children) => if |children| == 1 then StringOf(children[0]) else None
  }

  /** The texts of the `NavigableString`s among `nodes` and their descendants, in document order. */
  function Strings(nodes: seq<Node>): seq<string>
    decreases nodes
  {
    if nodes == [] then []
    else
      var here := match nodes[0]
        case Str(s) => [s]
        case Special(_) => []
        case Tag(_, _, _, children) => Strings(children);
      here + Strings(nodes[1..])
  }

  /** `tag.get_text()`. */
  function GetText(n: Node): string
    requires n.Tag?
  {
    Concat(Strings(n.children))
  }

  /** `list(tag.stripped_strings)`: each string stripped, the empty ones dropped. */
  function StrippedStrings(n: Node): (r: seq<string>)
    requires n.Tag?
    ensures forall k :: 0 <= k < |r| ==> r[k] != [] && !IsSpace(r[k][0]) && !IsSpace(r[k][|r[k]| - 1])
  {
    StripAll(Strings(n.children))
  }

  function StripAll(ss: seq<string>): (r: seq<string>)
    ensures forall k :: 0 <= k < |r| ==> r[k] != [] && !IsSpace(r[k][0]) && !IsSpace(r[k][|r[k]| - 1])
  {
    if ss == [] then []
    else
      var s := Strip(ss[0]);
      var rest := StripAll(ss[1..]);
      if s == [] then rest else [s] + rest
  }

  /** The first tag named `name` among `nodes` and their descendants gets the style `style`. */
  function StyleFirst(nodes: seq<Node>, name: string, style: string): seq<Node>
    decreases nodes
  {
    if nodes == [] then []
    else
      var head := nodes[0];
      if head.Tag? && head.name == name then [SetStyle(head, style)] + nodes[1..]
      else if head.Tag? && Find(head.children, Named(name)).Some? then
        [head.(children := StyleFirst(head.children, name, style))] + nodes[1..]
      else [head] + StyleFirst(nodes[1..], name, style)
  }

  /**
   * `str(HtmlTag.update_tag(n, prefix))`. `HtmlTag.update_tag` is not part of
   * this model; this stand-in serialises the node and makes relative `src`
   * and `href` links absolute by prepending `prefix`. No property of the
   * model depends on the exact text it yields.
   */
  function Render(n: Node, prefix: string): string {
    RenderAll([n], prefix)
  }

  function RenderAll(nodes: seq<Node>, prefix: string): string
    decreases nodes
  {
    if nodes == [] then []
    else
      var here := match nodes[0]
        case Str(s) => s
        case Special(s) => "<!--" + s + "-->"
        case Tag(name, attrs, classes, children) =>
          "<" + name + ClassMarkup(classes) + AttrMarkup(attrs, prefix) + ">" +
          RenderAll(children, prefix) + "</" + name + ">";
      here + RenderAll(nodes[1..], prefix)
  }

  function ClassMarkup(classes: seq<string>): string {
    if classes == [] then [] else " class=\"" + Join(classes, " ") + "\""
  }

  function AttrMarkup(attrs: seq<(string, string)>, prefix: string): string {
    if attrs == [] then []
    else
      var (k, v) := attrs[0];
      var v' := if (k == "src" || k == "href") && !StartsWith(v, "http") then prefix + v else v;
      " " + k + "=\"" + v' + "\"" + AttrMarkup(attrs[1..], prefix)
  }
}
