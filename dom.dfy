/**
 * The parsed HTML document and the queries the extractors make of it: a
 * pre-order search of the descendants of a node filtered by a predicate on
 * tag, attributes and text (BeautifulSoup's `find_all`/`find`), the
 * `.string` of a tag and its text with `get_text(sep, strip=True)`.
 */
module Dom {
  import opened Wrappers
  import opened Seqs
  import opened Strings

  /** An element with its tag name, attributes and children, or a piece of text. */
  datatype Node =
    | Element(tag: string, attrs: map<string, string>, children: seq<Node>)
    | Text(text: string)

  /**
   * A descendant found by a search, with what BeautifulSoup reaches from it:
   * its parent, its parent's parent (None when the parent is the document
   * itself), and its position among the parent's children.
   */
  datatype Occurrence = Occurrence(node: Node, parent: Node, grandparent: Option<Node>, index: nat)

  /** The descendants of `n` in document order; `above` is the parent of `n`, if any. */
  function Descendants(n: Node, above: Option<Node>): seq<Occurrence>
    decreases n, 1
  {
    match n
    case Text(_) => []
    case Element(_, _, _) => DescendantsFrom(n, above, 0)
  }

  function DescendantsFrom(n: Node, above: Option<Node>, i: nat): seq<Occurrence>
    requires n.Element? && i <= |n.children|
    decreases n, 0, |n.children| - i
  {
    if i == |n.children| then []
    else [Occurrence(n.children[i], n, above, i)] + Descendants(n.children[i], Some(n)) + DescendantsFrom(n, above, i + 1)
  }

  /** `find_all`: the descendants of `n`, in document order, whose node satisfies `p`. */
  function FindAll(n: Node, above: Option<Node>, p: Node -> bool): (r: seq<Occurrence>)
    ensures forall k :: 0 <= k < |r| ==> p(r[k].node)
  {
    Filter(Descendants(n, above), (o: Occurrence) => p(o.node))
  }

  /** `find`: the first descendant of `n` in document order whose node satisfies `p`. */
  function Find(n: Node, above: Option<Node>, p: Node -> bool): (r: Option<Occurrence>)
    ensures r.Some? ==> p(r.value.node)
    ensures r.None? <==> FindAll(n, above, p) == []
  {
    var all := FindAll(n, above, p);
    if all == [] then None else Some(all[0])
  }

  /** An element whose tag is one of `names`. */
  predicate IsTag(n: Node, names: set<string>)
  {
    n.Element? && n.tag in names
  }

  /** An element carrying attribute `key` (the `key=True` filter). */
  predicate HasAttr(n: Node, key: string)
  {
    n.Element? && key in n.attrs
  }

  /** An element whose attribute `key` equals `value` (the `key="value"` filter). */
  predicate AttrIs(n: Node, key: string, value: string)
  {
    HasAttr(n, key) && n.attrs[key] == value
  }

  /** `tag.get(key)`. */
  function Attr(n: Node, key: string): (r: Option<string>)
    ensures r.Some? <==> HasAttr(n, key)
  {
    if HasAttr(n, key) then Some(n.attrs[key]) else None
  }

  /** `.string`: the text of a node whose only content, followed down single children, is one text. */
  function StringOf(n: Node): Option<string>
    decreases n
  {
    match n
    case Text(s) => Some(s)
    case Element(_, _, cs) => if |cs| == 1 then StringOf(cs[0]) else None
  }

  /** The `string=True` filter. */
  predicate HasString(n: Node)
  {
    StringOf(n).Some?
  }

  /** All text pieces under `n`, in document order. */
  function Texts(n: Node): seq<string>
    decreases n, 1
  {
    match n
    case Text(s) => [s]
    case Element(_, _, cs) => TextsFrom(n, 0)
  }

  function TextsFrom(n: Node, i: nat): seq<string>
    requires n.Element? && i <= |n.children|
    decreases n, 0, |n.children| - i
  {
    if i == |n.children| then [] else Texts(n.children[i]) + TextsFrom(n, i + 1)
  }

  /** A text piece after `strip()`, or nothing when that leaves it empty. */
  function StrippedPiece(s: string): (r: Option<string>)
    ensures r.Some? ==> r.value != [] && !IsSpace(r.value[0]) && !IsSpace(r.value[|r.value| - 1])
    ensures r.None? <==> NonSpace(s) == []
  {
    var t := Strip(s);
    if t == [] then None else Some(t)
  }

  /** `get_text(sep, strip=True)`: the stripped, non-empty text pieces joined with `sep`. */
  function GetText(n: Node, sep: string): string
  {
    Join(sep, FilterMap(Texts(n), StrippedPiece))
  }
}
