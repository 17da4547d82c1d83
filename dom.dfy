/** The parsed-HTML nodes the block adapters receive, and what the block hooks
    (useBlock, useBlockAttributes) hand them. */
module Dom {
  import opened Js

  datatype Node = ElementNode(element: Element) | TextNode(data: string)

  datatype Element = Element(name: string, attribs: map<string, string>, children: seq<Node>)

  /** The block attributes as useBlockAttributes parses them (opaque here). */
  datatype BlockAttributes = BlockAttributes(entries: map<string, string>)

  /** The inline style the renderer parsed from the node. */
  datatype Style = Style(properties: map<string, string>)

  /** What useBlock returns for a node: the block name, its class name, and its typed attributes. */
  datatype BlockInfo<A> = BlockInfo(name: string, className: Option<string>, attributes: A)

  /** The element selector isBlock is given. */
  datatype BlockSelector = BlockSelector(tagName: string, className: string)

  /** The dom helpers the default tests call: isBlock and isBlockByName. */
  datatype DomQueries = DomQueries(isBlock: (Element, BlockSelector) -> bool, isBlockByName: (Element, string) -> bool)

  /** `node.attribs[key]`, undefined when absent. */
  function Attribute(node: Element, key: string): Option<string> {
    if key in node.attribs then Some(node.attribs[key]) else None
  }

  /** `node.attribs.id || ''`: the anchor a block forwards. */
  function HtmlAnchor(node: Element): (r: string)
    ensures r == "" <==> "id" !in node.attribs || node.attribs["id"] == ""
    ensures r != "" ==> r == node.attribs["id"]
  {
    StringOrEmpty(Attribute(node, "id"))
  }
}
