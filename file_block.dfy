/** The file block adapter (packages/core/src/react/blocks/FileBlock.tsx). */
module FileBlockAdapter {
  import opened Js
  import opened Dom

  datatype FileAttributes = FileAttributes(id: Option<int>, href: Option<string>, showDownloadButton: JsValue)

  datatype FileBlockProps = FileBlockProps(
    name: string,
    className: Option<string>,
    htmlAnchor: string,
    id: Option<int>,
    href: Option<string>,
    showDownloadButton: bool,
    attributes: BlockAttributes,
    style: Style)

  /** The props the file block hands its component. */
  function FileBlock(node: Element, block: BlockInfo<FileAttributes>, blockAttributes: BlockAttributes, style: Style)
    : (r: FileBlockProps)
    ensures r.showDownloadButton <==> Truthy(block.attributes.showDownloadButton)
    ensures r.htmlAnchor == "" <==> "id" !in node.attribs || node.attribs["id"] == ""
    ensures r.htmlAnchor != "" ==> r.htmlAnchor == node.attribs["id"]
    ensures r.id == block.attributes.id && r.href == block.attributes.href
    ensures r.name == block.name && r.className == block.className
    ensures r.attributes == blockAttributes && r.style == style
  {
    FileBlockProps(
      name := block.name,
      className := block.className,
      htmlAnchor := HtmlAnchor(node),
      id := block.attributes.id,
      href := block.attributes.href,
      showDownloadButton := Truthy(block.attributes.showDownloadButton),
      attributes := blockAttributes,
      style := style)
  }

  /** The default test: `div` elements with class `wp-block-file`. */
  predicate FileBlockTest(dom: DomQueries, node: Element): (r: bool)
    ensures r <==> dom.isBlock(node, BlockSelector("div", "wp-block-file"))
  {
    dom.isBlock(node, BlockSelector("div", "wp-block-file"))
  }
}
