/** The verse block adapter (packages/core/src/react/blocks/VerseBlock.tsx). */
module VerseBlockAdapter {
  import opened Js
  import opened Dom

  datatype VerseBlockProps = VerseBlockProps(
    name: string,
    className: string,
    attributes: BlockAttributes,
    htmlAnchor: string,
    style: Style)

  /** The props the verse block hands its component; the block's own attributes are not read. */
  function VerseBlock<A>(node: Element, block: BlockInfo<A>, blockAttributes: BlockAttributes, style: Style)
    : (r: VerseBlockProps)
    ensures r.className == "" <==> !TruthyString(block.className)
    ensures r.className != "" ==> block.className == Some(r.className)
    ensures r.htmlAnchor == "" <==> "id" !in node.attribs || node.attribs["id"] == ""
    ensures r.htmlAnchor != "" ==> r.htmlAnchor == node.attribs["id"]
    ensures r.name == block.name && r.attributes == blockAttributes && r.style == style
  {
    VerseBlockProps(
      name := block.name,
      className := StringOrEmpty(block.className),
      attributes := blockAttributes,
      htmlAnchor := HtmlAnchor(node),
      style := style)
  }

  /** The default test: `pre` elements with class `wp-block-verse`. */
  predicate VerseBlockTest(dom: DomQueries, node: Element): (r: bool)
    ensures r <==> dom.isBlock(node, BlockSelector("pre", "wp-block-verse"))
  {
    dom.isBlock(node, BlockSelector("pre", "wp-block-verse"))
  }
}
