/** The image block adapter (packages/core/src/react/blocks/ImageBlock.tsx). */
module ImageBlockAdapter {
  import opened Js
  import opened Dom

  /** The image block's own attributes that the adapter reads. */
  datatype ImageAttributes = ImageAttributes(width: Option<int>, height: Option<int>)

  datatype ImageBlockProps = ImageBlockProps(
    name: string,
    className: Option<string>,
    src: Option<string>,
    alt: Option<string>,
    attributes: BlockAttributes,
    width: Option<JsNumber>,
    height: Option<JsNumber>,
    style: Style)

  /** A node is a `<figure>` element. */
  predicate IsFigure(n: Node) {
    n.ElementNode? && n.element.name == "figure"
  }

  /** The `<img>` node: the first child of a leading `<figure>`, or else the block's
      first child. Reading a missing node's attributes, or a text node's, throws. */
  function ImageNode(node: Element): (r: Result<Element>)
    ensures |node.children| == 0 ==> r.Err?
    ensures |node.children| > 0 && IsFigure(node.children[0]) ==>
      var figure := node.children[0].element;
      && (|figure.children| > 0 && figure.children[0].ElementNode? <==> r.Ok?)
      && (r.Ok? ==> r.value == figure.children[0].element)
    ensures |node.children| > 0 && !IsFigure(node.children[0]) ==>
      && (node.children[0].ElementNode? <==> r.Ok?)
      && (r.Ok? ==> r.value == node.children[0].element)
  {
    if |node.children| == 0 then
      Err(TypeError("Cannot read properties of null (reading 'name')"))
    else
      var img: Option<Node> := if IsFigure(node.children[0]) then
          var figure := node.children[0].element;
          if |figure.children| > 0 then Some(figure.children[0]) else None
        else Some(node.children[0]);
      match img
      case None => Err(TypeError("Cannot read properties of undefined (reading 'attribs')"))
      case Some(TextNode(_)) => Err(TypeError("Cannot destructure property 'src' of 'imgNode.attribs' as it is undefined"))
      case Some(ElementNode(e)) => Ok(e)
  }

  /** A width or height: the block attribute unless null or undefined, else the img
      attribute; emitted as a number when that choice is truthy, undefined otherwise. */
  function Dimension(fromBlock: Option<int>, fromImg: Option<string>): (r: Option<JsNumber>)
    ensures fromBlock.Some? && fromBlock.value != 0 ==> r == Some(Int(fromBlock.value))
    ensures r.None? <==> fromBlock == Some(0) || (fromBlock.None? && !TruthyString(fromImg))
    ensures fromBlock.None? && r.Some? ==> r == Some(ToNumber(fromImg.value))
  {
    match fromBlock
    case Some(n) => if n != 0 then Some(Int(n)) else None
    case None => if TruthyString(fromImg) then Some(ToNumber(fromImg.value)) else None
  }

  /** The props the image block hands its component. */
  function ImageBlock(node: Element, block: BlockInfo<ImageAttributes>, blockAttributes: BlockAttributes, style: Style)
    : (r: Result<ImageBlockProps>)
    ensures r.Ok? <==> ImageNode(node).Ok?
    ensures r.Ok? ==> var img := ImageNode(node).value;
      && r.value.src == Attribute(img, "src") && r.value.alt == Attribute(img, "alt")
      && r.value.width == Dimension(block.attributes.width, Attribute(img, "width"))
      && r.value.height == Dimension(block.attributes.height, Attribute(img, "height"))
      && r.value.name == block.name && r.value.className == block.className
      && r.value.attributes == blockAttributes && r.value.style == style
  {
    match ImageNode(node)
    case Err(e) => Err(e)
    case Ok(img) =>
      Ok(ImageBlockProps(
        name := block.name,
        className := block.className,
        src := Attribute(img, "src"),
        alt := Attribute(img, "alt"),
        attributes := blockAttributes,
        width := Dimension(block.attributes.width, Attribute(img, "width")),
        height := Dimension(block.attributes.height, Attribute(img, "height")),
        style := style))
  }

  /** The default test: the nodes whose block name is `core/image`. */
  predicate ImageBlockTest(dom: DomQueries, node: Element): (r: bool)
    ensures r <==> dom.isBlockByName(node, "core/image")
  {
    dom.isBlockByName(node, "core/image")
  }

  /** Block metadata never changes `src` and `alt`, nor whether the block renders. */
  lemma SrcAndAltIgnoreMetadata(node: Element, a: BlockInfo<ImageAttributes>, b: BlockInfo<ImageAttributes>,
                                attrs: BlockAttributes, style: Style)
    ensures ImageBlock(node, a, attrs, style).Ok? == ImageBlock(node, b, attrs, style).Ok?
    ensures ImageBlock(node, a, attrs, style).Ok? ==>
      && ImageBlock(node, a, attrs, style).value.src == ImageBlock(node, b, attrs, style).value.src
      && ImageBlock(node, a, attrs, style).value.alt == ImageBlock(node, b, attrs, style).value.alt
  {
  }

  /** A block attribute of 0 is kept by `??` and then dropped as falsy: the img
      attribute is not consulted. */
  lemma ZeroBlockDimensionIsUndefined(fromImg: Option<string>)
    ensures Dimension(Some(0), fromImg).None?
  {
  }

  /** A digit-string img attribute converts to its decimal value when the block has none. */
  lemma ImgDimensionFromDigits(digits: string)
    requires IsDigits(digits)
    ensures Dimension(None, Some(digits)) == Some(Int(DecimalValue(digits)))
  {
  }

  /** An empty `<figure>` makes the block throw. */
  lemma EmptyFigureThrows(node: Element)
    requires |node.children| > 0 && IsFigure(node.children[0]) && |node.children[0].element.children| == 0
    ensures ImageNode(node).Err?
  {
  }
}
