/** The heading block adapter (packages/core/src/react/blocks/HeadingBlock.tsx). */
module HeadingBlockAdapter {
  import opened Js
  import opened Dom

  datatype HeadingAttributes = HeadingAttributes(level: Option<int>)

  datatype HeadingBlockProps = HeadingBlockProps(
    name: string,
    className: Option<string>,
    level: JsNumber,
    attributes: BlockAttributes,
    style: Style)

  /** The heading level: the block attribute unless null or undefined, else the number
      the tag name spells once its first `h` is removed. */
  function HeadingLevel(node: Element, level: Option<int>): (r: JsNumber)
    ensures level.Some? ==> r == Int(level.value)
    ensures level.None? ==> r == ToNumber(RemoveFirst(node.name, 'h'))
  {
    match level
    case Some(n) => Int(n)
    case None => ToNumber(RemoveFirst(node.name, 'h'))
  }

  /** The props the heading block hands its component. */
  function HeadingBlock(node: Element, block: BlockInfo<HeadingAttributes>, blockAttributes: BlockAttributes, style: Style)
    : (r: HeadingBlockProps)
    ensures r.level == HeadingLevel(node, block.attributes.level)
    ensures r.name == block.name && r.className == block.className
    ensures r.attributes == blockAttributes && r.style == style
  {
    HeadingBlockProps(block.name, block.className, HeadingLevel(node, block.attributes.level), blockAttributes, style)
  }

  /** The default test: the nodes whose block name is `core/heading`. */
  predicate HeadingBlockTest(dom: DomQueries, node: Element): (r: bool)
    ensures r <==> dom.isBlockByName(node, "core/heading")
  {
    dom.isBlockByName(node, "core/heading")
  }

  /** Without a level attribute, a tag `h` followed by decimal digits gives their
      value: `h3` gives 3. */
  lemma {:induction false} LevelFromTagName(node: Element, digits: string)
    requires IsDigits(digits) && node.name == "h" + digits
    ensures HeadingLevel(node, None) == Int(DecimalValue(digits))
  {
    var s := node.name;
    assert s[0] == 'h' && s[1..] == digits;
    var i :| 0 <= i < |s| && s[i] == 'h' && 'h' !in s[..i] && RemoveFirst(s, 'h') == s[..i] + s[i + 1..];
    assert forall k :: 0 < k <= |s| ==> s[..k][0] == 'h';
    assert RemoveFirst(s, 'h') == s[1..];
  }

  /** A level attribute wins even when the tag disagrees with it. */
  lemma MetadataLevelWins(node: Element, level: int)
    ensures HeadingLevel(node, Some(level)) == Int(level)
  {
  }
}
