/**
 * The parsed XML tree the generator reads a function-block type from: the
 * `XmlNode` record of the XML parser, an element with its text, attributes
 * and child elements in document order.
 */
module XmlTree {

  datatype XmlNode = XmlNode(
    name: string,
    value: string,
    attributes: map<string, string>,
    children: seq<XmlNode>)

  /**
   * The lookup `attributes.find(key)` followed by a fallback: the attribute's
   * value when the element carries it, `default` otherwise.
   */
  function Attr(n: XmlNode, key: string, default: string): string {
    if key in n.attributes then n.attributes[key] else default
  }
}
