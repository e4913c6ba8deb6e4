/**
 * The `HTML` element value the visitor builds and renders:
 * `<name k="v" ...>contents</name>` for a standard element and
 * `<name k="v" ...>` for a short (void) one. Attribute values are not escaped.
 */
module Html {

  datatype Attribute = Attribute(key: string, value: string)

  datatype ElementType = Standard | Short

  datatype HTML = HTML(name: string, kind: ElementType, attributes: seq<Attribute>, contents: string) {

    function Render(): string {
      match kind
      case Standard => "<" + name + AttributesText(attributes) + ">" + contents + "</" + name + ">"
      case Short => "<" + name + AttributesText(attributes) + ">"
    }
  }

  function AttributesText(attributes: seq<Attribute>): string {
    if attributes == [] then ""
    else " " + attributes[0].key + "=\"" + attributes[0].value + "\"" + AttributesText(attributes[1..])
  }

  /** `HTML(name:attributes:contents:).render()` */
  function Element(name: string, attributes: seq<Attribute>, contents: string): string {
    HTML(name, Standard, attributes, contents).Render()
  }

  /** `HTML(name:type: .short, attributes:).render()` */
  function ShortElement(name: string, attributes: seq<Attribute>): string {
    HTML(name, Short, attributes, "").Render()
  }

  lemma AttributesTextSingle(a: Attribute)
    ensures AttributesText([a]) == " " + a.key + "=\"" + a.value + "\""
  {
    assert [a][1..] == [];
  }

  predicate HasKey(attributes: seq<Attribute>, key: string) {
    exists i :: 0 <= i < |attributes| && attributes[i].key == key
  }
}
