// Constants of the library: format tags, document type tags and the context
// fields that describe document structure.

module Defs {
  import opened Values

  /** Format tag of a serialised source document. */
  const FMT_SRCDOCUMENT: string := "piisa:src-document:v1"

  /** Format tag of a serialised PII collection. */
  const FMT_PIICOLLECTION: string := "piisa:pii-collection:v1"

  /** Prefix shared by every configuration format tag. */
  const FMT_CONFIG_PREFIX: string := "piisa:config:"

  /** Format tag of a full configuration (one holding several sections). */
  const FMT_CONFIG_FULL: string := FMT_CONFIG_PREFIX + "full:v1"

  /** Name of the metadata section that describes the document itself. */
  const META_DOC: string := "document"

  /** Context fields that describe the structure of a chunk, not its content. */
  const CTX_FIELDS: seq<string> := ["before", "after", "document", "dataset", "section", "level", "column", "row"]

  /** The three local document classes and their type tags. */
  datatype DocType = Sequence | Tree | Table

  function DocTypeTag(t: DocType): (tag: string)
    ensures tag in {"sequence", "tree", "table"}
  {
    match t
    case Sequence => "sequence"
    case Tree => "tree"
    case Table => "table"
  }

  /** Reading a type tag back. */
  function DocTypeOfTag(tag: string): (r: Option<DocType>)
    ensures r.Some? ==> DocTypeTag(r.value) == tag
  {
    if tag == "sequence" then Some(Sequence)
    else if tag == "tree" then Some(Tree)
    else if tag == "table" then Some(Table)
    else None
  }

  lemma DocTypeTagRoundTrip(t: DocType)
    ensures DocTypeOfTag(DocTypeTag(t)) == Some(t)
  {
  }
}
