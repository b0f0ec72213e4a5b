/**
 * The credential and config documents, abstracted from their text.
 *
 * A document is the ordered sequence of its sections; each section has an
 * optional name (the unnamed one is the "general" section before the first
 * header) and a map from key to value.  Only the two operations the program
 * uses are modelled: looking a section up by name (which finds the first
 * section with that name) and setting one key of a named section (which
 * updates that first section, or appends a new one when there is none).
 */
module Ini {
  import opened Wrappers

  type Properties = map<string, string>

  datatype Section = Section(name: Option<string>, props: Properties)

  type Document = seq<Section>

  /** The properties of the first section called `name`, if there is one. */
  function FindSection(doc: Document, name: Option<string>): (r: Option<Properties>)
    ensures r.None? <==> forall i :: 0 <= i < |doc| ==> doc[i].name != name
    ensures r.Some? ==> exists i :: 0 <= i < |doc| && doc[i].name == name && doc[i].props == r.value
                                 && forall j :: 0 <= j < i ==> doc[j].name != name
  {
    if doc == [] then None
    else if doc[0].name == name then Some(doc[0].props)
    else FindSection(doc[1..], name)
  }

  /** The properties of a section, or no properties when it is absent. */
  function PropsOrEmpty(found: Option<Properties>): Properties
  {
    if found.Some? then found.value else map[]
  }

  /** `with_section(name).set(key, value)`: set one key of a section, creating the section if needed. */
  function SetKey(doc: Document, name: Option<string>, key: string, value: string): (r: Document)
    ensures |r| == if FindSection(doc, name).Some? then |doc| else |doc| + 1
  {
    if doc == [] then [Section(name, map[key := value])]
    else if doc[0].name == name then [Section(name, doc[0].props[key := value])] + doc[1..]
    else [doc[0]] + SetKey(doc[1..], name, key, value)
  }

  /**
   * What a later lookup sees after SetKey: the named section now holds the
   * new value beside all its other keys, and every other section is as before.
   */
  lemma {:induction false} SetKeyLookup(doc: Document, name: Option<string>, key: string, value: string, other: Option<string>)
    ensures FindSection(SetKey(doc, name, key, value), other)
         == if other == name then Some(PropsOrEmpty(FindSection(doc, name))[key := value])
            else FindSection(doc, other)
  {
    if doc != [] && doc[0].name != name {
      SetKeyLookup(doc[1..], name, key, value, other);
      assert SetKey(doc, name, key, value)[1..] == SetKey(doc[1..], name, key, value);
    }
  }
}
