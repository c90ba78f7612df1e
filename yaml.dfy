/**
  The untyped YAML tree that gopkg.in/yaml.v2 hands to a custom unmarshaller,
  and the two library services the installer uses on it: parsing text into a tree
  and rendering a string-keyed map back to YAML text. Both are oracles.
 */
module Yaml {
  import opened Wrappers

  /**
    A decoded YAML value: nil, a string, a bool, a number or timestamp (an int, float64 or
    time.Time in Go, kept here as its text), a []interface{} or a map[interface{}]interface{}.
   */
  datatype Node =
    | Null
    | Str(s: string)
    | Bool(b: bool)
    | Num(text: string)
    | List(items: seq<Node>)
    | Map(entries: seq<(Node, Node)>)

  /** A map[string]interface{}: string keys, each bound to an untyped value. */
  type StrMap = map<string, Node>

  /** The YAML library: `parse` is yaml.Unmarshal into an interface{}, `render` is yaml.Marshal of a map[string]interface{}. */
  datatype Codec = Codec(parse: string -> Result<Node, string>, render: StrMap -> Result<string, string>)
}
