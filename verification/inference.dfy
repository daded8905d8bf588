/**
 * The boundary to the language-model service.  A chat completion either
 * fails (the SDK raises) or replies with a message whose content may be
 * `null`; JSON parsing of the content is an oracle.  Prompt wording is not
 * modelled.
 */
module Inference {
  import opened Wrappers
  import opened Json

  /** What `chat.completions.create(...).choices[0].message.content` produced. */
  datatype Reply = CallFailed(fault: Fault) | Replied(content: Option<string>)

  /** `json.loads` on a string: the parsed value, or `None` for a `JSONDecodeError`. */
  type Parser = string -> Option<Json>

  /** The Python type name used in `TypeError`/`AttributeError` messages about `j`. */
  function TypeName(j: Json): string
  {
    match j
    case Null => "NoneType"
    case Bool(_) => "bool"
    case Num(_) => "int"
    case Str(_) => "str"
    case Arr(_) => "list"
    case Obj(_) => "dict"
  }

  /** The `TypeError` that `json.loads(None)` raises. */
  const LoadsNoneFault := Fault("the JSON object must be str, bytes or bytearray, not NoneType")

  /** A one-entry JSON object. */
  function Single(k: string, v: Json): (o: Json)
    ensures o.Obj? && o.fields.Keys == {k} && o.fields[k] == v
  {
    Obj(map[k := v])
  }
}
