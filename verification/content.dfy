/**
 * The shapes a decoded JSON `content` value (Go type `any`) can take, as far
 * as the two text-extraction rules distinguish them.
 */
module JsonContent {

  /** One key of a decoded JSON object: absent, a JSON string, or any other JSON value (null included). */
  datatype Field = Missing | JString(s: string) | NonString

  /**
   * One element of a content array. A JSON object is seen only through its
   * "type", "text" and "content" keys; every other element (string, number,
   * array, ...) is a NonObject.
   */
  datatype Block = Object(kind: Field, text: Field, content: Field) | NonObject

  /** A JSON string, a JSON array of blocks, or anything else (null, number, object, bool). */
  datatype Content = Str(s: string) | Blocks(items: seq<Block>) | Other
}
