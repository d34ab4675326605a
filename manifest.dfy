/**
 * The backend's package manifest (`package.json`) as a JSON value, and the
 * patch `updatePackageJson` applies to it: set `main`, set `type` to
 * `"module"`, keep every other key.
 */
module Manifest {

  datatype Json =
    | JNull
    | JBool(b: bool)
    | JNum(n: int)
    | JStr(s: string)
    | JArr(items: seq<Json>)
    | JObj(fields: map<string, Json>)

  datatype Option<T> = None | Some(value: T)

  /** `packageJson.main = mainFile; packageJson.type = "module";` on an object. */
  function Patch(fields: map<string, Json>, mainFile: string): (r: map<string, Json>)
    ensures r.Keys == fields.Keys + {"main", "type"}
    ensures r["main"] == JStr(mainFile) && r["type"] == JStr("module")
    ensures forall k :: k in fields && k != "main" && k != "type" ==> r[k] == fields[k]
  {
    fields["main" := JStr(mainFile)]["type" := JStr("module")]
  }

  /**
   * What `updatePackageJson` writes back for a parsed value, or None when the
   * two property assignments throw. In a module (strict mode) assigning a
   * property of null, a boolean, a number or a string throws a TypeError; on
   * an array the assignment succeeds but `JSON.stringify` drops non-index
   * properties, so the array is written back as it was.
   */
  function PatchDocument(v: Json, mainFile: string): (r: Option<Json>)
    ensures v.JObj? <==> r.Some? && r.value.JObj?
    ensures v.JObj? ==> r == Some(JObj(Patch(v.fields, mainFile)))
    ensures v.JArr? ==> r == Some(v)
    ensures r.None? <==> !v.JObj? && !v.JArr?
  {
    match v
    case JObj(fields) => Some(JObj(Patch(fields, mainFile)))
    case JArr(_) => Some(v)
    case _ => None
  }
}
