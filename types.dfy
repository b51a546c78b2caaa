/** Value types shared by the plugin model: the optional value, and the user options
    record declared in src/types/index.d.ts. */
module Types {

  /** A value that may be missing (`undefined` in the plugin's code). */
  datatype Option<+T> = None | Some(value: T)

  /** A key of an object literal as an object spread sees it: missing altogether,
      present with the value `undefined`, or present with a value. */
  datatype Field<+T> = Absent | Undefined | Given(value: T)

  /** The options object the plugin is called with. `tempDir` is read by the plugin
      although the declared type does not list it. Only `mountElementId` needs to
      tell a missing key from an explicit `undefined`: it is the one field that goes
      through an object spread. */
  datatype Options = Options(
    template: Option<string>,
    mountElementId: Field<string>,
    globalImport: Option<seq<string>>,
    lowerCase: Option<bool>,
    layout: Option<string>,
    tempDir: Option<string>)

  /** JavaScript truthiness of an optional string: present and not empty. */
  predicate Truthy(s: Option<string>)
  {
    s.Some? && s.value != ""
  }
}
