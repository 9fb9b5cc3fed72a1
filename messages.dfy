/**
 * The part of a lint message (a vfile message object) that the plugin looks at:
 * `name` (the `file:line:column` position), `reason`, `ruleId` and `fatal`.
 */
module Messages {

  /** A string property that may be absent. */
  datatype Field = Undefined | Str(text: string)

  /** What a template literal `${f}` produces: absent properties print as `undefined`. */
  function Show(f: Field): string
  {
    match f
    case Undefined => "undefined"
    case Str(t) => t
  }

  /** JavaScript truthiness of a string property: present and non-empty. */
  predicate Truthy(f: Field) {
    f.Str? && f.text != ""
  }

  /**
   * One lint message. `fatal` is `true` for an error; a warning (`false`),
   * an informational message (`null`) and a record without the property are
   * all falsy and are all `false` here.
   */
  datatype Message = Message(name: Field, reason: Field, ruleId: Field, fatal: bool)
}
