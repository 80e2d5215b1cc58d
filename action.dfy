/**
 * The four kinds of structural edit a migration file can ask for, and the
 * recognition of their raw names (`StickySchemaAction.init?`).
 */
module SchemaAction {
  import opened JsonValues

  datatype Action = RenameEntity | RenameProperty | NewProperty | RemoveProperty

  /** The enum's raw value: the key that names the action in a migration file. */
  function RawValue(a: Action): string
  {
    match a
    case RenameEntity => "renameEntity"
    case RenameProperty => "renameProperty"
    case NewProperty => "newProperty"
    case RemoveProperty => "removeProperty"
  }

  /**
   * `StickySchemaAction(rawValue:)`: only the four exact raw names are
   * recognised (case-sensitive); every other key is rejected.
   */
  function ParseAction(name: string): (r: Option<Action>)
    ensures r.Some? <==> name in {"renameEntity", "renameProperty", "newProperty", "removeProperty"}
    ensures r.Some? ==> RawValue(r.value) == name
  {
    if name == "renameEntity" then Some(RenameEntity)
    else if name == "renameProperty" then Some(RenameProperty)
    else if name == "newProperty" then Some(NewProperty)
    else if name == "removeProperty" then Some(RemoveProperty)
    else None
  }

  /** Recognition inverts the raw value: every action is found again from its name. */
  lemma ParseRawValue(a: Action)
    ensures ParseAction(RawValue(a)) == Some(a)
  {
  }
}
