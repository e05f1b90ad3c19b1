/**
 * The persisted row of the configuration table and the rule that derives a
 * row's key from a configuration identity (fastapi_config/models.py).
 */
module Models {
  import opened Wrappers

  /** Declared column widths of `key`, `name` and `desc`. */
  const KeyMaxLength: nat := 20
  const NameMaxLength: nat := 20
  const DescMaxLength: nat := 400

  /**
   * A schema type: its class name, the optional `__key__` attribute it may
   * declare, and the number of fields its instances carry.
   */
  datatype SchemaType = SchemaType(name: string, declaredKey: Option<string>, arity: nat)

  /** A configuration identity: a raw string or a schema type. */
  datatype ConfigKey = Str(s: string) | Schema(t: SchemaType)

  /**
   * One row of the configuration table. The surrogate `id` and the two
   * timestamps are not modelled.
   */
  datatype ConfigRow = ConfigRow(key: string, name: string, desc: string, data: string)

  /** The persistence key of an identity: the string itself, else `__key__`, else the class name. */
  function GetKey(k: ConfigKey): (r: string)
    ensures k.Str? ==> r == k.s
    ensures k.Schema? && k.t.declaredKey.Some? ==> r == k.t.declaredKey.value
    ensures k.Schema? && k.t.declaredKey.None? ==> r == k.t.name
  {
    match k
    case Str(s) => s
    case Schema(t) => if t.declaredKey.Some? then t.declaredKey.value else t.name
  }

  /** The row the store inserts for a key it has not seen: `desc` keeps its default. */
  function NewRow(key: string, data: string): ConfigRow
  {
    ConfigRow(key, key, "", data)
  }

  /** The column widths the table declares. */
  predicate WithinDeclaredLengths(r: ConfigRow)
  {
    |r.key| <= KeyMaxLength && |r.name| <= NameMaxLength && |r.desc| <= DescMaxLength
  }

  /**
   * A schema type without `__key__` and the string of its class name are two
   * different identities that derive the same key, so they address one row.
   */
  lemma SchemaAndItsNameShareKey(t: SchemaType)
    requires t.declaredKey.None?
    ensures Str(t.name) != Schema(t)
    ensures GetKey(Str(t.name)) == GetKey(Schema(t))
  {
  }

  /** An inserted row has `name == key` and an empty `desc`; it fits the declared widths iff its key does. */
  lemma NewRowShape(key: string, data: string)
    ensures NewRow(key, data).key == key && NewRow(key, data).name == key
    ensures NewRow(key, data).desc == "" && NewRow(key, data).data == data
    ensures WithinDeclaredLengths(NewRow(key, data)) <==> |key| <= KeyMaxLength
  {
  }
}
