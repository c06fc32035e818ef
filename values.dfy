/** Values that appear in a parsed configuration document and in managed objects. */
module Values {

  datatype Option<+T> = None | Some(value: T)

  /** A property value: what JSON/YAML parsing yields, plus a reference to a managed object
      (the value `parent_mo_or_dn` holds once the traversal has injected a parent). */
  datatype Value =
    | Str(s: string)
    | Bool(b: bool)
    | Int(i: int)
    | Null
    | List(items: seq<Value>)
    | Dict(entries: map<string, Value>)
    | Obj(mo: Mo)

  /** A property mapping: keyword arguments of a managed-object constructor. */
  type Props = map<string, Value>

  /** A managed object as the management SDK represents it: its type key and its attributes. */
  datatype Mo = Mo(moduleName: string, className: string, attrs: Props)

  /** Dynamic construction `getattr(import_module(module), cls)(**props)`. The object catalog
      is external, so every model takes it as an uninterpreted parameter. */
  type Constructor = (string, string, Props) -> Mo

  /** Python truthiness of a parsed value: false, null, zero and empty containers are false;
      every object is true. */
  predicate Truthy(v: Value)
  {
    match v
    case Str(s) => s != ""
    case Bool(b) => b
    case Int(i) => i != 0
    case Null => false
    case List(items) => items != []
    case Dict(entries) => entries != map[]
    case Obj(_) => true
  }
}
