/**
 * The property store every service object and the factory's environment are
 * built on, reduced to the operations the factory uses. The store itself is an
 * external collaborator; these definitions state the contract the factory
 * relies on.
 */
module Properties {
  import opened Wrappers
  import Decimal

  /**
   * One stored property: a string value, a value explicitly set to NULL,
   * an integer (`set_int`), or attached data (`set_data`: an opaque
   * reference and an optional destructor, both identified by number).
   */
  datatype Value = Null | Text(text: string) | Int(number: int) | Data(ref: nat, destructor: Option<nat>)

  /** A property set: name to value; the number of entries is its count. */
  type Props = map<string, Value>

  /** The stored form of a string argument that may be NULL. */
  function TextOrNull(value: Option<string>): Value {
    if value.Some? then Text(value.value) else Null
  }

  /**
   * `mlt_properties_get`: the string form of a property, NULL when it is
   * absent, NULL-valued, or carries only data.
   */
  function Get(p: Props, name: string): Option<string> {
    if name !in p then None
    else match p[name]
      case Null => None
      case Text(s) => Some(s)
      case Int(i) => Some(Decimal.FormatInt(i))
      case Data(_, _) => None
  }

  /** `mlt_properties_get_int`: 0 for an absent or non-numeric property. */
  function GetInt(p: Props, name: string): int {
    if name !in p then 0
    else match p[name]
      case Null => 0
      case Text(s) => Decimal.Atoi(s)
      case Int(i) => i
      case Data(_, _) => 0
  }

  /** `mlt_properties_set`: the entry exists afterwards even when the value is NULL. */
  function Set(p: Props, name: string, value: Option<string>): Props {
    p[name := TextOrNull(value)]
  }

  function SetInt(p: Props, name: string, i: int): Props {
    p[name := Int(i)]
  }

  function SetData(p: Props, name: string, ref: nat, destructor: Option<nat>): Props {
    p[name := Data(ref, destructor)]
  }

  /** `mlt_properties_set_or_default`, as assumed here: the value when it is not NULL, else the default. */
  function SetOrDefault(p: Props, name: string, value: Option<string>, default: string): Props {
    p[name := Text(value.GetOr(default))]
  }

  /** What `Set` stores is what `Get` reads back, and no other entry moves. */
  lemma GetAfterSet(p: Props, name: string, value: Option<string>, other: string)
    ensures Get(Set(p, name, value), name) == value
    ensures other != name ==> Get(Set(p, name, value), other) == Get(p, other)
  {
  }
}
