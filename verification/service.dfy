/** Service kinds and the opaque things the factory hands around. */
module Service {
  import opened Properties

  /** The four kinds of service the factory creates. */
  datatype Kind = Producer | Filter | Transition | Consumer

  /** The kind tag written into `mlt_type`. */
  function KindName(k: Kind): string {
    match k
    case Producer => "producer"
    case Filter => "filter"
    case Transition => "transition"
    case Consumer => "consumer"
  }

  /** An externally owned profile, passed by reference only. */
  type Profile = nat

  /** The opaque `void *input` argument of a creation. */
  type Input = nat

  /** A created service: its identity and its property set. */
  datatype Obj = Obj(handle: nat, props: Props)
}
