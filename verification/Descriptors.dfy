/** What a cached security descriptor is, whoever holds it. */
module Descriptors {

  datatype SdState = Valid | Missing | Corrupt

  datatype Source = FromXattr | FromMissing | Synthetic | FromCorrupt | SyntheticPending

  /** Whether a policy generation tag keeps an entry usable: only entries that the
      mount policy produced depend on it. */
  predicate TagFits(source: Source, tag: nat, generation: nat) {
    match source
    case FromMissing | Synthetic | SyntheticPending => tag == generation
    case _ => true
  }
}
