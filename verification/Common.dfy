/** Values shared by several components of the work service. */
module Common {

  datatype Option<+T> = None | Some(value: T)

  datatype Result<+T, +E> = Ok(value: T) | Err(error: E)

  /** A work identity: the manager incarnation and a serial that is never reissued. */
  datatype Identity = Identity(manager: nat, serial: nat)

  /** The platform authority a gate is bound to. */
  datatype Epoch = Epoch(platform: nat, generation: nat, user: int)

  const UINT64_MAX: nat := 0xFFFF_FFFF_FFFF_FFFF
  const INT64_MAX: nat := 0x7FFF_FFFF_FFFF_FFFF
}
