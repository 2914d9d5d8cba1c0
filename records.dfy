/** Values shared by the lock object and the gateway: the optional-value wrapper,
    bytes of a state blob, and Terraform's lock record. */
module Records {

  datatype Option<+T> = None | Some(value: T)

  /** One byte of an opaque state blob. */
  newtype byte = b: int | 0 <= b < 256

  /** Terraform's lock record as decoded from a JSON request body. Only `id` is
      interpreted; it may be missing from the body, hence the Option. The other
      fields are persisted and echoed verbatim. */
  datatype LockInfo = LockInfo(
    id: Option<string>,
    operation: string,
    info: string,
    who: string,
    version: string,
    created: string,
    path: string)

  /** JavaScript truthiness of `lockInfo.ID`: present and not the empty string. */
  predicate HasId(l: LockInfo) {
    l.id.Some? && l.id.value != ""
  }
}
