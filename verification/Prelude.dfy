/** Types shared by every module of the model. */
module Prelude {

  datatype Option<+T> = None | Some(value: T)

  /** Names of virtual machines; the database keys every row by them. */
  type Name = string

  /** IPv4 and MAC addresses are numbers: their text forms are not modelled. */
  type Ip = nat
  type Mac = nat

  /**
    File contents, up to what the program can tell apart.  `Unxz` and `Cd9660` stand for the results of
    the deterministic tools unxz and makefs.
   */
  datatype Bytes =
    | Blob(text: string)
    | Unxz(archive: Bytes)
    | Cd9660(source: string)

  /** SHA-256, assumed free of collisions: a digest determines its preimage. */
  datatype Digest = Sha256(of: Bytes)
}
