/** Types shared by every part of the message-port model. */
module Basics {

  datatype Option<+T> = None | Some(value: T)

  /** The daemon's error domain; `ExportFailed` stands for the GIO error of a failed export,
      `Unmapped` for the generic error GDBus makes of an error name it does not know. */
  datatype DaemonError = InvalidParams | NotFound | CertificateMismatch | Unknown | ExportFailed | Unmapped

  datatype Result<+T> = Ok(value: T) | Err(error: DaemonError)

  /** Service ids are C `guint`s: 32 bits, unsigned, wrapping. */
  const ID_LIMIT: int := 0x1_0000_0000

  type Id = i: int | 0 <= i < 0x1_0000_0000

  /** A C `int`. */
  type CInt = i: int | -0x8000_0000 <= i < 0x8000_0000

  /** A client connection, which is also the owner pointer of its services.  Like a
      pointer, a token may be used again after the connection it named has closed. */
  type Conn = nat

  /** A port object of the daemon.  Its fields are set once, by its constructor.
      `serial` is the identity of the object (how many were made before it); no
      decision of the daemon looks at it. */
  datatype Service = Service(serial: nat, id: Id, owner: Conn, name: string, trusted: bool)

  /** The payload of a message: the entries of a D-Bus `a{sv}` whose values are strings. */
  type VariantMap = seq<(string, string)>
}
