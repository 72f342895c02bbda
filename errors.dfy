/** The failures the mock binding reports, as a kind and a message (the prototype chain is not modelled). */
module Errors {

  /** The `name` of the error object: MissingPortError, ClosedPortError, a plain Error or a TypeError. */
  datatype Kind = MissingPortError | ClosedPortError | PlainError | TypeError

  datatype Error = Error(kind: Kind, message: string)

  /** The subject both custom errors put first: the given name, or "unknown method:" when it is empty (falsy). */
  function Subject(name: string): string {
    if name == "" then "unknown method:" else name
  }

  /** MissingPortError(name): the message starts with the path (or method) that was not found. */
  function MissingPort(name: string): (e: Error)
    ensures e.kind == MissingPortError
    ensures name != "" ==> name <= e.message
    ensures name == "" ==> "unknown method:" <= e.message
  {
    Error(MissingPortError, Subject(name) + " Port does not exist - please call hardware.createPort(path) first")
  }

  /** ClosedPortError(name): the message starts with the method that found the binding closed. */
  function ClosedPort(name: string): (e: Error)
    ensures e.kind == ClosedPortError
    ensures name != "" ==> name <= e.message
    ensures name == "" ==> "unknown method:" <= e.message
  {
    Error(ClosedPortError, Subject(name) + " Port is closed")
  }

  /** The plain errors with fixed messages. */
  const Locked := Error(PlainError, "port is locked cannot open")
  const AlreadyClosed := Error(PlainError, "port is already closed")
  const MissingBaudRate := Error(PlainError, "Missing baudRate")
  const Disconnected := Error(PlainError, "disconnected")

  /** The TypeError the engine raises for reading a property of undefined or null. */
  function CannotRead(key: string, base: string): Error {
    Error(TypeError, "Cannot read property '" + key + "' of " + base)
  }

  /** The TypeError strict-mode code raises for setting a property of undefined, null or a primitive. */
  function CannotSet(key: string, base: string): Error {
    Error(TypeError, "Cannot set property '" + key + "' of " + base)
  }
}
