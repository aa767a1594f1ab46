/** The shapes of Go's calling convention that every operation of the client shares. */
module Go {

  datatype Option<+T> = None | Some(value: T)

  /** A Go `error` value: nil, or an error whose Error() text is `msg`. */
  datatype Error = Nil | Err(msg: string)

  /** How a call ends the program instead of returning to its caller. */
  datatype Halt =
    | Panic(msg: string)   // `panic` or `log.Panic`
    | Fatal(msg: string)   // `log.Fatal`: the message is logged and the process exits

  /** What a call ends with: Go's (value, error) pair, or a halt. */
  datatype Outcome<+T> = Returned(value: T, err: Error) | Halted(how: Halt)
}
