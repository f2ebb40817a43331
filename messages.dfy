/** What a WebSocket peer can send: a text frame or a binary frame. */
module Messages {

  datatype Message = Text(text: string) | Binary(bytes: seq<bv8>)

  /** The acknowledgement sent after a message was handled. */
  const Ok: string := "OK"
}
