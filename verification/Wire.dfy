/** The messages of the management connection, and small helpers shared by several modules. */
module Wire {

  datatype Option<+T> = None | Some(value: T)

  /** Peers are numbered; a number stands for the ClientName of the source. */
  type Name = nat

  type Bytes = seq<bv8>

  datatype ClientState = Registered | Configuring | TestReady | Testing | TestEnding | Disconnected

  /** `from` and `run` are bookkeeping: the peer, and the case whose executor emitted the signal. */
  datatype Signal = Signal(from: Name, run: nat, data: Bytes)

  datatype FileChunk = FileChunk(fileName: string, chunkIndex: int, totalChunks: int, data: Bytes, isFinal: bool)

  /** What a peer uploads when a case stops: one results message, then file chunks. */
  datatype Item = ResultFile(data: Bytes) | Piece(chunk: FileChunk)

  /** Peer to server. `origin` is bookkeeping: the case the uploading executor ran. */
  datatype Up =
    | Register
    | StateUpdate(state: ClientState)
    | PeerSignal(signal: Signal)
    | Upload(origin: nat, item: Item)

  /** Server to peer. `caseNo` stands for the case type, configuration and duration of that case. */
  datatype Down =
    | RegisterOk
    | Configure(caseNo: nat)
    | Start
    | Stop
    | Shutdown
    | Forwarded(signal: Signal)
}
