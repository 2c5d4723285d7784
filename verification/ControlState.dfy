/** conn_state.go: what one side of a connection has told the other about itself, within configured limits. The
    streamer and the handlers of a connection share one such object for the peer. */
module ControlState {
  import opened Bytes

  class StreamControlState {
    var chunkSize: U32
    var ackWindowSize: I32
    const maxChunkSize: U32
    const maxAckWindowSize: I32

    constructor (chunkSize: U32, ackWindowSize: I32, maxChunkSize: U32, maxAckWindowSize: I32)
      ensures this.chunkSize == chunkSize && this.ackWindowSize == ackWindowSize
      ensures this.maxChunkSize == maxChunkSize && this.maxAckWindowSize == maxAckWindowSize
    {
      this.chunkSize, this.ackWindowSize := chunkSize, ackWindowSize;
      this.maxChunkSize, this.maxAckWindowSize := maxChunkSize, maxAckWindowSize;
    }

    method SetChunkSize(n: U32) returns (ok: bool)
      modifies this`chunkSize
      ensures ok <==> (if n < 0xFFFFFF then n else 0xFFFFFF) <= maxChunkSize
      ensures chunkSize == if !ok then old(chunkSize) else if n < 0xFFFFFF then n else 0xFFFFFF
    {
      var n' := n;
      if n' > MAX_CHUNK_SIZE { n' := MAX_CHUNK_SIZE; }
      if n' > maxChunkSize { return false; }
      chunkSize := n';
      ok := true;
    }

    method SetAckWindowSize(w: I32) returns (ok: bool)
      modifies this`ackWindowSize
      ensures ok <==> w <= maxAckWindowSize
      ensures ackWindowSize == if ok then w else old(ackWindowSize)
    {
      if w > maxAckWindowSize { return false; }
      ackWindowSize := w;
      ok := true;
    }
  }
}
