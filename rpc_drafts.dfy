/**
  What the two RPC service drafts (lib/old/rpc.js and lib/services/rpc.js)
  share: the header token `CDR#RPC@01`, a table of ten message-type codes
  that is the first ten entries of the CDR01 table, and the startup check
  that an identity and an RPC endpoint are configured.
 */
module RpcDrafts {
  import opened Wire
  import opened Constants

  /** `FRAME_HEADER`: the bytes of `'CDR#RPC@01'`. */
  function RpcHeader(): (f: Frame)
    ensures |f| == 10
  {
    Ascii("CDR#RPC@01")
  }

  /** The types the drafts declare, HELLO (0x00) to REPLY (0x09), under the
      same names and codes as lib/old/constants.js. */
  function DraftTypes(): set<MsgType>
  {
    {Hello, Ohai, Kthxbye, Register, Unregister, Request, Interrupt, Progress, StreamFrame, Reply}
  }

  /** The drafts' table is exactly the codes 0x00..0x09 of the full table, so
      its codes are pairwise distinct and a byte above 0x09 names none of them. */
  lemma DraftCodesAreFirstTen(t: MsgType)
    ensures t in DraftTypes() <==> Code(t) <= 9
  {
  }

  /** Why a draft service refuses to start. */
  datatype StartError = IdentityNotSet | EndpointNotSet | SocketFailed

  /** The configuration checks of both constructors, in source order: the
      identity first, then the RPC endpoint (each already resolved as
      `opts.x || process.env[...]`). */
  function MissingSetting(identity: Option<string>, endpoint: Option<string>): (r: Option<StartError>)
    ensures r.None? <==> identity.Some? && endpoint.Some?
    ensures r == Some(IdentityNotSet) <==> identity.None?
    ensures r == Some(EndpointNotSet) <==> identity.Some? && endpoint.None?
  {
    if identity.None? then Some(IdentityNotSet)
    else if endpoint.None? then Some(EndpointNotSet)
    else None
  }
}
