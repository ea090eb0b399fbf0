/**
 * The control-plane boundary (forwarder.go): the media description sent to
 * the origin, and a client whose HTTP exchanges are abstract. Each request is
 * recorded in a call log and answered with the outcome the caller supplies
 * (the forwarder id or the error body the origin would return).
 */
module Forwarder {
  import opened Wrappers
  import opened Numeric

  /** The media description posted to the origin. */
  datatype EndpointData = EndpointData(
    host: string,
    simulcast: bool,
    audioPtype: uint8,
    videoPtype: uint8,
    audioPort: uint16,
    videoPort: uint16,
    videoPort2: uint16,
    audioSsrc: uint32,
    videoSsrc: uint32,
    videoSsrc2: uint32)

  /** A request sent to the origin: POST /forward/<stream> or
      DELETE /forward/<stream>/<forwarder>. */
  datatype ControlCall =
    | Forward(origin: string, streamId: string, data: EndpointData)
    | StopForward(origin: string, streamId: string, forwardId: string)

  class Client {
    /** Every request this client has sent, oldest first. */
    var calls: seq<ControlCall>

    constructor ()
      ensures calls == []
    {
      calls := [];
    }

    /** Ask the origin to forward `streamId` to the described ports; `reply`
        is the origin's answer. */
    method RequestForward(origin: string, streamId: string, data: EndpointData, reply: Result<string, string>)
      returns (r: Result<string, string>)
      modifies this
      ensures calls == old(calls) + [Forward(origin, streamId, data)]
      ensures r == reply
    {
      calls := calls + [Forward(origin, streamId, data)];
      r := reply;
    }

    /** Ask the origin to stop forwarder `forwardId`; `reply` is the error the
        exchange reports, if any. */
    method RequestStopForward(origin: string, streamId: string, forwardId: string, reply: Option<string>)
      returns (err: Option<string>)
      modifies this
      ensures calls == old(calls) + [StopForward(origin, streamId, forwardId)]
      ensures err == reply
    {
      calls := calls + [StopForward(origin, streamId, forwardId)];
      err := reply;
    }
  }
}
