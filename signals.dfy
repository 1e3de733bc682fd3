/** Values shared by the relay, the signalling link and the peer session:
    the optional-value wrapper and the JSON envelope exchanged with the relay,
    with its payload reduced to the shapes the core inspects. */
module Signals {

  datatype Option<+T> = None | Some(value: T) {
    function GetOr(default: T): T {
      match this
      case Some(v) => v
      case None => default
    }
  }

  /** The `data` member of an envelope, as far as the core looks into it. */
  datatype Payload =
    | NoData                                   // member absent
    | UidField(uid: string)                    // `{uid}` of a `login`
    | LoginOk(uid: string, isNewUser: bool)    // `{uid, isNewUser}` of a `login_success`
    | Description(sdp: string)                 // a session description (offer or answer)
    | Candidate(candidate: string)             // an ICE candidate
    | Reason(reason: string)                   // `{reason}` of an `offer-rejected`
    | OtherData                                // any other JSON value

  /** `{type, from, to, data, error}`; an empty string stands for an omitted member. */
  datatype Envelope = Envelope(kind: string, from: string, to: string, data: Payload, error: string)

  function Message(kind: string, to: string, data: Payload): Envelope {
    Envelope(kind, "", to, data, "")
  }
}
