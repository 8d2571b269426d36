/** The fields of an envelope that routing, policy and bookkeeping look at. */
module Envelopes {

  datatype Envelope = Envelope(
    idempotencyKey: string,
    senderNodeId: string,
    senderRegion: string,
    recipientRegion: string,
    trustTier: nat,
    isDummy: bool,
    schemaType: string,
    schemaVersion: string,
    routingHint: string)
}
