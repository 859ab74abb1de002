/**
 * The protocol types of the `keybase1` package that the identify outcome uses.
 * Their definitions live in the protocol package, which is not part of this model.
 */
module Keybase1 {

  /** keybase1.ProofType: an enumeration code identifying a remote service. */
  type ProofType = int

  /** keybase1.TrackStatus: the verdict on an identification. */
  datatype TrackStatus =
    | NewOk
    | NewZeroProofs
    | NewFailProofs
    | UpdateBroken
    | UpdateNewProofs
    | UpdateOk
}
