/** Push subscriptions, the cipher that seals their secrets, and what one push leaves of a row. */
module Subscriptions {
  import opened Basics

  /** The stored secret: the key it is sealed with, and whether the stored bytes are undamaged. */
  datatype Sealed = Sealed(secret: nat, key: nat, intact: bool)

  /** A revoked row has no secret left. */
  datatype Subscription = Subscription(house: nat, user: nat, sealed: Option<Sealed>, revoked: bool)

  /** The keys the process knows and the one it seals with. */
  datatype Cipher = Cipher(known: set<nat>, current: nat)

  /** Why a delivery failed, and the earliest instant to try again if the provider named one. */
  datatype Refusal = Refusal(cause: string, retryAt: Option<Instant>)

  /** What the provider answers for one target. */
  datatype Answer = Accepted | AcceptedAndRevoke | Refused(refusal: Refusal)

  predicate Live(s: Subscription, house: nat, user: nat) {
    s.house == house && s.user == user && !s.revoked
  }

  predicate Readable(cipher: Cipher, s: Subscription) {
    s.sealed.Some? && s.sealed.value.intact && s.sealed.value.key in cipher.known
  }

  function Withdrawn(s: Subscription): Subscription {
    s.(revoked := true, sealed := None)
  }

  /** A readable secret is sealed anew with the current key before it is used. */
  function Rotated(cipher: Cipher, s: Subscription): Subscription {
    if s.sealed.None? then s else s.(sealed := Some(Sealed(s.sealed.value.secret, cipher.current, true)))
  }

  /** The row after a dispatch that reached it: quarantined, revoked on request, or rotated. */
  function AfterSend(cipher: Cipher, s: Subscription, answer: Answer): Subscription {
    if !Readable(cipher, s) || answer == AcceptedAndRevoke then Withdrawn(s) else Rotated(cipher, s)
  }

  /**
   Column by column: a live row is revoked exactly when its secret cannot be read or the provider asks
   for it, a revoked row has no secret, and any other keeps its own, sealed with the current key.
   */
  predicate Left(was: Subscription, row: Subscription, cipher: Cipher, answer: Answer) {
    && row.house == was.house && row.user == was.user
    && (row.revoked <==>
          || was.sealed.None? || !was.sealed.value.intact || was.sealed.value.key !in cipher.known
          || answer == AcceptedAndRevoke)
    && (row.revoked ==> row.sealed == None)
    && (!row.revoked ==> row.sealed == Some(Sealed(was.sealed.value.secret, cipher.current, true)))
  }

  lemma {:induction false} AfterSendLeaves(cipher: Cipher, s: Subscription, answer: Answer)
    requires !s.revoked
    ensures Left(s, AfterSend(cipher, s, answer), cipher, answer)
    ensures forall row | Left(s, row, cipher, answer) :: row == AfterSend(cipher, s, answer)
  {
  }
}
