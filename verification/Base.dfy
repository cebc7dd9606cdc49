/** Shared vocabulary: optional values, results and the error values of internal/domain/errors.go. */
module Base {

  /** Identifiers and codes; the empty string plays the same role as in the source. */
  type Name = string

  datatype Option<+T> = None | Some(value: T)

  datatype Error =
    | InvalidArgument
    | Overflow
    | AmountInvariant
    | QuoteStale
    | SceneNotFound
    | OrderNotFound
    | IdempotencyConflict
    | ClientOrderConflict
    | StatusNotAllowed
    | AlreadyPaid
    | VersionConflict
    | OfferReserve
    | LedgerFreeze
    | InventoryReserve
    | RefundExceedsPaid
    | Unavailable // a downstream or storage call that did not get through

  datatype Result<+T> = Ok(value: T) | Err(error: Error)

  /** How many of these calls succeed. */
  function Count(ok: seq<bool>): nat {
    if ok == [] then 0 else Count(ok[..|ok| - 1]) + (if ok[|ok| - 1] then 1 else 0)
  }

  lemma CountStep(ok: seq<bool>, k: nat)
    requires k < |ok|
    ensures Count(ok[..k + 1]) == Count(ok[..k]) + (if ok[k] then 1 else 0)
  {
    assert ok[..k + 1][..k] == ok[..k];
  }

  lemma NoCalls(ok: seq<bool>)
    requires ok == []
    ensures Count(ok) == 0
  {
  }
}
