/**
 The swap gate of the Token Details page: a token with a safety warning that
 the user has not added on the page chain needs the user's confirmation before
 a swap goes on. The page holds at most one pending confirmation request
 (`continueSwap`); each request is an opaque id here, and the answers the page
 gives to requests are kept, in order, as a log of deliveries.

 `checkWarning` and `useIsUserAddedTokenOnChain` are collaborators whose code
 is not part of this model: the first is a parameter, the second's answer is.
 */
module SwapGate {
  import opened Js

  /** The part of a safety warning the page reads: whether the user may go on at all. */
  datatype Warning = Warning(canProceed: bool)

  /** `address ? checkWarning(address) : null`. */
  function TokenWarning(address: Option<string>, checkWarning: string -> Option<Warning>): (w: Option<Warning>)
    ensures w.Some? ==> StrTruthy(address)
    ensures StrTruthy(address) ==> w == checkWarning(address.value)
  {
    if StrTruthy(address) then checkWarning(address.value) else None
  }

  /** `tokenWarning?.canProceed === false`. */
  predicate IsBlockedToken(w: Option<Warning>): (r: bool)
    ensures r ==> w.Some?
    ensures w.Some? ==> (r <==> !w.value.canProceed)
  {
    w.Some? && !w.value.canProceed
  }

  /** `!useIsUserAddedTokenOnChain(address, pageChainId) && tokenWarning !== null`. */
  predicate ShouldShowSpeedbump(isUserAdded: bool, w: Option<Warning>): (r: bool)
    ensures r ==> w.Some? && !isUserAdded
    ensures isUserAdded ==> !r
    ensures w.Some? && !isUserAdded ==> r
    ensures IsBlockedToken(w) && !isUserAdded ==> r
  {
    !isUserAdded && w.Some?
  }

  /**
   A token with a warning, blocked or not, that the user has not added always
   asks before a swap; a page without an address or a token without a warning
   never does.
   */
  lemma SpeedbumpCases(isUserAdded: bool, address: Option<string>, checkWarning: string -> Option<Warning>)
    ensures TokenWarning(address, checkWarning).Some? && !isUserAdded ==>
      ShouldShowSpeedbump(isUserAdded, TokenWarning(address, checkWarning))
    ensures IsBlockedToken(TokenWarning(address, checkWarning)) && !isUserAdded ==>
      ShouldShowSpeedbump(isUserAdded, TokenWarning(address, checkWarning))
    ensures !StrTruthy(address) ==> !ShouldShowSpeedbump(isUserAdded, TokenWarning(address, checkWarning))
    ensures TokenWarning(address, checkWarning).None? ==> !ShouldShowSpeedbump(isUserAdded, TokenWarning(address, checkWarning))
  {
  }

  type RequestId = nat

  /** The page answered request `request` with `value` (true: go on with the swap). */
  datatype Delivery = Delivery(request: RequestId, value: bool)

  predicate DeliveredTo(log: seq<Delivery>, request: RequestId)
  {
    exists i :: 0 <= i < |log| && log[i].request == request
  }

  class SwapConfirmation {
    /** The pending request, if any (`continueSwap`). */
    var continueSwap: Option<RequestId>
    /** Every answer given so far, oldest first. */
    var delivered: seq<Delivery>
    /** The requests created so far. */
    ghost var issued: set<RequestId>
    /** The requests that were overwritten before an answer; they are never answered. */
    ghost var abandoned: set<RequestId>

    /** Each request is answered at most once, only after it was issued, and never after being overwritten. */
    ghost predicate Valid()
      reads this
    {
      abandoned <= issued &&
      (forall i :: 0 <= i < |delivered| ==> delivered[i].request in issued && delivered[i].request !in abandoned) &&
      (forall i, j :: 0 <= i < j < |delivered| ==> delivered[i].request != delivered[j].request) &&
      (continueSwap.Some? ==>
        continueSwap.value in issued && continueSwap.value !in abandoned &&
        !DeliveredTo(delivered, continueSwap.value))
    }

    /** The `isOpen` flag of the safety modal: `isBlockedToken || !!continueSwap`. */
    predicate ModalOpen(isBlocked: bool): (r: bool)
      reads this
      ensures isBlocked ==> r
      ensures !isBlocked ==> (r <==> continueSwap.Some?)
    {
      isBlocked || continueSwap.Some?
    }

    constructor ()
      ensures Valid()
      ensures continueSwap == None && delivered == [] && issued == {} && abandoned == {}
    {
      continueSwap := None;
      delivered := [];
      issued := {};
      abandoned := {};
    }

    /**
     `onReviewSwapClick`: without a speedbump the new request is answered
     `true` at once and the slot is left alone; with one, the request takes the
     slot, and a request that held it before is dropped without an answer.
     */
    method OnReviewSwapClick(request: RequestId, shouldShowSpeedbump: bool)
      requires Valid() && request !in issued
      modifies this
      ensures Valid()
      ensures issued == old(issued) + {request}
      ensures shouldShowSpeedbump ==>
        continueSwap == Some(request) && delivered == old(delivered) &&
        abandoned == old(abandoned) + (if old(continueSwap).Some? then {old(continueSwap).value} else {})
      ensures shouldShowSpeedbump ==> forall isBlocked :: ModalOpen(isBlocked)
      ensures !shouldShowSpeedbump ==>
        continueSwap == old(continueSwap) && abandoned == old(abandoned) &&
        delivered == old(delivered) + [Delivery(request, true)]
    {
      issued := issued + {request};
      if shouldShowSpeedbump {
        if continueSwap.Some? {
          abandoned := abandoned + {continueSwap.value};
        }
        continueSwap := Some(request);
      } else {
        delivered := delivered + [Delivery(request, true)];
      }
    }

    /**
     `onResolveSwap`: the pending request, if any, gets `value`, and the slot
     is emptied; with nothing pending no answer is given.
     */
    method OnResolveSwap(value: bool)
      requires Valid()
      modifies this
      ensures Valid()
      ensures continueSwap == None && issued == old(issued) && abandoned == old(abandoned)
      ensures delivered == old(delivered) +
        (if old(continueSwap).Some? then [Delivery(old(continueSwap).value, value)] else [])
      ensures forall isBlocked :: ModalOpen(isBlocked) == isBlocked
    {
      if continueSwap.Some? {
        delivered := delivered + [Delivery(continueSwap.value, value)];
      }
      continueSwap := None;
    }
  }

  /**
   Two reviews under a speedbump before the user answers: only the second is
   answered, once, and a second answer from the modal reaches nobody.
   */
  method OverwrittenReview(answer: bool) returns (log: seq<Delivery>, dropped: bool)
    ensures log == [Delivery(2, answer)]
    ensures dropped
  {
    var gate := new SwapConfirmation();
    gate.OnReviewSwapClick(1, true);
    gate.OnReviewSwapClick(2, true);
    gate.OnResolveSwap(answer);
    gate.OnResolveSwap(!answer);
    log := gate.delivered;
    dropped := !DeliveredTo(log, 1);
  }
}
