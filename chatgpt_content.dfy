/**
 * The relay side, chatgpt-content.js: the bounded textarea search, the
 * response to an `updateChatGPT` request, and the 20-tick periodic check.
 * Every `document.querySelector('#prompt-textarea')` is an oracle: `lookup(k)`
 * is what the k-th lookup observes.
 */
module ChatGptContent {
  import opened Wrappers

  /**
   * `findTextarea(maxAttempts, delayMs)`: look up to `maxAttempts` times,
   * waiting `delayMs` after each miss. Returns the element (or `None` for
   * `null`), the number of lookups made and the number of waits.
   */
  method FindTextarea<E>(maxAttempts: int, lookup: nat -> Option<E>)
    returns (textarea: Option<E>, lookups: nat, delays: nat)
    ensures lookups <= if maxAttempts < 0 then 0 else maxAttempts
    ensures textarea.None? <==> forall k :: 0 <= k < maxAttempts ==> lookup(k).None?
    ensures textarea.Some? ==>
      lookups >= 1 && textarea == lookup(lookups - 1) &&
      (forall k :: 0 <= k < lookups - 1 ==> lookup(k).None?) &&
      delays == lookups - 1
    ensures textarea.None? ==>
      lookups == (if maxAttempts < 0 then 0 else maxAttempts) && delays == lookups
  {
    lookups, delays := 0, 0;
    var attempt := 0;
    while attempt < maxAttempts
      invariant 0 <= attempt && (attempt <= maxAttempts || attempt == 0)
      invariant lookups == attempt && delays == attempt
      invariant forall k :: 0 <= k < attempt ==> lookup(k).None?
    {
      var found := lookup(attempt);
      lookups := lookups + 1;
      if found.Some? {
        return found, lookups, delays;
      }
      delays := delays + 1;
      attempt := attempt + 1;
    }
    textarea := None;
  }

  /** A runtime message sent to the content script. */
  datatype Request = Request(kind: string, text: string)

  /** How the five update methods ended: an exception, or the value read back afterwards. */
  datatype UpdateAttempt = Threw(message: string) | Applied(valueAfter: string)

  /** The object passed to `sendResponse`. */
  datatype Response = Response(success: bool, error: Option<string>)

  const RequestKind: string := "updateChatGPT"
  const NotFoundError: string := "Textarea not found"
  const NotUpdatedError: string := "Value not updated"

  /**
   * The `chrome.runtime.onMessage` listener: no response to other message
   * types; for `updateChatGPT`, success exactly when the textarea exists and
   * reads back the requested text, otherwise one of the error responses.
   */
  function OnRuntimeMessage(request: Request, textareaFound: bool, attempt: UpdateAttempt): (r: Option<Response>)
    ensures r.Some? <==> request.kind == RequestKind
    ensures r.Some? ==>
      (r.value.success <==> textareaFound && attempt == Applied(request.text))
    ensures r.Some? ==> (r.value.success <==> r.value.error.None?)
    ensures r.Some? && !textareaFound ==> r.value.error == Some(NotFoundError)
    ensures r.Some? && textareaFound && attempt.Threw? ==> r.value.error == Some(attempt.message)
    ensures r.Some? && textareaFound && attempt.Applied? && attempt.valueAfter != request.text ==>
      r.value.error == Some(NotUpdatedError)
  {
    if request.kind != RequestKind then None
    else if !textareaFound then Some(Response(false, Some(NotFoundError)))
    else match attempt
      case Threw(message) => Some(Response(false, Some(message)))
      case Applied(valueAfter) =>
        if valueAfter == request.text then Some(Response(true, None))
        else Some(Response(false, Some(NotUpdatedError)))
  }

  /** Number of ticks of the periodic check (10 seconds at one tick per 500 ms). */
  const MaxChecks: int := 20

  /** The module-level `checksRemaining` counter and its interval. */
  class PeriodicCheck {
    var checksRemaining: int
    /** Whether `clearInterval` has run; no tick fires afterwards. */
    var cleared: bool

    constructor ()
      ensures checksRemaining == MaxChecks && !cleared
    {
      checksRemaining := MaxChecks;
      cleared := false;
    }

    /** One interval callback, given what its lookup observed. */
    method Tick(found: bool)
      requires !cleared
      modifies this
      ensures checksRemaining == old(checksRemaining) - 1
      ensures cleared == (checksRemaining <= 0 || found)
    {
      checksRemaining := checksRemaining - 1;
      if checksRemaining <= 0 || found {
        cleared := true;
      }
    }
  }

  /**
   * The interval from start to `clearInterval`: it stops at the first tick
   * whose lookup finds the textarea, and after 20 ticks at most.
   */
  method RunPeriodicCheck(lookup: nat -> bool) returns (ticks: nat, found: bool, remaining: int)
    ensures 1 <= ticks <= MaxChecks
    ensures remaining == MaxChecks - ticks
    ensures found == lookup(ticks - 1)
    ensures forall k :: 0 <= k < ticks - 1 ==> !lookup(k)
    ensures ticks < MaxChecks ==> found
  {
    var check := new PeriodicCheck();
    ticks := 0;
    found := false;
    while !check.cleared
      invariant 0 <= ticks <= MaxChecks
      invariant check.checksRemaining == MaxChecks - ticks
      invariant !check.cleared ==> ticks < MaxChecks && forall k :: 0 <= k < ticks ==> !lookup(k)
      invariant check.cleared ==>
        ticks >= 1 && found == lookup(ticks - 1) && (ticks == MaxChecks || found) &&
        forall k :: 0 <= k < ticks - 1 ==> !lookup(k)
      decreases check.checksRemaining
    {
      found := lookup(ticks);
      check.Tick(found);
      ticks := ticks + 1;
    }
    remaining := check.checksRemaining;
  }
}
