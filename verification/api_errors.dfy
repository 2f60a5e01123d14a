/** `parse_api_error`: classification of a value thrown while completing.
    A 429 runs the rate-limit debounce and a 401 shows a one-shot notice;
    both then throw a fresh, message-less `Error`. Anything else is thrown
    again unchanged. The classifier never returns normally. */
module ApiErrors {
  import opened Wrappers
  import opened Json
  import opened RateLimitNotice

  /** Where a thrown value came from: the transport or the server reply
      (told apart by a tag), or the `TypeError` of reading a response of the
      wrong shape. */
  datatype Origin = Transport(tag: nat) | ResponseShape(error: TypeError)

  /** A thrown object and its `status` property, if it has one. */
  datatype Thrown = Thrown(origin: Origin, status: Option<Json>)

  /** What `parse_api_error` throws: the original value, or a fresh
      `new Error()` that carries neither message nor status. */
  datatype Raised = Rethrown(original: Thrown) | Handled

  /** The thrown value, the notice slots afterwards, and the effects. */
  datatype Classified = Classified(raised: Raised, notices: Notices, effects: seq<Effect>)

  /** `e.status === code`: the status is that very number. */
  predicate HasStatus(e: Thrown, code: int) {
    e.status == Some(JNumber(code as real))
  }

  function ParseApiError(e: Thrown, s: Notices, now: int): (r: Classified)
    requires Consistent(s)
    ensures Consistent(r.notices)
    ensures r.raised == Handled <==> HasStatus(e, 429) || HasStatus(e, 401)
    ensures r.raised.Rethrown? ==> r == Classified(Rethrown(e), s, [])
    ensures HasStatus(e, 429) ==> Step(r.notices, r.effects) == RateLimited(s, now)
    ensures HasStatus(e, 401) ==> r.notices == s && r.effects == [ShowApiKeyNotice(ApiKeyMessage, ApiKeyDuration)]
  {
    if HasStatus(e, 429) then
      var step := RateLimited(s, now);
      Classified(Handled, step.state, step.effects)
    else if HasStatus(e, 401) then
      Classified(Handled, s, [ShowApiKeyNotice(ApiKeyMessage, ApiKeyDuration)])
    else
      Classified(Rethrown(e), s, [])
  }

  /** Only a numeric status matches: `"429"` as a string, or no status at
      all, is rethrown untouched. */
  lemma StatusMustBeNumber(origin: Origin, s: Notices, now: int)
    requires Consistent(s)
    ensures ParseApiError(Thrown(origin, Some(JString("429"))), s, now).raised.Rethrown?
    ensures ParseApiError(Thrown(origin, None), s, now) == Classified(Rethrown(Thrown(origin, None)), s, [])
  {
  }
}
