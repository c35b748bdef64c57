/** The quota gate run before every upstream call. */
module Quota {
  import opened ChatTypes

  /** `check_all_queries_used` on a user's subscription record: an inactive
      user with no free queries left is refused with 402; any other inactive
      user is charged one query; an active user is left alone. */
  function QuotaGate(s: Subscription): (r: Result<Subscription, Error>)
    ensures r.Failure? <==> !s.active && s.freeQueries == 0
    ensures r.Failure? ==> r.error == FreeQueriesUsed && StatusCode(r.error) == 402
    ensures r.Success? ==> r.value.active == s.active
    ensures r.Success? && !s.active ==> r.value.freeQueries == s.freeQueries - 1
    ensures s.active ==> r == Success(s)
    ensures s.freeQueries >= 0 && r.Success? ==> r.value.freeQueries >= 0
  {
    if !s.active then
      if s.freeQueries == 0 then Failure(FreeQueriesUsed)
      else Success(s.(freeQueries := s.freeQueries - 1))
    else Success(s)
  }
}
