/**
 * The two gates of the engine: the admission filter (shouldParse) over the raw
 * status, host and method, and the audit filter (shouldAudit) over the token
 * and the derived route. Both are pure predicates in the Go code.
 */
module Filters {
  import opened GoStrings
  import opened Routes

  const MutatingMethods: seq<string> := ["put", "post", "patch", "delete"]
  const IgnoreApis: seq<string> := ["authenticate", "mobile_devices", "report", "jobs"]
  const IgnoreConcepts: seq<string> := ["send_sempro_message", "disconnect", "armed_status", "cancel"]
  const IgnoreActions: seq<string> := ["refresh", "activate", "sign_in"]

  /** matchesOneOf: str equals, ignoring case, one of matches (checked in order). */
  predicate MatchesOneOf(str: string, matches: seq<string>)
    ensures MatchesOneOf(str, matches) <==> exists k | 0 <= k < |matches| :: EqualFold(str, matches[k])
  {
    if |matches| == 0 then false
    else if EqualFold(str, matches[0]) then true
    else MatchesOneOf(str, matches[1..])
  }

  /** Against a list of lower-case words, matchesOneOf is membership of the lowered string. */
  lemma {:induction false} MatchesLowerCaseList(str: string, matches: seq<string>)
    requires AllLowerCase(matches)
    ensures MatchesOneOf(str, matches) <==> ToLower(str) in matches
  {
    if MatchesOneOf(str, matches) {
      var k :| 0 <= k < |matches| && EqualFold(str, matches[k]);
      EqualFoldLower(str, matches[k]);
    }
    if ToLower(str) in matches {
      var k :| 0 <= k < |matches| && matches[k] == ToLower(str);
      EqualFoldLower(str, matches[k]);
    }
  }

  predicate AllLowerCase(words: seq<string>)
  {
    forall k | 0 <= k < |words| :: IsLowerCase(words[k])
  }

  lemma WordListsLowerCase()
    ensures AllLowerCase(MutatingMethods) && AllLowerCase(IgnoreApis)
    ensures AllLowerCase(IgnoreConcepts) && AllLowerCase(IgnoreActions)
  {
    assert AllLowerCase(MutatingMethods);
    assert AllLowerCase(IgnoreApis);
    assert AllLowerCase(IgnoreConcepts);
    assert AllLowerCase(IgnoreActions);
  }

  /** shouldParse: a successful, mutating call to one of the audited hosts. */
  predicate ShouldParse(status: int, host: string, httpMethod: string)
    ensures ShouldParse(status, host, httpMethod) <==>
      && 200 <= status < 300
      && (HasPrefix(host, "api") || HasPrefix(host, "vk"))
      && ToLower(httpMethod) in MutatingMethods
  {
    WordListsLowerCase();
    MatchesLowerCaseList(httpMethod, MutatingMethods);
    if status < 200 || status >= 300 then false
    else if !(HasPrefix(host, "api") || HasPrefix(host, "vk")) then false
    else if !MatchesOneOf(httpMethod, MutatingMethods) then false
    else true
  }

  /**
   * shouldAudit: a token was found, and neither the api, the concept nor the
   * action is one the audit ignores; a numeric concept is a misparsed path.
   */
  predicate ShouldAudit(authToken: string, route: Route)
    ensures ShouldAudit(authToken, route) <==>
      && authToken != ""
      && ToLower(route.api) !in IgnoreApis
      && !IsNumeric(route.concept)
      && ToLower(route.concept) !in IgnoreConcepts
      && ToLower(route.action) !in IgnoreActions
  {
    WordListsLowerCase();
    MatchesLowerCaseList(route.api, IgnoreApis);
    MatchesLowerCaseList(route.concept, IgnoreConcepts);
    MatchesLowerCaseList(route.action, IgnoreActions);
    if |authToken| == 0 then false
    else if MatchesOneOf(route.api, IgnoreApis) then false
    else if Atoi(route.concept).Some? then false
    else if MatchesOneOf(route.concept, IgnoreConcepts) then false
    else if MatchesOneOf(route.action, IgnoreActions) then false
    else true
  }
}
