/**
 * The canonical record both normalisers produce, and the classification
 * pipeline run on it (NewAgentMessage after init in the agent, parse in the log
 * parser): admission filter, route parser, query extractor, audit filter.
 */
module Engine {
  import opened Wrappers
  import opened Routes
  import opened AuthToken
  import opened Filters
  import opened GoStrings

  /**
   * The fields of AgentMessage and LogMessage together. uniqueId is filled
   * only by the agent, time only by the log parser; query is the agent's
   * PathQuery and the log parser's Query.
   */
  datatype Record = Record(
    uniqueId: string,
    ipAddress: string,
    time: string,
    host: string,
    path: string,
    query: string,
    httpMethod: string,
    status: int,
    route: Route,
    authToken: string)

  /** A zero-valued record, as &AgentMessage{} or LogMessage{} creates it. */
  const Empty := Record("", "", "", "", "", "", "", 0, Unset, "")

  datatype AuditError =
    | ShouldntParse
    | RouteFailed(reason: RouteError)
    | NotAuditable(status: int, httpMethod: string, host: string, path: string)

  /** The record after the pipeline, and the error it returned (None for nil). */
  datatype Processed = Processed(record: Record, error: Option<AuditError>)

  /** The pipeline, in the Go code's order; each error stops it. */
  function Process(rec: Record): (p: Processed)
    ensures p.record.(route := rec.route, authToken := rec.authToken) == rec
    ensures p.error == Some(ShouldntParse) <==> !ShouldParse(rec.status, rec.host, rec.httpMethod)
    ensures p.error == Some(ShouldntParse) ==> p.record == rec
    ensures p.error.Some? && p.error.value.RouteFailed? ==>
      PathStep(rec.route, rec.path).error == Some(p.error.value.reason)
    ensures p.error.Some? && p.error.value.NotAuditable? ==>
      p.error.value == NotAuditable(rec.status, rec.httpMethod, rec.host, rec.path)
    ensures p.error.None? <==>
      && ShouldParse(rec.status, rec.host, rec.httpMethod)
      && PathStep(rec.route, rec.path).error.None?
      && ShouldAudit(p.record.authToken, p.record.route)
    ensures ShouldParse(rec.status, rec.host, rec.httpMethod) && PathStep(rec.route, rec.path).error.Some? ==>
      p == Processed(rec.(route := PathStep(rec.route, rec.path).route),
                     Some(RouteFailed(PathStep(rec.route, rec.path).error.value)))
    ensures ShouldParse(rec.status, rec.host, rec.httpMethod) && PathStep(rec.route, rec.path).error.None? ==>
      p.record == rec.(route := PathStep(rec.route, rec.path).route, authToken := ScanToken(rec.query, 0, rec.authToken))
  {
    if !ShouldParse(rec.status, rec.host, rec.httpMethod) then Processed(rec, Some(ShouldntParse))
    else
      var st := PathStep(rec.route, rec.path);
      if st.error.Some? then Processed(rec.(route := st.route), Some(RouteFailed(st.error.value)))
      else
        var parsed := rec.(route := st.route, authToken := ScanToken(rec.query, 0, rec.authToken));
        if !ShouldAudit(parsed.authToken, parsed.route) then
          Processed(parsed, Some(NotAuditable(parsed.status, parsed.httpMethod, parsed.host, parsed.path)))
        else Processed(parsed, None)
  }

  /**
   * For a freshly normalised record (no route, no token yet) the pipeline
   * accepts exactly the admitted records whose path parses and whose parsed
   * route and extracted token pass the audit filter; the accepted record
   * carries that route and token.
   */
  lemma {:induction false} ProcessFresh(rec: Record)
    requires rec.route == Unset && rec.authToken == ""
    ensures var p := Process(rec);
      && (p.error.None? <==>
            && ShouldParse(rec.status, rec.host, rec.httpMethod)
            && ParseRoute(rec.path).Success?
            && ShouldAudit(Token(rec.query), ParseRoute(rec.path).value))
      && (p.error.None? ==>
            p.record == rec.(route := ParseRoute(rec.path).value, authToken := Token(rec.query)))
  {
    var p := Process(rec);
    if ShouldParse(rec.status, rec.host, rec.httpMethod) && ParseRoute(rec.path).Success? {
      assert p.record.route == ParseRoute(rec.path).value;
      assert p.record.authToken == Token(rec.query);
    }
  }

  /** No audit event without a 2xx status, an api/vk host and a token. */
  lemma NoEventWithoutAdmissionOrToken(rec: Record)
    requires rec.route == Unset && rec.authToken == ""
    requires !(200 <= rec.status < 300) || !(HasPrefix(rec.host, "api") || HasPrefix(rec.host, "vk")) || Token(rec.query) == ""
    ensures Process(rec).error.Some?
  {
    ProcessFresh(rec);
  }

  /** A route whose concept is a number is never audited. */
  lemma NumericConceptNeverAudited(rec: Record)
    requires rec.route == Unset && rec.authToken == ""
    requires ParseRoute(rec.path).Success? && IsNumeric(ParseRoute(rec.path).value.concept)
    ensures Process(rec).error.Some?
  {
    ProcessFresh(rec);
  }

  /**
   * Past the admission filter, the version the record carries is the path's
   * first segment whenever the path has a '/', whatever the outcome.
   */
  lemma {:induction false} ProcessedVersion(rec: Record)
    requires ShouldParse(rec.status, rec.host, rec.httpMethod) && '/' in rec.path
    ensures Process(rec).record.route.apiVersion == Segments(rec.path)[0]
  {
    SlashSplits(rec.path);
  }
}
