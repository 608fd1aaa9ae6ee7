/**
 * The log parser's normaliser: the JSON object is cut out of the log line at
 * the marker {"host, decoded, and its path trimmed (init, NewLogMessage). JSON
 * decoding is a parameter of the model: decode stands for json.Unmarshal.
 */
module LogMessages {
  import opened Wrappers
  import opened GoStrings
  import opened Engine
  import opened Messages
  import AgentMessages

  const Marker := "{\"host"

  /** The keys of the decoded JSON object; keys it lacks decode as zero values. */
  datatype LogFields = LogFields(
    ip: string,
    time: string,
    httpMethod: string,
    host: string,
    path: string,
    query: string,
    status: int)

  datatype InitError =
    | NotJson
    | BadJson(reason: string)
    /** m.Path[1:] on an empty decoded path: a Go runtime panic. */
    | EmptyPathPanic

  /**
   * The text handed to the JSON decoder: from the first occurrence of the
   * marker up to, but not including, the line's last character (the newline).
   */
  function Payload(line: string): (p: Option<string>)
    ensures p.None? <==> forall i :: !OccursAt(line, Marker, i)
    ensures p.Some? ==> exists i ::
      && OccursAt(line, Marker, i)
      && (forall j | 0 <= j < i :: !OccursAt(line, Marker, j))
      && p.value == line[i..|line| - 1]
    ensures p.Some? ==> HasPrefix(p.value, Marker[..|Marker| - 1])
  {
    var index := Index(line, Marker);
    if index < 0 then None else Some(line[index..|line| - 1])
  }

  /** The path init stores: the first character and one trailing '/' removed. */
  function TrimDecodedPath(path: string): (r: Option<string>)
    ensures r.None? <==> path == ""
    ensures r.Some? && path[|path| - 1] == '/' && |path| > 1 ==> r.value == path[1..|path| - 1]
    ensures r.Some? && (path[|path| - 1] != '/' || |path| == 1) ==> r.value == path[1..]
  {
    if |path| == 0 then None else Some(TrimSuffix(path[1..], "/"))
  }

  /** The record and the error after init on line, starting from rec. */
  function Normalise(rec: Record, line: string, decode: string -> Result<LogFields, string>): (n: (Record, Option<InitError>))
    ensures n.1 == Some(NotJson) <==> forall i :: !OccursAt(line, Marker, i)
    ensures n.1.Some? && !n.1.value.EmptyPathPanic? ==> n.0 == rec
    ensures n.1.Some? && n.1.value.BadJson? ==>
      Payload(line).Some? && decode(Payload(line).value) == Failure(n.1.value.reason)
    ensures n.0.route == rec.route && n.0.authToken == rec.authToken && n.0.uniqueId == rec.uniqueId
    ensures n.1 == Some(EmptyPathPanic) ==> n.0.path == ""
    ensures var P := Payload(line);
      n.1.None? <==> P.Some? && decode(P.value).Success? && decode(P.value).value.path != ""
    ensures var P := Payload(line);
      P.Some? && decode(P.value).Failure? ==> n == (rec, Some(BadJson(decode(P.value).error)))
    ensures var P := Payload(line);
      n.1 == Some(EmptyPathPanic) <==> P.Some? && decode(P.value).Success? && decode(P.value).value.path == ""
    ensures n.1.None? ==>
      && Payload(line).Some? && decode(Payload(line).value).Success?
      && var f := decode(Payload(line).value).value;
      && f.path != ""
      && n.0 == rec.(ipAddress := f.ip, time := f.time, httpMethod := f.httpMethod, host := f.host,
                     path := AgentMessages.TrimPath(f.path), query := f.query, status := f.status)
  {
    match Payload(line)
    case None => (rec, Some(NotJson))
    case Some(json) =>
      match decode(json)
      case Failure(reason) => (rec, Some(BadJson(reason)))
      case Success(f) =>
        var decoded := rec.(ipAddress := f.ip, time := f.time, httpMethod := f.httpMethod, host := f.host,
                            path := f.path, query := f.query, status := f.status);
        match TrimDecodedPath(f.path)
        case None => (decoded, Some(EmptyPathPanic))
        case Some(p) => (decoded.(path := p), None)
  }

  /** init. */
  method Init(m: Message, line: string, decode: string -> Result<LogFields, string>) returns (err: Option<InitError>)
    modifies m
    ensures (m.Value(), err) == Normalise(old(m.Value()), line, decode)
  {
    ghost var before := m.Value();
    var index := Index(line, Marker);
    if index < 0 {
      assert Normalise(before, line, decode) == (before, Some(NotJson));
      return Some(NotJson);
    }
    var json := line[index..|line| - 1];
    assert Payload(line) == Some(json);
    var decoded := decode(json);
    if decoded.Failure? {
      assert Normalise(before, line, decode) == (before, Some(BadJson(decoded.error)));
      return Some(BadJson(decoded.error));
    }
    var f := decoded.value;
    CopyDecoded(m, f);
    if |m.path| == 0 {
      assert Normalise(before, line, decode) == (m.Value(), Some(EmptyPathPanic));
      return Some(EmptyPathPanic);
    }
    m.path := m.path[1..];
    m.path := TrimSuffix(m.path, "/");
    assert Normalise(before, line, decode) == (m.Value(), None);
    return None;
  }

  /** json.Unmarshal's effect on the record: the seven tagged fields are overwritten. */
  method CopyDecoded(m: Message, f: LogFields)
    modifies m
    ensures m.Value() == old(m.Value()).(ipAddress := f.ip, time := f.time, httpMethod := f.httpMethod,
      host := f.host, path := f.path, query := f.query, status := f.status)
  {
    m.ipAddress, m.time, m.httpMethod, m.host, m.path, m.query, m.status :=
      f.ip, f.time, f.httpMethod, f.host, f.path, f.query, f.status;
  }

  /** NewLogMessage: a fresh record, normalised from one log line. */
  method NewLogMessage(line: string, decode: string -> Result<LogFields, string>) returns (m: Message, err: Option<InitError>)
    ensures fresh(m)
    ensures (m.Value(), err) == Normalise(Empty, line, decode)
  {
    m := new Message();
    err := Init(m, line, decode);
  }

  /** After a successful init the record's path is the agent's trim of the decoded path. */
  lemma NormalisersTrimAlike(path: string)
    requires path != ""
    ensures TrimDecodedPath(path) == Some(AgentMessages.TrimPath(path))
  {
  }
}
