# Audit-record classification and route derivation, modelled in Dafny

This project models the core of the HAProxy audit tools: the engine that turns
one proxy access record into an audit event or drops it. The Go code exists
twice, once in the SPOE agent (`haproxy-audit/agent/agent_message.go`) and once
in the stdin log parser (`haprox-log-parser/message/log_message.go`). The two
copies are identical from `shouldParse` down to `parseGenericPath`, so the model
has one shared engine and two normalisers:

- `Messages.Message` is the record object. It is a class whose methods update
  the derived fields in place, as the Go methods do on their receiver. Each
  method is proved to change the record exactly as a pure function says:
  `Routes.PathStep` and the per-dialect steps, `AuthToken.ScanToken`, and
  `Engine.Process` for the whole pipeline.
- `AgentMessages` copies the SPOE message's named arguments into the record
  (`init`) and runs the pipeline (`NewAgentMessage`).
- `LogMessages` cuts the JSON object out of a log line at the `{"host` marker,
  decodes it and trims the path (`init`, `NewLogMessage`).
- `Filters` holds the admission gate (`shouldParse`), the audit gate
  (`shouldAudit`) and `matchesOneOf`.
- `Routes` holds the three route dialects: `v2`, `1` and generic.
- `AuthToken` models the `auth_token=([^&]{20})` extraction.
- `GoStrings` models the Go library functions the engine depends on:
  `strconv.Atoi`, `strings.Split`, `TrimSuffix`, `Index`, `HasPrefix` and an
  ASCII `EqualFold`.
- The smaller helpers are each in their own module. `EventLog` covers the
  NULL-mapping of the insert arguments. `Util` covers the printable-byte
  filter. `NullTimes` covers the nullable timestamp.

Outcomes are datatypes in place of Go errors:

- `Engine.AuditError` has three cases: `ShouldntParse`, `RouteFailed` (which
  carries a `Routes.RouteError`) and `NotAuditable`.
- `LogMessages.InitError` has three cases: `NotJson`, `BadJson` and
  `EmptyPathPanic`.

## Model

| member | source | states |
|---|---|---|
| `GoStrings.Atoi` | haproxy-audit/agent/agent_message.go:107-110 | A value is returned exactly when the input is an optional sign followed by at least one ASCII digit and the value it denotes lies in the int64 range. The value returned is the one the numeral denotes, sign included; "+5", "007" and "-0" are accepted, and so is any in-range numeral of 19 or more characters. Every numeral of at most 18 characters is accepted. |
| `GoStrings.PositionalIsDigitsValue` | haproxy-audit/agent/agent_message.go:108 | The positional value of a digit string, which defines what a numeral denotes, equals the digit-by-digit accumulation Atoi performs. |
| `GoStrings.AtoiItoa` | haproxy-audit/agent/agent_message.go:223-224 | Every int64 written in decimal is numeric and parses back to itself. |
| `GoStrings.Split` | haproxy-audit/agent/agent_message.go:179 | There is one more piece than there are separators, so `""` gives `[""]`. No piece contains the separator. Joining the pieces gives back the input. |
| `GoStrings.SplitJoin` | haproxy-audit/agent/agent_message.go:206 | Splitting a joined list of separator-free segments gives back the segments. |
| `GoStrings.TrimSuffix` | haproxy-audit/agent/agent_message.go:101 | Exactly one copy of the suffix is removed when present; otherwise the input is unchanged. |
| `GoStrings.HasPrefix` | haproxy-audit/agent/agent_message.go:121 | True exactly when the prefix is no longer than the string and agrees with it character by character; the string is then the prefix followed by the rest. |
| `GoStrings.Index` | haprox-log-parser/message/log_message.go:86 | Gives -1 exactly when the pattern occurs nowhere. Otherwise gives an occurrence with no earlier one. |
| `GoStrings.EqualFold` | haproxy-audit/agent/agent_message.go:161 | Two strings are equal ignoring ASCII case exactly when their lower-case forms are equal. |
| `GoStrings.EqualFoldLower` | haproxy-audit/agent/agent_message.go:161 | Comparing with a lower-case word while ignoring ASCII case is the same as comparing the lowered string. |
| `Filters.MatchesOneOf` | haproxy-audit/agent/agent_message.go:159-166 | True exactly when some list entry equals the string, ignoring case. |
| `Filters.MatchesLowerCaseList` | haproxy-audit/agent/agent_message.go:159-166 | For a list of lower-case words, this is membership of the lowered string. |
| `Filters.WordListsLowerCase` | haproxy-audit/agent/agent_message.go:12-31 | The method list and the three ignore lists hold only lower-case words. |
| `Filters.ShouldParse` | haproxy-audit/agent/agent_message.go:115-132 | True if and only if the status is in [200,300), the host starts with "api" or "vk" (case-sensitive), and the lowered method is put, post, patch or delete. |
| `Filters.ShouldAudit` | haproxy-audit/agent/agent_message.go:134-157 | True if and only if all of these hold: the token is non-empty; the lowered api is not an ignored api; the concept is not numeric; the lowered concept is not an ignored concept; the lowered action is not an ignored action. |
| `Routes.ParseRoute` | haproxy-audit/agent/agent_message.go:178-203 | On a fresh record, fails exactly when the segment list is not one that some dialect accepts. A path without '/' fails with PathTooShort. The version is the first segment. A dialect error carries the segment count and the segments. |
| `Routes.PathStep` | haproxy-audit/agent/agent_message.go:178-203 | PathTooShort is returned exactly when the path splits into fewer than two segments, and the route is then untouched. Otherwise the version becomes the first segment, and any error is a dialect error carrying the segment count and the segments. |
| `Routes.V2Step` | haproxy-audit/agent/agent_message.go:205-237 | Fails exactly when there are 7 or more segments, with BadV2Route carrying the count and the segments. The version is kept, the api is segment 1, and with 4 or more segments the id and concept are segments 2 and 3. |
| `Routes.V1Step` | haproxy-audit/agent/agent_message.go:239-286 | Fails exactly when there are more than 6 segments and the path is not one of the two recognised 7-segment shapes, with BadV1Route carrying the count and the segments. The version is kept. Fewer than 3 segments leave the route unchanged; otherwise api and id are segments 1 and 2. |
| `Routes.GenericStep` | haproxy-audit/agent/agent_message.go:288-304 | The api becomes the first segment, even on failure. Succeeds exactly when that segment is "users", and the action is then segment 1. Any other first segment fails with BadGenericRoute carrying the count and the segments. |
| `Routes.EmptyPathRejected` | haproxy-audit/agent/agent_message.go:178-183 | The empty path fails with PathTooShort. |
| `Routes.GenericRoutes` | haproxy-audit/agent/agent_message.go:288-304 | For a first segment other than "v2" or "1", parsing succeeds only when it is "users", and the action is then segment 1. Any other first segment is an error. |
| `Routes.V2Routes` | haproxy-audit/agent/agent_message.go:205-237 | 2 to 4 segments fill api, id and concept as far as they go. With 5 segments, segment 4 is the concept id if numeric, else the action. With 6 segments, segment 5 is always the action and a numeric segment 4 is the concept id. 7 or more segments are an error. |
| `Routes.V1Routes` | haproxy-audit/agent/agent_message.go:239-286 | 2 segments succeed with api empty; 3 set api and id; 4 to 6 follow the concept, id and action rules. 7 segments succeed only for favorites…actions (concept "favorite_actions") or rooms…hotspots (concept "room_hotspots"), each taking the id from a numeric segment 6. Any other 7-segment shape, and more than 7 segments, is an error. |
| `Routes.RouteProvenance` | haproxy-audit/agent/agent_message.go:205-304 | Every name in a parsed route is one of the path's segments, or one of the two compound concepts. A non-zero concept id is the value of a numeric segment at position 4 or later. |
| `RouteExamples.ZoneInformations` | haproxy-audit/agent/agent_message.go:209 | v2/panels/568969/zone_informations parses to api "panels", id "568969" and concept "zone_informations", with no concept id and no action. |
| `RouteExamples.FavoriteActions` | haproxy-audit/agent/agent_message.go:269-273 | 1/panels/4-8489/favorites/44974/actions/<n> parses to concept "favorite_actions" with concept id n, for every int64 n written in decimal (195666 among them). |
| `RouteExamples.FavoritesShape` | haproxy-audit/agent/agent_message.go:269-273 | Any 7-segment v1 path of the favorites…actions shape whose last segment is numeric parses to concept "favorite_actions" with that segment's value as the id, and no action. |
| `RouteExamples.RoomHotspots` | haproxy-audit/agent/agent_message.go:274-278 | 1/panels/4-8489/rooms/12/hotspots/99 parses to concept "room_hotspots" with concept id 99. |
| `RouteExamples.UnknownSevenSegmentShape` | haproxy-audit/agent/agent_message.go:279-281 | A 7-segment v1 path of neither recognised shape is an error. |
| `AuthToken.NextMatch` | haproxy-audit/agent/agent_message.go:171 | Gives the leftmost position at or after the start where the pattern matches, or none when it matches nowhere from there on. |
| `AuthToken.Matches` | haproxy-audit/agent/agent_message.go:171 | The match positions FindAll reports are matches at or after the start. Each one begins at or after the end of the one before, so they do not overlap. |
| `AuthToken.MatchesCover` | haproxy-audit/agent/agent_message.go:171 | Every match the list leaves out overlaps a listed one. So the list is the leftmost non-overlapping one. |
| `AuthToken.MatchesEmpty` | haproxy-audit/agent/agent_message.go:171-175 | The list is empty exactly when the pattern matches nowhere from the start on. |
| `AuthToken.ScanToken` | haproxy-audit/agent/agent_message.go:172-175 | The token after the loop is either the one held before or a 20-character capture with no '&'. |
| `AuthToken.NoMatchKeepsToken` | haproxy-audit/agent/agent_message.go:171-175 | Without a match, the token is left as it was. |
| `AuthToken.LastMatchWins` | haproxy-audit/agent/agent_message.go:171-175 | The scan leaves the capture of the last position FindAll reports, or the token held before when it reports none. |
| `AuthToken.Token` | haproxy-audit/agent/agent_message.go:168-176 | The token is "" exactly when nothing matches. Otherwise it is the capture of the last reported match: 20 characters with no '&'. |
| `AuthToken.OverlappingMatchFirstWins` | haproxy-audit/agent/agent_message.go:171-175 | In "auth_token=auth_token=" followed by 20 characters, the pattern matches at 0 and at 11. FindAll reports only the match at 0, and its capture is the token. |
| `AuthToken.SecondTokenWins` | haproxy-audit/agent/agent_message.go:172-175 | When a query holds two tokens, the second is extracted. |
| `Engine.Process` | haprox-log-parser/message/log_message.go:60-83 | ShouldntParse is returned exactly when admission fails, and then nothing changes. After admission, a failed path step gives RouteFailed with the step's error, and the record then holds the step's route. Otherwise the record holds the parsed route and the scanned token. NotAuditable carries the record's status, method, host and path. No error means all three gates passed. Only the route and the token ever change. |
| `Engine.ProcessFresh` | haproxy-audit/agent/agent_message.go:59-80 | A normalised record is accepted if and only if all three hold: it is admitted, its path parses, and the parsed route with the extracted token passes the audit filter. It then carries that route and token. |
| `Engine.NoEventWithoutAdmissionOrToken` | haproxy-audit/agent/agent_message.go:116-137 | A non-2xx status, a host not starting with api or vk, or a missing token each yields an error. |
| `Engine.NumericConceptNeverAudited` | haproxy-audit/agent/agent_message.go:143-146 | A route whose concept is numeric is never audited. |
| `Engine.ProcessedVersion` | haproxy-audit/agent/agent_message.go:178-186 | Once a record is admitted and its path holds a '/', it carries the path's first segment as its version, whatever the outcome. |
| `Messages.Message.constructor` | haproxy-audit/agent/agent_message.go:56 | A new record has every field at its zero value. |
| `Messages.Message.Parse` | haprox-log-parser/message/log_message.go:60-83 | The new record and the error are exactly what `Engine.Process` gives for the old record. |
| `Messages.Message.ParseQuery` | haproxy-audit/agent/agent_message.go:168-176 | The scan loop leaves the token that `AuthToken.ScanToken` gives. It changes nothing else. |
| `Messages.Message.ParsePath` | haproxy-audit/agent/agent_message.go:178-203 | Updates the route fields and returns the error, both as `Routes.PathStep` gives them. It changes nothing else. |
| `Messages.Message.ParseV2Path` | haproxy-audit/agent/agent_message.go:205-237 | Does as `Routes.V2Step` gives, including the fields written before the error for 7 or more segments. |
| `Messages.Message.ParseV1Path` | haproxy-audit/agent/agent_message.go:239-286 | Does as `Routes.V1Step` gives. |
| `Messages.Message.ParseGenericPath` | haproxy-audit/agent/agent_message.go:288-304 | Does as `Routes.GenericStep` gives. The api is set even when the route is rejected. |
| `Messages.Message.SetCompoundConcept` | haproxy-audit/agent/agent_message.go:269-278 | Sets the concept to the compound name. Sets the concept id only when the id segment is numeric. Nothing else changes. |
| `Messages.Message.IsV1` | haproxy-audit/agent/agent_message.go:306-308 | True exactly when the record's version is "1"; then it is not a v2 route. |
| `Messages.Message.IsV2` | haproxy-audit/agent/agent_message.go:310-312 | True exactly when the record's version is "v2". |
| `AgentMessages.TrimPath` | haproxy-audit/agent/agent_message.go:95-102 | A value of at most one character gives "". Otherwise the first character is dropped, and then one trailing '/' if present. |
| `AgentMessages.ApplyArg` | haproxy-audit/agent/agent_message.go:88-111 | "uid", "ip", "host", "query" and "method" store their value in their field, and "path" stores the trimmed path. A "status" argument stores its Atoi value when numeric, and is otherwise ignored. Any other name changes nothing. |
| `AgentMessages.ApplyArgs` | haproxy-audit/agent/agent_message.go:83-113 | Applying the arguments in order never touches the route, the token or the time. |
| `AgentMessages.CopyArg` | haproxy-audit/agent/agent_message.go:85-111 | The loop body updates the record as `ApplyArg` says. |
| `AgentMessages.Init` | haproxy-audit/agent/agent_message.go:83-113 | The record after the loop is the old record with every argument applied in order. |
| `AgentMessages.NewAgentMessage` | haproxy-audit/agent/agent_message.go:55-81 | A fresh message is returned exactly when the pipeline succeeds on the normalised arguments. Otherwise nil is returned, with the pipeline's one error. |
| `AgentMessages.FieldUntouched` | haproxy-audit/agent/agent_message.go:88-111 | A field that no argument names keeps its value. |
| `AgentMessages.LastArgWins` | haproxy-audit/agent/agent_message.go:84-111 | The last argument with a given name decides that field, so later arguments overwrite earlier ones. |
| `AgentMessages.LastStatusWins` | haproxy-audit/agent/agent_message.go:107-110 | The last "status" argument with a numeric value decides the status. |
| `AgentMessages.StatusNeedsNumericArg` | haproxy-audit/agent/agent_message.go:107-110 | The status changes only through a "status" argument whose value passes Atoi. |
| `AgentMessages.NonNumericStatusShouldntParse` | haproxy-audit/agent/agent_message.go:107-118 | A message without a numeric status keeps status 0, and the pipeline returns ShouldntParse. |
| `LogMessages.Payload` | haprox-log-parser/message/log_message.go:85-92 | Gives none exactly when the line has no `{"host`. Otherwise gives the slice from the first occurrence up to, but not including, the last character. |
| `LogMessages.TrimDecodedPath` | haprox-log-parser/message/log_message.go:99-101 | An empty decoded path panics. Otherwise the first character is dropped, and then one trailing '/'. |
| `LogMessages.Normalise` | haprox-log-parser/message/log_message.go:85-104 | NotJson is returned exactly when the line has no marker. BadJson is returned exactly when the decoder fails on the payload, and carries its error. EmptyPathPanic is returned exactly when the payload decodes to an empty path. Init succeeds exactly when the payload decodes to a non-empty path. NotJson and BadJson leave the record unchanged. The route, the token and the unique id are never touched. On success, the seven decoded fields are stored, with the path trimmed as the agent trims it. |
| `LogMessages.CopyDecoded` | haprox-log-parser/message/log_message.go:94 | The decoder overwrites exactly the seven tagged fields. |
| `LogMessages.Init` | haprox-log-parser/message/log_message.go:85-104 | The new record and the error are as `Normalise` gives them. |
| `LogMessages.NewLogMessage` | haprox-log-parser/message/log_message.go:54-58 | A fresh record is normalised from one line. |
| `LogMessages.NormalisersTrimAlike` | haprox-log-parser/message/log_message.go:99-101 | On a non-empty path, the log parser's trim equals the agent's. |
| `EventLog.NewNullString` | haproxy-audit/models/event_log.go:45-53 | "" gives NULL. Any other string is valid and carries that string. |
| `EventLog.ToInt32` | haproxy-audit/models/event_log.go:60 | The int32 conversion keeps the value modulo 2^32 and stays in the int32 range. It is the identity on that range. |
| `EventLog.NewNullInt32` | haproxy-audit/models/event_log.go:55-63 | 0 gives NULL. A non-zero value is valid: it keeps its value when within int32 range, and is wrapped modulo 2^32 otherwise. |
| `EventLog.ConceptIdWrapsToZero` | haproxy-audit/models/event_log.go:59-62 | A concept id of 2^32 is stored as a valid 0, not as NULL. |
| `EventLog.AddEventLogArgs` | haproxy-audit/models/event_log.go:25-37 | The token, ip, event type, version, api and api id are passed verbatim. The concept and action go through NewNullString and the concept id through NewNullInt32, so each is NULL exactly when it is "" or 0. A non-NULL concept id is its int32 conversion. |
| `Util.StripCtlAndExtFromBytes` | haproxy-audit/util/util.go:20-31 | The buffer loop returns exactly `Printable` of the input. The write index never passes the read index. |
| `Util.PrintableBytes` | haproxy-audit/util/util.go:21-29 | The output is no longer than the input, and every byte c in it satisfies 32 <= c < 127. |
| `Util.PrintableAppend` | haproxy-audit/util/util.go:23-29 | Filtering distributes over concatenation, so the kept bytes keep their input order. |
| `Util.PrintableOfPrintable` | haproxy-audit/util/util.go:20-31 | An input made only of printable bytes is returned unchanged. |
| `Util.PrintableIdempotent` | haproxy-audit/util/util.go:20-31 | Stripping twice is the same as stripping once. |
| `NullTimes.NullTime.constructor` | haproxy-audit/db/time.go:8-11 | A new NullTime is NULL, at the zero time. |
| `NullTimes.NullTime.Scan` | haproxy-audit/db/time.go:14-27 | nil gives NULL at the zero time, and a time value is stored as valid; neither returns an error. Any other value is refused with an error and changes nothing. |
| `NullTimes.NullTime.IsAfter` | haproxy-audit/db/time.go:29-36 | False while NULL. Otherwise true exactly when the stored time is after the given one. |

## Left out

- The dispatcher is not modelled: the 25-worker pool over a 100-slot channel, the goroutine spawned per agent message, stdin reading, signal handling and log rotation (`haprox-log-parser/main.go` and both `message_handler.go` files). These are concurrency and I/O.
- The SPOE listener, process start-up, configuration loading and the database layers are not modelled. These are thin wrappers over external libraries. `haproxy-audit/models/users.go` and `persons.go` are left out too.
- The SQL text, the table name, its execution and `time.Now()` in `AddEventLog` are left out. The receipt instant is a parameter.
- `json.Unmarshal` is the parameter `decode` of `LogMessages.Init`. A decoding error leaves the record unchanged in the model, even if Go has already filled some fields. Keys that Go would match to untagged fields by case-insensitive name are not modelled.
- The regular-expression engine is replaced by a left-to-right scan with the same leftmost, non-overlapping semantics for this fixed-length pattern. The scan and the overwrite loop are one loop in `Messages.Message.ParseQuery`.
- `fmt.Sprintf("%v", ...)` on argument values is left out: agent argument values are strings.
- EqualFold: case folding covers the ASCII letters only. Go's `strings.EqualFold` also folds other Unicode letters, such as the Kelvin sign against 'k'.
- Go's error message texts are left out. Errors are datatype constructors that carry the same data: the path, or the segment count and the segments.
- `util.GetBytes` (gob encoding) is not part of this model.
- Time values are integers. The zero `time.Time{}` is 0, and `After` is `>`. Locations and monotonic readings are not modelled.
- The log parser's own `models` package is not modelled; its source is not part of this model. That includes its `AddEventLog`, which takes an extra time argument.
- Strings are sequences of characters, while Go strings are byte sequences. The path trims test `len(value) <= 1` and drop the first byte (`haproxy-audit/agent/agent_message.go:96,100`, `haprox-log-parser/message/log_message.go:100`). The model drops the first character instead. The two differ only when the path's first character is not ASCII: for "é", Go keeps the second byte of its UTF-8 encoding, while the model gives "". Likewise `LogMessages.Payload` drops the line's last character, where Go drops its last byte (`haprox-log-parser/message/log_message.go:92`). The two agree because the log parser only handles lines that end in '\n' (`haprox-log-parser/main.go:35`).
- `EmptyPathPanic` is an ordinary error in the model. In Go, slicing an empty path at `haprox-log-parser/message/log_message.go:100` is a runtime panic. Nothing recovers it, and `NewLogMessage` runs on the main goroutine (`haprox-log-parser/main.go:41`). So one log line whose JSON lacks a `path` value stops the whole log parser, instead of that line alone being skipped like other malformed lines.
- `LogMessages.CopyDecoded` overwrites all seven tagged fields. `json.Unmarshal` leaves a field unchanged when its key is absent from the JSON object. The two agree on the fresh record that `NewLogMessage` decodes into, which is the only record the log parser decodes into.
