/**
 * The arguments AddEventLog binds to its INSERT statement: optional fields go
 * through the NULL helpers so that "" and 0 are stored as NULL. The SQL
 * statement itself and its execution are not modelled.
 */
module EventLog {

  datatype NullString = NullString(str: string, valid: bool)

  datatype NullInt32 = NullInt32(int32: int, valid: bool)

  const TwoTo32: int := 0x1_0000_0000
  const MinInt32: int := -0x8000_0000
  const MaxInt32: int := 0x7FFF_FFFF

  /** NewNullString: NULL for the empty string, else the string itself. */
  function NewNullString(s: string): (r: NullString)
    ensures r.valid <==> s != ""
    ensures r.valid ==> r.str == s
    ensures !r.valid ==> r == NullString("", false)
  {
    if |s| == 0 then NullString("", false) else NullString(s, true)
  }

  /** Go's int32(i): the value congruent to i modulo 2^32 in the int32 range. */
  function ToInt32(i: int): (r: int)
    ensures MinInt32 <= r <= MaxInt32
    ensures (r - i) % TwoTo32 == 0
    ensures MinInt32 <= i <= MaxInt32 ==> r == i
  {
    (i - MinInt32) % TwoTo32 + MinInt32
  }

  /** NewNullInt32: NULL for 0, else the value converted to int32. */
  function NewNullInt32(i: int): (r: NullInt32)
    ensures r.valid <==> i != 0
    ensures !r.valid ==> r == NullInt32(0, false)
    ensures r.valid && MinInt32 <= i <= MaxInt32 ==> r.int32 == i
    ensures r.valid ==> MinInt32 <= r.int32 <= MaxInt32 && (r.int32 - i) % TwoTo32 == 0
  {
    if i == 0 then NullInt32(0, false) else NullInt32(ToInt32(i), true)
  }

  /** A concept id that is a non-zero multiple of 2^32 is stored as a non-NULL 0. */
  lemma ConceptIdWrapsToZero()
    ensures NewNullInt32(TwoTo32) == NullInt32(0, true)
  {
  }

  /** The named arguments of the INSERT; eventAt is the receipt instant, passed in. */
  datatype EventArgs = EventArgs(
    eventAt: int,
    authToken: string,
    ipAddress: string,
    eventType: string,
    apiVersion: string,
    api: string,
    apiId: string,
    concept: NullString,
    conceptId: NullInt32,
    action: NullString)

  /** The argument map AddEventLog builds. */
  function AddEventLogArgs(eventAt: int, authToken: string, ipAddress: string, eventType: string,
                           apiVersion: string, api: string, apiId: string,
                           concept: string, conceptId: int, action: string): (a: EventArgs)
    ensures a.eventAt == eventAt && a.authToken == authToken && a.ipAddress == ipAddress
    ensures a.eventType == eventType && a.apiVersion == apiVersion && a.api == api && a.apiId == apiId
    ensures a.concept.valid <==> concept != ""
    ensures a.conceptId.valid <==> conceptId != 0
    ensures a.action.valid <==> action != ""
    ensures a.concept.valid ==> a.concept.str == concept
    ensures a.action.valid ==> a.action.str == action
    ensures a.concept == NewNullString(concept) && a.action == NewNullString(action)
    ensures a.conceptId == NewNullInt32(conceptId)
    ensures a.conceptId.valid ==> a.conceptId.int32 == ToInt32(conceptId)
  {
    EventArgs(eventAt, authToken, ipAddress, eventType, apiVersion, api, apiId,
              NewNullString(concept), NewNullInt32(conceptId), NewNullString(action))
  }
}
