/**
 * NullTime: a nullable timestamp read from the database. Instants are
 * modelled as integers; ZeroTime stands for Go's time.Time{}.
 */
module NullTimes {
  import opened Wrappers

  const ZeroTime: int := 0

  /** The value handed to Scan: nil, a time.Time, or a value of another type. */
  datatype ScanValue = Nil | TimeValue(instant: int) | OtherValue(typeName: string)

  datatype ScanError = CannotConvert(typeName: string)

  class NullTime {
    var time: int
    var valid: bool

    constructor ()
      ensures time == ZeroTime && !valid
    {
      time, valid := ZeroTime, false;
    }

    /** Scan: nil is NULL, a time is stored, anything else is refused unchanged. */
    method Scan(value: ScanValue) returns (err: Option<ScanError>)
      modifies this
      ensures value.Nil? ==> time == ZeroTime && !valid && err.None?
      ensures value.TimeValue? ==> time == value.instant && valid && err.None?
      ensures value.OtherValue? ==>
        time == old(time) && valid == old(valid) && err == Some(CannotConvert(value.typeName))
    {
      match value
      case Nil =>
        time, valid := ZeroTime, false;
        return None;
      case TimeValue(t) =>
        time, valid := t, true;
        return None;
      case OtherValue(typeName) =>
        return Some(CannotConvert(typeName));
    }

    /** IsAfter: false for NULL, else whether the stored time is after checkTime. */
    function IsAfter(checkTime: int): (after: bool)
      reads this
      ensures after <==> valid && time > checkTime
    {
      if !valid then false else time > checkTime
    }
  }
}
