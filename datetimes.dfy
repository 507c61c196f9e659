/**
 * Python datetime values. The model never computes with dates: a datetime is
 * known by the ISO text isoformat() writes for it, and datetime.fromisoformat
 * is an opaque partial parser handed in by the caller.
 */
module DateTimes {
  import opened Wrappers

  datatype DateTime = DateTime(iso: string)

  /** datetime.fromisoformat as the caller knows it: None where Python raises ValueError. */
  type IsoParser = string -> Option<DateTime>
}
