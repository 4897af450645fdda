/**
 * What the front end takes from the JavaScript platform without it being part of the model:
 * the text of a fractional number, `encodeURIComponent`, `toLowerCase`, and the local
 * calendar fields `new Date(s)` reads out of a date string. They are carried as an explicit
 * environment so that every statement about the model holds for any behaviour of theirs.
 */
module Platform {

  /** The local-time fields of a Date: `getFullYear()`, `getMonth()` (0-based), `getDate()`,
      `getHours()` (0..23) and `getMinutes()`. */
  datatype LocalTime = LocalTime(year: nat, month: nat, day: nat, hours: nat, minutes: nat)

  predicate InRange(t: LocalTime) {
    t.month < 12 && 1 <= t.day <= 31 && t.hours < 24 && t.minutes < 60
  }

  /** The fields of a valid Date always lie in these ranges. */
  type CalendarTime = t: LocalTime | InRange(t) witness LocalTime(1970, 0, 1, 0, 0)

  datatype Env = Env(
    showFraction: real -> string,    // String(x) for a number that is not an integer
    encode: string -> string,        // encodeURIComponent
    lower: string -> string,         // String.prototype.toLowerCase
    localTime: string -> CalendarTime  // new Date(s), read back through the local getters
  )
}
