/** `struct timeval` and the BSD timer macros. */
module Timeval {

  const MICROS := 1_000_000

  datatype Time = Time(sec: int, usec: int)

  /** timercmp(a, b, <): seconds first, microseconds on a tie. */
  predicate Less(a: Time, b: Time) {
    if a.sec == b.sec then a.usec < b.usec else a.sec < b.sec
  }

  /** timercmp(a, b, <=). */
  predicate Leq(a: Time, b: Time) {
    if a.sec == b.sec then a.usec <= b.usec else a.sec <= b.sec
  }

  /** timeradd, with its carry. */
  function Plus(a: Time, b: Time): Time {
    var t := Time(a.sec + b.sec, a.usec + b.usec);
    if t.usec >= MICROS then Time(t.sec + 1, t.usec - MICROS) else t
  }

  /** timersub, with its borrow. */
  function Minus(a: Time, b: Time): Time {
    var t := Time(a.sec - b.sec, a.usec - b.usec);
    if t.usec < 0 then Time(t.sec - 1, t.usec + MICROS) else t
  }

  predicate Normal(t: Time) {
    0 <= t.usec < MICROS
  }

  /** The instant that a time value denotes, in microseconds. */
  function Micros(t: Time): int {
    t.sec * MICROS + t.usec
  }

  lemma CompareMicros(a: Time, b: Time)
    requires Normal(a) && Normal(b)
    ensures Less(a, b) <==> Micros(a) < Micros(b)
    ensures Leq(a, b) <==> Micros(a) <= Micros(b)
  {}

  lemma PlusMicros(a: Time, b: Time)
    requires Normal(a) && Normal(b)
    ensures Normal(Plus(a, b)) && Micros(Plus(a, b)) == Micros(a) + Micros(b)
  {}

  lemma MinusMicros(a: Time, b: Time)
    requires Normal(a) && Normal(b)
    ensures Normal(Minus(a, b)) && Micros(Minus(a, b)) == Micros(a) - Micros(b)
  {}
}
