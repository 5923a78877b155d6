/** The domain record of package wtf (wtf.go): a dial, its identifier and the
    two field types that the system only copies. */
module Wtf {

  /** wtf.DialID, a string type. */
  type DialID = string

  /** A time.Time. It is only ever assigned and copied, never computed with, so
      the model keeps it opaque: ZeroTime is Go's `time.Time{}` and Instant
      stands for any reading of a clock. */
  datatype Time = ZeroTime | Instant(nanos: int)

  /** A float64 level. No arithmetic is done on it, so the model keeps it
      opaque. */
  type Level = real

  /** wtf.Dial (wtf.go:12-18). */
  datatype Dial = Dial(id: DialID, token: string, name: string, level: Level, modTime: Time)

  /** What the far side of a JSON exchange decodes from the encoding of `d`:
      Token carries the tag `json:"-"`, so it never travels; every other field
      does, and an omitted empty Name decodes back to the empty string. */
  function Wire(d: Dial): (w: Dial)
    ensures w.token == ""
    ensures w.id == d.id && w.name == d.name && w.level == d.level && w.modTime == d.modTime
    ensures d.token == "" ==> w == d
  {
    d.(token := "")
  }

  /** A caller-owned `*wtf.Dial`: the struct that CreateDial, on either side of
      the network, updates in place. A null DialCell is a nil pointer. */
  class DialCell {
    var value: Dial

    constructor (d: Dial)
      ensures value == d
    {
      value := d;
    }
  }
}
