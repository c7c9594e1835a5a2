/** Normalisation of the "Flight No." column before the passenger lookup (app.py, insert_zeros). */
module FlightNumbers {

  /** A cell of the "Flight No." column: a text value, or any other cell content
      (a number, an empty cell), identified only by an opaque code. */
  datatype Cell = Text(s: string) | NonText(code: int)

  /** Pads a 3- or 4-character flight number to 5 characters by inserting zeros after
      the two-character airline designator; every other cell is returned as it is. */
  function InsertZeros(c: Cell): (r: Cell)
    ensures r.Text? <==> c.Text?
    ensures c.Text? && (|c.s| == 3 || |c.s| == 4) ==>
              |r.s| == 5 &&
              r.s[..2] == c.s[..2] &&
              r.s[5 - (|c.s| - 2)..] == c.s[2..] &&
              forall i :: 2 <= i < 5 - (|c.s| - 2) ==> r.s[i] == '0'
    ensures !(c.Text? && (|c.s| == 3 || |c.s| == 4)) ==> r == c
  {
    match c
    case Text(s) =>
      if |s| == 3 then Text(s[..2] + "00" + s[2..])
      else if |s| == 4 then Text(s[..2] + "0" + s[2..])
      else c
    case NonText(_) => c
  }

  /** Normalising twice is normalising once. */
  lemma InsertZerosIdempotent(c: Cell)
    ensures InsertZeros(InsertZeros(c)) == InsertZeros(c)
  {
  }

  /** The two padding rules agree on what they produce: "AB1" and "AB01" both become "AB001". */
  lemma InsertZerosExample()
    ensures InsertZeros(Text("AB1")) == Text("AB001")
    ensures InsertZeros(Text("AB01")) == Text("AB001")
    ensures InsertZeros(Text("AB123")) == Text("AB123")
  {
  }
}
