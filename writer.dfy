/** An output sink with a fixed capacity.

    The command processor writes through `core::fmt::Write`; the writer used
    in the crate's documentation is a `heapless::String<32>`, whose
    `write_str` appends the whole string when it fits and otherwise fails
    and appends nothing. That is the writer modelled here: an append-only
    character sequence bounded by `capacity`. `heapless` counts the capacity
    in UTF-8 bytes; this model counts characters, which agrees on ASCII text.
    A writer that never fails (the `std::string::String` of the unit tests)
    is one whose capacity exceeds everything written to it.
 */
module Writers {

  /** A line write that failed, starting from `written`: either `s` did not fit and nothing
      was written, or `s` fitted and the terminator did not. */
  predicate LineAborted(written: string, s: string, after: string, capacity: nat)
  {
    || (after == written && |written| + |s| > capacity)
    || (after == written + s && |after| + 1 > capacity)
  }

  class Writer {
    /** Everything written so far. */
    var text: string
    /** The most characters the writer can hold. */
    const capacity: nat

    ghost predicate Valid()
      reads this
    {
      |text| <= capacity
    }

    constructor (capacity: nat)
      ensures Valid()
      ensures text == [] && this.capacity == capacity
    {
      this.text := [];
      this.capacity := capacity;
    }

    /** Appends `s` if it fits; otherwise fails and leaves the text as it was. */
    method WriteStr(s: string) returns (ok: bool)
      requires Valid()
      modifies this
      ensures Valid()
      ensures ok <==> |old(text)| + |s| <= capacity
      ensures text == if ok then old(text) + s else old(text)
    {
      ok := |text| + |s| <= capacity;
      if ok {
        text := text + s;
      }
    }

    /** `writeln!(writer, "{}", s)`: writes `s`, then a line terminator, stopping at the
        first write that fails. If `s` fits but the terminator does not, `s` stays written. */
    method WriteLine(s: string) returns (ok: bool)
      requires Valid()
      modifies this
      ensures Valid()
      ensures ok <==> |old(text)| + |s| + 1 <= capacity
      ensures ok ==> text == old(text) + s + "\n"
      ensures !ok ==> LineAborted(old(text), s, text, capacity)
    {
      ok := WriteStr(s);
      if ok {
        ok := WriteStr("\n");
      }
    }
  }
}
