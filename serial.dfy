/** The serial transmitter of the kernel, reduced to the text it has sent so far. */
module Serial {
  import opened CStr

  class SerialLine {
    /** Every character sent on the line, oldest first. */
    var out: seq<char>

    constructor ()
      ensures out == []
    {
      out := [];
    }

    /** `serial_putc`: sends one character (the busy wait on the line-status port is not modelled). */
    method Putc(c: char)
      modifies this
      ensures out == old(out) + [c]
    {
      out := out + [c];
    }

    /** `serial_print`: sends the characters of `s` before its NUL terminator, one by one. */
    method Print(s: string)
      modifies this
      ensures out == old(out) + UntilNul(s, '\0')
    {
      var i := 0;
      while i < |s| && s[i] != '\0'
        invariant 0 <= i <= |s|
        invariant forall j | 0 <= j < i :: s[j] != '\0'
        invariant out == old(out) + s[..i]
      {
        Putc(s[i]);
        assert s[..i + 1] == s[..i] + [s[i]];
        i := i + 1;
      }
      UntilNulAt(s, '\0', i);
    }
  }
}
