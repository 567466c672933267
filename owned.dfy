/** Heap storage owned by a configuration object: a `Box<T>` and a
    NUL-terminated `CString`. Both are immutable once built, so their
    address is stable and their content can be read without a frame. */
module Owned {
  import opened Wrappers

  const NUL: char := '\0'

  /** A string in which no NUL character occurs: what a `CString` may hold. */
  type NulFree = s: string | NUL !in s witness ""

  /** `CString::new` fails with this error when its argument holds a NUL. */
  datatype NulError = InteriorNul

  /** `Box<T>`: a heap cell whose address does not depend on its owner's. */
  class Box<T> {
    const value: T

    constructor (v: T)
      ensures value == v
    {
      value := v;
    }
  }

  /** `CString`: owned text without NUL, stored followed by a terminator. */
  class CString {
    const content: NulFree

    constructor (s: NulFree)
      ensures content == s
    {
      content := s;
    }

    /** `as_bytes()`: the content without its terminator; it holds no NUL,
        and with the terminator appended it is the buffer behind `as_ptr()`. */
    function AsBytes(): (b: seq<char>)
      ensures NUL !in b
      ensures b + [NUL] == WithNul()
    {
      content
    }

    /** `as_bytes_with_nul()`: the buffer a C reader sees behind `as_ptr()`. */
    function WithNul(): (b: seq<char>)
      ensures |b| == |content| + 1 && b[|content|] == NUL
    {
      content + [NUL]
    }

    /** `CString::new`: fails exactly when the text holds a NUL; otherwise
        a fresh buffer that a C reader decodes back to the same text. */
    static method New(s: string) returns (r: Result<CString, NulError>)
      ensures r.Ok? <==> NUL !in s
      ensures r.Ok? ==> fresh(r.value) && r.value.content == s
      ensures r.Ok? ==> CStrText(r.value.WithNul()) == s
    {
      if NUL in s {
        r := Err(InteriorNul);
      } else {
        var c := new CString(s);
        CStrTextRoundTrip(s);
        r := Ok(c);
      }
    }
  }

  /** What a C reader (`strlen`, `CStr::from_ptr`) takes from a buffer:
      every character before the first NUL. */
  function CStrText(buf: seq<char>): string
  {
    if buf == [] || buf[0] == NUL then [] else [buf[0]] + CStrText(buf[1..])
  }

  /** The text read back is a NUL-free prefix of the buffer. */
  lemma {:induction false} CStrTextIsNulFreePrefix(buf: seq<char>)
    ensures NUL !in CStrText(buf)
    ensures CStrText(buf) <= buf
  {
    if buf != [] && buf[0] != NUL {
      CStrTextIsNulFreePrefix(buf[1..]);
    }
  }

  /** A C reader stops at the first NUL: it never reads past position `i`
      when the buffer holds a NUL there. */
  lemma {:induction false} CStrTextStopsAtNul(buf: seq<char>, i: nat)
    requires i < |buf| && buf[i] == NUL
    ensures |CStrText(buf)| <= i
  {
    if buf[0] != NUL {
      CStrTextStopsAtNul(buf[1..], i - 1);
    }
  }

  /** Encoding text without NUL and reading it back gives the text again. */
  lemma {:induction false} CStrTextRoundTrip(s: NulFree)
    ensures CStrText(s + [NUL]) == s
  {
    if s != [] {
      assert (s + [NUL])[1..] == s[1..] + [NUL];
      CStrTextRoundTrip(s[1..]);
    }
  }

  /** Why `CString::new` must refuse an interior NUL: a C reader would stop
      there and see a different, shorter text. */
  lemma CStrTextTruncatesAtNul(s: string)
    requires NUL in s
    ensures CStrText(s + [NUL]) != s
    ensures |CStrText(s + [NUL])| < |s|
  {
    CStrTextIsNulFreePrefix(s + [NUL]);
    var i :| 0 <= i < |s| && s[i] == NUL;
    CStrTextStopsAtNul(s + [NUL], i);
  }
}
