/** Text types and C-string helpers shared by the launcher and the encoding utilities. */
module Common {

  datatype Option<T> = None | Some(value: T)

  /** One byte of a narrow (`char`) string; the launcher's narrow strings hold UTF-8. */
  type Byte = bv8
  /** One UTF-16 code unit of a wide (`wchar_t`) string. */
  type WChar = bv16

  /** `std::string` */
  type String = seq<Byte>
  /** `std::wstring` */
  type WString = seq<WChar>

  /** The answer `malloc` gives to a request for the given number of bytes. */
  type Allocator = nat -> bool

  /** The value a C routine reads from a NUL-terminated buffer: everything before the first `nul`. */
  function CStr<C(==)>(buf: seq<C>, nul: C): (r: seq<C>)
    ensures |r| <= |buf| && r == buf[..|r|]
    ensures nul !in r
    ensures |r| < |buf| ==> buf[|r|] == nul
  {
    if buf == [] then []
    else if buf[0] == nul then []
    else [buf[0]] + CStr(buf[1..], nul)
  }

  /** A buffer whose first cells hold `s` followed by a terminator reads back as `s`, read as a C string. */
  lemma CStrOfTerminated<C>(buf: seq<C>, s: seq<C>, nul: C)
    requires |s| < |buf| && buf[..|s|] == s && buf[|s|] == nul
    ensures CStr(buf, nul) == CStr(s, nul)
  {
  }
}
