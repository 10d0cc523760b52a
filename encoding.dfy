/**
 * The UTF-8 <-> UTF-16 wrappers of src/util.cpp (WStringToUTF8, UTF8ToWString).
 * The conversion itself belongs to the Windows library and is a parameter here; what
 * is modelled is the wrappers' own logic: the empty-input short cut, the flags they
 * request, the allocation, and that `dest` is written only on success.
 */
module Encoding {
  import opened Common
  import opened CodePages

  /**
   * WideCharToMultiByte / MultiByteToWideChar called with CP_UTF8, a source length of -1
   * and the given flags: the converted text of the source up to its first NUL (without
   * the terminator the library appends), or None when the library returns 0.
   */
  type Transcoder<!A, B> = (seq<A>, Flags) -> Option<seq<B>>

  /** A wrapper's boolean answer together with the value left in its `dest` argument. */
  datatype Converted<C> = Converted(ok: bool, dest: seq<C>)

  const SIZEOF_WCHAR: nat := 2

  /** WStringToUTF8(source, dest) */
  function WStringToUtf8(source: WString, dest: String, tx: Transcoder<WChar, Byte>,
                         sys: System, malloc: Allocator): (r: Converted<Byte>)
    ensures source == [] ==> r == Converted(true, [])
    ensures !r.ok ==> r.dest == dest
    ensures source != [] ==>
      (r.ok <==> tx(CStr(source, 0), WC_ERR_INVALID_CHARS).Some?
                 && malloc(|tx(CStr(source, 0), WC_ERR_INVALID_CHARS).value| + 2))
    ensures source != [] && r.ok ==> r.dest == CStr(tx(CStr(source, 0), WC_ERR_INVALID_CHARS).value, 0)
  {
    if source == [] then Converted(true, [])
    else
      var opt := WideCharToMultiByteOptions(WC_ERR_INVALID_CHARS, CP_UTF8, sys);
      Utf8RequestsStayStrict(sys);
      match tx(CStr(source, 0), opt)
      case None => Converted(false, dest)
      case Some(out) =>
        // `len` counts the terminator; the buffer is one byte longer still
        var len := |out| + 1;
        if !malloc(len + 1) then Converted(false, dest)
        else Converted(true, CStr(out, 0))
  }

  /** UTF8ToWString(source, dest) */
  function Utf8ToWString(source: String, dest: WString, tx: Transcoder<Byte, WChar>,
                         sys: System, malloc: Allocator): (r: Converted<WChar>)
    ensures source == [] ==> r == Converted(true, [])
    ensures !r.ok ==> r.dest == dest
    ensures source != [] ==>
      (r.ok <==> tx(CStr(source, 0), MB_ERR_INVALID_CHARS).Some?
                 && malloc(SIZEOF_WCHAR * (|tx(CStr(source, 0), MB_ERR_INVALID_CHARS).value| + 2)))
    ensures source != [] && r.ok ==> r.dest == CStr(tx(CStr(source, 0), MB_ERR_INVALID_CHARS).value, 0)
  {
    if source == [] then Converted(true, [])
    else
      var opt := MultiByteToWideCharOptions(MB_ERR_INVALID_CHARS, CP_UTF8, sys);
      Utf8RequestsStayStrict(sys);
      match tx(CStr(source, 0), opt)
      case None => Converted(false, dest)
      case Some(out) =>
        var len := |out| + 1;
        if !malloc((len + 1) * SIZEOF_WCHAR) then Converted(false, dest)
        else Converted(true, CStr(out, 0))
  }

  /** A successful conversion yields text with no terminator in it, so it survives being read back as a C string. */
  lemma ConvertedTextIsNulFree(source: WString, dest: String, tx: Transcoder<WChar, Byte>,
                               sys: System, malloc: Allocator)
    requires 0 !in dest
    ensures 0 !in WStringToUtf8(source, dest, tx, sys, malloc).dest
  {
  }
}
