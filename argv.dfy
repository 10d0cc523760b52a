/**
 * Conversion of the wide argument vector to a UTF-8 `char**` and its release
 * (src/util.cpp: ArgvWToArgv, freeArgv).
 */
module Argv {
  import opened Common
  import opened CodePages
  import opened Encoding
  import opened PointerLists

  /** `&stringToChar` as the builder's conversion function. */
  function CharBuffer(malloc: Allocator): String -> Option<String> {
    s => StringToChar(s, malloc)
  }

  /** One entry of the wide vector in UTF-8, or None when the entry is null or does not convert. */
  function ConvertArg(w: Option<WString>, tx: Transcoder<WChar, Byte>, sys: System, malloc: Allocator): (r: Option<String>)
    ensures r.Some? <==> w.Some? && WStringToUtf8(w.value, [], tx, sys, malloc).ok
    ensures r.Some? ==> r.value == WStringToUtf8(w.value, [], tx, sys, malloc).dest
  {
    if w.None? then None
    else
      var c := WStringToUtf8(w.value, [], tx, sys, malloc);
      if c.ok then Some(c.dest) else None
  }

  /**
   * listToPointer with `&stringToChar` and a release function: it builds exactly when the
   * list is non-empty and every buffer can be allocated, and entry j is then li[j] with a NUL.
   */
  lemma CharBufferBuild(li: seq<String>, malloc: Allocator)
    ensures ListToPointerSpec(li, Some(CharBuffer(malloc)), true, malloc).Built? <==>
              |li| > 0 && malloc(|li| * POINTER_SIZE) && forall j :: 0 <= j < |li| ==> malloc(|li[j]| + 1)
    ensures ListToPointerSpec(li, Some(CharBuffer(malloc)), true, malloc).Built? ==>
              forall j :: 0 <= j < |li| ==> ListToPointerSpec(li, Some(CharBuffer(malloc)), true, malloc).entries[j] == li[j] + [0]
  {
  }

  /** The entries of the wide vector below `n`, all of which convert, in UTF-8. */
  function ConvertedArgs(ws: seq<Option<WString>>, n: nat, tx: Transcoder<WChar, Byte>, sys: System, malloc: Allocator): seq<String>
    requires n <= |ws|
    requires forall i :: 0 <= i < n ==> ConvertArg(ws[i], tx, sys, malloc).Some?
  {
    seq(n, i requires 0 <= i < n => ConvertArg(ws[i], tx, sys, malloc).value)
  }

  /**
   * The array ArgvWToArgv hands back, as the contents of its entries: each a NUL-terminated
   * UTF-8 copy of the corresponding wide argument; None when it returns false.
   */
  function ArgvWToArgvSpec(argvW: Option<seq<Option<WString>>>, argc: int,
                           tx: Transcoder<WChar, Byte>, sys: System, malloc: Allocator): (r: Option<seq<String>>)
    requires argvW.Some? ==> argc <= |argvW.value|
    ensures r.Some? <==>
      && argvW.Some? && argc > 0
      && (forall i :: 0 <= i < argc ==> ConvertArg(argvW.value[i], tx, sys, malloc).Some?)
      && (forall i :: 0 <= i < argc ==> malloc(|ConvertArg(argvW.value[i], tx, sys, malloc).value| + 1))
      && malloc(argc * POINTER_SIZE)
    ensures r.Some? ==> |r.value| == argc
    ensures r.Some? ==> forall i :: 0 <= i < argc ==>
              r.value[i] == ConvertArg(argvW.value[i], tx, sys, malloc).value + [0]
  {
    if argvW.None? then None
    else if forall i :: 0 <= i < argc ==> ConvertArg(argvW.value[i], tx, sys, malloc).Some? then
      var n: nat := if argc < 0 then 0 else argc;
      var li := ConvertedArgs(argvW.value, n, tx, sys, malloc);
      assert |li| == n && forall i :: 0 <= i < n ==> li[i] == ConvertArg(argvW.value[i], tx, sys, malloc).value;
      var b := ListToPointerSpec(li, Some(CharBuffer(malloc)), true, malloc);
      CharBufferBuild(li, malloc);
      if b.Built? then Some(b.entries) else None
    else None
  }

  /**
   * ArgvWToArgv(ArgvW, argc, argv): converts the entries one by one into a list, stopping
   * at a null entry or a failed conversion, then builds the `char**` with listToPointer.
   * `argv` is reassigned only when it returns true.
   */
  method ArgvWToArgv(argvW: Option<seq<Option<WString>>>, argc: int, argv: array?<String>,
                     tx: Transcoder<WChar, Byte>, sys: System, malloc: Allocator)
    returns (ok: bool, argv': array?<String>)
    requires argvW.Some? ==> argc <= |argvW.value|
    ensures ok == ArgvWToArgvSpec(argvW, argc, tx, sys, malloc).Some?
    ensures ok ==> argv' != null && argv'[..] == ArgvWToArgvSpec(argvW, argc, tx, sys, malloc).value
    ensures !ok ==> argv' == argv
  {
    if argvW.None? { return false, argv; }
    var li: seq<String> := [];
    var i := 0;
    while i < argc
      invariant 0 <= i && (argc >= 0 ==> i <= argc) && (argc < 0 ==> i == 0)
      invariant |li| == i
      invariant forall k :: 0 <= k < i ==> ConvertArg(argvW.value[k], tx, sys, malloc) == Some(li[k])
    {
      var w := argvW.value[i];
      if w.None? { return false, argv; }
      var r := WStringToUtf8(w.value, [], tx, sys, malloc);
      if !r.ok { return false, argv; }
      li := li + [r.dest];
      i := i + 1;
    }
    var n := if argc < 0 then 0 else argc;
    assert li == ConvertedArgs(argvW.value, n, tx, sys, malloc);
    var t: array?<String> := null;
    var built, t', released, callsNull := ListToPointer(li, Some(CharBuffer(malloc)), true, malloc, t);
    if !built { return false, argv; }
    return true, t';
  }

  /**
   * The leak of util.cpp:62 as ArgvWToArgv meets it: when the first argument's buffer is
   * allocated and a later one is not, the builder fails after building that first buffer
   * and releases nothing, although `freeChar` was given.
   */
  lemma ArgvConversionLeaksBuffers(li: seq<String>, malloc: Allocator)
    requires |li| > 0 && malloc(|li| * POINTER_SIZE) && malloc(|li[0]| + 1)
    requires exists j :: 0 < j < |li| && !malloc(|li[j]| + 1)
    ensures ListToPointerSpec(li, Some(CharBuffer(malloc)), true, malloc) == BuildFailed([], false)
    ensures ConvertPrefix(li, CharBuffer(malloc)) != [] && ConvertPrefix(li, CharBuffer(malloc))[0] == li[0] + [0]
  {
    CharBufferBuild(li, malloc);
    assert CharBuffer(malloc)(li[0]) == StringToChar(li[0], malloc);
  }

  /** freeArgv(argv, argc): every entry and then the array go back to free(). */
  method FreeArgv(argv: array?<String>, argc: int) returns (released: seq<Release<String>>, arrayFreed: bool)
    requires argv != null ==> 0 <= argc <= argv.Length
    ensures argv == null ==> released == [] && !arrayFreed
    ensures argv != null ==> arrayFreed && |released| == argc
    ensures argv != null ==> forall i :: 0 <= i < argc ==> released[i] == Freed(argv[i])
  {
    var count: nat := if argv == null then 0 else argc;
    released, arrayFreed := FreePointerList(argv, count, false);
  }
}
