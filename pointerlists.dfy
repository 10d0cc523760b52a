/**
 * The C-style buffer helpers of src/util.cpp: stringToChar, the generic list-to-array
 * builder listToPointer and its release counterpart freePointerList.
 *
 * Memory is not modelled as a heap; what is recorded is which entries a routine hands
 * to a release function, so that leaks and double releases are visible in contracts.
 */
module PointerLists {
  import opened Common

  /** sizeof(void*) on a 64-bit build. */
  const POINTER_SIZE: nat := 8

  /**
   * stringToChar: a freshly allocated buffer of |input| + 1 bytes holding the input and
   * a terminating NUL, or None when malloc refuses.  The buffer is modelled by its contents.
   */
  function StringToChar(input: String, malloc: Allocator): (r: Option<String>)
    ensures r.Some? <==> malloc(|input| + 1)
    ensures r.Some? ==> |r.value| == |input| + 1 && r.value[..|input|] == input && r.value[|input|] == 0
  {
    if !malloc(|input| + 1) then None
    else Some(input + [0])
  }

  /** The buffer stringToChar fills reads back, as a C string, as the string it was given. */
  lemma StringToCharRoundTrip(input: String, malloc: Allocator)
    requires 0 !in input && malloc(|input| + 1)
    ensures CStr(StringToChar(input, malloc).value, 0) == input
  {
  }

  /**
   * The converted values of the longest prefix of `li` whose elements all convert:
   * the entries listToPointer has stored when it stops.
   */
  function ConvertPrefix<T, R>(li: seq<T>, convert: T -> Option<R>): (r: seq<R>)
    ensures |r| <= |li|
    ensures forall j :: 0 <= j < |r| ==> convert(li[j]) == Some(r[j])
    ensures |r| < |li| ==> convert(li[|r|]).None?
  {
    if li == [] then []
    else match convert(li[0])
      case None => []
      case Some(x) => [x] + ConvertPrefix(li[1..], convert)
  }

  /** What a call of listToPointer leaves behind. */
  datatype BuildResult<R> =
    | Built(entries: seq<R>)
      // `released` are the entries handed to the release callback before returning false;
      // `callsNull` is set when the code calls through a null release pointer
    | BuildFailed(released: seq<R>, callsNull: bool)

  /**
   * listToPointer as written.  On a failed conversion at index k the cleanup loop runs
   * only when NO release function was given (the test at util.cpp:62 is inverted): with
   * a release function the k entries already converted are never released, and without
   * one the loop calls through the null pointer as soon as k > 0.
   */
  function ListToPointerSpec<T, R>(li: seq<T>, convert: Option<T -> Option<R>>,
                                   releaseGiven: bool, malloc: Allocator): (r: BuildResult<R>)
    ensures r.Built? <==> convert.Some? && |li| > 0 && malloc(|li| * POINTER_SIZE)
                          && forall j :: 0 <= j < |li| ==> convert.value(li[j]).Some?
    ensures r.Built? ==> |r.entries| == |li|
                         && forall j :: 0 <= j < |li| ==> convert.value(li[j]) == Some(r.entries[j])
    ensures r.BuildFailed? ==> r.released == []
    ensures r.BuildFailed? ==>
      (r.callsNull <==> convert.Some? && |li| > 0 && malloc(|li| * POINTER_SIZE)
                        && !releaseGiven && |ConvertPrefix(li, convert.value)| > 0)
  {
    if convert.None? then BuildFailed([], false)
    else if |li| == 0 then BuildFailed([], false)
    else if !malloc(|li| * POINTER_SIZE) then BuildFailed([], false)
    else
      var done := ConvertPrefix(li, convert.value);
      if |done| == |li| then Built(done)
      else BuildFailed([], !releaseGiven && |done| > 0)
  }

  /**
   * listToPointer with the cleanup test the authors evidently meant (`if (free)`): on a
   * failed conversion every entry converted so far goes to the release callback.
   */
  function ListToPointerCorrected<T, R>(li: seq<T>, convert: Option<T -> Option<R>>,
                                        releaseGiven: bool, malloc: Allocator): (r: BuildResult<R>)
    ensures r.BuildFailed? ==> !r.callsNull
  {
    if convert.None? then BuildFailed([], false)
    else if |li| == 0 then BuildFailed([], false)
    else if !malloc(|li| * POINTER_SIZE) then BuildFailed([], false)
    else
      var done := ConvertPrefix(li, convert.value);
      if |done| == |li| then Built(done)
      else BuildFailed(if releaseGiven then done else [], false)
  }

  /**
   * The corrected builder releases, in order, exactly the entries it had converted when a
   * conversion failed, and otherwise behaves as the code as written.
   */
  lemma CorrectedReleasesPartialWork<T, R>(li: seq<T>, convert: T -> Option<R>, malloc: Allocator)
    requires |li| > 0 && malloc(|li| * POINTER_SIZE)
    requires exists j :: 0 <= j < |li| && convert(li[j]).None?
    ensures ListToPointerCorrected(li, Some(convert), true, malloc).BuildFailed?
    ensures forall j :: 0 <= j < |li| && convert(li[j]).None? ==>
              |ListToPointerCorrected(li, Some(convert), true, malloc).released| <= j
    ensures var rel := ListToPointerCorrected(li, Some(convert), true, malloc).released;
            forall j :: 0 <= j < |rel| ==> convert(li[j]) == Some(rel[j])
    ensures var rel := ListToPointerCorrected(li, Some(convert), true, malloc).released;
            |rel| < |li| && convert(li[|rel|]).None?
    ensures ListToPointerCorrected(li, Some(convert), true, malloc).released == ConvertPrefix(li, convert)
  {
  }

  /** The correction changes only the cleanup: success, the entries built and the failure verdict agree. */
  lemma CorrectionOnlyAffectsCleanup<T, R>(li: seq<T>, convert: Option<T -> Option<R>>,
                                           releaseGiven: bool, malloc: Allocator)
    ensures ListToPointerSpec(li, convert, releaseGiven, malloc).Built?
            == ListToPointerCorrected(li, convert, releaseGiven, malloc).Built?
    ensures ListToPointerSpec(li, convert, releaseGiven, malloc).Built? ==>
            ListToPointerSpec(li, convert, releaseGiven, malloc).entries
            == ListToPointerCorrected(li, convert, releaseGiven, malloc).entries
  {
  }

  /** A converter used by the concrete example below: it refuses the empty string. */
  function RefuseEmpty(s: String): Option<String> {
    if s == [] then None else Some(s + [0])
  }

  /** An allocator that never fails. */
  function AlwaysAllocates(n: nat): bool { true }

  /**
   * The leak, on a concrete input: two strings, the second of which fails to convert,
   * with a release function given.  One entry was converted; none is released.
   */
  lemma CleanupInvertedLeaks()
    ensures ConvertPrefix([[0x61], []], RefuseEmpty) == [[0x61, 0]]
    ensures ListToPointerSpec([[0x61], []], Some(RefuseEmpty), true, AlwaysAllocates) == BuildFailed([], false)
    ensures ListToPointerCorrected([[0x61], []], Some(RefuseEmpty), true, AlwaysAllocates)
            == BuildFailed([[0x61, 0]], false)
  {
    var li: seq<String> := [[0x61], []];
    assert li[1..] == [[]];
    assert ConvertPrefix(li[1..], RefuseEmpty) == [];
    var a: String := [0x61];
    assert a + [0] == [0x61, 0];
    assert RefuseEmpty(li[0]) == Some([0x61, 0]);
    assert ConvertPrefix(li, RefuseEmpty) == [[0x61, 0]] + ConvertPrefix(li[1..], RefuseEmpty);
  }

  /**
   * listToPointer(li, result, convert, free): the array-filling loop of util.cpp:47-75.
   * `dest` is the caller's `result` pointer, reassigned only on success.
   */
  method ListToPointer<T, R(0)>(li: seq<T>, convert: Option<T -> Option<R>>, releaseGiven: bool,
                                malloc: Allocator, dest: array?<R>)
    returns (ok: bool, dest': array?<R>, released: seq<R>, callsNull: bool)
    ensures ok == ListToPointerSpec(li, convert, releaseGiven, malloc).Built?
    ensures ok ==> dest' != null && dest'[..] == ListToPointerSpec(li, convert, releaseGiven, malloc).entries
    ensures !ok ==> dest' == dest
    ensures !ok ==> released == ListToPointerSpec(li, convert, releaseGiven, malloc).released
                    && callsNull == ListToPointerSpec(li, convert, releaseGiven, malloc).callsNull
  {
    dest', released, callsNull := dest, [], false;
    if convert.None? { return false, dest', released, callsNull; }
    var sz := |li|;
    if sz <= 0 { return false, dest', released, callsNull; }
    if !malloc(sz * POINTER_SIZE) { return false, dest', released, callsNull; }
    var r := new R[sz];
    var j := 0;
    ghost var done := ConvertPrefix(li, convert.value);
    while j < sz
      invariant 0 <= j <= sz && j <= |done|
      invariant r[..j] == done[..j]
    {
      var t := convert.value(li[j]);
      if t.None? {
        assert |done| == j;
        // util.cpp:62-66: with no release function the loop calls through it
        if !releaseGiven && j > 0 {
          callsNull := true;
        }
        return false, dest', released, callsNull;
      }
      assert done[j] == t.value;
      r[j] := t.value;
      j := j + 1;
    }
    assert r[..] == r[..j];
    return true, r, released, callsNull;
  }

  /** How an entry of a pointer list is released. */
  datatype Release<T> = Freed(entry: T) | ViaCallback(entry: T)

  /**
   * freePointerList(li, count, free): every one of the first `count` entries is released,
   * through the callback when one is given and through free() otherwise, then the array
   * itself is freed; a null list is ignored.
   */
  method FreePointerList<T>(li: array?<T>, count: nat, releaseGiven: bool)
    returns (released: seq<Release<T>>, arrayFreed: bool)
    requires li != null ==> count <= li.Length
    ensures li == null ==> released == [] && !arrayFreed
    ensures li != null ==> arrayFreed && |released| == count
    ensures li != null ==> forall i :: 0 <= i < count ==>
              released[i] == (if releaseGiven then ViaCallback(li[i]) else Freed(li[i]))
  {
    if li == null { return [], false; }
    released := [];
    var i := 0;
    while i < count
      invariant 0 <= i <= count && |released| == i
      invariant forall k :: 0 <= k < i ==>
                  released[k] == (if releaseGiven then ViaCallback(li[k]) else Freed(li[k]))
    {
      if !releaseGiven {
        released := released + [Freed(li[i])];
      } else {
        released := released + [ViaCallback(li[i])];
      }
      i := i + 1;
    }
    arrayFreed := true;
  }
}
