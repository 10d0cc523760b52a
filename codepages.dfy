/**
 * Which conversion flags may be passed to WideCharToMultiByte and MultiByteToWideChar
 * for a given code page (src/util.cpp: getWideCharToMultiByteOptions and
 * getMultiByteToWideCharOptions).  Several code pages reject a request for strict
 * invalid-character checking, so the flag is dropped for them.
 */
module CodePages {

  /** Win32 `UINT`. */
  type UInt = x: int | 0 <= x < 0x1_0000_0000

  /** Win32 `DWORD` used as a set of flag bits. */
  type Flags = bv32

  const CP_ACP: UInt := 0
  const CP_OEMCP: UInt := 1
  const CP_SYMBOL: UInt := 42
  const CP_GB18030: UInt := 54936
  const CP_UTF7: UInt := 65000
  const CP_UTF8: UInt := 65001

  const WC_ERR_INVALID_CHARS: Flags := 0x80
  const MB_ERR_INVALID_CHARS: Flags := 0x08

  /** What GetACP() and GetOEMCP() report on the running system. */
  datatype System = System(acp: UInt, oemcp: UInt)

  /**
   * The two "current code page" markers are replaced by the system's values, in the
   * source's order: first CP_ACP by the ANSI page, then CP_OEMCP (possibly the value
   * just produced) by the OEM page.
   */
  function Resolve(cp: UInt, sys: System): (r: UInt)
    ensures cp != CP_ACP && cp != CP_OEMCP ==> r == cp
    ensures cp == CP_OEMCP ==> r == sys.oemcp
    ensures cp == CP_ACP && sys.acp != CP_OEMCP ==> r == sys.acp
    ensures cp == CP_ACP && sys.acp == CP_OEMCP ==> r == sys.oemcp
  {
    var c := if cp == CP_ACP then sys.acp else cp;
    if c == CP_OEMCP then sys.oemcp else c
  }

  /** Code pages for which the conversion functions require the flags argument to be 0. */
  predicate NoFlagsAllowed(cp: UInt) {
    cp == 50220 || cp == 50221 || cp == 50222 || cp == 50225 || cp == 50227 || cp == 50229
    || cp == CP_UTF7 || cp == CP_SYMBOL || (57002 <= cp <= 57011)
  }

  /** Code pages on which only the strict-checking flag is meaningful. */
  predicate OnlyStrictFlag(cp: UInt) {
    cp == CP_UTF8 || cp == CP_GB18030
  }

  /** The shared policy; `strict` is the direction's invalid-character flag. */
  function Policy(strict: Flags, ori: Flags, cp: UInt, sys: System): (r: Flags)
    ensures r & ori == r
    ensures NoFlagsAllowed(Resolve(cp, sys)) ==> r == 0
    ensures !NoFlagsAllowed(Resolve(cp, sys)) && OnlyStrictFlag(Resolve(cp, sys)) ==> r == ori & strict
    ensures !NoFlagsAllowed(Resolve(cp, sys)) && !OnlyStrictFlag(Resolve(cp, sys)) ==> r == ori
  {
    var c := Resolve(cp, sys);
    MaskFacts(strict, ori);
    if NoFlagsAllowed(c) then 0
    else if OnlyStrictFlag(c) then strict & ori
    else ori
  }

  /** getWideCharToMultiByteOptions */
  function WideCharToMultiByteOptions(ori: Flags, cp: UInt, sys: System): (r: Flags)
    ensures r & ori == r
    ensures NoFlagsAllowed(Resolve(cp, sys)) ==> r == 0
    ensures !NoFlagsAllowed(Resolve(cp, sys)) && OnlyStrictFlag(Resolve(cp, sys)) ==> r == ori & WC_ERR_INVALID_CHARS
    ensures !NoFlagsAllowed(Resolve(cp, sys)) && !OnlyStrictFlag(Resolve(cp, sys)) ==> r == ori
  {
    Policy(WC_ERR_INVALID_CHARS, ori, cp, sys)
  }

  /** getMultiByteToWideCharOptions */
  function MultiByteToWideCharOptions(ori: Flags, cp: UInt, sys: System): (r: Flags)
    ensures r & ori == r
    ensures NoFlagsAllowed(Resolve(cp, sys)) ==> r == 0
    ensures !NoFlagsAllowed(Resolve(cp, sys)) && OnlyStrictFlag(Resolve(cp, sys)) ==> r == ori & MB_ERR_INVALID_CHARS
    ensures !NoFlagsAllowed(Resolve(cp, sys)) && !OnlyStrictFlag(Resolve(cp, sys)) ==> r == ori
  {
    Policy(MB_ERR_INVALID_CHARS, ori, cp, sys)
  }

  /** Applying the policy to its own answer changes nothing. */
  lemma PolicyIdempotent(strict: Flags, ori: Flags, cp: UInt, sys: System)
    ensures Policy(strict, Policy(strict, ori, cp, sys), cp, sys) == Policy(strict, ori, cp, sys)
  {
  }

  /** The policy never adds a flag; on the UTF-8-like pages it keeps at most the strict flag. */
  lemma PolicyOnlyClears(strict: Flags, ori: Flags, cp: UInt, sys: System)
    ensures Policy(strict, ori, cp, sys) | ori == ori
    ensures OnlyStrictFlag(Resolve(cp, sys)) ==> Policy(strict, ori, cp, sys) & strict == Policy(strict, ori, cp, sys)
  {
    var r := Policy(strict, ori, cp, sys);
    SubsetJoin(r, ori);
    if OnlyStrictFlag(Resolve(cp, sys)) {
      assert !NoFlagsAllowed(Resolve(cp, sys));
      assert r == ori & strict;
      assert (ori & strict) & strict == ori & strict;
    }
  }

  /** The three answers of the policy are subsets of the request. */
  lemma MaskFacts(m: Flags, ori: Flags)
    ensures 0 & ori == 0 && (m & ori) & ori == m & ori && ori & ori == ori
  {
  }

  lemma SubsetJoin(r: Flags, ori: Flags)
    requires r & ori == r
    ensures r | ori == ori
  {
  }

  /**
   * The requests the conversion wrappers make, strict checking on CP_UTF8, keep the
   * strict flag whatever the system's code pages are.
   */
  lemma Utf8RequestsStayStrict(sys: System)
    ensures WideCharToMultiByteOptions(WC_ERR_INVALID_CHARS, CP_UTF8, sys) == WC_ERR_INVALID_CHARS
    ensures MultiByteToWideCharOptions(MB_ERR_INVALID_CHARS, CP_UTF8, sys) == MB_ERR_INVALID_CHARS
  {
  }

  /**
   * A "current code page" marker is classified by the page it stands for: asking with
   * CP_ACP is asking with the ANSI page itself.
   */
  lemma MarkersClassifiedAfterResolution(strict: Flags, ori: Flags, sys: System)
    requires sys.acp != CP_ACP && sys.acp != CP_OEMCP && sys.oemcp != CP_ACP && sys.oemcp != CP_OEMCP
    ensures Policy(strict, ori, CP_ACP, sys) == Policy(strict, ori, sys.acp, sys)
    ensures Policy(strict, ori, CP_OEMCP, sys) == Policy(strict, ori, sys.oemcp, sys)
  {
  }
}
