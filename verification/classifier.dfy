/** Which exception codes the handler ignores and which it captures. */
module Classifier {
  import opened WinTypes

  /** The severity bit: a code below this value is informational or a warning, never an error. */
  const HighBit: DWord := 0x8000_0000

  /**
   * The denylist in table form: COM and RPC failures raised inside Windows itself,
   * the Microsoft C++ exception (0xe06d7363, "msc") and the CLR exception (0xe0434352, "CCR"),
   * which their own runtimes usually handle. Its eleven entries are distinct.
   */
  const IgnoredCodes: seq<DWord> := [
    0x8001_0012, 0x8001_0108, 0x8001_010d, 0x8001_010e, 0x8000_4035, 0x8004_0155,
    0x8004_01fd, 0x8007_06b5, 0x8007_06ba, 0xe06d_7363, 0xe043_4352
  ]

  /** DoIgnore: the chain of comparisons the source writes out, one code at a time. */
  function DoIgnore(code: DWord): (ignored: bool)
    ensures ignored <==> code in IgnoredCodes
    ensures ignored ==> code >= HighBit
  {
    || code == 0x8001_0012
    || code == 0x8001_0108
    || code == 0x8001_010d
    || code == 0x8001_010e
    || code == 0x8000_4035
    || code == 0x8004_0155
    || code == 0x8004_01fd
    || code == 0x8007_06b5
    || code == 0x8007_06ba
    || code == 0xe06d_7363
    || code == 0xe043_4352
  }

  /** The test at the top of VEHandler: non-critical codes and denylisted codes are not reported. */
  function IsIgnored(code: DWord): (ignored: bool)
    ensures !ignored <==> code >= HighBit && code !in IgnoredCodes
    ensures ignored <==> code < HighBit || exists i :: 0 <= i < |IgnoredCodes| && IgnoredCodes[i] == code
  {
    code < HighBit || DoIgnore(code)
  }

  /**
   * Codes the source does capture: an access violation, a stack overflow, and three
   * other high-bit codes that are not in the table.
   */
  lemma CapturedExamples()
    ensures !IsIgnored(0xC000_0005) && !IsIgnored(0xC000_00FD)
    ensures !IsIgnored(0x8032_0012) && !IsIgnored(0xe000_0001) && !IsIgnored(0xe000_0002)
    ensures IsIgnored(0) && IsIgnored(0x7FFF_FFFF) && IsIgnored(0x4001_0006)
  {
  }
}
