/** The Win32 values the crash-capture module exchanges with the operating system. */
module WinTypes {

  /** A Win32 DWORD: exception codes and GetLastError values are unsigned 32-bit. */
  newtype DWord = x: int | 0 <= x < 0x1_0000_0000

  /** A 64-bit pointer value (PVOID), here the address at which an exception was raised. */
  newtype Address = x: int | 0 <= x < 0x1_0000_0000_0000_0000

  /** The non-null handle AddVectoredExceptionHandler returns for a registered handler. */
  type Token = x: nat | x != 0 witness 1

  datatype Option<+T> = None | Some(value: T)

  /** The value a vectored exception handler returns to let the search for a handler go on (winnt.h). */
  const ExceptionContinueSearch: int := 0

  /** What a vectored exception handler is told about one exception: its code and its address. */
  datatype Fault = Fault(code: DWord, address: Address)
}
