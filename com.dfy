// COM conventions shared by the whole model: HRESULT status codes and nullable results.

module Com {

  /** An HRESULT: a signed 32-bit status word. */
  type HResult = x: int | -0x8000_0000 <= x <= 0x7FFF_FFFF

  /** FAILED(hr): the severity bit is set, i.e. the code is negative. */
  predicate Failed(hr: HResult) { hr < 0 }

  /** SUCCEEDED(hr). */
  predicate Succeeded(hr: HResult) { hr >= 0 }

  const S_OK: HResult := 0
  const S_FALSE: HResult := 1
  /** E_PENDING, 0x8000000A read as a signed 32-bit value. */
  const E_PENDING: HResult := 0x8000_000A - 0x1_0000_0000
  /** VFW_E_NOT_FOUND, 0x80040216 read as a signed 32-bit value. */
  const VFW_E_NOT_FOUND: HResult := 0x8004_0216 - 0x1_0000_0000
  /** VFW_E_NOT_CONNECTED, 0x80040209 read as a signed 32-bit value. */
  const VFW_E_NOT_CONNECTED: HResult := 0x8004_0209 - 0x1_0000_0000

  datatype Option<+T> = None | Some(value: T)
}
