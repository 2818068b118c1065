// Shared UEFI/PI vocabulary used by every module of the model: the
// EFI_STATUS codes the modelled code returns, and an option type for
// pointers that may be NULL.
module Uefi {

  /** UINT8, UINT16 and UINT32 as bounded integers. */
  type Byte = x: int | 0 <= x < 0x100
  type U16 = x: int | 0 <= x < 0x1_0000
  type U32 = x: int | 0 <= x < 0x1_0000_0000

  /** The EFI_STATUS values that the modelled code returns or receives. */
  datatype EfiStatus =
    | Success
    | InvalidParameter
    | Unsupported
    | BufferTooSmall
    | DeviceError
    | NotFound
    | OutOfResources
    | Timeout
    | AlreadyStarted
    | OtherError(code: nat)

  /** EFI_ERROR(): every status other than EFI_SUCCESS is an error here
      (warning codes are not modelled). */
  predicate IsError(s: EfiStatus) {
    !s.Success?
  }

  datatype Option<T> = None | Some(value: T)
}
