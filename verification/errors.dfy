/**
 * Status codes the Security framework returns (`OSStatus`), the fixed message table the
 * services layer translates them with, and the errors the library hands to its caller.
 */
module Errors {

  // OSStatus values used by the model.
  const Success := 0                   // errSecSuccess / noErr
  const Unimplemented := -4            // errSecUnimplemented
  const Param := -50                   // errSecParam
  const Allocate := -108               // errSecAllocate
  const NotAvailable := -25291         // errSecNotAvailable
  const AuthFailed := -25293           // errSecAuthFailed
  const DuplicateItem := -25299        // errSecDuplicateItem
  const ItemNotFound := -25300         // errSecItemNotFound
  const InteractionNotAllowed := -25308 // errSecInteractionNotAllowed
  const Decode := -26275               // errSecDecode

  /** The nine statuses that have a message of their own. */
  const Described: set<int> := {Unimplemented, Param, Allocate, NotAvailable, DuplicateItem,
                                ItemNotFound, InteractionNotAllowed, Decode, AuthFailed}

  const NoErrorMessage := "No error."

  /** `errorMessage(from:)`. */
  function ErrorMessage(status: int): (m: string)
    ensures m == NoErrorMessage <==> status !in Described
  {
    if status == Unimplemented then "Function or operation not implemented."
    else if status == Param then "One or more parameters passed to a function where not valid."
    else if status == Allocate then "Failed to allocate memory."
    else if status == NotAvailable then "No keychain is available. You may need to restart your computer."
    else if status == DuplicateItem then "The specified item already exists in the keychain."
    else if status == ItemNotFound then "The specified item could not be found in the keychain."
    else if status == InteractionNotAllowed then "User interaction is not allowed."
    else if status == Decode then "Unable to decode the provided data."
    else if status == AuthFailed then "The user name or passphrase you entered is not correct."
    else NoErrorMessage
  }

  const OSStatusErrorDomain := "NSOSStatusErrorDomain"
  const KeychainAccessErrorDomain := "LUKeychainAccessErrorDomain"

  /** The cases of `LUKeychainAccessError`. */
  datatype AccessErrorKind = InvalidArchiveError | InvalidType | EncodingFailed | DecodingFailed

  /** What the error handler can receive. */
  datatype Error =
    | NSError(domain: string, code: int, description: string)
    | AccessError(kind: AccessErrorKind)

  /**
   * `error(from:descriptionFormat:args:)`: the caller description is never filled in (the
   * formatting is commented out), so the text is the fixed prefix followed by the message.
   */
  function ErrorFromStatus(status: int): (e: Error)
    ensures e.NSError? && e.domain == OSStatusErrorDomain && e.code == status
    ensures e.description == "Error while calling : " + ErrorMessage(status)
  {
    NSError(OSStatusErrorDomain, status, "Error while calling : " + ErrorMessage(status))
  }
}
