/**
 * The accessibility policy an entry is written under (`LUKeychainAccessibility`) and the
 * Security framework attribute each policy puts into a query (`stateCFType`).
 */
module Accessibility {
  import opened Types

  /** The seven policies, in declaration order; raw values are 0 through 6. */
  datatype Accessibility =
    | AfterFirstUnlock
    | AfterFirstUnlockThisDeviceOnly
    | Always
    | Never
    | AlwaysThisDeviceOnly
    | WhenUnlocked
    | WhenUnlockedThisDeviceOnly

  /** `rawValue` of the `Int`-backed enum. */
  function RawValue(a: Accessibility): (n: nat)
    ensures n < 7
  {
    match a
    case AfterFirstUnlock => 0
    case AfterFirstUnlockThisDeviceOnly => 1
    case Always => 2
    case Never => 3
    case AlwaysThisDeviceOnly => 4
    case WhenUnlocked => 5
    case WhenUnlockedThisDeviceOnly => 6
  }

  /** The enum's failable `init?(rawValue:)`. */
  function FromRawValue(n: int): (a: Option<Accessibility>)
    ensures a.Some? <==> 0 <= n < 7
    ensures a.Some? ==> RawValue(a.value) == n
  {
    if n == 0 then Some(AfterFirstUnlock)
    else if n == 1 then Some(AfterFirstUnlockThisDeviceOnly)
    else if n == 2 then Some(Always)
    else if n == 3 then Some(Never)
    else if n == 4 then Some(AlwaysThisDeviceOnly)
    else if n == 5 then Some(WhenUnlocked)
    else if n == 6 then Some(WhenUnlockedThisDeviceOnly)
    else None
  }

  /** Raw values identify the policies: the conversion back never loses a case. */
  lemma RawValueRoundTrip(a: Accessibility)
    ensures FromRawValue(RawValue(a)) == Some(a)
  {
  }

  // The string values of the `kSecAttrAccessible...` constants.
  const AccessibleWhenUnlocked := "ak"
  const AccessibleWhenUnlockedThisDeviceOnly := "aku"
  const AccessibleAfterFirstUnlock := "ck"
  const AccessibleAfterFirstUnlockThisDeviceOnly := "cku"

  /** `stateCFType`: the attribute value a policy contributes, or none at all for `never`. */
  function StateAttribute(a: Accessibility): (attr: Option<string>)
    ensures attr.None? <==> a == Never
    ensures a in {Always, AlwaysThisDeviceOnly, AfterFirstUnlockThisDeviceOnly}
            <==> attr == Some(AccessibleAfterFirstUnlockThisDeviceOnly)
    ensures a == AfterFirstUnlock <==> attr == Some(AccessibleAfterFirstUnlock)
    ensures a == WhenUnlocked <==> attr == Some(AccessibleWhenUnlocked)
    ensures a == WhenUnlockedThisDeviceOnly <==> attr == Some(AccessibleWhenUnlockedThisDeviceOnly)
  {
    match a
    case AfterFirstUnlock => Some(AccessibleAfterFirstUnlock)
    case AfterFirstUnlockThisDeviceOnly => Some(AccessibleAfterFirstUnlockThisDeviceOnly)
    // Deprecated since iOS 12: both fall back to after-first-unlock-this-device-only.
    case Always => Some(AccessibleAfterFirstUnlockThisDeviceOnly)
    case Never => None
    case AlwaysThisDeviceOnly => Some(AccessibleAfterFirstUnlockThisDeviceOnly)
    case WhenUnlocked => Some(AccessibleWhenUnlocked)
    case WhenUnlockedThisDeviceOnly => Some(AccessibleWhenUnlockedThisDeviceOnly)
  }

  /**
   * The only policies that share an attribute are the two deprecated `always` cases,
   * which collapse onto after-first-unlock-this-device-only.
   */
  lemma OnlyDeprecatedPoliciesCollapse(a: Accessibility, b: Accessibility)
    requires a != b && StateAttribute(a) == StateAttribute(b)
    ensures a in {Always, AlwaysThisDeviceOnly, AfterFirstUnlockThisDeviceOnly}
    ensures b in {Always, AlwaysThisDeviceOnly, AfterFirstUnlockThisDeviceOnly}
  {
  }
}
