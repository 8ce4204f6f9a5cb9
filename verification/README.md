# LUKeychainAccess in Dafny

LUKeychainAccess is a Swift facade over the platform keychain. Values are stored as
generic-password items. It has four parts, and each is modelled here:

- `LUKeychainServices` builds a query dictionary from four mutable settings: service,
  access group, accessibility and extra query parameters. It issues add, fetch, update,
  delete-one and delete-all calls, and it turns every failing `OSStatus` into an `NSError`.
- `LUKeychainAccess` offers typed setters and getters on top. `set(data:)` retries a
  duplicate add as an update. Getters fall back to zero or nil when nothing is found.
  `register(defaults:)` writes a default only when its key has no value, and
  `recursivelyFindObject` walks up a class's superclass chain. Errors from the services
  layer and from unarchiving go to one optional error handler. The errors thrown by
  `number(for:)` are discarded by the typed getters that call it.
- `LUKeychainAccessibility` maps seven accessibility policies onto keychain attributes.
- The `NSKeyedUnarchiver` extension builds the unarchive allowlist from four built-in
  classes plus the classes the caller passes.

Layout:

- `types.dfy`: `Option` and bytes.
- `utf8.dfy`: the UTF-8 encoding of keys and strings, with both round trips proved.
- `accessibility.dfy`: the policy enum and its attribute mapping.
- `errors.dfy`: status codes, the message table and the error values.
- `backend.dfy`: the keychain itself, as a class holding a map from composite keys to
  entries. Its four calls answer with a status. Platform refusals are a given function
  from operation to status (`veto`). The Security framework is replaced by this model.
- `services.dfy`: query construction as a precedence specification (`Query`). It also
  holds the `KeychainServices` class, whose methods are proved against pure outcome
  functions.
- `archiving.dfy`: object graphs, the archive codec as given functions, and the allowlist
  merge loop.
- `access_model.dfy`: every facade operation as a function of store, configuration and
  collaborators. Each gives the returned value, the resulting entries and the errors
  handed to the handler, in order.
- `facade.dfy`: the `KeychainAccess` and `ErrorHandler` classes. Every keychain operation
  is proved against its `AccessModel` function. The configuration setters are proved to
  change only their setting, and `Handle` against `AccessModel.Handled`.
- `properties.dfy`: lemmas that relate several operations, plus the findings.

The keychain's attribute names are written as the string values of the Security framework
constants (`class`, `acct`, `svce`, `agrp`, `pdmn`, `v_Data`, `m_Limit`, `r_Data`,
`genp`, `ak`, `aku`, `ck`, `cku`). The `#if TARGET_IPHONE_SIMULATOR` branch becomes a
build flag, `Config.simulatorBuild`. In Swift that condition holds only when the build
defines it as a compilation condition.

Some behaviour of the code is easy to misread, and the model keeps it as written:

- A read of a missing key hands the item-not-found error to the handler. It is not
  recovered silently (`LUKeychainAccess/LUKeychainAccess.swift:173-182`).
- `set(data:)` returns false after a duplicate add, even when the update that follows
  succeeds (`LUKeychainAccess/LUKeychainAccess.swift:118-126`).
- `register(defaults:)` returns after the first default it writes, so later keys are not
  visited (`LUKeychainAccess/LUKeychainAccess.swift:88-92`).
- `set(object:)` returns false without reporting anything when archiving yields no data
  (`LUKeychainAccess/LUKeychainAccess.swift:155-165`).

## Model

| member | source | states |
|---|---|---|
| Utf8.DecodeEncode | LUKeychainAccess/LUKeychainServices.swift:175 | decoding the UTF-8 encoding of any string gives the string back, so distinct keys give distinct account bytes |
| Utf8.EncodeDecode | LUKeychainAccess/LUKeychainAccess.swift:208 | bytes that decode as UTF-8 are exactly the encoding of the decoded string |
| Utf8.Encode | LUKeychainAccess/LUKeychainAccess.swift:148 | encoding a string is total and takes one to four bytes per character |
| Accessibility.RawValue | LUKeychainAccess/LUKeychainAccessibility.swift:10-17 | raw values are 0 to 6 in declaration order |
| Accessibility.FromRawValue | LUKeychainAccess/LUKeychainAccessibility.swift:10-17 | a raw value names a policy exactly when it is in 0..6, and that policy has that raw value |
| Accessibility.RawValueRoundTrip | LUKeychainAccess/LUKeychainAccessibility.swift:10-17 | every policy is recovered from its raw value |
| Accessibility.StateAttribute | LUKeychainAccess/LUKeychainAccessibility.swift:19-42 | `never` yields no attribute; `always`, `alwaysThisDeviceOnly` and `afterFirstUnlockThisDeviceOnly` yield `cku`; the other three yield their namesakes (each as an if-and-only-if) |
| Accessibility.OnlyDeprecatedPoliciesCollapse | LUKeychainAccess/LUKeychainAccessibility.swift:25-34 | two different policies share an attribute only when one of them is a deprecated `always` case |
| Errors.ErrorMessage | LUKeychainAccess/LUKeychainServices.swift:138-170 | the message is "No error." exactly when the status is not one of the nine listed codes, success included |
| Errors.ErrorFromStatus | LUKeychainAccess/LUKeychainServices.swift:121-136 | the error is in `NSOSStatusErrorDomain`, has the status as its code, and its description is "Error while calling : " followed by the message |
| Services.Query | LUKeychainAccess/LUKeychainServices.swift:172-202 | class and account are present unless a parameter overrides them; service is present iff configured or given as a parameter; parameters override class, account and service; the access group is present iff configured outside a simulator build (or given as a parameter), and then it wins |
| Services.KeychainServices.QueryDictionary | LUKeychainAccess/LUKeychainServices.swift:172-202 | the dictionary filled step by step equals `Query` for the current configuration |
| Services.KeychainServices.constructor | LUKeychainAccess/LUKeychainServices.swift:13-16 | a new instance has no service, no group, no parameters and accessibility `whenUnlocked` |
| Services.Assign | LUKeychainAccess/LUKeychainServices.swift:34 | assigning nil to a dictionary key removes it, and no other key changes |
| Services.AccessibleValue | LUKeychainAccess/LUKeychainServices.swift:34 | a policy puts no accessibility value into a query iff it is `never`; any other policy puts its `stateCFType` attribute |
| Services.AddQuery | LUKeychainAccess/LUKeychainServices.swift:33-35 | the add query carries the payload and the current accessibility, and identifies the same item as the base query |
| Services.FetchQuery | LUKeychainAccess/LUKeychainServices.swift:50-52 | the fetch query asks for one match and its data, and identifies the same item as the base query |
| Services.UpdateQuery | LUKeychainAccess/LUKeychainServices.swift:99-100 | the update query identifies the same item as the base query |
| Services.UpdateChanges | LUKeychainAccess/LUKeychainServices.swift:102-104 | the update changes exactly the payload and the accessibility |
| Services.Failure | LUKeychainAccess/LUKeychainServices.swift:38-43 | an error is produced exactly for a non-success status, and it is that status's error |
| Services.AddOutcome | LUKeychainAccess/LUKeychainServices.swift:32-46 | add succeeds iff the keychain allows it and no entry has the composite key; it then stores the payload with the current accessibility; otherwise nothing changes and an error is set: the refusal status's error when the keychain refuses, duplicate-item when the only obstacle is an existing entry |
| Services.DataOutcome | LUKeychainAccess/LUKeychainServices.swift:49-65 | data is returned iff the fetch is allowed and the entry exists, and it is the stored payload; otherwise nil with the refusal status's error when the fetch is refused, item-not-found when the key is absent |
| Services.UpdateOutcome | LUKeychainAccess/LUKeychainServices.swift:98-117 | update succeeds iff allowed and the entry exists, and then replaces payload and accessibility; otherwise nothing changes and the error is the refusal status's error, or item-not-found when the update was allowed |
| Services.DeleteItemOutcome | LUKeychainAccess/LUKeychainServices.swift:83-95 | the delete succeeds iff the keychain allows it and some entry matches the query; exactly the matching entries are then gone and the rest are untouched; otherwise nothing changes and the error is the refusal status's error, or item-not-found when nothing matched |
| Services.DeleteAllOutcome | LUKeychainAccess/LUKeychainServices.swift:68-80 | delete-all succeeds iff allowed and some generic-password entry exists; exactly the generic-password entries are then gone, whatever their service, account or group; otherwise nothing changes and the error is the refusal status's error, or item-not-found when none existed |
| Services.KeychainServices.Add | LUKeychainAccess/LUKeychainServices.swift:32-46 | result, new entries and error are those of `AddOutcome` on the prior state |
| Services.KeychainServices.DataFor | LUKeychainAccess/LUKeychainServices.swift:49-65 | result and error are those of `DataOutcome` |
| Services.KeychainServices.DeleteAllItems | LUKeychainAccess/LUKeychainServices.swift:68-80 | result, new entries and error are those of `DeleteAllOutcome` |
| Services.KeychainServices.DeleteItem | LUKeychainAccess/LUKeychainServices.swift:83-95 | result, new entries and error are those of `DeleteItemOutcome` |
| Services.KeychainServices.Update | LUKeychainAccess/LUKeychainServices.swift:98-117 | result, new entries and error are those of `UpdateOutcome` |
| Archiving.AllowList | LUKeychainAccess/NSKeyedUnarchiverExtension.swift:14-21 | the merged allowlist holds the built-in and the caller's keys, and a caller entry replaces a built-in one with the same key |
| Archiving.AddEntries | LUKeychainAccess/NSKeyedUnarchiverExtension.swift:19-21 | copying the caller's entries into the built-ins one at a time ends with the built-ins overridden by every caller entry |
| Archiving.MergeAllowList | LUKeychainAccess/NSKeyedUnarchiverExtension.swift:14-21 | the loop over the caller's entries yields exactly `AllowList` |
| Archiving.Unarchive | LUKeychainAccess/NSKeyedUnarchiverExtension.swift:23-28 | the result is present iff the data decodes to a graph whose every class is allowed, and it is then the decoded graph; otherwise nil |
| Archiving.UnarchiveObject | LUKeychainAccess/NSKeyedUnarchiverExtension.swift:13-29 | decodes only against the values of the merged allowlist |
| Archiving.ArchiveObject | LUKeychainAccess/NSKeyedUnarchiverExtension.swift:32-34 | returns exactly what `UnarchiveObject` returns for the same arguments |
| Archiving.Keyed | LUKeychainAccess/LUKeychainAccess.swift:217-220 | each caller class is filed under its own metatype name |
| Archiving.KeyedValues | LUKeychainAccess/LUKeychainAccess.swift:217-220 | no caller class is lost when classes are filed by name |
| Archiving.AllowedClassesAre | LUKeychainAccess/NSKeyedUnarchiverExtension.swift:14-23 | a decode for caller classes `cs` allows exactly the four built-ins plus `cs` |
| AccessModel.Lineage | LUKeychainAccess/LUKeychainAccess.swift:237 | a lineage is never empty and starts with the class itself |
| AccessModel.Handled | LUKeychainAccess/LUKeychainAccess.swift:246-251 | a nil error is handed on as nothing, any other error as exactly itself, once |
| AccessModel.DataRead | LUKeychainAccess/LUKeychainAccess.swift:173-182 | data is returned iff fetch is allowed and the entry exists, and then it is the stored payload and nothing is reported; otherwise nil and exactly the services' fetch error is reported: item-not-found when the fetch was allowed |
| AccessModel.StringRead | LUKeychainAccess/LUKeychainAccess.swift:202-209 | reports exactly what the data read reports; a returned string is one whose UTF-8 encoding is the stored data, and conversely stored data that decodes as UTF-8 is returned as the decoded string; nil when no data is stored |
| AccessModel.UnarchiveFailure | LUKeychainAccess/LUKeychainAccess.swift:221-223 | the unarchive failure is an `LUKeychainAccessErrorDomain` error with code 0 |
| AccessModel.ObjectRead | LUKeychainAccess/LUKeychainAccess.swift:216-229 | a returned object is what the stored data decodes to, and all its classes are among the built-ins and the caller's; conversely, stored data that decodes to a graph of such classes is returned; a nil result reports exactly one error: the data read's error when nothing is stored, the invalid-archive error when the stored data does not unarchive |
| AccessModel.Probed | LUKeychainAccess/LUKeychainAccess.swift:237-239 | the probe tries the chain up to and including the first `NSObject`, or all of it |
| AccessModel.FindObject | LUKeychainAccess/LUKeychainAccess.swift:231-243 | when the class itself unarchives the stored data, the result is the one-class `object(for:ofClasses:)` read; when nothing is found, each probed class has reported exactly one error |
| AccessModel.FindObjectResult | LUKeychainAccess/LUKeychainAccess.swift:232-243 | an object the probe returns is what one of the classes it tries, up to `NSObject`, unarchives |
| AccessModel.FindObjectComplete | LUKeychainAccess/LUKeychainAccess.swift:232-243 | when any class the probe tries, up to `NSObject`, unarchives an object, the probe returns one |
| AccessModel.FindObjectFinds | LUKeychainAccess/LUKeychainAccess.swift:232-243 | `recursivelyFindObject` returns an object iff some class it tries, up to `NSObject`, unarchives one |
| AccessModel.NumberRead | LUKeychainAccess/LUKeychainAccess.swift:253-263 | a number is returned iff an object decodes as `NSNumber` and is a number; a thrown error reports nothing further |
| AccessModel.IntegerRead | LUKeychainAccess/LUKeychainAccess.swift:196-200 | reports what the number read reports; with no decodable number the integer is 0 |
| AccessModel.Int32Of | LUKeychainAccess/LUKeychainAccess.swift:199 | the result lies in the `Int32` range, agrees with the input modulo 2^32, and equals it when the input is already in range |
| AccessModel.IntValue | LUKeychainAccess/LUKeychainAccess.swift:196-200 | a number's `intValue` is an `Int32`: a boolean is 0 or 1, an integer keeps its low 32 bits (and so is unchanged within the `Int32` range), and a real is truncated toward zero |
| AccessModel.RealRead | LUKeychainAccess/LUKeychainAccess.swift:184-194 | reports what the number read reports; with no decodable number the float and the double are 0 |
| AccessModel.RealValue | LUKeychainAccess/LUKeychainAccess.swift:184-194 | a boolean reads as 1.0 or 0.0, an integer as itself and a real as itself |
| AccessModel.BoolReadAsWritten | LUKeychainAccess/LUKeychainAccess.swift:168-171 | as written, the result is true iff a number decodes, whatever its value |
| AccessModel.BoolRead | LUKeychainAccess/LUKeychainAccess.swift:168-171 | as intended, the result is true iff a number decodes and is non-zero |
| AccessModel.BoolValue | LUKeychainAccess/LUKeychainAccess.swift:168-171 | a number's `boolValue` is true iff its value is non-zero |
| AccessModel.RemoveObject | LUKeychainAccess/LUKeychainAccess.swift:54-60 | deleteObject succeeds iff allowed and some entry matches the key's query; it leaves the delete-item entries, and reports exactly the delete's error when it fails |
| AccessModel.RemoveAll | LUKeychainAccess/LUKeychainAccess.swift:43-52 | deleteAll succeeds iff allowed and some generic-password entry exists, and then keeps exactly the non-generic-password entries, each unchanged; the entries are those of the services' delete-all; on failure nothing changes and exactly the delete-all error is reported |
| AccessModel.DataWrite | LUKeychainAccess/LUKeychainAccess.swift:108-129 | nil deletes the key, returns true and reports exactly the delete's error when it fails; otherwise the result is true iff the first add succeeds; a successful add stores the payload with the current accessibility, a duplicate followed by a successful update stores it with the update's accessibility, and every other outcome leaves the entries unchanged; at most one error is reported, and one is reported iff the add failed for a reason other than a duplicate or the retrying update failed |
| AccessModel.ObjectWrite | LUKeychainAccess/LUKeychainAccess.swift:155-165 | archived data is written as data; archiving that yields no data returns false silently; a thrown error returns false and is reported |
| AccessModel.StringWrite | LUKeychainAccess/LUKeychainAccess.swift:146-153 | `set(string:)` succeeds iff adding the string's UTF-8 bytes succeeds; when add and update are allowed, the key then holds data that decodes to the string |
| AccessModel.Missing | LUKeychainAccess/LUKeychainAccess.swift:88 | a key counts as missing iff neither the class-chain probe nor the string read finds a value |
| AccessModel.DefaultWrite | LUKeychainAccess/LUKeychainAccess.swift:89-92 | a string default is written by `set(string:)` and, when add and update are allowed, the key then holds data that decodes to the string; any other default is exactly `set(object:)` |
| AccessModel.RegisterUnfold | LUKeychainAccess/LUKeychainAccess.swift:82-98 | one loop pass probes the key, then writes its default or moves on to the next key |
| AccessModel.Register | LUKeychainAccess/LUKeychainAccess.swift:80-101 | the corrected register, which probes with the value's class: it writes at most one default, only one whose key has no value, and returns that write's result and entries; otherwise it returns false and the entries are unchanged |
| AccessModel.RegisterAsWritten | LUKeychainAccess/LUKeychainAccess.swift:82-86 | as written, any non-empty defaults report exactly the invalid-type error once, return false and write nothing; empty defaults report nothing |
| Facade.ErrorHandler.Receive | LUKeychainAccess/LUKeychainErrorHandler.swift:10-13 | the handler records each error it receives, in order |
| Facade.KeychainAccess.Handle | LUKeychainAccess/LUKeychainAccess.swift:246-251 | a nil error or a missing handler changes nothing; otherwise the handler receives the error exactly once |
| Facade.KeychainAccess.SetAccessGroup | LUKeychainAccess/LUKeychainAccess.swift:63-66 | only the services' access group changes |
| Facade.KeychainAccess.SetAccessibilityState | LUKeychainAccess/LUKeychainAccess.swift:68-71 | only the services' accessibility changes |
| Facade.KeychainAccess.SetAdditionalQueryParams | LUKeychainAccess/LUKeychainAccess.swift:73-76 | only the services' extra parameters change |
| Facade.KeychainAccess.DeleteAll | LUKeychainAccess/LUKeychainAccess.swift:43-52 | result, entries and handled errors are those of `RemoveAll` |
| Facade.KeychainAccess.DeleteObject | LUKeychainAccess/LUKeychainAccess.swift:54-60 | entries and handled errors are those of `RemoveObject` |
| Facade.KeychainAccess.SetData | LUKeychainAccess/LUKeychainAccess.swift:108-129 | result, entries and handled errors are those of `DataWrite` |
| Facade.KeychainAccess.SetString | LUKeychainAccess/LUKeychainAccess.swift:146-153 | writes the UTF-8 bytes of the string as `DataWrite` does |
| Facade.KeychainAccess.SetObject | LUKeychainAccess/LUKeychainAccess.swift:155-165 | result, entries and handled errors are those of `ObjectWrite` |
| Facade.KeychainAccess.SetBool | LUKeychainAccess/LUKeychainAccess.swift:103-106 | writes the boolean as a number object |
| Facade.KeychainAccess.SetInteger | LUKeychainAccess/LUKeychainAccess.swift:141-144 | writes the integer as a number object |
| Facade.KeychainAccess.SetFloat | LUKeychainAccess/LUKeychainAccess.swift:136-139 | writes the float as a number object |
| Facade.KeychainAccess.SetDouble | LUKeychainAccess/LUKeychainAccess.swift:131-134 | writes the double as a number object |
| Facade.KeychainAccess.DataFor | LUKeychainAccess/LUKeychainAccess.swift:173-182 | result and handled errors are those of `DataRead`; the store is unchanged |
| Facade.KeychainAccess.StringFor | LUKeychainAccess/LUKeychainAccess.swift:202-209 | result and handled errors are those of `StringRead` |
| Facade.KeychainAccess.ObjectForClasses | LUKeychainAccess/LUKeychainAccess.swift:216-229 | result and handled errors are those of `ObjectRead` |
| Facade.KeychainAccess.ObjectFor | LUKeychainAccess/LUKeychainAccess.swift:211-214 | the one-class form of `ObjectRead` |
| Facade.KeychainAccess.RecursivelyFindObject | LUKeychainAccess/LUKeychainAccess.swift:231-243 | result and handled errors are those of the chain probe `FindObject` |
| Facade.KeychainAccess.NumberFor | LUKeychainAccess/LUKeychainAccess.swift:253-263 | result and handled errors are those of `NumberRead` |
| Facade.KeychainAccess.IntegerFor | LUKeychainAccess/LUKeychainAccess.swift:196-200 | result and handled errors are those of `IntegerRead` |
| Facade.KeychainAccess.FloatFor | LUKeychainAccess/LUKeychainAccess.swift:190-194 | result and handled errors are those of `RealRead` |
| Facade.KeychainAccess.DoubleFor | LUKeychainAccess/LUKeychainAccess.swift:184-188 | result and handled errors are those of `RealRead` |
| Facade.KeychainAccess.BoolFor | LUKeychainAccess/LUKeychainAccess.swift:168-171 | result and handled errors are those of the corrected `BoolRead` |
| Facade.KeychainAccess.ProbeMissing | LUKeychainAccess/LUKeychainAccess.swift:88 | the probe leaves the store alone, answers as `Missing` does and hands on exactly the errors of its two reads |
| Facade.KeychainAccess.WriteDefault | LUKeychainAccess/LUKeychainAccess.swift:89-92 | a string default is written by `set(string:)`, any other by `set(object:)`; result, entries and handled errors are those of `DefaultWrite` |
| Facade.KeychainAccess.RegisterEntry | LUKeychainAccess/LUKeychainAccess.swift:88-97 | one pass of the corrected register loop, which probes with the value's class: it writes exactly when the key is missing, and otherwise leaves the store unchanged |
| Facade.KeychainAccess.RegisterStep | LUKeychainAccess/LUKeychainAccess.swift:82-98 | one pass of the corrected register loop either ends with the whole result of `AccessModel.Register`, or leaves the store unchanged and leaves the rest of it to the next default |
| Facade.KeychainAccess.Register | LUKeychainAccess/LUKeychainAccess.swift:80-101 | implements the corrected register, which probes with the value's class (see Findings): the loop with early return yields the result, entries and handled errors of `AccessModel.Register` |
| Facade.KeychainAccess.constructor | LUKeychainAccess/LUKeychainAccess.swift:27-40 | a new facade has no error handler and uses the services instance it is given |
| Properties.DataRoundTrip | LUKeychainAccess/LUKeychainAccess.swift:108-129 | data written under a key, by add or by the duplicate fallback, is read back with nothing reported |
| Properties.StringRoundTrip | LUKeychainAccess/LUKeychainAccess.swift:146-153 | a string written under a key is read back unchanged |
| Properties.ObjectRoundTrip | LUKeychainAccess/LUKeychainAccess.swift:216-229 | with a faithful archiver, an object written with `set(object:)` is read back by `object(for:ofClasses:)` with nothing reported, when its classes are built-ins or among those asked for |
| Properties.NumberRoundTrip | LUKeychainAccess/LUKeychainAccess.swift:253-263 | with a faithful archiver, a number written as an object comes back from `number(for:)` |
| Properties.IntegerRoundTrip | LUKeychainAccess/LUKeychainAccess.swift:141-144 | `set(integer:)` then `integer(for:)` gives back the integer cut to 32 bits, so any integer in the `Int32` range comes back unchanged |
| Properties.RealRoundTrip | LUKeychainAccess/LUKeychainAccess.swift:184-188 | `set(double:)` then `double(for:)` gives the number back |
| Properties.BoolRoundTrip | LUKeychainAccess/LUKeychainAccess.swift:103-106 | with the value read, `set(bool:)` then `bool(for:)` gives the flag back |
| Properties.BoolAsWrittenReadsFalseAsTrue | LUKeychainAccess/LUKeychainAccess.swift:170 | as written, a stored false reads as true |
| Properties.MissingKeyDefaults | LUKeychainAccess/LUKeychainAccess.swift:184-209 | a key with no entry reads as nil, 0, 0.0 and false; the string, integer, real and bool reads each report exactly the data lookup's error, which is item-not-found when the fetch is allowed |
| Properties.SetDataOnExistingKey | LUKeychainAccess/LUKeychainAccess.swift:116-126 | a duplicate add is retried as an update, which stores the payload; the result is still false; nothing is reported iff the update succeeds |
| Properties.DeleteAllReachesEveryKey | LUKeychainAccess/LUKeychainServices.swift:68-70 | after `deleteAll()` no key reads a value under any service or access group |
| Properties.DeleteRemovesKey | LUKeychainAccess/LUKeychainAccess.swift:54-60 | deleting a stored key succeeds with nothing reported, and afterwards `data(for:)` finds nothing and reports item-not-found |
| Properties.SetNilRemovesKey | LUKeychainAccess/LUKeychainAccess.swift:110-113 | `set(data: nil)` returns true, and afterwards `data(for:)` finds nothing and reports item-not-found |
| Properties.DeleteOneKeepsOtherKeys | LUKeychainAccess/LUKeychainServices.swift:83-85 | deleting one key leaves what every other key reads |
| Properties.AccountSeparates | LUKeychainAccess/LUKeychainServices.swift:174-175 | without an overriding parameter, an entry stored under one key is not matched by a query for a different key |
| Properties.RegisterKeepsExistingValues | LUKeychainAccess/LUKeychainAccess.swift:82-100 | when every key already has a value, nothing is written and the result is false |
| Properties.RegisterWrites | LUKeychainAccess/LUKeychainAccess.swift:88-92 | a default whose key has no value is written, and the loop's result is that write's result |
| Properties.RegisterSkipsPresent | LUKeychainAccess/LUKeychainAccess.swift:82-98 | a run of defaults whose keys all have values leaves the loop's result and entries as they are after the run |
| Properties.RegisterWritesFirstMissing | LUKeychainAccess/LUKeychainAccess.swift:82-98 | only the first default whose key has no value is written, and its result is returned |
| Properties.RegisterKeepsFirstDefault | LUKeychainAccess/LUKeychainAccess.swift:88-92 | once a string default is registered, a second registration for that key writes nothing and returns false |
| Properties.RegisteredStringReadsBack | LUKeychainAccess/LUKeychainAccess.swift:88-90 | a string default registered for a missing key reads back as that string |
| Properties.RegisterKeepsStoredString | LUKeychainAccess/LUKeychainAccess.swift:88 | a key that reads as a string is never missing, so registering any default for it writes nothing and returns false |
| Properties.RegisterAsWrittenWritesNothing | LUKeychainAccess/LUKeychainAccess.swift:83-86 | as written, a string default for an empty key reports invalid type and writes nothing, while the corrected register writes it |
| Properties.SimulatorIgnoresAccessGroup | LUKeychainAccess/LUKeychainServices.swift:186-199 | on a simulator build the configured access group has no effect on a query |
| Properties.ServicesAreSeparate | LUKeychainAccess/LUKeychainServices.swift:178-180 | without an overriding parameter, two services keep separate entries for the same key |

## Left out

- The Security framework calls (`SecItemAdd`, `SecItemCopyMatching`, `SecItemUpdate`, `SecItemDelete`) are replaced by `Backend.Keychain`. Add, fetch and update find an entry by its exact composite key, which is every query attribute except accessibility, payload, match limit and return flag. Delete removes every entry whose key contains all the query's attributes. Persistence, access control and entitlements are not modelled. Refusals are a given status per operation.
- The `NSKeyedArchiver` byte format is not modelled. Archiving and decoding are given functions in `Archiving.Codec`, and the allowlist check is applied to every class of the decoded object graph.
- The Objective-C runtime is not modelled. A class's superclasses are a given finite list, and the `value.self as? AnyClass` cast is discussed under Findings.
- `NSNumber` boxing: numbers are booleans, unbounded integers or reals. Float and double are not told apart, and neither 64-bit `Int` wrap-around of a stored integer nor floating-point rounding is modelled.
- `AccessModel.IntValue`: `intValue` is an `Int32`, and the model cuts integers to their low 32 bits. Line 199 of `LUKeychainAccess/LUKeychainAccess.swift` returns that `Int32` from a function declared `-> Int`, which does not type-check as written; the model widens it to `Int`. A real outside the `Int32` range is truncated toward zero without the 32-bit cut, because that conversion is undefined.
- `Facade.KeychainAccess.SetString`: the `encodingFailed` branch of `set(string:)` is not modelled, because UTF-8 encoding of a Swift string cannot fail.
- `AccessModel.Register`: returns after the first default it writes, as the code does. The unit tests in `Swift UnitTests/LUKeychainAccessSpec.swift:335-358` expect every missing key to be written by one call; a register that visits every key is not modelled.
- `Facade.KeychainAccess.Register`: the `value as Any?` fallback that reports an invalid type cannot fail in Swift and is not modelled. Defaults are taken in the dictionary's iteration order, given as a sequence, and are object values, never class objects.
- The callers' error pointers are always passed, so the case of a nil pointer is not modelled.
- The handler's `keychainAccess` argument (the sender) is not recorded.
- The shared `keychainServices` instance is replaced by a services instance passed explicitly to the facade's constructor.
- `standardKeychainAccess` returns a new facade on every access, so an error handler set through it is lost at the next access. The model builds one facade explicitly and does not capture that loss.
- The description string built with `String(format:)` is commented out in the code, so each error description carries only the status message.
- The `default` branch of `stateCFType` cannot be reached from the seven cases.
- The read-only facade properties (`accessGroup`, `accessibilityState`, `additionalQueryParams`, `service`) are not modelled; they return the services fields unchanged.
- Swift strings are modelled as sequences of Unicode scalars compared scalar by scalar; grapheme clusters and canonical equivalence of keys are not modelled.
- `Archiving.Keyed`: `object(for:ofClasses:)` passes an array of classes where `lu_unarchiveObject(ofClasses:with:)` takes a dictionary keyed by name, which does not type-check as written. The model bridges the two by filing each class under its metatype name, as the built-in entries are filed.
- `lu_unarchiveObject(ofClasses:with:)` calls `assertionFailure` when decoding fails, which traps in debug builds, including during each failed superclass probe of `recursivelyFindObject`. The model follows release builds, where the call returns nil.
- `Archiving.Object`: an `Instance` whose class is named `NSNumber` is an object graph that is not a number value. `number(for:)` accepts only `Num` values, so the model does not capture an `NSNumber` subclass instance that casts to `NSNumber`.
- `ClassIdentifier.swift`, the Objective-C headers and `Package.swift` are not part of this model.

## Findings

| source | as written | input that shows it | evidently intended | confidence | as-written member | corrected member |
|---|---|---|---|---|---|---|
| LUKeychainAccess/LUKeychainAccess.swift:170 | `(try? number(for: key).boolValue) != nil` is true whenever a number decodes | `set(bool: false, for: k)` then `bool(for: k)` returns true | return the decoded number's `boolValue`, false when none decodes | medium, not executed | AccessModel.BoolReadAsWritten (counterexample: Properties.BoolAsWrittenReadsFalseAsTrue) | AccessModel.BoolRead (proved: Properties.BoolRoundTrip) |
| LUKeychainAccess/LUKeychainAccess.swift:83-86 | `value.self as? AnyClass` casts the default value itself, which is never a class | `register(defaults: ["k": "v"])` on an empty keychain reports an invalid type, returns false and writes nothing | probe with the value's class and write the default when the key has no value | medium, not executed | AccessModel.RegisterAsWritten (counterexample: Properties.RegisterAsWrittenWritesNothing) | AccessModel.Register (proved: Properties.RegisterWritesFirstMissing, Properties.RegisterKeepsExistingValues) |
