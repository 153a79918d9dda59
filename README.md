# TsReturnOperation — a Dafny model

`TsReturnOperation::doOperation` takes one request array. The request describes a
return or complaint position that is NEW (type 1) or whose status CHANGEd (type 2).
The operation runs these stages in order, and the first exception ends the run:

1. `validateRequestData` stops at the first of `resellerId`, `notificationType`,
   `clientId`, `creatorId`, `expertId` that PHP's `empty()` holds for.
2. `getContractor` looks up the client, the creator and the expert. The client
   lookup also checks the reseller: a non-zero `resellerId` must be strictly
   equal to the client's `Seller->id`.
3. `defineDifferences` picks the description. It compares the raw request type
   with `===`.
4. `prepareTemplateData` builds an ordered array. It holds the three names and
   the description, then nine request values under upper-cased keys, and it
   stops at the first empty one.
5. `sendNotifications` starts from a fixed result record. Only for the
   `(int)`-cast type CHANGE does it email and text the client, recording what
   each channel returned.

The model has three modules:

- `Php` (`php.dfy`): request values, `empty()`, the `(int)` cast, reading an
  offset, and ordered arrays with PHP's `$a[$k] = $v`.
- `ReturnOperation` (`return_operation.dfy`): one member per stage. The two
  `foreach` loops and the in-place update of `$result` are methods with loops and
  local state. Each method is proved equal to a specification function, and `Run`
  composes those functions.
- `ReturnOperationProperties` (`return_operation_properties.dfy`): lemmas about
  the stages and the whole run.

These outside things are the fields of the `Env` datatype, so every
statement holds for every directory, status table and channel:

- the directories `Contractor::getById` and `Employee::getById`, as partial functions;
- `Status::getName`, as a total function;
- `EmailService::send` and `SmsService::send`, as functions returning the boolean reply;
- PHP's `(int)` cast of a string.

Every channel call is recorded, arguments included, in the `sends` trace of the result.

## Model

| member | source | states |
|---|---|---|
| `Php.Empty` | php/v2/ReturnOperation.php:30 | PHP's `empty()`, as used at lines 30, 61 and 74: it holds for exactly null, `false`, `0`, `""`, `"0"` and the empty array. Every other value is non-empty. |
| `Php.ToInt` | php/v2/ReturnOperation.php:14-19 | PHP's `(int)` cast, as used at lines 14-19, 76 and 78. An int is kept. Null, `false` and the empty array give 0, `true` gives 1 and a non-empty array gives 1. A string goes through the `castString` parameter. |
| `Php.Get` | php/v2/ReturnOperation.php:30 | Reading `$data[$key]`, as at lines 30, 61, 64 and 74: a present key gives its value. An absent key reads as null, which `empty()` holds for, so a missing field counts as empty. |
| `Php.Index` | php/v2/ReturnOperation.php:76-78 | Reading `['from']` and `['to']` of `differences`: an array gives its entry, or null for an absent key. Any other value gives null. |
| `Php.Lookup` | php/v2/ReturnOperation.php:95 | Reading `$templateData['DIFFERENCES']`: a key the array does not hold reads as null. `Php.LookupAt` gives the value of a key it does hold. |
| `ReturnOperation.Message` | php/v2/ReturnOperation.php:31-62 | The exception messages of lines 31, 40 and 62. The message of a validation or template failure contains, between its fixed prefix and suffix, exactly the field or key that failed. |
| `ReturnOperation.ExceptionClass` | php/v2/ReturnOperation.php:31-62 | The classes thrown at lines 31, 40 and 62. `RuntimeException` is thrown exactly for the contractor error, and `InvalidArgumentException` for every other error. |
| `Php.Put` | php/v2/ReturnOperation.php:64 | Assigning `$t[$k]` makes `k` read `v` and leaves every other key reading as it did. |
| `Php.PutKeepsKeys` | php/v2/ReturnOperation.php:64 | Assigning a key the array already holds keeps every key, in the same order. |
| `Php.PutAppends` | php/v2/ReturnOperation.php:64 | Assigning a key the array does not yet hold appends exactly one entry, and the new key comes last. |
| `Php.LookupAt` | php/v2/ReturnOperation.php:95 | In an array with distinct keys, reading an entry's key yields that entry's value. |
| `ReturnOperation.RequiredMessageNamesField` | php/v2/ReturnOperation.php:31 | The validation exception's message determines the field: equal messages mean equal fields. |
| `ReturnOperation.FirstEmpty` | php/v2/ReturnOperation.php:29-32 | The fail-fast scan returns an empty field of the list when there is one, and returns nothing exactly when no field is empty. |
| `ReturnOperation.FirstEmptyIsEarliest` | php/v2/ReturnOperation.php:29-32 | The scan returns `k` exactly when `k` is the earliest field in list order whose value is empty. |
| `ReturnOperation.Validation` | php/v2/ReturnOperation.php:26-34 | Validation passes exactly when none of the five required fields is empty. Any failure names one of them. |
| `ReturnOperation.ValidateRequestData` | php/v2/ReturnOperation.php:26-34 | The `foreach` loop returns exactly what `Validation` specifies. |
| `ReturnOperationProperties.ValidationNamesFirstEmptyField` | php/v2/ReturnOperation.php:28-33 | Validation fails naming `f` exactly when `f` is the first empty field in the order resellerId, notificationType, clientId, creatorId, expertId. |
| `ReturnOperation.GetContractor` | php/v2/ReturnOperation.php:36-43 | It succeeds exactly when the lookup finds an entity and, if a non-zero reseller is given, that entity's `Seller->id` is strictly that reseller. It then returns the looked-up entity unchanged. With no reseller or a zero reseller, it succeeds iff the entity exists. The one error is the "not found or invalid" one. |
| `ReturnOperation.DefineDifferences` | php/v2/ReturnOperation.php:70-82 | A raw type `=== 1` gives "New position added". A raw type `=== 2` with non-empty `differences` gives the change phrase built from the status names of `(int)from` and `(int)to`. The result is empty exactly when neither case applies. It never fails. |
| `ReturnOperationProperties.NewDescriptionIgnoresDifferences` | php/v2/ReturnOperation.php:72-73 | When the raw type is NEW, the description is the fixed phrase whatever `differences` holds. |
| `ReturnOperationProperties.ChangeDescriptionExample` | php/v2/ReturnOperation.php:74-79 | CHANGE from 1 to 2, with names New and Closed, gives exactly "Position status has changed from New to Closed". |
| `ReturnOperation.AssembleStep` | php/v2/ReturnOperation.php:60-65 | Each passthrough assignment appends the next upper-cased key with the request value under its key. |
| `ReturnOperation.PrepareTemplateData` | php/v2/ReturnOperation.php:45-68 | The loop, which grows the array by key assignment, returns exactly what `TemplateData` specifies. |
| `ReturnOperationProperties.AssembledKeysDistinct` | php/v2/ReturnOperation.php:49-65 | A fully assembled template has the 13 keys in source order, each exactly once. |
| `ReturnOperationProperties.AssembledLookups` | php/v2/ReturnOperation.php:49-65 | In a fully assembled template, the three names and the description are under their fixed keys. Each upper-cased key reads the request value under its lower-camel key. |
| `ReturnOperationProperties.TemplateDataContents` | php/v2/ReturnOperation.php:49-67 | Assembly succeeds exactly when none of the nine passthrough values is empty. The template then has exactly 13 distinct keys in the source order. The names and the description sit under the four fixed keys, and each upper-cased key reads the request value under its lower-camel key. |
| `ReturnOperationProperties.TemplateDataNamesFirstEmptyKey` | php/v2/ReturnOperation.php:56-63 | Assembly fails naming `k` exactly when `k` is the first empty passthrough key in source order. A failure carries no template. |
| `ReturnOperationProperties.ValidatedIdsNeverMissing` | php/v2/ReturnOperation.php:56-62 | After validation passes, assembly can fail only on one of the six keys validation does not check. |
| `ReturnOperation.SendNotifications` | php/v2/ReturnOperation.php:85-105 | The in-place updates of `$result` return exactly the record and the channel calls that `Dispatch` specifies. |
| `ReturnOperationProperties.DispatchReportsChannelCalls` | php/v2/ReturnOperation.php:87-104 | The employee email flag is never set. The client email flag is true iff an email call was made and accepted. The SMS outcome is sent iff an SMS call was made and accepted, and carries the SMS text iff one was made. CHANGE makes exactly one email and one SMS call to the client, and the email body is the template's DIFFERENCES. Every other type makes no call. |
| `ReturnOperationProperties.DispatchChannelsIndependent` | php/v2/ReturnOperation.php:94-99 | The email outcome does not depend on the SMS service, and the SMS outcome does not depend on the email service. |
| `ReturnOperation.DoOperation` | php/v2/ReturnOperation.php:10-24 | The straight-line calls return exactly what `Run` specifies. |
| `ReturnOperationProperties.RunValidatesFirst` | php/v2/ReturnOperation.php:12-19 | A failed validation ends the run with its error, whatever the collaborators are. So no lookup or channel result can matter. |
| `ReturnOperationProperties.RunSucceedsIff` | php/v2/ReturnOperation.php:10-24 | The run succeeds exactly when validation passes, the client exists and, when the cast reseller id is non-zero, has that `Seller->id`, creator and expert exist with no tenant check, and no passthrough value is empty. |
| `ReturnOperationProperties.RunRejectsForeignClient` | php/v2/ReturnOperation.php:17-21 | A validated request whose client belongs to another reseller fails with the contractor error, before assembly. |
| `ReturnOperationProperties.RunLookupsBeforeTemplate` | php/v2/ReturnOperation.php:17-21 | A missing client, creator or expert fails with the contractor error, even when passthrough data is also missing. |
| `ReturnOperationProperties.RunRuntimeExceptionOnlyFromLookups` | php/v2/ReturnOperation.php:12-21 | A failed run throws a `RuntimeException` exactly when validation passed and then the client, creator or expert was missing, or the client failed the reseller check. Every other failure throws an `InvalidArgumentException`. |
| `ReturnOperationProperties.RunChangeNotifiesClient` | php/v2/ReturnOperation.php:15-23 | A successful run with `(int)` type CHANGE makes exactly these calls: an email to the client carrying the description, then the fixed SMS. It returns `false` for the employee, the email reply, and `{sms reply, "Your status has changed."}`. |
| `ReturnOperationProperties.RunOtherTypesSendNothing` | php/v2/ReturnOperation.php:15-23 | A successful run of any other `(int)` type, NEW included, makes no channel call and returns the initial record. |
| `ReturnOperationProperties.StringChangeTypeSendsEmptyBody` | php/v2/ReturnOperation.php:72-81 | A type given as a string that casts to 2 still sends the email, with an empty body. This is because the description compares the raw value and dispatch compares the cast one. |

## Left out

- Directory internals (`Contractor::getById`, `Employee::getById`): a partial function per kind in `Env`.
- `Status::getName`: a total function in `Env`. A status code with no name is not modelled.
- `EmailService::send` and `SmsService::send`: functions in `Env` that return the reply. Transport, and any exception it throws, are not modelled. The source does not catch such exceptions either.
- PHP's `(int)` cast of a string: the parameter `castString`. The cast of the other value kinds is modelled.
- General `strtoupper`: the nine upper-cased keys are written out, since the source keys are fixed ASCII.
- Floats and objects as request values, and integer array keys: not modelled.
- Reading an offset of a non-array `differences` value is taken to yield null. PHP's string-offset rules are not modelled.
- The `ReferencesOperation` base class and the `Contractor`/`Employee` classes: only the fields read are modelled (full name, `email`, `mobile`, `Seller->id`). A missing `Seller` is modelled as a null id. A PHP return-type mismatch between `Employee` and `Contractor` is not modelled.
- The unused `$resellerId` parameters of `prepareTemplateData`, `defineDifferences` and `sendNotifications` are not modelled.
- PHP warnings for reading absent keys are left out. Such a read yields null, as it does in PHP.
- Concurrency: the operation is sequential.
