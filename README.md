# python-smsapi in Dafny

A model of the translation layer of the python-smsapi client for the
smsapi.pl SMS gateway: what each call sends to the provider, and how it reads
the provider's answer. Two versions of the client are modelled side by side.

- `smsapi.py` (version 0.2, module `SmsApi`) sends form-encoded commands to
  the `user`, `sender` and `sms` namespaces over HTTPS. It also has a SOAP
  address book (`SmsApiAddressBook`).
- `smsapi/__init__.py` (version 0.1, module `SmsApiSoap`) speaks only SOAP.
  It has its own address book and a `send_sms` that fills an SMS record
  field by field.

The transport is outside the model. Every decoder takes the provider's answer
as an argument. For the form API that is the response text. For SOAP it is a
`SoapOutcome`: either a fault or a reply map.

Modules:

- `Python` (python.dfy): the Python values the client handles (None, bool,
  int, str, list, dict) and the exceptions it can raise. It also defines the
  operations the client applies to those values, each with its Python error
  cases: truthiness, `== 0`, subscripting, `int()`, `unicode()`/`str()`,
  `"%d"` and `in`. `MapEach` is the specification of an append loop that
  stops at the first exception.
- `Strings` (strings.dfy): `startswith`, `split`, `join` and
  `replace(pattern, "")`, with the split/join round trips.
- `Form` (form.dfy): the form parameters (`Key`, `Params`), the request that
  is sent, and `send_command`'s in-place credential merge.
- `AddressBook` (address_book.dfy): the group and number records both
  versions read out of a SOAP reply, and their append loops.
- `SmsApi` (smsapi.dfy): version 0.2.
- `SmsApiSoap` (smsapi_soap.dfy): version 0.1, plus lemmas that compare the
  two versions on the same reply.

The imperative parts of the source are modelled as imperative Dafny:

- `send_command` updates the caller's dictionary in place (`Form.ParamDict`).
- The `add_user`/`edit_user` and `send_sms` builders are sequences of
  conditional assignments. They are methods proved equal to a declarative
  description of the form.
- The decoding loops of `send_sms`, `get_groups` and `get_numbers` are
  `while` loops proved against `MapEach`.
- Version 0.1's `send_sms` fills a `SmsRecord` object field by field.

`params['month_limit']` in `add_user` and `edit_user` (smsapi.py:150-151
and 179-180) is a read, not an assignment. It reads a key nobody set, so a
truthy `month_limit` raises KeyError rather than being ignored or sent. The
model follows the code, and the issue is logged under Findings.

## Model

| member | source | states |
|---|---|---|
| Form.WithCredentials | smsapi.py:82-84 | after the merge, `username` and `password` hold the client's values whatever the caller supplied; every other key keeps its value and no other key is added |
| Form.SendCommand | smsapi.py:82-96 | the caller's dictionary itself is updated with the credentials, and the request posted to `/<namespace>.do` carries exactly that updated dictionary |
| SmsApi.NewBaseObject | smsapi.py:63-73 | construction succeeds exactly when the password is a string and building the SOAP client does not raise anything but the caught NameError of a missing suds. A non-string password raises TypeError; a failing WSDL fetch raises its own error out of the constructor. The object stores the username and the password's digest, and has a SOAP user exactly when the client was built |
| SmsApi.NewAddressBook | smsapi.py:343-347 | the address book exists exactly when the password is a string and the SOAP client was built; a failing WSDL fetch raises as for the base object, and without suds it raises "Suds not installed. Cannot use SmsApiAddressBook." |
| SmsApi.WithoutCredentialsRestores | smsapi.py:82-84 | stripping the merged credentials gives back the caller's form, when that form had none |
| SmsApi.CommandRequest | smsapi.py:118-256 | the fixed requests of get_user and get_points go to `user`, those of get_senders, get_sender_status, add_sender, delete_sender and set_default_sender to `sender`, and delete_scheduled_sms's (smsapi.py:332-334) to `sms`; none carries credentials before the merge, and each form reads back as its own command and argument |
| SmsApi.CommandRequestUnambiguous | smsapi.py:118-256 | each fixed-shape command sends a form that, once the credentials are stripped, identifies that command and its argument |
| SmsApi.CommandRequestWithCredentials | smsapi.py:82-84 | once the credentials are merged in, the form still identifies the command it came from |
| SmsApi.WithUserOptions | smsapi.py:148-159 | the optional user settings never add, drop or change a key outside limit, senders, phonebook, active and info |
| SmsApi.WithUserOptionsValues | smsapi.py:148-159 | each of limit, senders, phonebook, active and info is present exactly when its argument is truthy (or the key was already there); limit and info carry their value, the three permissions carry 1 |
| SmsApi.ApplyUserOptions | smsapi.py:146-159 | as written: a truthy `password_api` raises (AttributeError for a string, else TypeError); otherwise a truthy `month_limit` raises KeyError; success exactly when neither happens, with the settings of `WithUserOptions` |
| SmsApi.ApplyUserOptionsIntended | smsapi.py:146-151 | as intended: `pass_api` carries the digest of `password_api` and `month_limit` is sent when truthy; it fails only with TypeError, on a non-string `password_api`; every other key (the login, the password, limit, the permissions, info) is exactly as the code as written sends it, and with neither argument the whole form agrees |
| SmsApi.AddUserParams | smsapi.py:142-159 | `add_user` sends the login and the password digest plus the optional settings; a non-string password raises TypeError; it succeeds exactly when the password is a string and neither `password_api` nor `month_limit` is truthy |
| SmsApi.EditUserParams | smsapi.py:170-188 | `edit_user` sends the login, the password digest only when a password is given, and the optional settings; it succeeds exactly when any password given is a string and neither `password_api` nor `month_limit` is truthy |
| SmsApi.CheckOkPrefix | smsapi.py:162-163 | `add_user`, `edit_user`, `delete_sender` and `send_sms` accept a reply exactly when it starts with "OK"; otherwise they raise with the raw reply |
| SmsApi.CheckOkExact | smsapi.py:236-237 | `add_sender` and `set_default_sender` accept exactly the reply "OK"; otherwise they raise with the raw reply |
| SmsApi.DeleteScheduledResult | smsapi.py:335-337 | `delete_scheduled_sms` never raises on the reply; it returns true exactly when the reply is "OK" |
| SmsApi.OkChecksDiffer | smsapi.py:236-247 | every reply the exact check accepts passes the prefix check too, and "OK:1" passes only the prefix check |
| SmsApi.LoadJson | smsapi.py:217-220 | `get_senders` and `get_sender_status` return the decoded JSON unchanged, and raise with the raw reply exactly when it does not parse |
| SmsApi.DecodeUser | smsapi.py:124-136 | `get_user` succeeds exactly when the reply parses to a dict holding all seven keys; the permissions are "field equals 1" and the other fields are copied; an unparsable reply raises with the reply |
| SmsApi.ReadFloats | smsapi.py:203-208 | `float()` of fields 0 to 5, left to right: success exactly when all six exist and are numbers, giving them in order; IndexError exactly when a field is missing and every field before it is a number; otherwise ValueError |
| SmsApi.DecodePoints | smsapi.py:201-209 | `get_points` drops every "Points: ", splits on ';' and succeeds exactly when the first six fields exist and are numbers, taking them in order; a missing field raises IndexError, a non-number ValueError, whichever comes first |
| SmsApi.PointsErrorReply | smsapi.py:201-203 | the provider's error reply "ERROR:101" makes `get_points` raise ValueError at `float(response[0])` |
| SmsApi.PointsRoundTrip | smsapi.py:201-209 | a reply "Points: " followed by six numeric fields joined by ';' decodes to those six fields |
| SmsApi.When | smsapi.py:267-272 | a key guarded by `if arg:` is sent exactly when the argument is truthy, and then carries the given value |
| SmsApi.SmsForm | smsapi.py:263-266 | the form of `send_sms` always carries the message and `encoding` "utf-8", and no key outside the twenty `send_sms` can send |
| SmsApi.SmsEntry | smsapi.py:267-301 | per key, what `send_sms` assigns: the message and "utf-8" always; each switch as 1 when its argument is truthy; from, to, group, idx and partner_id as given when truthy; the two dates as their timestamps; "bin" for a truthy data coding; `max_parts` only when at most 6; and no key outside those twenty |
| SmsApi.SmsFormAt | smsapi.py:263-301 | each key of the form carries exactly what `send_sms` assigns to it |
| SmsApi.SmsFormSwitch | smsapi.py:273-295 | each on/off option is sent exactly when it is truthy, with value 1 |
| SmsApi.SmsFormPassed | smsapi.py:267-297 | sender, recipient, group, idx and partner id are sent exactly when truthy, with the value given |
| SmsApi.Stamp | smsapi.py:281 | a date entry exists exactly when the date is truthy and `time.mktime` converts it, and then holds the timestamp |
| SmsApi.SmsFormStamped | smsapi.py:279-301 | `date` and `expiration_date` are in the form exactly when truthy and convertible by mktime, as their timestamps |
| SmsApi.SmsFormCodingAndParts | smsapi.py:282-299 | `datacoding` is sent as "bin" exactly when requested; `max_parts` is sent exactly when truthy and at most 6 |
| SmsApi.SendSmsParams | smsapi.py:263-301 | building the form raises at the first of `time.mktime(date)` (line 281), `int(max_parts)` (line 298) and `time.mktime(expiration_date)` (line 301) that raises on a truthy argument, with that error; it succeeds exactly when none does, and is then the form above |
| SmsApi.SmsParamsDateValidated | smsapi.py:279-281 | in the posted parameters, `date_validate` is sent exactly when `date` is |
| SmsApi.SmsParamsStamped | smsapi.py:279-301 | in the posted parameters, `date` and `expiration_date` are present exactly when truthy, as their timestamps |
| SmsApi.SetAddressing | smsapi.py:267-272 | the sender, recipient and group assignments extend a form that agrees with `send_sms` on the earlier keys to one that agrees on these too |
| SmsApi.SetDeliveryFlags | smsapi.py:273-278 | the same, for flash, test and details |
| SmsApi.SetSchedule | smsapi.py:279-281 | the same, for date_validate and date; it fails exactly when `time.mktime(date)` raises on a truthy date, with that error |
| SmsApi.SetCoding | smsapi.py:282-285 | the same, for datacoding and idx |
| SmsApi.SetCheckFlags | smsapi.py:286-291 | the same, for check_idx, eco and nounicode |
| SmsApi.SetRouting | smsapi.py:292-297 | the same, for normalize, fast and partner_id |
| SmsApi.SetLimits | smsapi.py:298-301 | the same, for max_parts and expiration_date; it raises with `int(max_parts)`'s error when that raises on a truthy `max_parts`, else with `time.mktime(expiration_date)`'s when that raises on a truthy date, and succeeds exactly when neither does |
| SmsApi.BuildSmsParams | smsapi.py:263-301 | the sequence of conditional assignments of `send_sms` gives exactly the declared result: the form, or the first error among the two mktime calls and `int(max_parts)`, in source order |
| SmsApi.MaxPartsAboveLimitDropped | smsapi.py:298-299 | a `max_parts` of 7 is silently dropped: the form is built whenever the dates convert, and has no `max_parts` |
| SmsApi.ParseStatus | smsapi.py:311-316 | one outcome is read from ':'-fields 0, 1 and 2; it succeeds exactly when there are at least three fields and otherwise raises IndexError |
| SmsApi.StatusRoundTrip | smsapi.py:311-316 | an outcome written as status:id:cost reads back as itself |
| SmsApi.SendSmsResult | smsapi.py:302-324 | a reply not starting with "OK" raises with the reply; then `"," in recipient` may raise; with a comma, the result is one outcome per ';'-segment, stopping at the first that does not parse; without, a single outcome |
| SmsApi.DecodeSendSms | smsapi.py:303-324 | the reply loop of `send_sms` computes the declared decoding; a reply not starting with "OK" raises with the reply |
| SmsApi.SendSmsManyOutcomes | smsapi.py:307-317 | with a comma in the recipient, an accepted reply decodes exactly when every ';'-segment is an outcome, giving one outcome per segment, in order |
| SmsApi.SendSmsOneOutcome | smsapi.py:319-324 | without a comma, an accepted reply decodes exactly when the whole reply is an outcome, giving exactly that one outcome |
| SmsApi.SendSmsPathsAgree | smsapi.py:307-324 | a reply without ';' decodes the same whether or not the recipient has a comma |
| SmsApi.SendSmsWithoutRecipient | smsapi.py:307 | with no recipient (a send to a group), an accepted reply still ends in TypeError from `"," in None` |
| SmsApi.StatusLinesDecode | smsapi.py:308-316 | the lines of several outcomes with no separators in their fields decode to those outcomes, in order |
| SmsApi.SendSmsRoundTrip | smsapi.py:303-317 | a multi-recipient reply made of outcome lines joined by ';' decodes to exactly those outcomes, in order |
| SmsApi.SendSmsResultIntended | smsapi.py:307-317 | as intended for a send without a recipient: a refused reply raises with the reply, an accepted one is read segment by segment and can fail only with IndexError, never TypeError; with a recipient it is the reading as written |
| SmsApi.StatusesFailShort | smsapi.py:308-317 | reading ';'-segments as outcomes fails only with IndexError, from a segment with fewer than three ':'-fields |
| SmsApi.GroupSendRoundTrip | smsapi.py:307-317 | read as intended, a group send's reply of outcome lines joined by ';' decodes to exactly those outcomes, in order |
| SmsApi.SendSmsSingleRoundTrip | smsapi.py:319-324 | a single-recipient reply status:id:cost decodes to exactly that one outcome |
| SmsApi.SendSoapCommand | smsapi.py:102-113 | a fault raises; a reply whose `result` is present and not 0 raises with its description (KeyError when that is missing); any other reply is returned unchanged |
| SmsApi.GetGroups | smsapi.py:349-365 | `get_groups` propagates the command's error, returns None when the reply has no `groups`, and otherwise gives the decoded group list |
| SmsApi.AddGroup | smsapi.py:367-374 | `add_group` returns `group_id` exactly when the command succeeds and the key is present; without the key it raises "Couldn't add group" |
| SmsApi.DeleteGroup | smsapi.py:376-382 | `delete_group` raises on a bad id or a nonzero result; it succeeds exactly when the result is 0 and a description is present, and then always returns the dictionary with code 0, never True |
| SmsApi.DeleteGroupIntended | smsapi.py:376-382 | as the docstring promises: True whenever `int(id)` and the command succeed, and nothing else |
| SmsApi.DeleteGroupNeverTrue | smsapi.py:377-382 | as written, `delete_group` never returns True; wherever it succeeds, the intended version returns True |
| SmsApi.GetNumbers | smsapi.py:384-396 | `get_numbers` propagates the command's error, returns [] when the reply has no `numbers`, and otherwise gives the decoded number list |
| SmsApi.Acknowledged | smsapi.py:398-411 | `add_number` and `delete_number` return True exactly when the command does not raise, including for a reply with no `result` |
| AddressBook.EntriesOf | smsapi.py:358 | iterating a list visits its items; None, bools and ints raise TypeError |
| AddressBook.DecodeGroup | smsapi.py:359-364 | a group entry decodes exactly when `id`, `name`, `info` and `num_count` are present and convert; `id` and `num_count` go through `int()`, and `info` becomes the description |
| AddressBook.GroupsOf | smsapi.py:355-365 | no `groups` gives None; a list of entries gives, exactly when every entry converts, one group per entry in order |
| AddressBook.NumbersOf | smsapi.py:387-396 | no `numbers` gives []; a list of entries gives, exactly when every entry decodes, one record per entry in order |
| AddressBook.DecodeNumber | smsapi.py:391-395 | a number entry decodes exactly when it is a dict holding `name`, `number` and `group_id`, which are copied unchanged |
| AddressBook.CollectGroups | smsapi.py:355-365 | the group loop succeeds exactly when every entry converts, giving one group per entry in order; no `groups` gives None |
| AddressBook.CollectNumbers | smsapi.py:387-396 | the number loop succeeds exactly when every entry decodes, giving one record per entry in order; no `numbers` gives [] |
| AddressBook.GroupsFirstFailure | smsapi.py:357-364 | a failing group list fails with the error of the first entry that does not convert, and every earlier entry converts |
| SmsApiSoap.Call | smsapi/__init__.py:74-77 | a SOAP fault escapes as a WebFault; a reply is passed on unchanged |
| SmsApiSoap.GetGroups | smsapi/__init__.py:72-88 | with no result check, `get_groups` returns None when the reply has no `groups` and otherwise the decoded group list |
| SmsApiSoap.AddGroup | smsapi/__init__.py:90-97 | `add_group` returns `group_id` exactly when the reply has it, whatever the result code; otherwise it raises "Couldn't add group" |
| SmsApiSoap.DeleteGroup | smsapi/__init__.py:99-107 | `delete_group` returns True exactly when the result is 0; a nonzero result gives the dictionary of code and description without raising; a missing `result` or `description` raises KeyError |
| SmsApiSoap.Get | smsapi/__init__.py:114-115 | `response.get(key, default)` gives the value when present and the default otherwise |
| SmsApiSoap.NumbersFailureMessage | smsapi/__init__.py:112-116 | the failure message is `"%d: %s"` of the result (default -1) and the description (default ""); it fails when the code is not a number |
| SmsApiSoap.NumbersReply | smsapi/__init__.py:109-126 | `get_numbers` raises with the formatted message unless the result is 0; with result 0 it gives the number list ([] without `numbers`) |
| SmsApiSoap.GetNumbers | smsapi/__init__.py:109-126 | the append loop of `get_numbers` computes that decoding |
| SmsApiSoap.NumbersFailureCode | smsapi/__init__.py:112-116 | the failure message starts with the reply's result code in decimal, which `int()` reads back |
| SmsApiSoap.Confirmed | smsapi/__init__.py:135-145 | `add_number`/`delete_number` return True exactly when the reply's result is 0; otherwise, including a reply with no result, they raise their fixed message |
| SmsApiSoap.AddNumber | smsapi/__init__.py:135-138 | `add_number` refuses a reply whose result is not 0 with "Couldn't add number" |
| SmsApiSoap.DeleteNumber | smsapi/__init__.py:142-145 | `delete_number` refuses a reply whose result is not 0 with "Couldn't delete number" |
| SmsApiSoap.Bit | smsapi/__init__.py:163 | `1 if v else 0` is 1 exactly when `v` is truthy and 0 exactly when it is not |
| SmsApiSoap.SmsRecord.constructor | smsapi/__init__.py:159 | the factory's record starts with every field unset |
| SmsApiSoap.FillMessage | smsapi/__init__.py:160-165 | recipient, sender, message, params and idx are copied, eco becomes 1/0; no other field changes |
| SmsApiSoap.FillEncoding | smsapi/__init__.py:166-170 | single_message is 1, no_unicode and test become 1/0, datacoding is "bin" or None, partner_id is copied; no other field changes |
| SmsApiSoap.FillDelivery | smsapi/__init__.py:171-174 | priority becomes 1/0, udh and flash are copied, details is True; no other field changes |
| SmsApiSoap.FillSms | smsapi/__init__.py:159-174 | a fresh record carries every coerced field and no date |
| SmsApiSoap.PrepareSms | smsapi/__init__.py:159-180 | the record fails exactly when a truthy date cannot be stamped, with the stamping error wrapped; otherwise it carries every field, and the stamped date exactly when a date was given |
| SmsApiSoap.CarriedSwitches | smsapi/__init__.py:163-171 | in a filled record, eco, no_unicode and test are 1 exactly when requested, priority is 0 exactly when not, and datacoding is "bin" exactly when requested |
| SmsApiSoap.SmsReceipt | smsapi/__init__.py:182-187 | a reply with result 0 gives `int()` of the first response entry's id and the points; any other reply raises "Couldn't send SMS" |
| SmsApiSoap.SendSms | smsapi/__init__.py:155-187 | a date that cannot be stamped fails before anything is sent; otherwise the result is the reading of the reply |
| SmsApiSoap.SmsReceiptReadsId | smsapi/__init__.py:182-186 | a reply that accepts a message with a given id yields exactly that id and the reply's points |
| SmsApiSoap.DeleteGroupVersionsOnSuccess | smsapi/__init__.py:99-107 | on result 0, version 0.1 returns True while version 0.2 returns the dictionary with code 0 |
| SmsApiSoap.DeleteGroupVersionsOnRefusal | smsapi/__init__.py:102-107 | on a nonzero result, version 0.1 returns the dictionary while version 0.2 raises with the description |
| SmsApiSoap.NumbersVersions | smsapi/__init__.py:111-116 | with result 0 both versions read the same number list; a reply with no result or description is read by version 0.2 and refused by version 0.1 with "-1: " |
| SmsApiSoap.AcknowledgementVersions | smsapi/__init__.py:135-145 | a reply without a result confirms a number in version 0.2 and is refused by both `add_number` and `delete_number` in version 0.1 |

## Left out

- The HTTPS transport (smsapi.py:86-100): headers, the connection and the POST. `Form.SendCommand` yields the request, and each decoder takes the response text as an argument.
- URL encoding of the form and the UTF-8 encoding of the message (smsapi.py:96, 264): the message is opaque text, and a form is an unordered map.
- The suds SOAP client: WSDL fetch, `factory.create` of the `Client`, `Number` and `SMS` objects, and service dispatch (smsapi.py:69-80, 103-108; smsapi/__init__.py:58-66). What the service does with a call's arguments is not modelled; each SOAP operation takes the call's outcome as an argument.
- `hashlib.md5(...).hexdigest()` is the function parameter `digest`. `time.mktime` is the parameter `mktime` in version 0.2 and `stamp` in version 0.1. Both may fail on a given date, and where they fail is not modelled. `json.loads` is the argument `decoded`, with None where it raises ValueError.
- Byte strings, throughout the model: text is Unicode, and `VStr` stands for both Python 2 `str` and `unicode`. The implicit ASCII conversions that raise are not modelled. These are `startswith`, `replace` and `split` with `u"…"` arguments on a reply holding a non-ASCII byte (smsapi.py:162, 191, 201, 245, 303, 308, 311, 319), `hashlib.md5` of non-ASCII `unicode` (smsapi.py:66, 144, 174), and `unicode()` of non-ASCII bytes (smsapi.py:361-362; smsapi/__init__.py:84-85). Where these raise UnicodeDecodeError or UnicodeEncodeError, the contracts of `CheckOkPrefix`, `DecodePoints`, `SendSmsResult`, `NewBaseObject`, `AddUserParams`, `EditUserParams` and `DecodeGroup` promise success.
- Floating point, throughout the model: `Python.Value` has no floats. A JSON `1.0` in `get_user`'s `senders`, for example, cannot be expressed, though Python's `1.0 == 1` holds.
- SmsApi.DecodePoints: `float()` is the parameter `isFloat`, which says which texts it accepts; the numbers themselves are not computed, and the balances stay the text of the fields.
- The `"%.4f"` of the version 0.1 `send_sms` cost (smsapi/__init__.py:185) is left out; the points stay the reply's value.
- The version 0.1 `SmsApi.get_points` (smsapi/__init__.py:150-153): a SOAP call and a float format, with nothing else to model.
- `add_number` building the `Number` record with `str(number)` (smsapi.py:400-403; smsapi/__init__.py:130-133): only the reading of the reply is modelled.
- The text of `SmsApiException`: errors are the `Error` datatype. A `WebFault` caught by version 0.2 becomes `ApiError` of the fault's text.
- Python.Text: `unicode()` of a list or dict is modelled as TypeError, whereas Python renders it. Only None, bool, int and str convert.
- Python.ParseInt: `int()` of text accepts an optional '+' or '-' sign followed by decimal digits. Python 2 also accepts surrounding whitespace, which the model rejects.
- AddressBook.EntriesOf: iterating a dict is collapsed to "nothing when empty, else TypeError", because subscripting a key by a field name raises TypeError. Iteration order is not modelled.
- Version 0.2's `SmsApiBaseObject` keeps the SOAP user as a dictionary of username and password, not as a factory-created object.

## Findings

| source | as written | input that shows it | evidently intended | confidence | as-written member | corrected member |
|---|---|---|---|---|---|---|
| smsapi.py:150-151, 179-180 | `params['month_limit']` reads a key that was never set | `add_user("u", "p", month_limit=100)` raises KeyError('month_limit') | send the monthly limit: `params['month_limit'] = month_limit` | not executed | SmsApi.ApplyUserOptions | SmsApi.ApplyUserOptionsIntended |
| smsapi.py:146-147, 175-176 | `hashlib.md5(password_api).md5()` calls a method md5 objects lack | `add_user("u", "p", password_api="x")` raises AttributeError | send the hex digest: `hashlib.md5(password_api).hexdigest()` | not executed | SmsApi.ApplyUserOptions | SmsApi.ApplyUserOptionsIntended |
| smsapi.py:307 | `u"," in recipient` is evaluated even when `recipient` is None | `send_sms(u"hi", group="friends")` with an accepted reply raises TypeError after the message was sent | read the reply of a group send segment by segment, as for several recipients | not executed | SmsApi.SendSmsWithoutRecipient | SmsApi.SendSmsResultIntended |
| smsapi.py:377-382 | the docstring promises True for a deleted group; the code always returns the dictionary | a reply with result 0 and description "OK" gives `{'code': 0, 'description': 'OK'}`, never True | return True when the group was deleted, as version 0.1 does (smsapi/__init__.py:102-103) | not executed | SmsApi.DeleteGroupNeverTrue | SmsApi.DeleteGroupIntended |

`SmsApi.AddUserParams` and `SmsApi.EditUserParams` model `add_user` and
`edit_user` as written, so they carry both failures. `SmsApi.ApplyUserOptionsIntended`
states the corrected behaviour: the digest and the limit are both sent.
Likewise `SmsApi.DecodeSendSms` and `SmsApi.DeleteGroup` follow the code as
written. `SmsApi.GroupSendRoundTrip` proves the corrected reading of a group
send. `SmsApi.DeleteGroupIntended` returns what the docstring promises.
