/** `smsapi.py`, version 0.2 of the client: form-encoded commands POSTed to
    the provider (`user`, `sender` and `sms` namespaces) and the SOAP
    address book. Each operation is modelled as what it sends (a parameter
    dictionary) and how it reads the provider's answer (a text response or a
    SOAP outcome); the transport itself is outside the model, so every
    decoder takes the answer as an argument. */
module SmsApi {
  import opened Strings
  import opened Python
  import opened Form
  import opened AddressBook

  // ---------------------------------------------------------------------
  // Construction (SmsApiBaseObject, SmsApiAddressBook)

  /** A client's state after construction: the username, the md5 hex digest
      of the password, and the SOAP `Client` user object, which exists only
      when the SOAP library could be loaded. It never changes afterwards. */
  datatype BaseObject = BaseObject(username: Value, password: string, soapUser: Option<Value>)

  /** What `Client(WSDL_URL)` does when the constructor reaches it: the
      name is undefined because suds did not import (NameError, caught),
      fetching or reading the WSDL raises an exception that is not caught,
      or the client is built. */
  datatype SoapClient = NotInstalled | FetchFails(cause: Error) | Loaded

  /** `SmsApiBaseObject.__init__`: `digest` stands for
      `hashlib.md5(s).hexdigest()`, which raises TypeError on a non-string;
      only the NameError of a missing suds is caught around the SOAP client. */
  function NewBaseObject(username: Value, password: Value, digest: string -> string,
                         soap: SoapClient): (r: Result<BaseObject>)
    ensures r.Success? <==> password.VStr? && !soap.FetchFails?
    ensures !password.VStr? ==> r == Failure(TypeError)
    ensures password.VStr? && soap.FetchFails? ==> r == Failure(soap.cause)
    ensures r.Success? ==>
      && r.value.username == username
      && r.value.password == digest(password.s)
      && (r.value.soapUser.Some? <==> soap.Loaded?)
  {
    match password
    case VStr(s) =>
      var hash := digest(s);
      var user := VDict(map["username" := username, "password" := VStr(hash)]);
      (match soap
       case NotInstalled => Success(BaseObject(username, hash, None))
       case FetchFails(e) => Failure(e)
       case Loaded => Success(BaseObject(username, hash, Some(user))))
    case _ => Failure(TypeError)
  }

  /** `SmsApiAddressBook.__init__`: refuses to exist without a SOAP client. */
  function NewAddressBook(username: Value, password: Value, digest: string -> string,
                          soap: SoapClient): (r: Result<BaseObject>)
    ensures r.Success? <==> password.VStr? && soap.Loaded?
    ensures password.VStr? && soap.FetchFails? ==> r == Failure(soap.cause)
    ensures password.VStr? && soap.NotInstalled? ==>
      r == Failure(ApiError(VStr("Suds not installed. Cannot use SmsApiAddressBook.")))
    ensures r.Success? ==> r.value.soapUser.Some? && r.value.password == digest(password.s)
  {
    var base :- NewBaseObject(username, password, digest, soap);
    if base.soapUser.None? then
      Failure(ApiError(VStr("Suds not installed. Cannot use SmsApiAddressBook.")))
    else Success(base)
  }

  // ---------------------------------------------------------------------
  // Requests with a fixed shape

  /** The commands whose parameters do not depend on any condition. */
  datatype Command =
    | UserQuery(username: Value)
    | PointsQuery
    | SendersQuery
    | SenderStatusQuery(name: Value)
    | SenderAdd(name: Value)
    | SenderDelete(name: Value)
    | SenderSetDefault(name: Value)
    | ScheduledSmsDelete(id: Value)

  /** The namespace and parameters each of these commands sends: `get_user`
      and `get_points` go to `user`, `delete_scheduled_sms` to `sms`, the
      sender commands to `sender`; no form carries the credentials yet, and
      each form reads back as its own command. */
  function CommandRequest(c: Command): (r: Request)
    ensures r.namespace == if c.UserQuery? || c.PointsQuery? then User
                           else if c.ScheduledSmsDelete? then Sms else Sender
    ensures Username !in r.params && Password !in r.params
    ensures ReadCommand(r.namespace, r.params) == Some(c)
  {
    match c
    case UserQuery(u) => Request(User, map[GetUser := u, Format := VStr("json")])
    case PointsQuery => Request(User, map[Credits := Flag, Details := Flag])
    case SendersQuery => Request(Sender, map[List := Flag, Format := VStr("json")])
    case SenderStatusQuery(n) => Request(Sender, map[Status := n, Format := VStr("json")])
    case SenderAdd(n) => Request(Sender, map[Add := n])
    case SenderDelete(n) => Request(Sender, map[Delete := n])
    case SenderSetDefault(n) => Request(Sender, map[Default := n])
    case ScheduledSmsDelete(id) => Request(Sms, map[ScheduledDelete := id])
  }

  /** The form without the credentials. */
  function WithoutCredentials(params: Params): (p: Params)
    ensures p.Keys == params.Keys - {Username, Password}
    ensures forall k :: k in p ==> p[k] == params[k]
  {
    map k | k in params && k != Username && k != Password :: params[k]
  }

  /** The command a form carries: the key that only that command sends
      picks the candidate, which must then match in namespace, in its exact
      set of keys and in its fixed values. */
  function ReadCommand(ns: Namespace, p: Params): Option<Command> {
    if GetUser in p then
      if ns == User && p.Keys == {GetUser, Format} && p[Format] == VStr("json") then Some(UserQuery(p[GetUser])) else None
    else if Credits in p then
      if ns == User && p.Keys == {Credits, Details} && p[Credits] == Flag && p[Details] == Flag then Some(PointsQuery) else None
    else if List in p then
      if ns == Sender && p.Keys == {List, Format} && p[List] == Flag && p[Format] == VStr("json") then Some(SendersQuery) else None
    else if Status in p then
      if ns == Sender && p.Keys == {Status, Format} && p[Format] == VStr("json") then Some(SenderStatusQuery(p[Status])) else None
    else if Add in p then
      if ns == Sender && p.Keys == {Add} then Some(SenderAdd(p[Add])) else None
    else if Delete in p then
      if ns == Sender && p.Keys == {Delete} then Some(SenderDelete(p[Delete])) else None
    else if Default in p then
      if ns == Sender && p.Keys == {Default} then Some(SenderSetDefault(p[Default])) else None
    else if ScheduledDelete in p then
      if ns == Sms && p.Keys == {ScheduledDelete} then Some(ScheduledSmsDelete(p[ScheduledDelete])) else None
    else None
  }

  /** The command a request carries, ignoring the credentials. */
  function ParseCommand(req: Request): Option<Command> {
    ReadCommand(req.namespace, WithoutCredentials(req.params))
  }

  /** A form without credentials has none to strip. */
  lemma WithoutCredentialsUnchanged(params: Params)
    requires Username !in params && Password !in params
    ensures WithoutCredentials(params) == params
  {
    assert WithoutCredentials(params).Keys == params.Keys;
  }

  /** Each command's request identifies the command: no two commands send
      the same form. */
  lemma CommandRequestUnambiguous(c: Command)
    ensures ParseCommand(CommandRequest(c)) == Some(c)
  {
    WithoutCredentialsUnchanged(CommandRequest(c).params);
  }

  /** Merging the credentials into a form that lacks them leaves the same
      form once they are stripped again. */
  lemma WithoutCredentialsRestores(params: Params, username: Value, password: string)
    requires Username !in params && Password !in params
    ensures WithoutCredentials(WithCredentials(params, username, password)) == params
  {
    var merged := WithCredentials(params, username, password);
    assert WithoutCredentials(merged).Keys == params.Keys;
  }

  /** The credentials `send_command` merges in do not blur the command. */
  lemma CommandRequestWithCredentials(c: Command, base: BaseObject)
    ensures ParseCommand(Request(CommandRequest(c).namespace,
                                 WithCredentials(CommandRequest(c).params, base.username, base.password))) == Some(c)
  {
    var req := CommandRequest(c);
    WithoutCredentialsRestores(req.params, base.username, base.password);
  }

  // ---------------------------------------------------------------------
  // add_user and edit_user

  /** The keyword arguments `add_user` and `edit_user` share. */
  datatype UserSettings = UserSettings(passwordApi: Value, limit: Value, monthLimit: Value,
                                       allowSenders: Value, allowPhonebook: Value,
                                       isActive: Value, info: Value)

  /** The account settings that can be sent besides the login and password. */
  const OptionKeys: set<Key> := {Limit, Senders, Phonebook, Active, Info}

  /** The parameters with the optional settings written in: limit and info
      as given, the three permissions as the flag 1; nothing else changes. */
  function WithUserOptions(params: Params, s: UserSettings): (p: Params)
    ensures forall k :: k !in OptionKeys ==> (k in p <==> k in params)
    ensures forall k :: k in params && k !in OptionKeys ==> p[k] == params[k]
  {
    var p := SetIf(params, Limit, Truthy(s.limit), s.limit);
    var p := SetIf(p, Senders, Truthy(s.allowSenders), Flag);
    var p := SetIf(p, Phonebook, Truthy(s.allowPhonebook), Flag);
    var p := SetIf(p, Active, Truthy(s.isActive), Flag);
    SetIf(p, Info, Truthy(s.info), s.info)
  }

  /** The settings that are sent carry their values: limit and info as
      given, the three permissions as the flag 1. */
  lemma WithUserOptionsValues(params: Params, s: UserSettings)
    ensures var p := WithUserOptions(params, s);
      && (Limit in p <==> Truthy(s.limit) || Limit in params)
      && (Senders in p <==> Truthy(s.allowSenders) || Senders in params)
      && (Phonebook in p <==> Truthy(s.allowPhonebook) || Phonebook in params)
      && (Active in p <==> Truthy(s.isActive) || Active in params)
      && (Info in p <==> Truthy(s.info) || Info in params)
      && (Truthy(s.limit) ==> p[Limit] == s.limit)
      && (Truthy(s.allowSenders) ==> p[Senders] == Flag)
      && (Truthy(s.allowPhonebook) ==> p[Phonebook] == Flag)
      && (Truthy(s.isActive) ==> p[Active] == Flag)
      && (Truthy(s.info) ==> p[Info] == s.info)
  {
  }

  /** The exception `hashlib.md5(password_api).md5()` raises: md5 objects
      have no `md5` attribute, and md5 rejects a non-string. */
  function PasswordApiError(passwordApi: Value): Error {
    if passwordApi.VStr? then AttributeError else TypeError
  }

  /** The conditional assignments shared by `add_user` and `edit_user`, as
      written: a truthy `password_api` raises, and a truthy `month_limit`
      evaluates `params['month_limit']`, a read of a key nobody set, which
      raises KeyError instead of sending the limit. */
  method ApplyUserOptions(params: Params, s: UserSettings) returns (r: Result<Params>)
    ensures Truthy(s.passwordApi) ==> r == Failure(PasswordApiError(s.passwordApi))
    ensures !Truthy(s.passwordApi) && Truthy(s.monthLimit) && MonthLimit !in params ==>
      r == Failure(KeyError(VStr("month_limit")))
    ensures r.Success? <==> !Truthy(s.passwordApi) && (!Truthy(s.monthLimit) || MonthLimit in params)
    ensures r.Success? ==> r.value == WithUserOptions(params, s)
  {
    var p := params;
    if Truthy(s.passwordApi) {
      return Failure(PasswordApiError(s.passwordApi));
    }
    if Truthy(s.limit) {
      p := p[Limit := s.limit];
    }
    if Truthy(s.monthLimit) {
      if MonthLimit !in p {
        return Failure(KeyError(VStr("month_limit")));
      }
    }
    if Truthy(s.allowSenders) {
      p := p[Senders := Flag];
    }
    if Truthy(s.allowPhonebook) {
      p := p[Phonebook := Flag];
    }
    if Truthy(s.isActive) {
      p := p[Active := Flag];
    }
    if Truthy(s.info) {
      p := p[Info := s.info];
    }
    r := Success(p);
  }

  /** `a` and `b` hold the same keys with the same values, apart from `keys`. */
  predicate AgreeExcept(a: Params, b: Params, keys: set<Key>) {
    && (forall k :: k !in keys ==> (k in a <==> k in b))
    && (forall k :: k !in keys && k in a ==> a[k] == b[k])
  }

  /** Writing the settings into two parameter sets that differ only outside
      the settings keeps them differing only there. */
  lemma WithUserOptionsAgree(a: Params, b: Params, s: UserSettings, keys: set<Key>)
    requires AgreeExcept(a, b, keys) && keys !! OptionKeys
    ensures AgreeExcept(WithUserOptions(a, s), WithUserOptions(b, s), keys)
  {
  }

  /** The same assignments as evidently intended: `password_api` is sent as
      its hex digest and `month_limit` is sent when truthy, both besides the
      settings the code as written sends. */
  method ApplyUserOptionsIntended(params: Params, s: UserSettings, digest: string -> string)
    returns (r: Result<Params>)
    ensures r.Success? <==> !Truthy(s.passwordApi) || s.passwordApi.VStr?
    ensures r.Failure? ==> r.error == TypeError
    ensures r.Success? && Truthy(s.passwordApi) ==>
      PassApi in r.value && r.value[PassApi] == VStr(digest(s.passwordApi.s))
    ensures r.Success? && Truthy(s.monthLimit) ==>
      MonthLimit in r.value && r.value[MonthLimit] == s.monthLimit
    ensures !Truthy(s.passwordApi) && !Truthy(s.monthLimit) ==> r == Success(WithUserOptions(params, s))
    ensures r.Success? ==> (PassApi in r.value <==> Truthy(s.passwordApi) || PassApi in params)
    ensures r.Success? ==> (MonthLimit in r.value <==> Truthy(s.monthLimit) || MonthLimit in params)
    ensures r.Success? ==> AgreeExcept(r.value, WithUserOptions(params, s), {PassApi, MonthLimit})
  {
    var p := params;
    if Truthy(s.passwordApi) {
      if !s.passwordApi.VStr? {
        return Failure(TypeError);
      }
      p := p[PassApi := VStr(digest(s.passwordApi.s))];
    }
    if Truthy(s.monthLimit) {
      p := p[MonthLimit := s.monthLimit];
    }
    WithUserOptionsAgree(p, params, s, {PassApi, MonthLimit});
    r := Success(WithUserOptions(p, s));
  }

  /** The parameters of `add_user`: the new login and the digest of its
      password, then the optional settings. */
  method AddUserParams(username: Value, password: Value, s: UserSettings, digest: string -> string)
    returns (r: Result<Params>)
    ensures !password.VStr? ==> r == Failure(TypeError)
    ensures password.VStr? && Truthy(s.passwordApi) ==> r == Failure(PasswordApiError(s.passwordApi))
    ensures password.VStr? && !Truthy(s.passwordApi) && Truthy(s.monthLimit) ==>
      r == Failure(KeyError(VStr("month_limit")))
    ensures r.Success? <==> password.VStr? && !Truthy(s.passwordApi) && !Truthy(s.monthLimit)
    ensures r.Success? ==>
      r.value == WithUserOptions(map[AddUser := username, Pass := VStr(digest(password.s))], s)
  {
    if !password.VStr? {
      return Failure(TypeError);
    }
    var params := map[AddUser := username, Pass := VStr(digest(password.s))];
    r := ApplyUserOptions(params, s);
  }

  /** The parameters of `edit_user`: the login, the digest of a new password
      only when one is given, then the optional settings. */
  method EditUserParams(username: Value, password: Value, s: UserSettings, digest: string -> string)
    returns (r: Result<Params>)
    ensures Truthy(password) && !password.VStr? ==> r == Failure(TypeError)
    ensures r.Success? <==>
      (!Truthy(password) || password.VStr?) && !Truthy(s.passwordApi) && !Truthy(s.monthLimit)
    ensures r.Success? ==>
      r.value == WithUserOptions(if Truthy(password) then map[SetUser := username, Pass := VStr(digest(password.s))]
                                 else map[SetUser := username], s)
  {
    var params := map[SetUser := username];
    if Truthy(password) {
      if !password.VStr? {
        return Failure(TypeError);
      }
      params := params[Pass := VStr(digest(password.s))];
    }
    r := ApplyUserOptions(params, s);
  }

  /** Accepted replies of `add_user`, `edit_user`, `delete_sender` and
      `send_sms`: anything that starts with "OK". */
  function CheckOkPrefix(response: string): (r: Result<bool>)
    ensures r.Success? <==> StartsWith(response, "OK")
    ensures r.Success? ==> r.value
    ensures r.Failure? ==> r.error == ApiError(VStr(response))
  {
    if StartsWith(response, "OK") then Success(true) else Failure(ApiError(VStr(response)))
  }

  /** Accepted replies of `add_sender` and `set_default_sender`: exactly "OK". */
  function CheckOkExact(response: string): (r: Result<bool>)
    ensures r.Success? <==> response == "OK"
    ensures r.Success? ==> r.value
    ensures r.Failure? ==> r.error == ApiError(VStr(response))
  {
    if response == "OK" then Success(true) else Failure(ApiError(VStr(response)))
  }

  /** `delete_scheduled_sms` never raises on the reply: it reports whether
      the reply is exactly "OK". */
  function DeleteScheduledResult(response: string): (deleted: bool)
    ensures deleted <==> CheckOkExact(response).Success?
    ensures deleted ==> CheckOkPrefix(response).Success?
  {
    response == "OK"
  }

  /** Every reply the exact check accepts, the prefix check accepts too, but
      not the other way round: "OK:1" passes only the prefix check. */
  lemma OkChecksDiffer(response: string)
    ensures CheckOkExact(response).Success? ==> CheckOkPrefix(response).Success?
    ensures CheckOkPrefix("OK:1").Success? && !CheckOkExact("OK:1").Success?
  {
    assert "OK:1"[..2] == "OK";
  }

  // ---------------------------------------------------------------------
  // get_user, get_senders, get_sender_status

  /** `json.loads(response)`, with the parsing supplied by the caller:
      `decoded` is None where it raises ValueError, which the client turns
      into an error carrying the raw response. */
  function LoadJson(response: string, decoded: Option<Value>): (r: Result<Value>)
    ensures r.Success? <==> decoded.Some?
    ensures r.Success? ==> r.value == decoded.value
    ensures r.Failure? ==> r.error == ApiError(VStr(response))
  {
    match decoded
    case Some(data) => Success(data)
    case None => Failure(ApiError(VStr(response)))
  }

  /** The account record `get_user` returns. */
  datatype UserInfo = UserInfo(username: Value, limit: Value, monthLimit: Value,
                               allowSenders: bool, allowPhonebook: bool, isActive: bool,
                               info: Value)

  const UserKeys: set<string> :=
    {"username", "limit", "month_limit", "senders", "phonebook", "active", "info"}

  /** `get_user`'s decoding: every key must be present (a missing one raises
      KeyError, which is not caught), and the three permissions are "the
      field equals 1", so `true` counts and `"1"` does not. */
  function DecodeUser(response: string, decoded: Option<Value>): (r: Result<UserInfo>)
    ensures decoded.None? ==> r == Failure(ApiError(VStr(response)))
    ensures decoded.Some? && !decoded.value.VDict? ==> r == Failure(TypeError)
    ensures r.Success? <==> decoded.Some? && decoded.value.VDict? && UserKeys <= decoded.value.fields.Keys
    ensures r.Success? ==>
      var data := decoded.value.fields;
      && r.value.allowSenders == EqualsInt(data["senders"], 1)
      && r.value.allowPhonebook == EqualsInt(data["phonebook"], 1)
      && r.value.isActive == EqualsInt(data["active"], 1)
      && r.value.username == data["username"] && r.value.limit == data["limit"]
      && r.value.monthLimit == data["month_limit"] && r.value.info == data["info"]
  {
    var data :- LoadJson(response, decoded);
    var username :- Subscript(data, "username");
    var limit :- Subscript(data, "limit");
    var monthLimit :- Subscript(data, "month_limit");
    var senders :- Subscript(data, "senders");
    var phonebook :- Subscript(data, "phonebook");
    var active :- Subscript(data, "active");
    var info :- Subscript(data, "info");
    Success(UserInfo(username, limit, monthLimit, EqualsInt(senders, 1), EqualsInt(phonebook, 1),
                     EqualsInt(active, 1), info))
  }

  // ---------------------------------------------------------------------
  // get_points

  /** The six balances of `get_points`, as the text of each field. */
  datatype Points = Points(points: string, pro: string, eco: string, mms: string,
                           vmsGsm: string, vmsLand: string)

  function PointFields(p: Points): seq<string> {
    [p.points, p.pro, p.eco, p.mms, p.vmsGsm, p.vmsLand]
  }

  /** `float(fields[0])`, ..., `float(fields[n - 1])`, evaluated left to
      right; `isFloat` says which texts `float()` accepts. The first position
      that is missing raises IndexError, the first that is not a number
      ValueError, so IndexError means every field there is was a number. */
  function ReadFloats(fields: seq<string>, n: nat, isFloat: string -> bool): (r: Result<seq<string>>)
    requires n <= 6
    ensures r.Success? <==> |fields| >= n && forall k :: 0 <= k < n ==> isFloat(fields[k])
    ensures r.Success? ==> r.value == fields[..n]
    ensures r == Failure(IndexError) <==> |fields| < n && forall k :: 0 <= k < |fields| ==> isFloat(fields[k])
    ensures r.Failure? ==> r.error == IndexError || r.error == ValueError
    decreases n
  {
    if n == 0 then Success([])
    else
      var read :- ReadFloats(fields, n - 1, isFloat);
      if |fields| < n then Failure(IndexError)
      else if !isFloat(fields[n - 1]) then Failure(ValueError)
      else Success(read + [fields[n - 1]])
  }

  /** `get_points`' decoding: drop every "Points: ", split on ';', and read
      positions 0 to 5 with `float()`; a missing field raises IndexError,
      one that is not a number ValueError, extra fields are ignored. The
      balances are kept as the text `float()` accepted. */
  function DecodePoints(response: string, isFloat: string -> bool): (r: Result<Points>)
    ensures var fields := Split(RemoveAll(response, "Points: "), ';');
      && (r.Success? <==> |fields| >= 6 && forall k :: 0 <= k < 6 ==> isFloat(fields[k]))
      && (r.Success? ==> PointFields(r.value) == fields[..6])
      && (r == Failure(IndexError) <==> |fields| < 6 && forall k :: 0 <= k < |fields| ==> isFloat(fields[k]))
      && (r.Failure? ==> r.error == IndexError || r.error == ValueError)
  {
    var fields := Split(RemoveAll(response, "Points: "), ';');
    var read :- ReadFloats(fields, 6, isFloat);
    Success(Points(read[0], read[1], read[2], read[3], read[4], read[5]))
  }

  /** The provider's error reply "ERROR:101" has one field, which is not a
      number, so `get_points` raises ValueError at `float(response[0])`. */
  lemma PointsErrorReply(isFloat: string -> bool)
    requires !isFloat("ERROR:101")
    ensures DecodePoints("ERROR:101", isFloat) == Failure(ValueError)
  {
    AbsentFirstChar("Points: ", "ERROR:101");
    RemoveAllAbsent("ERROR:101", "Points: ");
    SplitWithoutSeparator("ERROR:101", ';');
  }

  /** The reply the provider sends for a balance: "Points: " and the six
      fields joined by ';'. */
  function PointsReply(p: Points): string {
    "Points: " + Join(PointFields(p), ';')
  }

  /** Decoding the provider's reply gives back the six balances, as long as
      every field is a number without a ';' and the fields do not spell
      "Points: ". */
  lemma PointsRoundTrip(p: Points, isFloat: string -> bool)
    requires forall k :: 0 <= k < 6 ==> ';' !in PointFields(p)[k] && isFloat(PointFields(p)[k])
    requires !Occurs("Points: ", Join(PointFields(p), ';'))
    ensures DecodePoints(PointsReply(p), isFloat) == Success(p)
  {
    var body := Join(PointFields(p), ';');
    RemoveAllLeading("Points: ", body);
    RemoveAllAbsent(body, "Points: ");
    SplitJoin(PointFields(p), ';');
  }

  // ---------------------------------------------------------------------
  // send_sms

  /** The keyword arguments of `send_sms` besides the message. */
  datatype SmsOptions = SmsOptions(
    senderName: Value, recipient: Value, group: Value, flash: Value, test: Value,
    getDetails: Value, date: Value, dataCoding: Value, idx: Value, checkIdx: Value, eco: Value,
    nounicode: Value, normalize: Value, fast: Value, partnerId: Value, maxParts: Value,
    expirationDate: Value)

  /** Every parameter `send_sms` can send. */
  const SendSmsKeys: set<Key> :=
    {Message, Encoding, From, To, ToGroup, Flash, Test, Details, DateValidate, Date, DataCoding,
     Idx, CheckIdx, Eco, NoUnicode, Normalize, Fast, PartnerId, MaxParts, ExpirationDate}

  /** `max_parts` is sent only when it is truthy and at most 6 as an integer. */
  predicate MaxPartsSent(o: SmsOptions) {
    Truthy(o.maxParts) && ToInt(o.maxParts).Success? && ToInt(o.maxParts).value <= 6
  }

  /** The switches of `send_sms`: the argument whose truth makes `key` go
      out as 1. A scheduled `date` also switches on `date_validate`. */
  function Switch(key: Key, o: SmsOptions): Option<Value> {
    match key
    case Flash => Some(o.flash)
    case Test => Some(o.test)
    case Details => Some(o.getDetails)
    case DateValidate => Some(o.date)
    case CheckIdx => Some(o.checkIdx)
    case Eco => Some(o.eco)
    case NoUnicode => Some(o.nounicode)
    case Normalize => Some(o.normalize)
    case Fast => Some(o.fast)
    case _ => None
  }

  /** The arguments `send_sms` passes on unchanged when they are truthy. */
  function Passed(key: Key, o: SmsOptions): Option<Value> {
    match key
    case From => Some(o.senderName)
    case To => Some(o.recipient)
    case ToGroup => Some(o.group)
    case Idx => Some(o.idx)
    case PartnerId => Some(o.partnerId)
    case _ => None
  }

  /** The dates `send_sms` sends as timestamps when they are truthy. */
  function Stamped(key: Key, o: SmsOptions): Option<Value> {
    match key
    case Date => Some(o.date)
    case ExpirationDate => Some(o.expirationDate)
    case _ => None
  }

  /** `value`, when `condition` is truthy. */
  function When(condition: Value, value: Value): (r: Option<Value>)
    ensures r.Some? <==> Truthy(condition)
    ensures r.Some? ==> r.value == value
  {
    if Truthy(condition) then Some(value) else None
  }

  /** `time.mktime(v)`, sent when `v` is truthy: `mktime` stands for the
      library call, which raises on anything but a time tuple in range. The
      entry exists only when the conversion succeeds; where it raises,
      `SendSmsParams` fails instead. */
  function Stamp(v: Value, mktime: Value -> Result<Value>): (r: Option<Value>)
    ensures r.Some? <==> Truthy(v) && mktime(v).Success?
    ensures r.Some? ==> mktime(v) == Success(r.value)
  {
    if Truthy(v) && mktime(v).Success? then Some(mktime(v).value) else None
  }

  /** What `send_sms` sends under `key`, if anything, one assignment of the
      source per key. The tables above classify the same keys; the lemmas
      below check the two descriptions against each other. */
  function SmsEntry(key: Key, message: string, o: SmsOptions, mktime: Value -> Result<Value>): (r: Option<Value>)
    ensures r.Some? ==> key in SendSmsKeys
    ensures key == Message ==> r == Some(VStr(message))
    ensures key == Encoding ==> r == Some(VStr("utf-8"))
    ensures Switch(key, o).Some? ==> r == When(Switch(key, o).value, Flag)
    ensures Passed(key, o).Some? ==> r == When(Passed(key, o).value, Passed(key, o).value)
    ensures Stamped(key, o).Some? ==> r == Stamp(Stamped(key, o).value, mktime)
    ensures key == DataCoding ==> r == When(o.dataCoding, VStr("bin"))
    ensures key == MaxParts ==> r == (if MaxPartsSent(o) then Some(o.maxParts) else None)
  {
    match key
    case Message => Some(VStr(message))
    case Encoding => Some(VStr("utf-8"))
    case From => When(o.senderName, o.senderName)
    case To => When(o.recipient, o.recipient)
    case ToGroup => When(o.group, o.group)
    case Flash => When(o.flash, Flag)
    case Test => When(o.test, Flag)
    case Details => When(o.getDetails, Flag)
    case DateValidate => When(o.date, Flag)
    case Date => Stamp(o.date, mktime)
    case DataCoding => When(o.dataCoding, VStr("bin"))
    case Idx => When(o.idx, o.idx)
    case CheckIdx => When(o.checkIdx, Flag)
    case Eco => When(o.eco, Flag)
    case NoUnicode => When(o.nounicode, Flag)
    case Normalize => When(o.normalize, Flag)
    case Fast => When(o.fast, Flag)
    case PartnerId => When(o.partnerId, o.partnerId)
    case MaxParts => if MaxPartsSent(o) then Some(o.maxParts) else None
    case ExpirationDate => Stamp(o.expirationDate, mktime)
    case _ => None
  }

  /** The form `send_sms` posts when it does not raise: the message and its
      encoding always, and nothing outside the keys it knows. */
  function SmsForm(message: string, o: SmsOptions, mktime: Value -> Result<Value>): (p: Params)
    ensures Message in p && p[Message] == VStr(message)
    ensures Encoding in p && p[Encoding] == VStr("utf-8")
    ensures p.Keys <= SendSmsKeys
  {
    map k | k in SendSmsKeys && SmsEntry(k, message, o, mktime).Some? :: SmsEntry(k, message, o, mktime).value
  }

  /** The form holds a key exactly when `SmsEntry` gives it a value, and
      then holds that value. */
  lemma SmsFormAt(key: Key, message: string, o: SmsOptions, mktime: Value -> Result<Value>)
    ensures var p := SmsForm(message, o, mktime);
      && (key in p <==> SmsEntry(key, message, o, mktime).Some?)
      && (key in p ==> Some(p[key]) == SmsEntry(key, message, o, mktime))
  {
  }

  /** A switch is sent, as 1, exactly when its argument is truthy. */
  lemma SmsFormSwitch(key: Key, message: string, o: SmsOptions, mktime: Value -> Result<Value>)
    requires Switch(key, o).Some?
    ensures Sent(SmsForm(message, o, mktime), key, Truthy(Switch(key, o).value), Flag)
  {
    SmsFormAt(key, message, o, mktime);
  }

  /** A passed-on argument is sent, as given, exactly when it is truthy. */
  lemma SmsFormPassed(key: Key, message: string, o: SmsOptions, mktime: Value -> Result<Value>)
    requires Passed(key, o).Some?
    ensures Sent(SmsForm(message, o, mktime), key, Truthy(Passed(key, o).value), Passed(key, o).value)
  {
    SmsFormAt(key, message, o, mktime);
  }

  /** A date is in the form, as its `mktime` timestamp, exactly when it is
      truthy and converts. */
  lemma SmsFormStamped(key: Key, message: string, o: SmsOptions, mktime: Value -> Result<Value>)
    requires Stamped(key, o).Some?
    ensures var form := SmsForm(message, o, mktime);
      && (key in form <==> Truthy(Stamped(key, o).value) && mktime(Stamped(key, o).value).Success?)
      && (key in form ==> mktime(Stamped(key, o).value) == Success(form[key]))
  {
    SmsFormAt(key, message, o, mktime);
  }

  /** Binary data coding is announced as "bin"; `max_parts` goes out only
      when it is at most 6. */
  lemma SmsFormCodingAndParts(message: string, o: SmsOptions, mktime: Value -> Result<Value>)
    ensures Sent(SmsForm(message, o, mktime), DataCoding, Truthy(o.dataCoding), VStr("bin"))
    ensures Sent(SmsForm(message, o, mktime), MaxParts, MaxPartsSent(o), o.maxParts)
  {
    SmsFormAt(DataCoding, message, o, mktime);
    SmsFormAt(MaxParts, message, o, mktime);
  }

  /** `time.mktime(v)` is evaluated, because `v` is truthy, and raises. */
  predicate StampFails(v: Value, mktime: Value -> Result<Value>) {
    Truthy(v) && mktime(v).Failure?
  }

  /** `int(max_parts)` is evaluated, because `max_parts` is truthy, and
      raises. */
  predicate PartsFail(o: SmsOptions) {
    Truthy(o.maxParts) && ToInt(o.maxParts).Failure?
  }

  /** The parameter building of `send_sms`, which raises before anything is
      sent at the first of: `time.mktime(date)`, `int(max_parts)`,
      `time.mktime(expiration_date)`, in that order. */
  function SendSmsParams(message: string, o: SmsOptions, mktime: Value -> Result<Value>): (r: Result<Params>)
    ensures StampFails(o.date, mktime) ==> r == Failure(mktime(o.date).error)
    ensures !StampFails(o.date, mktime) && PartsFail(o) ==> r == Failure(ToInt(o.maxParts).error)
    ensures !StampFails(o.date, mktime) && !PartsFail(o) && StampFails(o.expirationDate, mktime) ==>
      r == Failure(mktime(o.expirationDate).error)
    ensures r.Success? <==>
      !StampFails(o.date, mktime) && !PartsFail(o) && !StampFails(o.expirationDate, mktime)
    ensures r.Success? ==> r.value == SmsForm(message, o, mktime)
  {
    if StampFails(o.date, mktime) then Failure(mktime(o.date).error)
    else if PartsFail(o) then Failure(ToInt(o.maxParts).error)
    else if StampFails(o.expirationDate, mktime) then Failure(mktime(o.expirationDate).error)
    else Success(SmsForm(message, o, mktime))
  }

  /** A scheduled date brings its validation flag along: in the parameters
      `send_sms` posts, both are sent or neither. */
  lemma SmsParamsDateValidated(message: string, o: SmsOptions, mktime: Value -> Result<Value>)
    ensures var r := SendSmsParams(message, o, mktime);
      r.Success? ==> (Date in r.value <==> DateValidate in r.value)
  {
    SmsFormSwitch(DateValidate, message, o, mktime);
    SmsFormStamped(Date, message, o, mktime);
  }

  /** In the parameters `send_sms` posts, each date is present exactly when
      it is truthy, as its timestamp: a date that does not convert has
      made the call raise. */
  lemma SmsParamsStamped(key: Key, message: string, o: SmsOptions, mktime: Value -> Result<Value>)
    requires Stamped(key, o).Some?
    ensures var r := SendSmsParams(message, o, mktime);
      r.Success? ==>
        && (key in r.value <==> Truthy(Stamped(key, o).value))
        && (key in r.value ==> mktime(Stamped(key, o).value) == Success(r.value[key]))
  {
    SmsFormStamped(key, message, o, mktime);
  }

  // The same parameters built as `send_sms` builds them: one conditional
  // assignment after another. Each step is checked against `SmsEntry`
  // through `Agrees`, which counts how many of the keys, in the order
  // `send_sms` considers them, have been dealt with.

  /** The position of each key among `send_sms`' assignments; keys it never
      sends come last. */
  function Rank(k: Key): nat {
    match k
    case Message => 0
    case Encoding => 1
    case From => 2
    case To => 3
    case ToGroup => 4
    case Flash => 5
    case Test => 6
    case Details => 7
    case DateValidate => 8
    case Date => 9
    case DataCoding => 10
    case Idx => 11
    case CheckIdx => 12
    case Eco => 13
    case NoUnicode => 14
    case Normalize => 15
    case Fast => 16
    case PartnerId => 17
    case MaxParts => 18
    case ExpirationDate => 19
    case _ => 20
  }

  /** The key at each position among `send_sms`' assignments. */
  function KeyAt(n: nat): Key
    requires n < 20
  {
    match n
    case 0 => Message
    case 1 => Encoding
    case 2 => From
    case 3 => To
    case 4 => ToGroup
    case 5 => Flash
    case 6 => Test
    case 7 => Details
    case 8 => DateValidate
    case 9 => Date
    case 10 => DataCoding
    case 11 => Idx
    case 12 => CheckIdx
    case 13 => Eco
    case 14 => NoUnicode
    case 15 => Normalize
    case 16 => Fast
    case 17 => PartnerId
    case 18 => MaxParts
    case _ => ExpirationDate
  }

  /** Each key `send_sms` considers has its own position. */
  lemma RankKeyAt(k: Key)
    ensures Rank(k) < 20 ==> KeyAt(Rank(k)) == k
  {
  }

  /** `p` holds what `send_sms` sends under the first `n` keys it
      considers, and nothing under any later key. */
  predicate Agrees(p: Params, n: nat, message: string, o: SmsOptions, mktime: Value -> Result<Value>) {
    forall k {:trigger k in p} ::
      && (k in p <==> Rank(k) < n && SmsEntry(k, message, o, mktime).Some?)
      && (k in p ==> Some(p[k]) == SmsEntry(k, message, o, mktime))
  }

  /** The dictionary `send_sms` starts from covers the first two keys. */
  lemma AgreesStart(message: string, o: SmsOptions, mktime: Value -> Result<Value>)
    ensures Agrees(map[Message := VStr(message), Encoding := VStr("utf-8")], 2, message, o, mktime)
  {
  }

  /** Assigning `value` to `key` when `present` is the step `send_sms` takes
      after dealing with the first `n` keys, and leaves `m` dealt with. */
  predicate Step(p: Params, n: nat, m: nat, key: Key, present: bool, value: Value,
                 message: string, o: SmsOptions, mktime: Value -> Result<Value>) {
    && Rank(key) == n && m == n + 1 && Agrees(p, n, message, o, mktime)
    && SmsEntry(key, message, o, mktime) == if present then Some(value) else None
  }

  /** The assignment of the next key in order, made when its argument asks
      for it, keeps the parameters in agreement with the form. */
  lemma AgreesSet(p: Params, n: nat, m: nat, key: Key, present: bool, value: Value,
                  message: string, o: SmsOptions, mktime: Value -> Result<Value>)
    requires Step(p, n, m, key, present, value, message, o, mktime)
    ensures Agrees(SetIf(p, key, present, value), m, message, o, mktime)
  {
    var q := SetIf(p, key, present, value);
    forall k
      ensures k in q <==> Rank(k) < m && SmsEntry(k, message, o, mktime).Some?
      ensures k in q ==> Some(q[k]) == SmsEntry(k, message, o, mktime)
    {
      RankKeyAt(k);
      RankKeyAt(key);
      if k != key {
        assert k in q <==> k in p;
      }
    }
  }

  /** Agreement on every key the form can hold is the form itself. */
  lemma AgreesForm(p: Params, message: string, o: SmsOptions, mktime: Value -> Result<Value>)
    requires Agrees(p, 20, message, o, mktime)
    ensures p == SmsForm(message, o, mktime)
  {
    forall k
      ensures k in p <==> k in SmsForm(message, o, mktime)
    {
      SmsFormAt(k, message, o, mktime);
    }
    forall k | k in p
      ensures p[k] == SmsForm(message, o, mktime)[k]
    {
      SmsFormAt(k, message, o, mktime);
    }
  }

  /** Sender, recipient and group, passed on when truthy. */
  method SetAddressing(p: Params, message: string, o: SmsOptions, mktime: Value -> Result<Value>) returns (r: Params)
    requires Agrees(p, 2, message, o, mktime)
    ensures Agrees(r, 5, message, o, mktime)
  {
    AgreesSet(p, 2, 3, From, Truthy(o.senderName), o.senderName, message, o, mktime);
    r := SetIf(p, From, Truthy(o.senderName), o.senderName);
    AgreesSet(r, 3, 4, To, Truthy(o.recipient), o.recipient, message, o, mktime);
    r := SetIf(r, To, Truthy(o.recipient), o.recipient);
    AgreesSet(r, 4, 5, ToGroup, Truthy(o.group), o.group, message, o, mktime);
    r := SetIf(r, ToGroup, Truthy(o.group), o.group);
  }

  /** The flash, test and details switches. */
  method SetDeliveryFlags(p: Params, message: string, o: SmsOptions, mktime: Value -> Result<Value>) returns (r: Params)
    requires Agrees(p, 5, message, o, mktime)
    ensures Agrees(r, 8, message, o, mktime)
  {
    AgreesSet(p, 5, 6, Flash, Truthy(o.flash), Flag, message, o, mktime);
    r := SetIf(p, Flash, Truthy(o.flash), Flag);
    AgreesSet(r, 6, 7, Test, Truthy(o.test), Flag, message, o, mktime);
    r := SetIf(r, Test, Truthy(o.test), Flag);
    AgreesSet(r, 7, 8, Details, Truthy(o.getDetails), Flag, message, o, mktime);
    r := SetIf(r, Details, Truthy(o.getDetails), Flag);
  }

  /** A scheduled date, sent with its validation flag; `time.mktime(date)`
      may raise. */
  method SetSchedule(p: Params, message: string, o: SmsOptions, mktime: Value -> Result<Value>)
    returns (r: Result<Params>)
    requires Agrees(p, 8, message, o, mktime)
    ensures r.Failure? <==> StampFails(o.date, mktime)
    ensures r.Failure? ==> r.error == mktime(o.date).error
    ensures r.Success? ==> Agrees(r.value, 10, message, o, mktime)
  {
    var stamp := VNone;
    if Truthy(o.date) {
      var converted := mktime(o.date);
      if converted.Failure? {
        return Failure(converted.error);
      }
      stamp := converted.value;
    }
    AgreesSet(p, 8, 9, DateValidate, Truthy(o.date), Flag, message, o, mktime);
    var q := SetIf(p, DateValidate, Truthy(o.date), Flag);
    AgreesSet(q, 9, 10, Date, Truthy(o.date), stamp, message, o, mktime);
    q := SetIf(q, Date, Truthy(o.date), stamp);
    r := Success(q);
  }

  /** Binary data coding and the user's message id. */
  method SetCoding(p: Params, message: string, o: SmsOptions, mktime: Value -> Result<Value>) returns (r: Params)
    requires Agrees(p, 10, message, o, mktime)
    ensures Agrees(r, 12, message, o, mktime)
  {
    AgreesSet(p, 10, 11, DataCoding, Truthy(o.dataCoding), VStr("bin"), message, o, mktime);
    r := SetIf(p, DataCoding, Truthy(o.dataCoding), VStr("bin"));
    AgreesSet(r, 11, 12, Idx, Truthy(o.idx), o.idx, message, o, mktime);
    r := SetIf(r, Idx, Truthy(o.idx), o.idx);
  }

  /** The check_idx, eco and nounicode switches. */
  method SetCheckFlags(p: Params, message: string, o: SmsOptions, mktime: Value -> Result<Value>) returns (r: Params)
    requires Agrees(p, 12, message, o, mktime)
    ensures Agrees(r, 15, message, o, mktime)
  {
    AgreesSet(p, 12, 13, CheckIdx, Truthy(o.checkIdx), Flag, message, o, mktime);
    r := SetIf(p, CheckIdx, Truthy(o.checkIdx), Flag);
    AgreesSet(r, 13, 14, Eco, Truthy(o.eco), Flag, message, o, mktime);
    r := SetIf(r, Eco, Truthy(o.eco), Flag);
    AgreesSet(r, 14, 15, NoUnicode, Truthy(o.nounicode), Flag, message, o, mktime);
    r := SetIf(r, NoUnicode, Truthy(o.nounicode), Flag);
  }

  /** The normalize and fast switches and the partner id. */
  method SetRouting(p: Params, message: string, o: SmsOptions, mktime: Value -> Result<Value>) returns (r: Params)
    requires Agrees(p, 15, message, o, mktime)
    ensures Agrees(r, 18, message, o, mktime)
  {
    AgreesSet(p, 15, 16, Normalize, Truthy(o.normalize), Flag, message, o, mktime);
    r := SetIf(p, Normalize, Truthy(o.normalize), Flag);
    AgreesSet(r, 16, 17, Fast, Truthy(o.fast), Flag, message, o, mktime);
    r := SetIf(r, Fast, Truthy(o.fast), Flag);
    AgreesSet(r, 17, 18, PartnerId, Truthy(o.partnerId), o.partnerId, message, o, mktime);
    r := SetIf(r, PartnerId, Truthy(o.partnerId), o.partnerId);
  }

  /** The bounded `max_parts`, where `int()` may raise, and the expiration
      date, where `time.mktime` may raise. */
  method SetLimits(p: Params, message: string, o: SmsOptions, mktime: Value -> Result<Value>) returns (r: Result<Params>)
    requires Agrees(p, 18, message, o, mktime)
    ensures PartsFail(o) ==> r == Failure(ToInt(o.maxParts).error)
    ensures !PartsFail(o) && StampFails(o.expirationDate, mktime) ==>
      r == Failure(mktime(o.expirationDate).error)
    ensures r.Success? <==> !PartsFail(o) && !StampFails(o.expirationDate, mktime)
    ensures r.Success? ==> Agrees(r.value, 20, message, o, mktime)
  {
    var withinLimit := false;
    if Truthy(o.maxParts) {
      var parts := ToInt(o.maxParts);
      if parts.Failure? {
        return Failure(parts.error);
      }
      withinLimit := parts.value <= 6;
    }
    AgreesSet(p, 18, 19, MaxParts, withinLimit, o.maxParts, message, o, mktime);
    var q := SetIf(p, MaxParts, withinLimit, o.maxParts);
    var stamp := VNone;
    if Truthy(o.expirationDate) {
      var converted := mktime(o.expirationDate);
      if converted.Failure? {
        return Failure(converted.error);
      }
      stamp := converted.value;
    }
    AgreesSet(q, 19, 20, ExpirationDate, Truthy(o.expirationDate), stamp, message, o, mktime);
    q := SetIf(q, ExpirationDate, Truthy(o.expirationDate), stamp);
    r := Success(q);
  }

  /** The parameter building of `send_sms`, assignment by assignment, is
      the specified form, and raises exactly where it says. */
  method BuildSmsParams(message: string, o: SmsOptions, mktime: Value -> Result<Value>) returns (r: Result<Params>)
    ensures r == SendSmsParams(message, o, mktime)
  {
    var p := map[Message := VStr(message), Encoding := VStr("utf-8")];
    AgreesStart(message, o, mktime);
    p := SetAddressing(p, message, o, mktime);
    p := SetDeliveryFlags(p, message, o, mktime);
    var scheduled := SetSchedule(p, message, o, mktime);
    if scheduled.Failure? {
      return Failure(scheduled.error);
    }
    p := SetCoding(scheduled.value, message, o, mktime);
    p := SetCheckFlags(p, message, o, mktime);
    p := SetRouting(p, message, o, mktime);
    var limited := SetLimits(p, message, o, mktime);
    if limited.Failure? {
      return Failure(limited.error);
    }
    AgreesForm(limited.value, message, o, mktime);
    r := Success(limited.value);
  }

  /** A `max_parts` above 6 is dropped without an error, while one that is
      not a number at all raises: the limit is never reported. */
  lemma MaxPartsAboveLimitDropped(message: string, o: SmsOptions, mktime: Value -> Result<Value>)
    requires ToInt(o.maxParts) == Success(7)
    ensures SendSmsParams(message, o, mktime).Success? <==>
      !StampFails(o.date, mktime) && !StampFails(o.expirationDate, mktime)
    ensures SendSmsParams(message, o, mktime).Success? ==> MaxParts !in SendSmsParams(message, o, mktime).value
  {
  }


  /** One recipient's outcome in a `send_sms` reply. */
  datatype SmsStatus = SmsStatus(status: string, id: string, cost: string)

  /** The text of one outcome: status, id and cost joined by ':'. */
  function StatusLine(s: SmsStatus): string {
    Join([s.status, s.id, s.cost], ':')
  }

  /** One outcome read from its ':'-separated fields 0, 1 and 2; fewer than
      three fields raise IndexError, extra ones are ignored. */
  function ParseStatus(segment: string): (r: Result<SmsStatus>)
    ensures var fields := Split(segment, ':');
      && (r.Success? <==> |fields| >= 3)
      && (r.Success? ==> [r.value.status, r.value.id, r.value.cost] == fields[..3])
      && (r.Failure? ==> r.error == IndexError)
  {
    var fields := Split(segment, ':');
    if |fields| < 3 then Failure(IndexError)
    else Success(SmsStatus(fields[0], fields[1], fields[2]))
  }

  /** Reading an outcome's text gives the outcome back when no field holds
      a ':'. */
  lemma StatusRoundTrip(s: SmsStatus)
    requires ':' !in s.status && ':' !in s.id && ':' !in s.cost
    ensures ParseStatus(StatusLine(s)) == Success(s)
  {
    SplitJoin([s.status, s.id, s.cost], ':');
  }

  /** What `send_sms` makes of a reply: a reply not starting with "OK"
      raises with the reply; a recipient with a comma makes one outcome per
      ';'-separated segment of the whole reply, in order; otherwise the
      whole reply is one outcome. `"," in recipient` raises TypeError when
      there is no recipient (None), even though the message was sent. */
  function SendSmsResult(response: string, recipient: Value): (r: Result<seq<SmsStatus>>)
    ensures !StartsWith(response, "OK") ==> r == Failure(ApiError(VStr(response)))
    ensures StartsWith(response, "OK") && Contains(recipient, ",").Failure? ==>
      r == Failure(Contains(recipient, ",").error)
    ensures StartsWith(response, "OK") && Contains(recipient, ",") == Success(true) ==>
      r == MapEach(Split(response, ';'), ParseStatus)
    ensures r.Success? && Contains(recipient, ",") == Success(false) ==> |r.value| == 1
  {
    var _ :- CheckOkPrefix(response);
    var multiple :- Contains(recipient, ",");
    if multiple then MapEach(Split(response, ';'), ParseStatus)
    else
      var single :- ParseStatus(response);
      Success([single])
  }

  /** The decoding part of `send_sms`, with the append loop over segments. */
  method DecodeSendSms(response: string, recipient: Value) returns (r: Result<seq<SmsStatus>>)
    ensures r == SendSmsResult(response, recipient)
    ensures !StartsWith(response, "OK") ==> r == Failure(ApiError(VStr(response)))
  {
    if !StartsWith(response, "OK") {
      return Failure(ApiError(VStr(response)));
    }
    var multiple := Contains(recipient, ",");
    if multiple.Failure? {
      return Failure(multiple.error);
    }
    if !multiple.value {
      var single := ParseStatus(response);
      if single.Failure? {
        return Failure(single.error);
      }
      return Success([single.value]);
    }
    var dataList := Split(response, ';');
    var data: seq<SmsStatus> := [];
    var i := 0;
    while i < |dataList|
      invariant 0 <= i <= |dataList|
      invariant MapEach(dataList[..i], ParseStatus) == Success(data)
    {
      var status := ParseStatus(dataList[i]);
      assert dataList[..i + 1][..i] == dataList[..i];
      if status.Failure? {
        MapEachPrefixFailure(dataList, ParseStatus, i + 1);
        return Failure(status.error);
      }
      data := data + [status.value];
      i := i + 1;
    }
    assert dataList[..i] == dataList;
    r := Success(data);
  }

  /** With several recipients, an accepted reply decodes exactly when every
      ';'-segment is an outcome, into one outcome per segment, in order. */
  lemma SendSmsManyOutcomes(response: string, recipient: Value)
    requires StartsWith(response, "OK")
    requires Contains(recipient, ",") == Success(true)
    ensures SendSmsResult(response, recipient).Success? ==>
      forall k :: 0 <= k < |Split(response, ';')| ==> ParseStatus(Split(response, ';')[k]).Success?
    ensures (forall k :: 0 <= k < |Split(response, ';')| ==> ParseStatus(Split(response, ';')[k]).Success?) ==>
      SendSmsResult(response, recipient).Success?
    ensures SendSmsResult(response, recipient).Success? ==>
      |SendSmsResult(response, recipient).value| == |Split(response, ';')|
    ensures SendSmsResult(response, recipient).Success? ==>
      forall k :: 0 <= k < |Split(response, ';')| ==>
        ParseStatus(Split(response, ';')[k]) == Success(SendSmsResult(response, recipient).value[k])
  {
    var segments := Split(response, ';');
    var f := ParseStatus;
    assert SendSmsResult(response, recipient) == MapEach(segments, f);
    MapEachSucceeds(segments, f);
    if forall k :: 0 <= k < |segments| ==> ParseStatus(segments[k]).Success? {
      forall k | 0 <= k < |segments|
        ensures f(segments[k]).Success?
      {
        assert f(segments[k]) == ParseStatus(segments[k]);
      }
    } else {
      var k :| 0 <= k < |segments| && !ParseStatus(segments[k]).Success?;
      assert !f(segments[k]).Success?;
    }
    forall k | 0 <= k < |segments|
      ensures f(segments[k]) == ParseStatus(segments[k])
    {
    }
  }

  /** With one recipient, an accepted reply decodes exactly when the whole
      reply is an outcome, into that one outcome. */
  lemma SendSmsOneOutcome(response: string, recipient: Value)
    requires StartsWith(response, "OK")
    requires Contains(recipient, ",") == Success(false)
    ensures var r := SendSmsResult(response, recipient);
      && (r.Success? <==> ParseStatus(response).Success?)
      && (r.Success? ==> r.value == [ParseStatus(response).value])
  {
  }

  /** A reply with a single segment decodes the same on both paths, so the
      recipient's comma only matters once the reply holds several. */
  lemma SendSmsPathsAgree(response: string, many: Value, one: Value)
    requires ';' !in response
    requires Contains(many, ",") == Success(true) && Contains(one, ",") == Success(false)
    ensures SendSmsResult(response, many) == SendSmsResult(response, one)
  {
    SplitWithoutSeparator(response, ';');
    var single := [response];
    assert single[..0] == [];
    assert MapEach(single[..0], ParseStatus) == Success([]);
    if ParseStatus(response).Success? {
      assert [] + [ParseStatus(response).value] == [ParseStatus(response).value];
      assert MapEach(single, ParseStatus) == Success([ParseStatus(response).value]);
    } else {
      assert MapEach(single, ParseStatus) == Failure(ParseStatus(response).error);
    }
  }

  /** Without a recipient (`to=None`, as when sending to a group) an
      accepted reply still ends in TypeError, from `"," in None`. */
  lemma SendSmsWithoutRecipient(response: string)
    requires StartsWith(response, "OK")
    ensures SendSmsResult(response, VNone) == Failure(TypeError)
  {
  }

  /** The reading of the reply evidently intended when there is no
      recipient, as in a send to a group: each ';'-segment is one member's
      outcome, as for several recipients. With a recipient it is the
      reading as written. */
  function SendSmsResultIntended(response: string, recipient: Value): (r: Result<seq<SmsStatus>>)
    ensures !recipient.VNone? ==> r == SendSmsResult(response, recipient)
    ensures recipient.VNone? && !StartsWith(response, "OK") ==> r == Failure(ApiError(VStr(response)))
    ensures recipient.VNone? && StartsWith(response, "OK") ==> r == MapEach(Split(response, ';'), ParseStatus)
    ensures recipient.VNone? && r.Failure? ==> r.error != TypeError
    ensures recipient.VNone? && StartsWith(response, "OK") && r.Failure? ==> r.error == IndexError
  {
    if recipient.VNone? then
      var _ :- CheckOkPrefix(response);
      var segments := Split(response, ';');
      StatusesFailShort(segments);
      MapEach(segments, ParseStatus)
    else SendSmsResult(response, recipient)
  }

  /** Reading a list of segments as outcomes can only fail because some
      segment has fewer than three fields. */
  lemma StatusesFailShort(segments: seq<string>)
    ensures MapEach(segments, ParseStatus).Failure? ==> MapEach(segments, ParseStatus).error == IndexError
  {
    if MapEach(segments, ParseStatus).Failure? {
      MapEachFirstFailure(segments, ParseStatus);
    }
  }

  /** The fields of an outcome hold neither separator. */
  predicate PlainStatus(s: SmsStatus) {
    && ':' !in s.status && ':' !in s.id && ':' !in s.cost
    && ';' !in s.status && ';' !in s.id && ';' !in s.cost
  }

  /** The text of several outcomes, one line each. */
  function StatusLines(statuses: seq<SmsStatus>): seq<string> {
    seq(|statuses|, k requires 0 <= k < |statuses| => StatusLine(statuses[k]))
  }

  /** Reading the lines of several plain outcomes gives them all back, in
      order. */
  lemma {:induction false} StatusLinesDecode(statuses: seq<SmsStatus>)
    requires forall k :: 0 <= k < |statuses| ==> PlainStatus(statuses[k])
    ensures MapEach(StatusLines(statuses), ParseStatus) == Success(statuses)
    decreases |statuses|
  {
    if statuses != [] {
      var n := |statuses| - 1;
      var init := statuses[..n];
      StatusLinesDecode(init);
      StatusRoundTrip(statuses[n]);
      var lines := StatusLines(statuses);
      assert lines[..n] == StatusLines(init);
      assert init + [statuses[n]] == statuses;
    }
  }

  /** The provider's reply for several recipients, one outcome line each
      joined by ';', decodes to exactly those outcomes, in order, provided
      the first is accepted ("OK...") and the recipient list has a comma. */
  lemma SendSmsRoundTrip(statuses: seq<SmsStatus>, recipient: Value)
    requires |statuses| >= 1
    requires forall k :: 0 <= k < |statuses| ==> PlainStatus(statuses[k])
    requires StartsWith(statuses[0].status, "OK")
    requires Contains(recipient, ",") == Success(true)
    ensures SendSmsResult(Join(StatusLines(statuses), ';'), recipient) == Success(statuses)
  {
    var lines := StatusLines(statuses);
    forall k | 0 <= k < |lines|
      ensures ';' !in lines[k]
    {
      var s := statuses[k];
      JoinAvoids([s.status, s.id, s.cost], ':', ';');
    }
    SplitJoin(lines, ';');
    StatusLinesDecode(statuses);
    var first := statuses[0];
    JoinStartsWith([first.status, first.id, first.cost], ':', "OK");
    JoinStartsWith(lines, ';', "OK");
  }

  /** Read as intended, the reply to a group send, one outcome line per
      member joined by ';', decodes to exactly those outcomes, in order. */
  lemma GroupSendRoundTrip(statuses: seq<SmsStatus>)
    requires |statuses| >= 1
    requires forall k :: 0 <= k < |statuses| ==> PlainStatus(statuses[k])
    requires StartsWith(statuses[0].status, "OK")
    ensures SendSmsResultIntended(Join(StatusLines(statuses), ';'), VNone) == Success(statuses)
  {
    assert OccursAt(",", ",", 0);
    SendSmsRoundTrip(statuses, VStr(","));
  }

  /** With a single recipient the whole reply is one outcome. */
  lemma SendSmsSingleRoundTrip(s: SmsStatus, recipient: Value)
    requires ':' !in s.status && ':' !in s.id && ':' !in s.cost
    requires StartsWith(s.status, "OK")
    requires Contains(recipient, ",") == Success(false)
    ensures SendSmsResult(StatusLine(s), recipient) == Success([s])
  {
    StatusRoundTrip(s);
    JoinStartsWith([s.status, s.id, s.cost], ':', "OK");
  }

  // ---------------------------------------------------------------------
  // The SOAP address book (SmsApiAddressBook)

  /** `send_soap_command`: a fault raises with the fault; a reply whose
      `result` is present and not 0 raises with its `description` (KeyError
      when that is missing); any other reply is returned unchanged. */
  function SendSoapCommand(outcome: SoapOutcome): (r: Result<Reply>)
    ensures outcome.Fault? ==> r == Failure(ApiError(VStr(outcome.detail)))
    ensures outcome.Replied? ==>
      (r.Success? <==> "result" !in outcome.reply || EqualsInt(outcome.reply["result"], 0))
    ensures r.Success? ==> r.value == outcome.reply
    ensures outcome.Replied? && "result" in outcome.reply && !EqualsInt(outcome.reply["result"], 0) ==>
      r == Failure(if "description" in outcome.reply then ApiError(outcome.reply["description"])
                   else KeyError(VStr("description")))
  {
    match outcome
    case Fault(detail) => Failure(ApiError(VStr(detail)))
    case Replied(reply) =>
      if "result" in reply && !EqualsInt(reply["result"], 0) then
        var description :- Lookup(reply, "description");
        Failure(ApiError(description))
      else Success(reply)
  }

  /** `get_groups`: None when the reply has no `groups`, else one group per
      entry, in order. */
  method GetGroups(outcome: SoapOutcome) returns (r: Result<Option<seq<Group>>>)
    ensures SendSoapCommand(outcome).Failure? ==> r == Failure(SendSoapCommand(outcome).error)
    ensures SendSoapCommand(outcome).Success? ==> r == GroupsOf(outcome.reply)
    ensures SendSoapCommand(outcome).Success? && "groups" !in outcome.reply ==> r == Success(None)
  {
    var reply :- SendSoapCommand(outcome);
    r := CollectGroups(reply);
  }

  /** `add_group`: the reply's `group_id`, unconverted; without one the
      call raises "Couldn't add group". */
  function AddGroup(outcome: SoapOutcome): (r: Result<Value>)
    ensures r.Success? <==> SendSoapCommand(outcome).Success? && "group_id" in outcome.reply
    ensures r.Success? ==> r.value == outcome.reply["group_id"]
    ensures SendSoapCommand(outcome).Success? && "group_id" !in outcome.reply ==>
      r == Failure(ApiError(VStr("Couldn't add group")))
  {
    var reply :- SendSoapCommand(outcome);
    if "group_id" in reply then Success(reply["group_id"])
    else Failure(ApiError(VStr("Couldn't add group")))
  }

  /** `delete_group` in this version: `int(id)` is evaluated before the
      call, and the dictionary is returned whatever the reply says, never
      True. A nonzero result has already raised, so the dictionary always
      carries code 0; a reply without `result` or `description` raises
      KeyError. */
  function DeleteGroup(id: Value, outcome: SoapOutcome): (r: Result<GroupStatus>)
    ensures ToInt(id).Failure? ==> r == Failure(ToInt(id).error)
    ensures r.Success? <==>
      ToInt(id).Success? && outcome.Replied? && ResultIsZero(outcome.reply) && "description" in outcome.reply
    ensures r.Success? ==> r.value.StatusDict? && EqualsInt(r.value.code, 0)
    ensures r.Success? ==> r.value.description == outcome.reply["description"]
    ensures ToInt(id).Success? && outcome.Replied? && "result" !in outcome.reply ==>
      r == Failure(KeyError(VStr("result")))
  {
    var _ :- ToInt(id);
    var reply :- SendSoapCommand(outcome);
    var code :- Lookup(reply, "result");
    var description :- Lookup(reply, "description");
    Success(StatusDict(code, description))
  }

  /** `delete_group` as its docstring promises: True when the group was
      deleted. A refused deletion has already raised in
      `send_soap_command`, so True is the only result. */
  function DeleteGroupIntended(id: Value, outcome: SoapOutcome): (r: Result<GroupStatus>)
    ensures r.Success? ==> r.value == Deleted
    ensures r.Success? <==> ToInt(id).Success? && SendSoapCommand(outcome).Success?
    ensures ToInt(id).Failure? ==> r == Failure(ToInt(id).error)
  {
    var _ :- ToInt(id);
    var _ :- SendSoapCommand(outcome);
    Success(Deleted)
  }

  /** As written, `delete_group` never returns the True its docstring
      promises: wherever it succeeds, the intended version returns True and
      it returns the dictionary with code 0. */
  lemma DeleteGroupNeverTrue(id: Value, outcome: SoapOutcome)
    ensures DeleteGroup(id, outcome) != Success(Deleted)
    ensures DeleteGroup(id, outcome).Success? ==> DeleteGroupIntended(id, outcome) == Success(Deleted)
  {
  }

  /** `get_numbers`: an empty list when the reply has no `numbers`, else one
      record per entry, in order. */
  method GetNumbers(outcome: SoapOutcome) returns (r: Result<seq<NumberEntry>>)
    ensures SendSoapCommand(outcome).Failure? ==> r == Failure(SendSoapCommand(outcome).error)
    ensures SendSoapCommand(outcome).Success? ==> r == NumbersOf(outcome.reply)
    ensures SendSoapCommand(outcome).Success? && "numbers" !in outcome.reply ==> r == Success([])
  {
    var reply :- SendSoapCommand(outcome);
    r := CollectNumbers(reply);
  }

  /** `add_number` and `delete_number`: True whenever `send_soap_command`
      does not raise, including for a reply that has no `result` at all. */
  function Acknowledged(outcome: SoapOutcome): (r: Result<bool>)
    ensures r.Success? <==> outcome.Replied? && ("result" !in outcome.reply || ResultIsZero(outcome.reply))
    ensures r.Success? ==> r.value
  {
    var _ :- SendSoapCommand(outcome);
    Success(true)
  }
}
