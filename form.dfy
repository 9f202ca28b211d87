/** The form transport of the 0.2 client: every command is a dictionary of
    parameters POSTed to `/<namespace>.do`, after `send_command` has written
    the credentials into it. The parameter names the client uses form a
    fixed vocabulary, so they are modelled as an enumeration, each key
    carrying the name it is sent under. */
module Form {
  import opened Python

  /** The parameter names the client sends. */
  datatype Key =
    | Username | Password
    | Format | GetUser | Credits | Details
    | List | Status | Add | Delete | Default | ScheduledDelete
    | AddUser | SetUser | Pass | PassApi | Limit | MonthLimit | Senders | Phonebook | Active | Info
    | Message | Encoding | From | To | ToGroup | Flash | Test | DateValidate | Date | DataCoding
    | Idx | CheckIdx | Eco | NoUnicode | Normalize | Fast | PartnerId | MaxParts | ExpirationDate
  {
    /** The name the key is sent under. */
    function Name(): string {
      match this
      case Username => "username"
      case Password => "password"
      case Format => "format"
      case GetUser => "get_user"
      case Credits => "credits"
      case Details => "details"
      case List => "list"
      case Status => "status"
      case Add => "add"
      case Delete => "delete"
      case Default => "default"
      case ScheduledDelete => "sch_del"
      case AddUser => "add_user"
      case SetUser => "set_user"
      case Pass => "pass"
      case PassApi => "pass_api"
      case Limit => "limit"
      case MonthLimit => "month_limit"
      case Senders => "senders"
      case Phonebook => "phonebook"
      case Active => "active"
      case Info => "info"
      case Message => "message"
      case Encoding => "encoding"
      case From => "from"
      case To => "to"
      case ToGroup => "group"
      case Flash => "flash"
      case Test => "test"
      case DateValidate => "date_validate"
      case Date => "date"
      case DataCoding => "datacoding"
      case Idx => "idx"
      case CheckIdx => "check_idx"
      case Eco => "eco"
      case NoUnicode => "nounicode"
      case Normalize => "normalize"
      case Fast => "fast"
      case PartnerId => "partner_id"
      case MaxParts => "max_parts"
      case ExpirationDate => "expiration_date"
    }
  }

  type Params = map<Key, Value>

  /** The value the client sends for a flag that is set. */
  const Flag: Value := VInt(1)

  /** `key` is sent exactly when `present` holds, and then carries `value`. */
  predicate Sent(p: Params, key: Key, present: bool, value: Value) {
    (key in p <==> present) && (key in p ==> p[key] == value)
  }

  /** `if present: p[key] = value`. */
  function SetIf(p: Params, key: Key, present: bool, value: Value): Params {
    if present then p[key := value] else p
  }

  /** The namespaces commands are sent to. */
  datatype Namespace = User | Sender | Sms {
    function Name(): string {
      match this
      case User => "user"
      case Sender => "sender"
      case Sms => "sms"
    }
  }

  /** A form request: the namespace selects the path, the parameters are
      URL-encoded into the body. */
  datatype Request = Request(namespace: Namespace, params: Params) {
    function Path(): string { "/" + namespace.Name() + ".do" }
  }

  /** A Python parameter dictionary, which `send_command` updates in place. */
  class ParamDict {
    var items: Params

    constructor (items: Params)
      ensures this.items == items
    {
      this.items := items;
    }
  }

  /** The parameters after the credentials are merged in: `username` and
      `password` hold the client's values whatever the caller put there, and
      every other key is untouched. */
  function WithCredentials(params: Params, username: Value, passwordDigest: string): (r: Params)
    ensures r.Keys == params.Keys + {Username, Password}
    ensures r[Username] == username && r[Password] == VStr(passwordDigest)
    ensures forall k :: k in params && k != Username && k != Password ==> r[k] == params[k]
  {
    params[Username := username][Password := VStr(passwordDigest)]
  }

  /** `send_command`: writes the credentials into the caller's dictionary and
      yields the request that is POSTed. */
  method SendCommand(username: Value, passwordDigest: string, namespace: Namespace, params: ParamDict)
    returns (request: Request)
    modifies params
    ensures params.items == WithCredentials(old(params.items), username, passwordDigest)
    ensures request == Request(namespace, params.items)
  {
    params.items := params.items[Username := username];
    params.items := params.items[Password := VStr(passwordDigest)];
    request := Request(namespace, params.items);
  }
}
