/** `smsapi/__init__.py`, version 0.1 of the client, which speaks only SOAP.
    Its address book reads the same records as version 0.2 but checks the
    result code itself, call by call, and lets a SOAP fault escape as it
    is; its `send_sms` fills an SMS record field by field and reads the
    message id out of the reply. The SOAP service is outside the model:
    each operation takes what the call produced, a fault or a reply. */
module SmsApiSoap {
  import opened Strings
  import opened Python
  import opened AddressBook
  import SmsApi

  /** A call into the service: a fault escapes as `WebFault`, since this
      version does not catch it; a reply is read by the caller. */
  function Call(outcome: SoapOutcome): (r: Result<Reply>)
    ensures outcome.Fault? <==> r.Failure?
    ensures r.Failure? ==> r.error == WebFault(outcome.detail)
    ensures r.Success? ==> r.value == outcome.reply
  {
    match outcome
    case Fault(detail) => Failure(WebFault(detail))
    case Replied(reply) => Success(reply)
  }

  // ---------------------------------------------------------------------
  // SmsApiAddressBook

  /** `get_groups`: no result check; None when the reply has no `groups`,
      else one group per entry, in order. */
  method GetGroups(outcome: SoapOutcome) returns (r: Result<Option<seq<Group>>>)
    ensures outcome.Fault? ==> r == Failure(WebFault(outcome.detail))
    ensures outcome.Replied? ==> r == GroupsOf(outcome.reply)
    ensures outcome.Replied? && "groups" !in outcome.reply ==> r == Success(None)
  {
    var reply :- Call(outcome);
    r := CollectGroups(reply);
  }

  /** `add_group`: the reply's `group_id`, whatever the result code says;
      without one, "Couldn't add group". */
  function AddGroup(outcome: SoapOutcome): (r: Result<Value>)
    ensures outcome.Fault? ==> r == Failure(WebFault(outcome.detail))
    ensures r.Success? <==> outcome.Replied? && "group_id" in outcome.reply
    ensures r.Success? ==> r.value == outcome.reply["group_id"]
    ensures outcome.Replied? && "group_id" !in outcome.reply ==>
      r == Failure(ApiError(VStr("Couldn't add group")))
  {
    var reply :- Call(outcome);
    if "group_id" in reply then Success(reply["group_id"])
    else Failure(ApiError(VStr("Couldn't add group")))
  }

  /** `delete_group`: `int(id)` before the call; True when the result is 0,
      otherwise the dictionary of code and description, without raising,
      except KeyError when either is missing. */
  function DeleteGroup(id: Value, outcome: SoapOutcome): (r: Result<GroupStatus>)
    ensures ToInt(id).Failure? ==> r == Failure(ToInt(id).error)
    ensures ToInt(id).Success? && outcome.Fault? ==> r == Failure(WebFault(outcome.detail))
    ensures ToInt(id).Success? && outcome.Replied? ==>
      var reply := outcome.reply;
      && (ResultIsZero(reply) <==> r == Success(Deleted))
      && ("result" !in reply ==> r == Failure(KeyError(VStr("result"))))
      && ("result" in reply && !EqualsInt(reply["result"], 0) ==>
            r == if "description" in reply then Success(StatusDict(reply["result"], reply["description"]))
                 else Failure(KeyError(VStr("description"))))
  {
    var _ :- ToInt(id);
    var reply :- Call(outcome);
    if ResultIsZero(reply) then Success(Deleted)
    else
      var code :- Lookup(reply, "result");
      var description :- Lookup(reply, "description");
      Success(StatusDict(code, description))
  }

  /** `response.get(key, default)`. */
  function Get(reply: Reply, key: string, default: Value): (v: Value)
    ensures key in reply ==> v == reply[key]
    ensures key !in reply ==> v == default
  {
    if key in reply then reply[key] else default
  }

  /** The message `get_numbers` raises with, `"%d: %s"` of the result code
      (-1 when missing) and the description ("" when missing); a code that
      is not a number makes the formatting itself raise TypeError. */
  function NumbersFailureMessage(reply: Reply): (r: Result<string>)
    ensures var code := Get(reply, "result", VInt(-1));
      && (r.Success? <==> (code.VInt? || code.VBool?) && Text(Get(reply, "description", VStr(""))).Success?)
      && (r.Success? ==>
            r.value == FormatDecimal(code).value + ": " + Text(Get(reply, "description", VStr(""))).value)
  {
    var code :- FormatDecimal(Get(reply, "result", VInt(-1)));
    var description :- Text(Get(reply, "description", VStr("")));
    Success(code + ": " + description)
  }

  /** `get_numbers` in this version: a reply whose result is missing or not
      0 raises with the formatted code and description; otherwise the
      number list, empty when the reply has no `numbers`. */
  function NumbersReply(outcome: SoapOutcome): (r: Result<seq<NumberEntry>>)
    ensures outcome.Fault? ==> r == Failure(WebFault(outcome.detail))
    ensures outcome.Replied? && ResultIsZero(outcome.reply) ==> r == NumbersOf(outcome.reply)
    ensures outcome.Replied? && !ResultIsZero(outcome.reply) ==>
      r.Failure? &&
      (NumbersFailureMessage(outcome.reply).Success? ==>
         r.error == ApiError(VStr(NumbersFailureMessage(outcome.reply).value)))
  {
    var reply :- Call(outcome);
    if !ResultIsZero(reply) then
      var message :- NumbersFailureMessage(reply);
      Failure(ApiError(VStr(message)))
    else NumbersOf(reply)
  }

  /** `get_numbers`, with its append loop. */
  method GetNumbers(outcome: SoapOutcome) returns (r: Result<seq<NumberEntry>>)
    ensures r == NumbersReply(outcome)
  {
    var reply :- Call(outcome);
    if !ResultIsZero(reply) {
      var message :- NumbersFailureMessage(reply);
      return Failure(ApiError(VStr(message)));
    }
    r := CollectNumbers(reply);
  }

  /** The result code in the message of `get_numbers` reads back: the text
      before the first ':' is the decimal code, so `int()` of it gives the
      code the reply carried. */
  lemma NumbersFailureCode(reply: Reply, code: int, description: string)
    requires "result" in reply && reply["result"] == VInt(code) && code != 0
    requires "description" in reply && reply["description"] == VStr(description)
    ensures NumbersFailureMessage(reply).Success?
    ensures ParseInt(Split(NumbersFailureMessage(reply).value, ':')[0]) == Some(code)
  {
    var text := IntText(code);
    var message := NumbersFailureMessage(reply).value;
    assert message == text + [':'] + (" " + description);
    if code < 0 {
      NatTextDigits(-code);
      assert forall k :: 1 <= k < |text| ==> text[k] == NatText(-code)[k - 1];
    } else {
      NatTextDigits(code);
    }
    assert ':' !in text;
    SplitAfterPiece(text, " " + description, ':');
    IntTextRoundTrip(code);
  }

  /** `add_number` and `delete_number`: True when the result is 0,
      otherwise the fixed message; a reply without `result` fails too. */
  function Confirmed(outcome: SoapOutcome, message: string): (r: Result<bool>)
    ensures outcome.Fault? ==> r == Failure(WebFault(outcome.detail))
    ensures r.Success? <==> outcome.Replied? && ResultIsZero(outcome.reply)
    ensures r.Success? ==> r.value
    ensures outcome.Replied? && !ResultIsZero(outcome.reply) ==> r == Failure(ApiError(VStr(message)))
  {
    var reply :- Call(outcome);
    if ResultIsZero(reply) then Success(true) else Failure(ApiError(VStr(message)))
  }

  function AddNumber(outcome: SoapOutcome): (r: Result<bool>)
    ensures r == Confirmed(outcome, "Couldn't add number")
    ensures outcome.Replied? && !ResultIsZero(outcome.reply) ==>
      r == Failure(ApiError(VStr("Couldn't add number")))
  {
    Confirmed(outcome, "Couldn't add number")
  }

  function DeleteNumber(outcome: SoapOutcome): (r: Result<bool>)
    ensures r == Confirmed(outcome, "Couldn't delete number")
    ensures outcome.Replied? && !ResultIsZero(outcome.reply) ==>
      r == Failure(ApiError(VStr("Couldn't delete number")))
  {
    Confirmed(outcome, "Couldn't delete number")
  }

  // ---------------------------------------------------------------------
  // SmsApi.send_sms

  /** The arguments of `send_sms`. */
  datatype SmsArguments = SmsArguments(
    recipient: Value, sender: Value, message: Value, eco: Value, dateSend: Value,
    params: Value, idx: Value, noUnicode: Value, datacoding: Value, partnerId: Value,
    test: Value, priority: Value, udh: Value, flash: Value)

  /** `1 if v else 0`. */
  function Bit(v: Value): (b: Value)
    ensures b == VInt(1) <==> Truthy(v)
    ensures b == VInt(0) <==> !Truthy(v)
  {
    if Truthy(v) then VInt(1) else VInt(0)
  }

  /** The SMS record the service receives, created empty by the SOAP
      factory and filled in by `send_sms`. `dateSend` is None while the
      attribute is unset. */
  class SmsRecord {
    var recipient: Value
    var sender: Value
    var message: Value
    var eco: Value
    var params: Value
    var idx: Value
    var singleMessage: Value
    var noUnicode: Value
    var datacoding: Value
    var partnerId: Value
    var test: Value
    var priority: Value
    var udh: Value
    var flash: Value
    var details: Value
    var dateSend: Option<Value>

    constructor ()
      ensures recipient == VNone && sender == VNone && message == VNone && eco == VNone
      ensures params == VNone && idx == VNone && singleMessage == VNone && noUnicode == VNone
      ensures datacoding == VNone && partnerId == VNone && test == VNone && priority == VNone
      ensures udh == VNone && flash == VNone && details == VNone && dateSend == None
    {
      recipient, sender, message, eco := VNone, VNone, VNone, VNone;
      params, idx, singleMessage, noUnicode := VNone, VNone, VNone, VNone;
      datacoding, partnerId, test, priority := VNone, VNone, VNone, VNone;
      udh, flash, details, dateSend := VNone, VNone, VNone, None;
    }

    /** The first six assignments of `send_sms`: the addressing, the
        text and its parameters are copied, `eco` becomes 1 or 0. */
    predicate CarriesMessage(a: SmsArguments)
      reads this
    {
      && recipient == a.recipient && sender == a.sender && message == a.message
      && eco == Bit(a.eco) && params == a.params && idx == a.idx
    }

    /** The next five: one message, `no_unicode` and `test` as 1 or 0,
        binary data coding as "bin" or None, the partner copied. */
    predicate CarriesEncoding(a: SmsArguments)
      reads this
    {
      && singleMessage == VInt(1) && noUnicode == Bit(a.noUnicode)
      && datacoding == (if Truthy(a.datacoding) then VStr("bin") else VNone)
      && partnerId == a.partnerId && test == Bit(a.test)
    }

    /** The last four: `priority` as 1 or 0, `udh` and `flash` copied,
        details always asked for. */
    predicate CarriesDelivery(a: SmsArguments)
      reads this
    {
      priority == Bit(a.priority) && udh == a.udh && flash == a.flash && details == VBool(true)
    }

    /** The record holds everything `send_sms` writes for `a`, apart from
        the date. */
    predicate Carries(a: SmsArguments)
      reads this
    {
      CarriesMessage(a) && CarriesEncoding(a) && CarriesDelivery(a)
    }
  }

  method FillMessage(sms: SmsRecord, a: SmsArguments)
    modifies sms
    ensures sms.CarriesMessage(a)
    ensures sms.singleMessage == old(sms.singleMessage) && sms.noUnicode == old(sms.noUnicode)
    ensures sms.datacoding == old(sms.datacoding) && sms.partnerId == old(sms.partnerId)
    ensures sms.test == old(sms.test) && sms.priority == old(sms.priority) && sms.udh == old(sms.udh)
    ensures sms.flash == old(sms.flash) && sms.details == old(sms.details) && sms.dateSend == old(sms.dateSend)
  {
    sms.recipient := a.recipient;
    sms.sender := a.sender;
    sms.message := a.message;
    sms.eco := Bit(a.eco);
    sms.params := a.params;
    sms.idx := a.idx;
  }

  method FillEncoding(sms: SmsRecord, a: SmsArguments)
    modifies sms
    ensures sms.CarriesEncoding(a)
    ensures sms.recipient == old(sms.recipient) && sms.sender == old(sms.sender)
    ensures sms.message == old(sms.message) && sms.eco == old(sms.eco)
    ensures sms.params == old(sms.params) && sms.idx == old(sms.idx) && sms.priority == old(sms.priority)
    ensures sms.udh == old(sms.udh) && sms.flash == old(sms.flash)
    ensures sms.details == old(sms.details) && sms.dateSend == old(sms.dateSend)
  {
    sms.singleMessage := VInt(1);
    sms.noUnicode := Bit(a.noUnicode);
    sms.datacoding := if Truthy(a.datacoding) then VStr("bin") else VNone;
    sms.partnerId := a.partnerId;
    sms.test := Bit(a.test);
  }

  method FillDelivery(sms: SmsRecord, a: SmsArguments)
    modifies sms
    ensures sms.CarriesDelivery(a)
    ensures sms.recipient == old(sms.recipient) && sms.sender == old(sms.sender)
    ensures sms.message == old(sms.message) && sms.eco == old(sms.eco)
    ensures sms.params == old(sms.params) && sms.idx == old(sms.idx)
    ensures sms.singleMessage == old(sms.singleMessage) && sms.noUnicode == old(sms.noUnicode)
    ensures sms.datacoding == old(sms.datacoding) && sms.partnerId == old(sms.partnerId)
    ensures sms.test == old(sms.test) && sms.dateSend == old(sms.dateSend)
  {
    sms.priority := Bit(a.priority);
    sms.udh := a.udh;
    sms.flash := a.flash;
    sms.details := VBool(true);
  }

  /** The factory's empty record, filled in by the assignments of
      `send_sms`, in its order. */
  method FillSms(a: SmsArguments) returns (sms: SmsRecord)
    ensures fresh(sms)
    ensures sms.Carries(a) && sms.dateSend == None
  {
    sms := new SmsRecord();
    FillMessage(sms, a);
    FillEncoding(sms, a);
    FillDelivery(sms, a);
  }

  /** The record of `send_sms`, with the date: a truthy `date_send` is
      stamped by `stamp` (standing for `time.mktime(date_send.timetuple())`);
      whatever that raises comes back wrapped in the client's exception. */
  method PrepareSms(a: SmsArguments, stamp: Value -> Result<Value>) returns (r: Result<SmsRecord>)
    ensures r.Failure? <==> Truthy(a.dateSend) && stamp(a.dateSend).Failure?
    ensures r.Failure? ==> r.error == Wrapped(stamp(a.dateSend).error)
    ensures r.Success? ==> fresh(r.value) && r.value.Carries(a)
    ensures r.Success? ==>
      r.value.dateSend == if Truthy(a.dateSend) then Some(stamp(a.dateSend).value) else None
  {
    var sms := FillSms(a);
    if Truthy(a.dateSend) {
      var stamped := stamp(a.dateSend);
      if stamped.Failure? {
        return Failure(Wrapped(stamped.error));
      }
      sms.dateSend := Some(stamped.value);
    }
    r := Success(sms);
  }

  /** The switches of a record are set exactly when their argument is
      truthy, and are 0 otherwise. */
  lemma CarriedSwitches(sms: SmsRecord, a: SmsArguments)
    requires sms.Carries(a)
    ensures sms.eco == VInt(1) <==> Truthy(a.eco)
    ensures sms.noUnicode == VInt(1) <==> Truthy(a.noUnicode)
    ensures sms.test == VInt(1) <==> Truthy(a.test)
    ensures sms.priority == VInt(0) <==> !Truthy(a.priority)
    ensures sms.datacoding == VStr("bin") <==> Truthy(a.datacoding)
  {
  }

  /** What `send_sms` returns: the message id, and the points the reply
      reports (formatted with `"%.4f"`, which is not modelled). */
  datatype Receipt = Receipt(smsId: int, points: Value)

  /** `send_sms`' reading of the reply: with result 0, `int()` of the `id`
      of the first entry of `response`, then `points`; any other reply
      raises "Couldn't send SMS". */
  function SmsReceipt(outcome: SoapOutcome): (r: Result<Receipt>)
    ensures outcome.Fault? ==> r == Failure(WebFault(outcome.detail))
    ensures outcome.Replied? && !ResultIsZero(outcome.reply) ==>
      r == Failure(ApiError(VStr("Couldn't send SMS")))
    ensures r.Success? ==>
      && outcome.Replied? && ResultIsZero(outcome.reply)
      && "response" in outcome.reply && outcome.reply["response"].VList?
      && |outcome.reply["response"].items| > 0
      && var first := outcome.reply["response"].items[0];
         && first.VDict? && "id" in first.fields
         && ToInt(first.fields["id"]) == Success(r.value.smsId)
         && "points" in outcome.reply && r.value.points == outcome.reply["points"]
  {
    var reply :- Call(outcome);
    if ResultIsZero(reply) then
      var entries :- Lookup(reply, "response");
      var first :- Index(entries, 0);
      var id :- Subscript(first, "id");
      var smsId :- ToInt(id);
      var points :- Lookup(reply, "points");
      Success(Receipt(smsId, points))
    else Failure(ApiError(VStr("Couldn't send SMS")))
  }

  /** `send_sms`: the record is prepared first, so a date that cannot be
      stamped fails before anything is sent; then the reply is read. */
  method SendSms(a: SmsArguments, stamp: Value -> Result<Value>, outcome: SoapOutcome)
    returns (r: Result<Receipt>)
    ensures Truthy(a.dateSend) && stamp(a.dateSend).Failure? ==> r == Failure(Wrapped(stamp(a.dateSend).error))
    ensures !(Truthy(a.dateSend) && stamp(a.dateSend).Failure?) ==> r == SmsReceipt(outcome)
  {
    var sms := PrepareSms(a, stamp);
    if sms.Failure? {
      return Failure(sms.error);
    }
    r := SmsReceipt(outcome);
  }

  /** A reply that accepts the message with id `id` yields that id. */
  lemma SmsReceiptReadsId(id: int, points: Value, rest: Reply)
    ensures var entry := VDict(map["id" := VStr(IntText(id))]);
      var reply := rest["result" := VInt(0)]["response" := VList([entry])]["points" := points];
      SmsReceipt(Replied(reply)) == Success(Receipt(id, points))
  {
    IntTextRoundTrip(id);
  }

  // ---------------------------------------------------------------------
  // How the two versions differ on the same reply

  /** On a successful deletion version 0.1 returns True, while version 0.2
      returns the dictionary with code 0. */
  lemma DeleteGroupVersionsOnSuccess(id: Value, reply: Reply)
    requires ToInt(id).Success?
    requires ResultIsZero(reply) && "description" in reply
    ensures DeleteGroup(id, Replied(reply)) == Success(Deleted)
    ensures SmsApi.DeleteGroup(id, Replied(reply)) == Success(StatusDict(reply["result"], reply["description"]))
  {
  }

  /** On a refused deletion version 0.1 returns the dictionary, while
      version 0.2 raises with the description. */
  lemma DeleteGroupVersionsOnRefusal(id: Value, reply: Reply)
    requires ToInt(id).Success?
    requires "result" in reply && !EqualsInt(reply["result"], 0) && "description" in reply
    ensures DeleteGroup(id, Replied(reply)) == Success(StatusDict(reply["result"], reply["description"]))
    ensures SmsApi.DeleteGroup(id, Replied(reply)) == Failure(ApiError(reply["description"]))
  {
  }

  /** With result 0 both versions read the same number list; a reply with no
      result at all is read by version 0.2 but refused by version 0.1 with
      "-1: ". */
  lemma NumbersVersions(reply: Reply)
    ensures ResultIsZero(reply) ==>
      NumbersReply(Replied(reply)) == NumbersOf(reply) &&
      SmsApi.SendSoapCommand(Replied(reply)) == Success(reply)
    ensures "result" !in reply && "description" !in reply ==>
      NumbersReply(Replied(reply)) == Failure(ApiError(VStr("-1: "))) &&
      SmsApi.SendSoapCommand(Replied(reply)) == Success(reply)
  {
    if "result" !in reply && "description" !in reply {
      assert NatText(1) == "1";
      assert IntText(-1) == "-1";
      assert FormatDecimal(VInt(-1)) == Success("-1");
      assert Text(VStr("")) == Success("");
      assert "-1" + ": " + "" == "-1: ";
    }
  }

  /** A reply without a result code confirms a number in version 0.2 and
      refuses it in version 0.1. */
  lemma AcknowledgementVersions(reply: Reply)
    requires "result" !in reply
    ensures SmsApi.Acknowledged(Replied(reply)) == Success(true)
    ensures AddNumber(Replied(reply)) == Failure(ApiError(VStr("Couldn't add number")))
    ensures DeleteNumber(Replied(reply)) == Failure(ApiError(VStr("Couldn't delete number")))
  {
  }
}
