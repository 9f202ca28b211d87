/** The address-book records that both versions of the client read out of a
    SOAP reply (groups and numbers), and the append loops that build their
    lists. The two versions differ only in how they check the reply before
    these loops run; that part lives in `SmsApi` and `SmsApiSoap`. */
module AddressBook {
  import opened Python

  /** A SOAP reply object, read through `key in reply` and `reply[key]`. */
  type Reply = map<string, Value>

  /** What a call into the SOAP service does: raise a WebFault, or return a
      reply. The service itself is outside the model. */
  datatype SoapOutcome = Fault(detail: string) | Replied(reply: Reply)

  /** A group as the client returns it: `id` and `num_count` converted with
      `int()`, `name` and `info` with `unicode()`. */
  datatype Group = Group(id: int, name: string, description: string, numberCount: int)

  /** A number as the client returns it: the reply's fields, unconverted. */
  datatype NumberEntry = NumberEntry(name: Value, number: Value, groupId: Value)

  /** What `delete_group` returns when it does not raise: `True`, or the
      dictionary `{code, description}`. */
  datatype GroupStatus = Deleted | StatusDict(code: Value, description: Value)

  /** `"result" in reply and reply["result"] == 0`. */
  predicate ResultIsZero(reply: Reply) {
    "result" in reply && EqualsInt(reply["result"], 0)
  }

  /** The elements `for e in v` visits, in a loop whose body subscripts each
      element by a field name. A list yields its items and a string its
      characters. A dictionary yields its keys, all strings, in no order the
      model fixes: an empty one yields nothing, and for any other the first
      key's subscript raises TypeError, which is what is returned. None,
      bools and ints are not iterable. */
  function EntriesOf(v: Value): (r: Result<seq<Value>>)
    ensures v.VList? ==> r == Success(v.items)
    ensures v.VNone? || v.VBool? || v.VInt? ==> r == Failure(TypeError)
    ensures r.Failure? ==> r.error == TypeError
  {
    match v
    case VList(items) => Success(items)
    case VStr(s) => Success(seq(|s|, k requires 0 <= k < |s| => VStr([s[k]])))
    case VDict(fields) => if |fields| == 0 then Success([]) else Failure(TypeError)
    case _ => Failure(TypeError)
  }

  /** The fields of a group entry all convert. */
  predicate GroupConvertible(g: Value) {
    && g.VDict?
    && "id" in g.fields && "name" in g.fields && "info" in g.fields && "num_count" in g.fields
    && ToInt(g.fields["id"]).Success?
    && Text(g.fields["name"]).Success?
    && Text(g.fields["info"]).Success?
    && ToInt(g.fields["num_count"]).Success?
  }

  /** One group entry of a reply as a `Group`; the fields are read in the
      order `id`, `name`, `info`, `num_count`, so the first one missing or
      unconvertible decides the error. */
  function DecodeGroup(g: Value): (r: Result<Group>)
    ensures r.Success? <==> GroupConvertible(g)
    ensures r.Success? ==>
      && ToInt(g.fields["id"]) == Success(r.value.id)
      && Text(g.fields["name"]) == Success(r.value.name)
      && Text(g.fields["info"]) == Success(r.value.description)
      && ToInt(g.fields["num_count"]) == Success(r.value.numberCount)
    ensures !g.VDict? ==> r == Failure(TypeError)
    ensures g.VDict? && "id" !in g.fields ==> r == Failure(KeyError(VStr("id")))
  {
    var id :- Subscript(g, "id");
    var id :- ToInt(id);
    var name :- Subscript(g, "name");
    var name :- Text(name);
    var info :- Subscript(g, "info");
    var info :- Text(info);
    var count :- Subscript(g, "num_count");
    var count :- ToInt(count);
    Success(Group(id, name, info, count))
  }

  /** One number entry of a reply, its three fields copied unchanged. */
  function DecodeNumber(n: Value): (r: Result<NumberEntry>)
    ensures r.Success? <==> n.VDict? && "name" in n.fields && "number" in n.fields && "group_id" in n.fields
    ensures r.Success? ==>
      r.value.name == n.fields["name"] && r.value.number == n.fields["number"] &&
      r.value.groupId == n.fields["group_id"]
    ensures !n.VDict? ==> r == Failure(TypeError)
  {
    var name :- Subscript(n, "name");
    var number :- Subscript(n, "number");
    var groupId :- Subscript(n, "group_id");
    Success(NumberEntry(name, number, groupId))
  }

  /** The group list of a reply: `None` when it has no `groups`, otherwise
      one group per entry. */
  function GroupsOf(reply: Reply): (r: Result<Option<seq<Group>>>)
    ensures "groups" !in reply ==> r == Success(None)
    ensures "groups" in reply && r.Success? ==> r.value.Some?
    ensures "groups" in reply && reply["groups"].VList? ==>
      var entries := reply["groups"].items;
      && (r.Success? <==> forall k :: 0 <= k < |entries| ==> GroupConvertible(entries[k]))
      && (r.Success? ==>
            && |r.value.value| == |entries|
            && forall k :: 0 <= k < |entries| ==> DecodeGroup(entries[k]) == Success(r.value.value[k]))
  {
    if "groups" !in reply then Success(None)
    else
      var entries :- EntriesOf(reply["groups"]);
      MapEachSucceeds(entries, DecodeGroup);
      var groups :- MapEach(entries, DecodeGroup);
      Success(Some(groups))
  }

  /** The number list of a reply: empty when it has no `numbers`, otherwise
      one number per entry. */
  function NumbersOf(reply: Reply): (r: Result<seq<NumberEntry>>)
    ensures "numbers" !in reply ==> r == Success([])
    ensures "numbers" in reply && reply["numbers"].VList? ==>
      var entries := reply["numbers"].items;
      && (r.Success? <==> forall k :: 0 <= k < |entries| ==> DecodeNumber(entries[k]).Success?)
      && (r.Success? ==>
            && |r.value| == |entries|
            && forall k :: 0 <= k < |entries| ==> DecodeNumber(entries[k]) == Success(r.value[k]))
  {
    if "numbers" !in reply then Success([])
    else
      var entries :- EntriesOf(reply["numbers"]);
      MapEachSucceeds(entries, DecodeNumber);
      MapEach(entries, DecodeNumber)
  }

  /** The `retlist` loop of `get_groups`. */
  method CollectGroups(reply: Reply) returns (r: Result<Option<seq<Group>>>)
    ensures r == GroupsOf(reply)
    ensures "groups" !in reply ==> r == Success(None)
    ensures "groups" in reply && reply["groups"].VList? ==>
      var entries := reply["groups"].items;
      && (r.Success? <==> forall k :: 0 <= k < |entries| ==> GroupConvertible(entries[k]))
      && (r.Success? ==>
            && r.value.Some? && |r.value.value| == |entries|
            && forall k :: 0 <= k < |entries| ==> DecodeGroup(entries[k]) == Success(r.value.value[k]))
  {
    if "groups" !in reply {
      return Success(None);
    }
    var entries := EntriesOf(reply["groups"]);
    if entries.Failure? {
      return Failure(entries.error);
    }
    var items := entries.value;
    var retlist: seq<Group> := [];
    var i := 0;
    while i < |items|
      invariant 0 <= i <= |items|
      invariant MapEach(items[..i], DecodeGroup) == Success(retlist)
    {
      var g := DecodeGroup(items[i]);
      assert items[..i + 1][..i] == items[..i];
      if g.Failure? {
        MapEachPrefixFailure(items, DecodeGroup, i + 1);
        MapEachSucceeds(items, DecodeGroup);
        return Failure(g.error);
      }
      retlist := retlist + [g.value];
      i := i + 1;
    }
    assert items[..i] == items;
    MapEachSucceeds(items, DecodeGroup);
    r := Success(Some(retlist));
  }

  /** The `retlist` loop of `get_numbers`. */
  method CollectNumbers(reply: Reply) returns (r: Result<seq<NumberEntry>>)
    ensures r == NumbersOf(reply)
    ensures "numbers" !in reply ==> r == Success([])
    ensures "numbers" in reply && reply["numbers"].VList? ==>
      var entries := reply["numbers"].items;
      && (r.Success? <==> forall k :: 0 <= k < |entries| ==> DecodeNumber(entries[k]).Success?)
      && (r.Success? ==>
            && |r.value| == |entries|
            && forall k :: 0 <= k < |entries| ==> DecodeNumber(entries[k]) == Success(r.value[k]))
  {
    if "numbers" !in reply {
      return Success([]);
    }
    var entries := EntriesOf(reply["numbers"]);
    if entries.Failure? {
      return Failure(entries.error);
    }
    var items := entries.value;
    var retlist: seq<NumberEntry> := [];
    var i := 0;
    while i < |items|
      invariant 0 <= i <= |items|
      invariant MapEach(items[..i], DecodeNumber) == Success(retlist)
    {
      var n := DecodeNumber(items[i]);
      assert items[..i + 1][..i] == items[..i];
      if n.Failure? {
        MapEachPrefixFailure(items, DecodeNumber, i + 1);
        MapEachSucceeds(items, DecodeNumber);
        return Failure(n.error);
      }
      retlist := retlist + [n.value];
      i := i + 1;
    }
    assert items[..i] == items;
    MapEachSucceeds(items, DecodeNumber);
    r := Success(retlist);
  }

  /** A failing group list fails with the error of the first entry that
      does not convert: the loop stops there. */
  lemma GroupsFirstFailure(reply: Reply)
    requires "groups" in reply && reply["groups"].VList?
    requires GroupsOf(reply).Failure?
    ensures var entries := reply["groups"].items;
      exists k :: (0 <= k < |entries| && DecodeGroup(entries[k]) == Failure(GroupsOf(reply).error) &&
                   forall j :: 0 <= j < k ==> GroupConvertible(entries[j]))
  {
    MapEachFirstFailure(reply["groups"].items, DecodeGroup);
  }
}
