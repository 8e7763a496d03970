/** Canonical JSON: members sorted by a key order, everything else as `JSON.stringify` writes it.  The text is read
    back to the value it stands for, an object being a map, so equal text means equal values. */
module CanonicalJson {
  import opened ControllerTypes
  import opened JsonText

  datatype Member = Member(key: string, value: Json)

  /** A number is given by its printed form. */
  datatype Json =
    | Null
    | Bool(b: bool)
    | Number(text: string)
    | Str(s: string)
    | Arr(items: seq<Json>)
    | Obj(members: seq<Member>)

  /** What a JSON value means: objects have no order. */
  datatype Value =
    | VNull
    | VBool(b: bool)
    | VNumber(text: string)
    | VStr(s: string)
    | VArr(items: seq<Value>)
    | VObj(members: map<string, Value>)

  function Denote(x: Json): Value {
    match x
    case Null => VNull
    case Bool(b) => VBool(b)
    case Number(text) => VNumber(text)
    case Str(s) => VStr(s)
    case Arr(items) => VArr(DenoteItems(items))
    case Obj(members) => VObj(DenoteMembers(members))
  }

  function DenoteItems(items: seq<Json>): (r: seq<Value>)
    ensures |r| == |items|
  {
    if items == [] then [] else [Denote(items[0])] + DenoteItems(items[1..])
  }

  function DenoteMembers(members: seq<Member>): map<string, Value> {
    if members == [] then map[]
    else map[members[0].key := Denote(members[0].value)] + DenoteMembers(members[1..])
  }

  predicate DistinctKeys(members: seq<Member>) {
    forall i, j :: 0 <= i < j < |members| ==> members[i].key != members[j].key
  }

  /** Keys of every object are distinct and numbers are finite, as in any parsed or constructed value. */
  predicate WellFormed(x: Json) {
    match x
    case Number(text) => NumberText(text)
    case Arr(items) => forall i :: 0 <= i < |items| ==> WellFormed(items[i])
    case Obj(members) => DistinctKeys(members) && forall i :: 0 <= i < |members| ==> WellFormed(members[i].value)
    case _ => true
  }

  // ---------------------------------------------------------------- canonicalize

  type KeyOrder = (string, string) -> bool

  ghost predicate TotalOrder(leq: KeyOrder) {
    && (forall a, b :: leq(a, b) || leq(b, a))
    && (forall a, b, c :: leq(a, b) && leq(b, c) ==> leq(a, c))
    && (forall a, b :: leq(a, b) && leq(b, a) ==> a == b)
  }

  /** Puts a member before the first one that the order puts strictly after it. */
  function Insert(leq: KeyOrder, m: Member, sorted: seq<Member>): (r: seq<Member>)
    ensures |r| == |sorted| + 1
    ensures forall x :: x in r <==> x == m || x in sorted
  {
    if sorted == [] then [m]
    else if leq(m.key, sorted[0].key) then [m] + sorted
    else
      var rest := Insert(leq, m, sorted[1..]);
      assert forall x :: x in sorted <==> x == sorted[0] || x in sorted[1..];
      [sorted[0]] + rest
  }

  function Sort(leq: KeyOrder, members: seq<Member>): (r: seq<Member>)
    ensures |r| == |members|
    ensures forall x :: x in r <==> x in members
  {
    if members == [] then []
    else
      assert forall x :: x in members <==> x == members[0] || x in members[1..];
      Insert(leq, members[0], Sort(leq, members[1..]))
  }

  function Join(texts: seq<string>): string {
    if texts == [] then ""
    else if |texts| == 1 then texts[0]
    else texts[0] + "," + Join(texts[1..])
  }

  lemma ItemIsSmaller(x: Json, item: Json)
    requires x.Arr? && item in x.items
    ensures x decreases to item
  {
    var i :| 0 <= i < |x.items| && x.items[i] == item;
    assert x decreases to x.items[i];
  }

  lemma MemberIsSmaller(x: Json, m: Member)
    requires x.Obj? && m in x.members
    ensures x decreases to m.value
  {
    var i :| 0 <= i < |x.members| && x.members[i] == m;
    assert x decreases to x.members[i].value;
  }

  function Canonicalize(leq: KeyOrder, x: Json): string
    decreases x
  {
    match x
    case Null => "null"
    case Bool(b) => if b then "true" else "false"
    case Number(text) => text
    case Str(s) => Quote(s)
    case Arr(items) => "[" + Join(ItemTexts(leq, x, items)) + "]"
    case Obj(members) => "{" + Join(MemberTexts(leq, x, Sort(leq, members))) + "}"
  }

  function ItemTexts(leq: KeyOrder, x: Json, items: seq<Json>): (r: seq<string>)
    requires x.Arr? && forall item :: item in items ==> item in x.items
    ensures |r| == |items|
    ensures forall i :: 0 <= i < |items| ==> items[i] in x.items && r[i] == Canonicalize(leq, items[i])
    decreases x, |items|
  {
    if items == [] then []
    else
      ItemIsSmaller(x, items[0]);
      [Canonicalize(leq, items[0])] + ItemTexts(leq, x, items[1..])
  }

  function MemberTexts(leq: KeyOrder, x: Json, members: seq<Member>): (r: seq<string>)
    requires x.Obj? && forall m :: m in members ==> m in x.members
    ensures |r| == |members|
    ensures forall i :: 0 <= i < |members| ==>
      members[i] in x.members && r[i] == Quote(members[i].key) + ":" + Canonicalize(leq, members[i].value)
    decreases x, |members|
  {
    if members == [] then []
    else
      MemberIsSmaller(x, members[0]);
      [Quote(members[0].key) + ":" + Canonicalize(leq, members[0].value)] + MemberTexts(leq, x, members[1..])
  }

  // ---------------------------------------------------------------- reading it back

  datatype ReadValue = ReadValue(value: Value, rest: string)
  datatype ReadValues = ReadValues(items: seq<Value>, rest: string)
  datatype ReadMap = ReadMap(members: map<string, Value>, rest: string)

  predicate StartsWith(s: string, prefix: string) {
    |prefix| <= |s| && s[..|prefix|] == prefix
  }

  function ParseWord(s: string, word: string, value: Value): (r: Option<ReadValue>)
    requires word != ""
    ensures r.Some? ==> |r.value.rest| < |s|
  {
    if StartsWith(s, word) then Some(ReadValue(value, s[|word|..])) else None
  }

  function Parse(s: string): (r: Option<ReadValue>)
    ensures r.Some? ==> |r.value.rest| < |s|
    decreases |s|, 1
  {
    if s == "" then None
    else if s[0] == 'n' then ParseWord(s, "null", VNull)
    else if s[0] == 't' then ParseWord(s, "true", VBool(true))
    else if s[0] == 'f' then ParseWord(s, "false", VBool(false))
    else if s[0] == '\"' then
      match ReadQuoted(s[1..]) case None => None case Some(read) => Some(ReadValue(VStr(read.text), read.rest))
    else if s[0] == '[' then
      if |s| > 1 && s[1] == ']' then Some(ReadValue(VArr([]), s[2..]))
      else match ParseItems(s[1..]) case None => None case Some(read) => Some(ReadValue(VArr(read.items), read.rest))
    else if s[0] == '{' then
      if |s| > 1 && s[1] == '}' then Some(ReadValue(VObj(map[]), s[2..]))
      else match ParseMembers(s[1..]) case None => None case Some(read) => Some(ReadValue(VObj(read.members), read.rest))
    else
      var k := NumberRun(s);
      if k == 0 then None else Some(ReadValue(VNumber(s[..k]), s[k..]))
  }

  function ParseItems(s: string): (r: Option<ReadValues>)
    ensures r.Some? ==> |r.value.rest| < |s|
    decreases |s|, 2
  {
    match Parse(s)
    case None => None
    case Some(first) =>
      if first.rest == "" then None
      else if first.rest[0] == ']' then Some(ReadValues([first.value], first.rest[1..]))
      else if first.rest[0] != ',' then None
      else match ParseItems(first.rest[1..])
        case None => None
        case Some(more) => Some(ReadValues([first.value] + more.items, more.rest))
  }

  datatype ReadMember = ReadMember(key: string, value: Value, rest: string)

  function ParseMember(s: string): (r: Option<ReadMember>)
    ensures r.Some? ==> |r.value.rest| < |s|
    decreases |s|, 2
  {
    if s == "" || s[0] != '\"' then None
    else match ReadQuoted(s[1..])
      case None => None
      case Some(key) =>
        if key.rest == "" || key.rest[0] != ':' then None
        else match Parse(key.rest[1..])
          case None => None
          case Some(value) => Some(ReadMember(key.text, value.value, value.rest))
  }

  function ParseMembers(s: string): (r: Option<ReadMap>)
    ensures r.Some? ==> |r.value.rest| < |s|
    decreases |s|, 3
  {
    match ParseMember(s)
    case None => None
    case Some(first) =>
      if first.rest == "" then None
      else if first.rest[0] == '}' then Some(ReadMap(map[first.key := first.value], first.rest[1..]))
      else if first.rest[0] != ',' then None
      else match ParseMembers(first.rest[1..])
        case None => None
        case Some(more) => Some(ReadMap(map[first.key := first.value] + more.members, more.rest))
  }
}
