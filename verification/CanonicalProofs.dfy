/** Canonical text is faithful: it can be parsed back to the meaning of the value, and it depends on nothing else. */
module CanonicalProofs {
  import opened ControllerTypes
  import opened JsonText
  import opened CanonicalJson

  // ---------------------------------------------------------------- sorting members

  predicate Ordered(leq: KeyOrder, members: seq<Member>) {
    forall i, j :: 0 <= i < j < |members| ==> leq(members[i].key, members[j].key)
  }

  lemma {:induction false} InsertSorts(leq: KeyOrder, m: Member, sorted: seq<Member>)
    requires TotalOrder(leq) && Ordered(leq, sorted) && DistinctKeys(sorted)
    requires forall i :: 0 <= i < |sorted| ==> sorted[i].key != m.key
    ensures Ordered(leq, Insert(leq, m, sorted)) && DistinctKeys(Insert(leq, m, sorted))
  {
    if sorted != [] {
      if leq(m.key, sorted[0].key) {
        forall j | 0 <= j < |sorted| ensures leq(m.key, sorted[j].key) {
          if j > 0 { assert leq(sorted[0].key, sorted[j].key); }
        }
      } else {
        InsertSorts(leq, m, sorted[1..]);
        var rest := Insert(leq, m, sorted[1..]);
        forall j | 0 <= j < |rest| ensures leq(sorted[0].key, rest[j].key) && sorted[0].key != rest[j].key {
          assert rest[j] in rest;
          if rest[j] != m { assert rest[j] in sorted[1..]; }
        }
      }
    }
  }

  lemma {:induction false} SortSorts(leq: KeyOrder, members: seq<Member>)
    requires TotalOrder(leq) && DistinctKeys(members)
    ensures Ordered(leq, Sort(leq, members)) && DistinctKeys(Sort(leq, members))
  {
    if members != [] {
      SortSorts(leq, members[1..]);
      var rest := Sort(leq, members[1..]);
      forall i | 0 <= i < |rest| ensures rest[i].key != members[0].key {
        assert rest[i] in rest;
      }
      InsertSorts(leq, members[0], rest);
    }
  }

  /** With distinct keys the map of an object holds exactly its members. */
  lemma {:induction false} MeaningOfMembers(members: seq<Member>)
    requires DistinctKeys(members)
    ensures forall m :: m in members ==>
      m.key in DenoteMembers(members) && DenoteMembers(members)[m.key] == Denote(m.value)
    ensures forall k :: k in DenoteMembers(members) ==> exists m :: m in members && m.key == k
  {
    if members != [] {
      MeaningOfMembers(members[1..]);
      forall m | m in members
        ensures m.key in DenoteMembers(members) && DenoteMembers(members)[m.key] == Denote(m.value)
      {
        if m != members[0] {
          assert m in members[1..];
        } else {
          assert forall other :: other in members[1..] ==> other.key != m.key;
        }
      }
      forall k | k in DenoteMembers(members) ensures exists m :: m in members && m.key == k {
        if k == members[0].key {
          assert members[0] in members;
        } else {
          var m :| m in members[1..] && m.key == k;
          assert m in members;
        }
      }
    }
  }

  lemma SortKeepsMeaning(leq: KeyOrder, members: seq<Member>)
    requires TotalOrder(leq) && DistinctKeys(members)
    ensures DenoteMembers(Sort(leq, members)) == DenoteMembers(members)
  {
    var sorted := Sort(leq, members);
    SortSorts(leq, members);
    MeaningOfMembers(members);
    MeaningOfMembers(sorted);
    forall k ensures k in DenoteMembers(sorted) <==> k in DenoteMembers(members) {
      if k in DenoteMembers(sorted) { var m :| m in sorted && m.key == k; assert m in members; }
      if k in DenoteMembers(members) { var m :| m in members && m.key == k; assert m in sorted; }
    }
    forall k | k in DenoteMembers(sorted) ensures DenoteMembers(sorted)[k] == DenoteMembers(members)[k] {
      var m :| m in sorted && m.key == k;
      assert m in members;
    }
  }

  // ---------------------------------------------------------------- text is read back to the meaning

  lemma FirstChar(leq: KeyOrder, x: Json)
    requires WellFormed(x)
    ensures Canonicalize(leq, x) != "" && Canonicalize(leq, x)[0] !in {']', '}', ','}
  {
  }

  lemma WordBack(word: string, rest: string)
    ensures StartsWith(word + rest, word) && (word + rest)[|word|..] == rest
  {
  }

  lemma ParseWordBack(leq: KeyOrder, x: Json, rest: string)
    requires x.Null? || x.Bool?
    ensures Parse(Canonicalize(leq, x) + rest) == Some(ReadValue(Denote(x), rest))
  {
    WordBack(Canonicalize(leq, x), rest);
  }

  lemma ParseNumber(leq: KeyOrder, x: Json, rest: string)
    requires x.Number? && NumberText(x.text) && Follows(rest)
    ensures Parse(Canonicalize(leq, x) + rest) == Some(ReadValue(Denote(x), rest))
  {
    RunOfNumber(x.text, rest);
    assert (x.text + rest)[0] == x.text[0];
  }

  lemma ParseQuote(s: string, read: ReadText)
    requires s != "" && s[0] == '\"' && ReadQuoted(s[1..]) == Some(read)
    ensures Parse(s) == Some(ReadValue(VStr(read.text), read.rest))
  {
  }

  lemma ParseString(leq: KeyOrder, x: Json, rest: string)
    requires x.Str?
    ensures Parse(Canonicalize(leq, x) + rest) == Some(ReadValue(Denote(x), rest))
  {
    var tail := Escape(x.s) + "\"" + rest;
    ReadEscaped(x.s, rest);
    assert Canonicalize(leq, x) + rest == "\"" + tail;
    assert ("\"" + tail)[1..] == tail;
    ParseQuote("\"" + tail, ReadText(x.s, rest));
  }

  lemma ParseScalar(leq: KeyOrder, x: Json, rest: string)
    requires WellFormed(x) && Follows(rest) && !x.Arr? && !x.Obj?
    ensures Parse(Canonicalize(leq, x) + rest) == Some(ReadValue(Denote(x), rest))
  {
    match x
    case Number(_) => ParseNumber(leq, x, rest);
    case Str(_) => ParseString(leq, x, rest);
    case _ => ParseWordBack(leq, x, rest);
  }

  lemma {:induction false} ParseCanonical(leq: KeyOrder, x: Json, rest: string)
    requires TotalOrder(leq) && WellFormed(x) && Follows(rest)
    ensures Parse(Canonicalize(leq, x) + rest) == Some(ReadValue(Denote(x), rest))
    decreases x
  {
    match x
    case Arr(items) =>
      if items == [] {
        assert Canonicalize(leq, x) + rest == "[]" + rest;
        assert ("[]" + rest)[2..] == rest;
      } else {
        ParseItemTexts(leq, x, items, rest);
        ParseArray(leq, x, rest);
      }
    case Obj(members) =>
      if members == [] {
        assert Canonicalize(leq, x) + rest == "{}" + rest;
        assert ("{}" + rest)[2..] == rest;
      } else {
        ParseMemberTexts(leq, x, Sort(leq, members), rest);
        SortKeepsMeaning(leq, members);
        ParseObject(leq, x, rest);
      }
    case _ => ParseScalar(leq, x, rest);
  }

  lemma JoinStarts(texts: seq<string>)
    requires texts != [] && texts[0] != ""
    ensures Join(texts) != "" && Join(texts)[0] == texts[0][0]
  {
  }

  lemma ParseBracket(s: string, read: ReadValues)
    requires |s| > 1 && s[0] == '[' && s[1] != ']' && ParseItems(s[1..]) == Some(read)
    ensures Parse(s) == Some(ReadValue(VArr(read.items), read.rest))
  {
    hide ParseItems, ParseMembers, ReadQuoted, ParseWord;
  }

  lemma ParseBrace(s: string, read: ReadMap)
    requires |s| > 1 && s[0] == '{' && s[1] != '}' && ParseMembers(s[1..]) == Some(read)
    ensures Parse(s) == Some(ReadValue(VObj(read.members), read.rest))
  {
    hide ParseItems, ParseMembers, ReadQuoted, ParseWord;
  }

  lemma ParseBrackets(inner: string, rest: string, items: seq<Value>)
    requires inner != "" && inner[0] != ']'
    requires ParseItems(inner + "]" + rest) == Some(ReadValues(items, rest))
    ensures Parse("[" + inner + "]" + rest) == Some(ReadValue(VArr(items), rest))
  {
    hide *;
    var s := "[" + inner + "]" + rest;
    assert s[1..] == inner + "]" + rest;
    assert s[0] == '[' && s[1] == inner[0];
    ParseBracket(s, ReadValues(items, rest));
  }

  lemma ParseBraces(inner: string, rest: string, members: map<string, Value>)
    requires inner != "" && inner[0] != '}'
    requires ParseMembers(inner + "}" + rest) == Some(ReadMap(members, rest))
    ensures Parse("{" + inner + "}" + rest) == Some(ReadValue(VObj(members), rest))
  {
    hide *;
    var s := "{" + inner + "}" + rest;
    assert s[1..] == inner + "}" + rest;
    assert s[0] == '{' && s[1] == inner[0];
    ParseBrace(s, ReadMap(members, rest));
  }

  lemma ParseArray(leq: KeyOrder, x: Json, rest: string)
    requires x.Arr? && x.items != [] && WellFormed(x)
    requires ParseItems(Join(ItemTexts(leq, x, x.items)) + "]" + rest) == Some(ReadValues(DenoteItems(x.items), rest))
    ensures Parse(Canonicalize(leq, x) + rest) == Some(ReadValue(Denote(x), rest))
  {
    FirstChar(leq, x.items[0]);
    JoinStarts(ItemTexts(leq, x, x.items));
    ParseBrackets(Join(ItemTexts(leq, x, x.items)), rest, DenoteItems(x.items));
  }

  lemma ParseObject(leq: KeyOrder, x: Json, rest: string)
    requires x.Obj? && x.members != []
    requires ParseMembers(Join(MemberTexts(leq, x, Sort(leq, x.members))) + "}" + rest)
          == Some(ReadMap(DenoteMembers(x.members), rest))
    ensures Parse(Canonicalize(leq, x) + rest) == Some(ReadValue(Denote(x), rest))
  {
    JoinStarts(MemberTexts(leq, x, Sort(leq, x.members)));
    ParseBraces(Join(MemberTexts(leq, x, Sort(leq, x.members))), rest, DenoteMembers(x.members));
  }

  lemma LastItem(text: string, first: Value, rest: string)
    requires Parse(text + ("]" + rest)) == Some(ReadValue(first, "]" + rest))
    ensures ParseItems(text + "]" + rest) == Some(ReadValues([first], rest))
  {
    assert text + "]" + rest == text + ("]" + rest);
    assert ("]" + rest)[1..] == rest;
  }

  lemma MoreItems(text: string, first: Value, more: string, items: seq<Value>, rest: string)
    requires Parse(text + ("," + more)) == Some(ReadValue(first, "," + more))
    requires ParseItems(more) == Some(ReadValues(items, rest))
    ensures ParseItems(text + ("," + more)) == Some(ReadValues([first] + items, rest))
  {
    assert ("," + more)[1..] == more;
  }

  lemma LastMember(text: string, key: string, first: Value, rest: string)
    requires ParseMember(text + ("}" + rest)) == Some(ReadMember(key, first, "}" + rest))
    ensures ParseMembers(text + "}" + rest) == Some(ReadMap(map[key := first], rest))
  {
    assert text + "}" + rest == text + ("}" + rest);
    assert ("}" + rest)[1..] == rest;
  }

  lemma MoreMembers(text: string, key: string, first: Value, more: string, members: map<string, Value>, rest: string)
    requires ParseMember(text + ("," + more)) == Some(ReadMember(key, first, "," + more))
    requires ParseMembers(more) == Some(ReadMap(members, rest))
    ensures ParseMembers(text + ("," + more)) == Some(ReadMap(map[key := first] + members, rest))
  {
    assert ("," + more)[1..] == more;
  }

  lemma JoinMore(text: string, texts: seq<string>, closing: string)
    requires texts != []
    ensures Join([text] + texts) + closing == text + ("," + (Join(texts) + closing))
  {
    assert ([text] + texts)[1..] == texts;
  }

  lemma {:induction false} ParseItemTexts(leq: KeyOrder, x: Json, items: seq<Json>, rest: string)
    requires TotalOrder(leq) && x.Arr? && items != []
    requires forall item :: item in items ==> item in x.items && WellFormed(item)
    ensures ParseItems(Join(ItemTexts(leq, x, items)) + "]" + rest) == Some(ReadValues(DenoteItems(items), rest))
    decreases x, |items|
  {
    var text := Canonicalize(leq, items[0]);
    assert items[0] in items;
    ItemIsSmaller(x, items[0]);
    if |items| == 1 {
      ParseCanonical(leq, items[0], "]" + rest);
      LastItem(text, Denote(items[0]), rest);
      assert ItemTexts(leq, x, items) == [text];
      assert DenoteItems(items) == [Denote(items[0])];
    } else {
      var texts := ItemTexts(leq, x, items[1..]);
      var more := Join(texts) + ("]" + rest);
      assert more == Join(texts) + "]" + rest;
      ParseCanonical(leq, items[0], "," + more);
      ParseItemTexts(leq, x, items[1..], rest);
      MoreItems(text, Denote(items[0]), more, DenoteItems(items[1..]), rest);
      JoinMore(text, texts, "]" + rest);
      assert Join([text] + texts) + "]" + rest == Join([text] + texts) + ("]" + rest);
    }
  }

  lemma MemberText(key: string, text: string, tail: string)
    ensures Quote(key) + ":" + text + tail == "\"" + (Escape(key) + "\"" + (":" + (text + tail)))
  {
  }

  lemma ParseMemberFrom(s: string, key: string, text: string, read: ReadValue)
    requires s != "" && s[0] == '\"' && ReadQuoted(s[1..]) == Some(ReadText(key, ":" + text))
    requires Parse(text) == Some(read)
    ensures ParseMember(s) == Some(ReadMember(key, read.value, read.rest))
  {
    assert (":" + text)[1..] == text;
  }

  lemma ParseOneMember(leq: KeyOrder, m: Member, tail: string)
    requires Parse(Canonicalize(leq, m.value) + tail) == Some(ReadValue(Denote(m.value), tail))
    ensures ParseMember(Quote(m.key) + ":" + Canonicalize(leq, m.value) + tail)
         == Some(ReadMember(m.key, Denote(m.value), tail))
  {
    var text := Canonicalize(leq, m.value);
    MemberText(m.key, text, tail);
    ReadEscaped(m.key, ":" + (text + tail));
    var s := "\"" + (Escape(m.key) + "\"" + (":" + (text + tail)));
    assert s[1..] == Escape(m.key) + "\"" + (":" + (text + tail));
    ParseMemberFrom(s, m.key, text + tail, ReadValue(Denote(m.value), tail));
  }

  lemma {:induction false} ParseMemberTexts(leq: KeyOrder, x: Json, members: seq<Member>, rest: string)
    requires TotalOrder(leq) && x.Obj? && members != []
    requires forall m :: m in members ==> m in x.members && WellFormed(m.value)
    ensures ParseMembers(Join(MemberTexts(leq, x, members)) + "}" + rest) == Some(ReadMap(DenoteMembers(members), rest))
    decreases x, |members|
  {
    hide ParseMembers, ParseMember, Parse, Canonicalize, WellFormed, Sort;
    var m := members[0];
    var text := Quote(m.key) + ":" + Canonicalize(leq, m.value);
    assert m in members;
    MemberIsSmaller(x, m);
    if |members| == 1 {
      ParseCanonical(leq, m.value, "}" + rest);
      ParseOneMember(leq, m, "}" + rest);
      LastMember(text, m.key, Denote(m.value), rest);
      assert MemberTexts(leq, x, members) == [text];
      assert DenoteMembers(members) == map[m.key := Denote(m.value)];
    } else {
      var texts := MemberTexts(leq, x, members[1..]);
      var more := Join(texts) + ("}" + rest);
      assert more == Join(texts) + "}" + rest;
      ParseCanonical(leq, m.value, "," + more);
      ParseOneMember(leq, m, "," + more);
      ParseMemberTexts(leq, x, members[1..], rest);
      MoreMembers(text, m.key, Denote(m.value), more, DenoteMembers(members[1..]), rest);
      JoinMore(text, texts, "}" + rest);
      assert Join([text] + texts) + "}" + rest == Join([text] + texts) + ("}" + rest);
    }
  }

  // ---------------------------------------------------------------- the meaning determines the text

  function Keys(members: seq<Member>): set<string> {
    set m | m in members :: m.key
  }

  lemma HeadIsLeast(leq: KeyOrder, a: seq<Member>, m: Member)
    requires TotalOrder(leq) && Ordered(leq, a) && m in a
    ensures leq(a[0].key, m.key)
  {
    var i :| 0 <= i < |a| && a[i] == m;
    if i > 0 { assert leq(a[0].key, a[i].key); }
  }

  lemma FirstKeysAgree(leq: KeyOrder, a: seq<Member>, b: seq<Member>)
    requires TotalOrder(leq) && Ordered(leq, a) && Ordered(leq, b) && Keys(a) == Keys(b) && a != [] && b != []
    ensures a[0].key == b[0].key
  {
    assert a[0].key in Keys(a) && b[0].key in Keys(b);
    var n :| n in b && n.key == a[0].key;
    var m :| m in a && m.key == b[0].key;
    HeadIsLeast(leq, b, n);
    HeadIsLeast(leq, a, m);
  }

  lemma TailKeys(a: seq<Member>)
    requires DistinctKeys(a) && a != []
    ensures Keys(a[1..]) == Keys(a) - {a[0].key}
  {
    forall k | k in Keys(a) - {a[0].key} ensures k in Keys(a[1..]) {
      var m :| m in a && m.key == k;
      assert m in a[1..];
    }
  }

  predicate KeysInPlace(a: seq<Member>, b: seq<Member>) {
    |a| == |b| && forall i :: 0 <= i < |a| ==> a[i].key == b[i].key
  }

  lemma HeadInPlace(a: seq<Member>, b: seq<Member>)
    requires a != [] && b != [] && a[0].key == b[0].key && KeysInPlace(a[1..], b[1..])
    ensures KeysInPlace(a, b)
  {
    forall i | 0 <= i < |a| ensures a[i].key == b[i].key {
      if i > 0 { assert a[1..][i - 1].key == b[1..][i - 1].key; }
    }
  }

  /** Two ordered lists of members with the same distinct keys have them in the same places. */
  lemma {:induction false} OneOrder(leq: KeyOrder, a: seq<Member>, b: seq<Member>)
    requires TotalOrder(leq) && Ordered(leq, a) && Ordered(leq, b)
    requires DistinctKeys(a) && DistinctKeys(b) && Keys(a) == Keys(b)
    ensures KeysInPlace(a, b)
  {
    assert a != [] ==> a[0].key in Keys(a);
    assert b != [] ==> b[0].key in Keys(b);
    if a != [] {
      FirstKeysAgree(leq, a, b);
      TailKeys(a);
      TailKeys(b);
      OneOrder(leq, a[1..], b[1..]);
      HeadInPlace(a, b);
    }
  }

  lemma {:induction false} ItemMeaning(items: seq<Json>, i: nat)
    requires i < |items|
    ensures DenoteItems(items)[i] == Denote(items[i])
  {
    if i > 0 { ItemMeaning(items[1..], i - 1); }
  }

  lemma KeysOfMeaning(leq: KeyOrder, members: seq<Member>)
    requires DistinctKeys(members)
    ensures Keys(Sort(leq, members)) == DenoteMembers(members).Keys
  {
    MeaningOfMembers(members);
    assert Keys(Sort(leq, members)) == Keys(members);
    forall k ensures k in Keys(members) <==> k in DenoteMembers(members) {
      if k in DenoteMembers(members) { var m :| m in members && m.key == k; }
    }
  }

  lemma SortedKeysAgree(leq: KeyOrder, a: seq<Member>, b: seq<Member>)
    requires TotalOrder(leq) && DistinctKeys(a) && DistinctKeys(b) && DenoteMembers(a) == DenoteMembers(b)
    ensures
      var sa, sb := Sort(leq, a), Sort(leq, b);
      |sa| == |sb| && forall i :: 0 <= i < |sa| ==> sa[i].key == sb[i].key && Denote(sa[i].value) == Denote(sb[i].value)
  {
    var sa, sb := Sort(leq, a), Sort(leq, b);
    SortSorts(leq, a);
    SortSorts(leq, b);
    MeaningOfMembers(a);
    MeaningOfMembers(b);
    KeysOfMeaning(leq, a);
    KeysOfMeaning(leq, b);
    OneOrder(leq, sa, sb);
    forall i | 0 <= i < |sa| ensures Denote(sa[i].value) == Denote(sb[i].value) {
      assert sa[i] in a && sb[i] in b;
    }
  }

  lemma {:induction false} CanonicalFromMeaning(leq: KeyOrder, x: Json, y: Json)
    requires TotalOrder(leq) && WellFormed(x) && WellFormed(y) && Denote(x) == Denote(y)
    ensures Canonicalize(leq, x) == Canonicalize(leq, y)
    decreases x
  {
    match x
    case Arr(items) =>
      forall i | 0 <= i < |items| ensures Canonicalize(leq, items[i]) == Canonicalize(leq, y.items[i]) {
        ItemMeaning(items, i);
        ItemMeaning(y.items, i);
        CanonicalFromMeaning(leq, items[i], y.items[i]);
      }
      assert ItemTexts(leq, x, items) == ItemTexts(leq, y, y.items);
    case Obj(members) =>
      var sx, sy := Sort(leq, members), Sort(leq, y.members);
      SortedKeysAgree(leq, members, y.members);
      forall i | 0 <= i < |sx| ensures Canonicalize(leq, sx[i].value) == Canonicalize(leq, sy[i].value) {
        assert sx[i] in members && sy[i] in y.members;
        MemberIsSmaller(x, sx[i]);
        CanonicalFromMeaning(leq, sx[i].value, sy[i].value);
      }
      assert MemberTexts(leq, x, sx) == MemberTexts(leq, y, sy);
    case _ =>
  }

  /** Over values with distinct keys and a total key order, two values have the same canonical text exactly when they
      are equal up to the order of their objects' keys. */
  lemma CanonicalIsFaithful(leq: KeyOrder, x: Json, y: Json)
    requires TotalOrder(leq) && WellFormed(x) && WellFormed(y)
    ensures Canonicalize(leq, x) == Canonicalize(leq, y) <==> Denote(x) == Denote(y)
  {
    if Denote(x) == Denote(y) { CanonicalFromMeaning(leq, x, y); }
    ParseCanonical(leq, x, "");
    ParseCanonical(leq, y, "");
    assert Canonicalize(leq, x) + "" == Canonicalize(leq, x) && Canonicalize(leq, y) + "" == Canonicalize(leq, y);
  }

  /** With a tie the sort leaves two members as they were written, so the text begins with the first key. */
  lemma TiedText(leq: KeyOrder, m: Member, n: Member)
    requires leq(m.key, n.key)
    ensures
      var value := Canonicalize(leq, m.value);
      Canonicalize(leq, Obj([m, n])) == "{" + (Quote(m.key) + ":" + value) + "," + (Quote(n.key) + ":" + Canonicalize(leq, n.value)) + "}"
  {
    assert [m, n][1..] == [n] && [n][1..] == [];
    assert Sort(leq, [n]) == [n];
    assert Sort(leq, [m, n]) == [m, n];
    var texts := MemberTexts(leq, Obj([m, n]), [m, n]);
    assert texts[1..] == [texts[1]];
    assert Join(texts) == texts[0] + "," + texts[1];
  }

  lemma KeyRegroup(key: string, value: string, rest: string)
    ensures "{" + (Quote(key) + ":" + value) + "," + rest + "}" == "{" + ("\"" + (Escape(key) + "\"" + (":" + value + "," + rest + "}")))
  {
  }

  /** The first key can be read off the text of a tied object. */
  lemma FirstKey(leq: KeyOrder, m: Member, n: Member) returns (rest: string)
    requires leq(m.key, n.key)
    ensures |Canonicalize(leq, Obj([m, n]))| >= 2
    ensures ReadQuoted(Canonicalize(leq, Obj([m, n]))[2..]) == Some(ReadText(m.key, rest))
  {
    hide *;
    var value := Canonicalize(leq, m.value);
    var other := Quote(n.key) + ":" + Canonicalize(leq, n.value);
    TiedText(leq, m, n);
    KeyRegroup(m.key, value, other);
    rest := ":" + value + "," + other + "}";
    ReadEscaped(m.key, rest);
    AfterTwo(Escape(m.key) + "\"" + rest);
  }

  lemma AfterTwo(tail: string)
    ensures |"{" + ("\"" + tail)| >= 2 && ("{" + ("\"" + tail))[2..] == tail
  {
  }

  /** With a comparison that calls two different keys equal, as a locale's collation may, the text depends on the
      order in which the keys were written, whatever their values. */
  lemma TiedKeysKeepTheirOrder(leq: KeyOrder, m: Member, n: Member)
    requires leq(m.key, n.key) && leq(n.key, m.key) && m.key != n.key
    ensures Denote(Obj([m, n])) == Denote(Obj([n, m]))
    ensures Canonicalize(leq, Obj([m, n])) != Canonicalize(leq, Obj([n, m]))
  {
    hide *;
    var _ := FirstKey(leq, m, n);
    var _ := FirstKey(leq, n, m);
    TwoMembersMean(m, n);
    TwoMembersMean(n, m);
    assert map[m.key := Denote(m.value), n.key := Denote(n.value)]
        == map[n.key := Denote(n.value), m.key := Denote(m.value)];
  }

  lemma TwoMembersMean(m: Member, n: Member)
    requires m.key != n.key
    ensures Denote(Obj([m, n])) == VObj(map[m.key := Denote(m.value), n.key := Denote(n.value)])
  {
    assert [m, n][1..] == [n] && [n][1..] == [];
    assert DenoteMembers([n]) == map[n.key := Denote(n.value)];
  }

  /** What any comparison used for sorting is: it compares everything and is transitive, but may call keys equal. */
  ghost predicate TotalPreorder(leq: KeyOrder) {
    && (forall a, b :: leq(a, b) || leq(b, a))
    && (forall a, b, c :: leq(a, b) && leq(b, c) ==> leq(a, c))
  }

  ghost predicate Faithful(leq: KeyOrder, x: Json, y: Json) {
    Canonicalize(leq, x) == Canonicalize(leq, y) <==> Denote(x) == Denote(y)
  }

  predicate Tied(leq: KeyOrder, a: string, b: string) {
    leq(a, b) && leq(b, a) && a != b
  }

  /** A comparison makes canonical text faithful on all values with distinct keys exactly when it ties no two keys. */
  lemma FaithfulExactly(leq: KeyOrder)
    requires TotalPreorder(leq)
    ensures (forall x, y :: WellFormed(x) && WellFormed(y) ==> Faithful(leq, x, y)) <==> (forall a, b :: !Tied(leq, a, b))
  {
    if forall a, b :: !Tied(leq, a, b) {
      forall a, b | leq(a, b) && leq(b, a) ensures a == b { assert !Tied(leq, a, b); }
      forall x, y | WellFormed(x) && WellFormed(y) ensures Faithful(leq, x, y) { CanonicalIsFaithful(leq, x, y); }
    } else {
      var a, b :| Tied(leq, a, b);
      TiesBreakFaith(leq, a, b);
    }
  }

  lemma TiesBreakFaith(leq: KeyOrder, a: string, b: string)
    requires Tied(leq, a, b)
    ensures exists x, y :: WellFormed(x) && WellFormed(y) && !Faithful(leq, x, y)
  {
    hide Canonicalize, Denote;
    var m, n := Member(a, Null), Member(b, Null);
    TiedKeysKeepTheirOrder(leq, m, n);
    assert WellFormed(Obj([m, n])) && WellFormed(Obj([n, m]));
    assert !Faithful(leq, Obj([m, n]), Obj([n, m]));
  }

  // ---------------------------------------------------------------- the text itself

  lemma CommasBetween(first: string, rest: seq<string>)
    ensures Join([]) == "" && Join([first]) == first
    ensures rest != [] ==> Join([first] + rest) == first + "," + Join(rest)
  {
    assert ([first] + rest)[1..] == rest;
  }

  /** How everything but an object is written. */
  lemma PlainTexts(leq: KeyOrder, text: string, s: string, items: seq<Json>)
    ensures Canonicalize(leq, Null) == "null"
    ensures Canonicalize(leq, Bool(true)) == "true" && Canonicalize(leq, Bool(false)) == "false"
    ensures Canonicalize(leq, Number(text)) == text
    ensures Canonicalize(leq, Str(s)) == "\"" + Escape(s) + "\""
    ensures
      var texts := ItemTexts(leq, Arr(items), items);
      && |texts| == |items| && (forall i :: 0 <= i < |items| ==> texts[i] == Canonicalize(leq, items[i]))
      && Canonicalize(leq, Arr(items)) == "[" + Join(texts) + "]"
  {
  }

  /** An object is written in the order of its keys, each quoted and before a colon. */
  lemma ObjectText(leq: KeyOrder, members: seq<Member>)
    requires TotalOrder(leq) && DistinctKeys(members)
    ensures
      var sorted := Sort(leq, members);
      var texts := MemberTexts(leq, Obj(members), sorted);
      && Ordered(leq, sorted) && |sorted| == |members| && (forall m :: m in sorted <==> m in members)
      && |texts| == |sorted|
      && (forall i :: 0 <= i < |sorted| ==>
            texts[i] == "\"" + Escape(sorted[i].key) + "\"" + ":" + Canonicalize(leq, sorted[i].value))
      && Canonicalize(leq, Obj(members)) == "{" + Join(texts) + "}"
  {
    SortSorts(leq, members);
  }
}
