/** The canonical JSON text that capability grants are fingerprinted by. */
module CanonicalJson {
  import opened StringOrder

  datatype Member = Member(key: string, value: Json)

  /** A JSON value; numbers are kept as their serialized text, object members in storage order. */
  datatype Json =
    | Null
    | Bool(flag: bool)
    | Number(digits: string)
    | String(text: string)
    | Array(items: seq<Json>)
    | Object(members: seq<Member>)

  predicate NumberChar(c: char) { '0' <= c <= '9' || c in "+-.eE" }

  predicate NumberText(s: string) {
    && s != []
    && ('0' <= s[0] <= '9' || s[0] == '-')
    && forall i :: 0 <= i < |s| ==> NumberChar(s[i])
  }

  predicate DistinctKeys(members: seq<Member>) {
    forall i, j :: 0 <= i < j < |members| ==> members[i].key != members[j].key
  }

  predicate Valid(v: Json) {
    match v
    case Number(digits) => NumberText(digits)
    case Array(items) => forall i :: 0 <= i < |items| ==> Valid(items[i])
    case Object(members) =>
      DistinctKeys(members) && forall i :: 0 <= i < |members| ==> Valid(members[i].value)
    case _ => true
  }

  /** Equality up to the order of object members, at every depth. */
  predicate Same(a: Json, b: Json)
    decreases a, 1
  {
    match (a, b)
    case (Array(xs), Array(ys)) => |xs| == |ys| && forall i :: 0 <= i < |xs| ==> Same(xs[i], ys[i])
    case (Object(xs), Object(ys)) =>
      (forall x :: x in xs ==> HasMatch(x, ys)) && (forall y :: y in ys ==> HasKey(xs, y.key))
    case _ => a == b
  }

  predicate HasMatch(x: Member, ys: seq<Member>)
    decreases x, 0
  {
    exists y :: y in ys && y.key == x.key && Same(x.value, y.value)
  }

  predicate HasKey(members: seq<Member>, key: string) {
    exists m :: m in members && m.key == key
  }

  // ---------------------------------------------------------------- rendering

  function HexDigit(n: nat): char
    requires n < 16
  {
    "0123456789abcdef"[n]
  }

  /** One character inside a JSON string, as serde_json escapes it. */
  function Escaped(c: char): string {
    if c == '\"' then "\\\""
    else if c == '\\' then "\\\\"
    else if c as int == 8 then "\\b"
    else if c as int == 9 then "\\t"
    else if c as int == 10 then "\\n"
    else if c as int == 12 then "\\f"
    else if c as int == 13 then "\\r"
    else if (c as int) < 0x20 then "\\u00" + [HexDigit(c as int / 16), HexDigit(c as int % 16)]
    else [c]
  }

  /** The characters of `s` escaped, with the closing quote. */
  function Closed(s: string): string {
    if s == [] then "\"" else Escaped(s[0]) + Closed(s[1..])
  }

  function Quoted(s: string): string { "\"" + Closed(s) }

  function Join(parts: seq<string>): string {
    if |parts| == 0 then ""
    else if |parts| == 1 then parts[0]
    else parts[0] + "," + Join(parts[1..])
  }

  function Keys(members: seq<Member>): (keys: seq<string>)
    ensures |keys| == |members|
    ensures forall i :: 0 <= i < |members| ==> keys[i] == members[i].key
  {
    seq(|members|, i requires 0 <= i < |members| => members[i].key)
  }

  function Insert(m: Member, sorted: seq<Member>): seq<Member> {
    if sorted == [] || Below(m.key, sorted[0].key) then [m] + sorted
    else [sorted[0]] + Insert(m, sorted[1..])
  }

  function SortByKey(members: seq<Member>): (sorted: seq<Member>)
  {
    if members == [] then [] else Insert(members[0], SortByKey(members[1..]))
  }

  lemma {:induction false} InsertElements(m: Member, sorted: seq<Member>, e: Member)
    ensures e in Insert(m, sorted) <==> e == m || e in sorted
  {
    if sorted != [] && !Below(m.key, sorted[0].key) { InsertElements(m, sorted[1..], e); }
  }

  lemma {:induction false} SortElements(members: seq<Member>, e: Member)
    ensures e in SortByKey(members) <==> e in members
  {
    if members != [] {
      InsertElements(members[0], SortByKey(members[1..]), e);
      SortElements(members[1..], e);
    }
  }

  function SortedMembers(v: Json): (sorted: seq<Member>)
    requires v.Object?
    ensures forall e :: e in sorted <==> e in v.members
  {
    var sorted := SortByKey(v.members);
    assert forall e :: e in sorted <==> e in v.members by {
      forall e ensures e in sorted <==> e in v.members { SortElements(v.members, e); }
    }
    sorted
  }

  function CanonicalText(v: Json): string
    decreases v, 1, 0
  {
    match v
    case Null => "null"
    case Bool(flag) => if flag then "true" else "false"
    case Number(digits) => digits
    case String(text) => Quoted(text)
    case Array(items) => "[" + Join(ItemTexts(v, items)) + "]"
    case Object(_) => "{" + Join(MemberTexts(v, SortedMembers(v))) + "}"
  }

  function ItemTexts(v: Json, items: seq<Json>): (texts: seq<string>)
    requires v.Array? && forall i :: i in items ==> i in v.items
    ensures |texts| == |items|
    decreases v, 0, |items|
  {
    if items == [] then []
    else
      assert items[0] in v.items;
      [CanonicalText(items[0])] + ItemTexts(v, items[1..])
  }

  function MemberTexts(v: Json, members: seq<Member>): (texts: seq<string>)
    requires v.Object? && forall m :: m in members ==> m in v.members
    ensures |texts| == |members|
    decreases v, 0, |members|
  {
    if members == [] then []
    else
      assert members[0] in v.members;
      [Quoted(members[0].key) + ":" + CanonicalText(members[0].value)] + MemberTexts(v, members[1..])
  }

  // ---------------------------------------------------------------- texts are uniquely decodable

  /** What can follow a value inside a larger text, or at its end. */
  predicate Stops(rest: string) { rest == "" || rest[0] in ",]}" }

  lemma Cancel(p: string, s: string, t: string)
    requires p + s == p + t
    ensures s == t
  {
    assert (p + s)[|p|..] == s && (p + t)[|p|..] == t;
  }

  lemma Regroup(a: string, b: string, c: string)
    ensures (a + b) + c == a + (b + c)
  {}

  lemma CancelTwice(p: string, x: string, y: string, s: string, t: string)
    requires (p + x) + s == (p + y) + t
    ensures x + s == y + t
  {
    Regroup(p, x, s);
    Regroup(p, y, t);
    Cancel(p, x + s, y + t);
  }

  lemma HexDigitsDiffer(m: nat, n: nat)
    requires m < 16 && n < 16 && HexDigit(m) == HexDigit(n)
    ensures m == n
  {}

  /** The escapes of two characters are equal when one begins the other, and none begins with a quote. */
  lemma EscapesDiffer(c: char, d: char, s: string, t: string)
    requires Escaped(c) + s == Escaped(d) + t
    ensures c == d && s == t
  {
    var x, y := Escaped(c), Escaped(d);
    assert (x + s)[0] == x[0] && (y + t)[0] == y[0];
    if x[0] == '\\' {
      assert (x + s)[1] == x[1] && (y + t)[1] == y[1];
      if x[1] == 'u' {
        assert (x + s)[4] == x[4] && (y + t)[4] == y[4];
        assert (x + s)[5] == x[5] && (y + t)[5] == y[5];
        HexDigitsDiffer(c as int / 16, d as int / 16);
        HexDigitsDiffer(c as int % 16, d as int % 16);
      }
    }
    assert c == d;
    Cancel(x, s, t);
  }

  lemma {:induction false} ClosedUnique(a: string, b: string, s: string, t: string)
    requires Closed(a) + s == Closed(b) + t
    ensures a == b && s == t
  {
    if a == [] || b == [] {
      assert (Closed(a) + s)[0] == Closed(a)[0] && (Closed(b) + t)[0] == Closed(b)[0];
      assert a == [] && b == [];
      Cancel("\"", s, t);
    } else {
      Regroup(Escaped(a[0]), Closed(a[1..]), s);
      Regroup(Escaped(b[0]), Closed(b[1..]), t);
      EscapesDiffer(a[0], b[0], Closed(a[1..]) + s, Closed(b[1..]) + t);
      ClosedUnique(a[1..], b[1..], s, t);
      assert a == [a[0]] + a[1..] && b == [b[0]] + b[1..];
    }
  }

  lemma QuotedUnique(a: string, b: string, s: string, t: string)
    requires Quoted(a) + s == Quoted(b) + t
    ensures a == b && s == t
  {
    CancelTwice("\"", Closed(a), Closed(b), s, t);
    ClosedUnique(a, b, s, t);
  }

  lemma LongerNumberDiffers(a: string, b: string, s: string, t: string)
    requires NumberText(b) && |a| < |b| && Stops(s)
    ensures a + s != b + t
  {
    assert (b + t)[|a|] == b[|a|];
    assert s != "" ==> (a + s)[|a|] == s[0];
    assert s == "" ==> |a + s| < |b + t|;
  }

  lemma NumberUnique(a: string, b: string, s: string, t: string)
    requires NumberText(a) && NumberText(b) && Stops(s) && Stops(t) && a + s == b + t
    ensures a == b && s == t
  {
    if |a| < |b| {
      LongerNumberDiffers(a, b, s, t);
    } else if |b| < |a| {
      LongerNumberDiffers(b, a, t, s);
    } else {
      assert a == (a + s)[..|a|] && b == (b + t)[..|b|];
      Cancel(a, s, t);
    }
  }

  /** The kind of value a first character announces. */
  function KindOf(c: char): nat {
    if c == 'n' then 0 else if c == 't' then 1 else if c == 'f' then 2
    else if c == '\"' then 3 else if c == '[' then 4 else if c == '{' then 5
    else if c in ",]}" then 7 else 6
  }

  function Kind(v: Json): (kind: nat)
    ensures kind < 7
  {
    match v
    case Null => 0
    case Bool(flag) => if flag then 1 else 2
    case String(_) => 3
    case Array(_) => 4
    case Object(_) => 5
    case Number(_) => 6
  }

  lemma HeadKind(v: Json, s: string)
    requires Valid(v)
    ensures CanonicalText(v) + s != "" && KindOf((CanonicalText(v) + s)[0]) == Kind(v)
  {
    var text := CanonicalText(v);
    assert text != [] && KindOf(text[0]) == Kind(v);
    assert (text + s)[0] == text[0];
  }

  function JoinTail(parts: seq<string>): string {
    if parts == [] then "" else "," + Join(parts)
  }

  predicate Closing(close: string) { close == "]" || close == "}" }

  /** A non-empty joined list is its first part, then a rest that can follow a value. */
  lemma JoinFirst(parts: seq<string>, close: string, s: string)
    requires parts != [] && Closing(close)
    ensures (Join(parts) + close) + s == parts[0] + ((JoinTail(parts[1..]) + close) + s)
    ensures Stops((JoinTail(parts[1..]) + close) + s)
  {
    var first, rest := parts[0], JoinTail(parts[1..]);
    assert Join(parts) == first + rest;
    Regroup(first, rest, close);
    Regroup(first, rest + close, s);
    assert ((rest + close) + s)[0] == if rest == "" then close[0] else rest[0];
  }

  lemma RestAgrees(xs: seq<string>, ys: seq<string>, close: string, s: string, t: string)
    requires Closing(close) && (JoinTail(xs) + close) + s == (JoinTail(ys) + close) + t
    ensures xs == [] <==> ys == []
    ensures xs == [] ==> s == t
    ensures xs != [] ==> (Join(xs) + close) + s == (Join(ys) + close) + t
  {
    RestHead(xs, close, s);
    RestHead(ys, close, t);
    if xs == [] {
      CancelTwice("", close, close, s, t);
      Cancel(close, s, t);
    } else {
      Regroup(",", Join(xs), close);
      Regroup(",", Join(ys), close);
      CancelTwice(",", Join(xs) + close, Join(ys) + close, s, t);
    }
  }

  lemma RestHead(parts: seq<string>, close: string, s: string)
    requires Closing(close)
    ensures ((JoinTail(parts) + close) + s) != ""
    ensures parts == [] <==> ((JoinTail(parts) + close) + s)[0] != ','
  {
    var rest := JoinTail(parts);
    assert ((rest + close) + s)[0] == if rest == "" then close[0] else rest[0];
  }

  /** Two texts that agree up to what can follow a value come from the same value. */
  lemma {:induction false} TextUnique(a: Json, b: Json, s: string, t: string)
    requires Valid(a) && Valid(b) && Stops(s) && Stops(t)
    requires CanonicalText(a) + s == CanonicalText(b) + t
    ensures Same(a, b) && s == t
    decreases a, 2, 0
  {
    HeadKind(a, s);
    HeadKind(b, t);
    match (a, b) {
      case (Null, Null) => Cancel("null", s, t);
      case (Bool(flag), Bool(_)) => Cancel(CanonicalText(a), s, t);
      case (Number(x), Number(y)) => NumberUnique(x, y, s, t);
      case (String(x), String(y)) => QuotedUnique(x, y, s, t);
      case (Array(_), Array(_)) => ArrayUnique(a, b, s, t);
      case (Object(_), Object(_)) => ObjectUnique(a, b, s, t);
    }
  }

  lemma {:induction false} ArrayUnique(a: Json, b: Json, s: string, t: string)
    requires a.Array? && b.Array? && Valid(a) && Valid(b) && Stops(s) && Stops(t)
    requires CanonicalText(a) + s == CanonicalText(b) + t
    ensures Same(a, b) && s == t
    decreases a, 1, 0
  {
    var xs, ys := ItemTexts(a, a.items), ItemTexts(b, b.items);
    Regroup("[", Join(xs), "]");
    Regroup("[", Join(ys), "]");
    CancelTwice("[", Join(xs) + "]", Join(ys) + "]", s, t);
    if a.items != [] { ItemsHead(a, s); }
    if b.items != [] { ItemsHead(b, t); }
    if a.items == [] {
      assert Join(xs) + "]" == "]" == Join(ys) + "]";
      Cancel("]", s, t);
    } else {
      ItemsUnique(a, b, a.items, b.items, s, t);
    }
  }

  lemma ItemsHead(a: Json, s: string)
    requires a.Array? && Valid(a) && a.items != []
    ensures (Join(ItemTexts(a, a.items)) + "]") + s != "" && ((Join(ItemTexts(a, a.items)) + "]") + s)[0] != ']'
  {
    JoinFirst(ItemTexts(a, a.items), "]", s);
    HeadKind(a.items[0], (JoinTail(ItemTexts(a, a.items)[1..]) + "]") + s);
  }

  lemma {:induction false} ItemsUnique(a: Json, b: Json, xs: seq<Json>, ys: seq<Json>, s: string, t: string)
    requires a.Array? && b.Array? && Stops(s) && Stops(t) && xs != [] && ys != []
    requires forall x :: x in xs ==> x in a.items && Valid(x)
    requires forall y :: y in ys ==> y in b.items && Valid(y)
    requires (Join(ItemTexts(a, xs)) + "]") + s == (Join(ItemTexts(b, ys)) + "]") + t
    ensures |xs| == |ys| && forall i :: 0 <= i < |xs| ==> Same(xs[i], ys[i])
    ensures s == t
    decreases a, 0, |xs|
  {
    var ps, qs := ItemTexts(a, xs), ItemTexts(b, ys);
    JoinFirst(ps, "]", s);
    JoinFirst(qs, "]", t);
    assert xs[0] in xs && ys[0] in ys;
    TextUnique(xs[0], ys[0], (JoinTail(ps[1..]) + "]") + s, (JoinTail(qs[1..]) + "]") + t);
    RestAgrees(ps[1..], qs[1..], "]", s, t);
    if |xs| > 1 { ItemsUnique(a, b, xs[1..], ys[1..], s, t); }
  }

  /** The same members under the same keys, position by position. */
  predicate SameSorted(xs: seq<Member>, ys: seq<Member>) {
    && |xs| == |ys|
    && forall i :: 0 <= i < |xs| ==> xs[i].key == ys[i].key && Same(xs[i].value, ys[i].value)
  }

  lemma {:induction false} ObjectUnique(a: Json, b: Json, s: string, t: string)
    requires a.Object? && b.Object? && Valid(a) && Valid(b) && Stops(s) && Stops(t)
    requires CanonicalText(a) + s == CanonicalText(b) + t
    ensures Same(a, b) && s == t
    decreases a, 1, 0
  {
    var xs, ys := SortedMembers(a), SortedMembers(b);
    var ps, qs := MemberTexts(a, xs), MemberTexts(b, ys);
    Regroup("{", Join(ps), "}");
    Regroup("{", Join(qs), "}");
    CancelTwice("{", Join(ps) + "}", Join(qs) + "}", s, t);
    if xs != [] { MembersHead(a, xs, s); }
    if ys != [] { MembersHead(b, ys, t); }
    if xs == [] {
      assert Join(ps) + "}" == "}" == Join(qs) + "}";
      Cancel("}", s, t);
    } else {
      ValidMembers(a);
      ValidMembers(b);
      MembersUnique(a, b, xs, ys, s, t);
    }
    SameMembers(a, b);
  }

  lemma ValidMembers(a: Json)
    requires a.Object? && Valid(a)
    ensures forall m :: m in SortedMembers(a) ==> m in a.members && Valid(m.value)
  {}

  lemma MembersHead(a: Json, xs: seq<Member>, s: string)
    requires a.Object? && xs != [] && forall x :: x in xs ==> x in a.members
    ensures (Join(MemberTexts(a, xs)) + "}") + s != "" && ((Join(MemberTexts(a, xs)) + "}") + s)[0] != '}'
  {
    JoinFirst(MemberTexts(a, xs), "}", s);
    assert MemberTexts(a, xs)[0][0] == '\"';
  }

  lemma MemberUnique(k: string, l: string, u: string, v: string, s: string, t: string)
    requires (Quoted(k) + ":" + u) + s == (Quoted(l) + ":" + v) + t
    ensures k == l && u + s == v + t
  {
    Regroup(Quoted(k) + ":", u, s);
    Regroup(Quoted(l) + ":", v, t);
    Regroup(Quoted(k), ":", u + s);
    Regroup(Quoted(l), ":", v + t);
    QuotedUnique(k, l, ":" + (u + s), ":" + (v + t));
    Cancel(":", u + s, v + t);
  }

  lemma {:induction false} MembersUnique(a: Json, b: Json, xs: seq<Member>, ys: seq<Member>, s: string, t: string)
    requires a.Object? && b.Object? && Stops(s) && Stops(t) && xs != [] && ys != []
    requires forall x :: x in xs ==> x in a.members && Valid(x.value)
    requires forall y :: y in ys ==> y in b.members && Valid(y.value)
    requires (Join(MemberTexts(a, xs)) + "}") + s == (Join(MemberTexts(b, ys)) + "}") + t
    ensures SameSorted(xs, ys) && s == t
    decreases a, 0, |xs|
  {
    var ps, qs := MemberTexts(a, xs), MemberTexts(b, ys);
    JoinFirst(ps, "}", s);
    JoinFirst(qs, "}", t);
    var x, y, u, v := xs[0], ys[0], (JoinTail(ps[1..]) + "}") + s, (JoinTail(qs[1..]) + "}") + t;
    assert x in xs && y in ys;
    MemberUnique(x.key, y.key, CanonicalText(x.value), CanonicalText(y.value), u, v);
    TextUnique(x.value, y.value, u, v);
    RestAgrees(ps[1..], qs[1..], "}", s, t);
    if |xs| > 1 { MembersUnique(a, b, xs[1..], ys[1..], s, t); }
  }

  lemma SortedMatch(xs: seq<Member>, ys: seq<Member>)
    requires SameSorted(xs, ys)
    ensures forall x :: x in xs ==> HasMatch(x, ys)
    ensures forall y :: y in ys ==> HasKey(xs, y.key)
  {
    forall x | x in xs ensures HasMatch(x, ys) {
      var p :| 0 <= p < |xs| && xs[p] == x;
      assert ys[p] in ys;
    }
    forall y | y in ys ensures HasKey(xs, y.key) {
      var p :| 0 <= p < |ys| && ys[p] == y;
      assert xs[p] in xs;
    }
  }

  lemma MatchElsewhere(x: Member, ys: seq<Member>, zs: seq<Member>)
    requires HasMatch(x, ys) && forall y :: y in ys ==> y in zs
    ensures HasMatch(x, zs)
  {
    var y :| y in ys && y.key == x.key && Same(x.value, y.value);
    assert y in zs;
  }

  lemma SameMembers(a: Json, b: Json)
    requires a.Object? && b.Object? && SameSorted(SortedMembers(a), SortedMembers(b))
    ensures Same(a, b)
  {
    SortedMatch(SortedMembers(a), SortedMembers(b));
    forall x | x in a.members ensures HasMatch(x, b.members) {
      MatchElsewhere(x, SortedMembers(b), b.members);
    }
    forall y | y in b.members ensures HasKey(a.members, y.key) {
      var x :| x in SortedMembers(a) && x.key == y.key;
      assert x in a.members;
    }
  }

  // ---------------------------------------------------------------- equal values have equal texts

  lemma {:induction false} InsertIncreasing(m: Member, sorted: seq<Member>)
    requires Increasing(Keys(sorted)) && forall e :: e in sorted ==> e.key != m.key
    ensures Increasing(Keys(Insert(m, sorted)))
  {
    if sorted != [] {
      var keys := Keys(sorted);
      if Below(m.key, sorted[0].key) {
        forall i | 0 < i < |keys| ensures Below(m.key, keys[i]) { BelowIsTransitive(m.key, keys[0], keys[i]); }
      } else {
        BelowIsTotal(m.key, sorted[0].key);
        var rest := Insert(m, sorted[1..]);
        assert Keys(sorted[1..]) == keys[1..];
        InsertIncreasing(m, sorted[1..]);
        forall i | 0 <= i < |rest| ensures Below(sorted[0].key, rest[i].key) {
          InsertElements(m, sorted[1..], rest[i]);
        }
      }
    }
  }

  lemma {:induction false} SortIncreasing(members: seq<Member>)
    requires DistinctKeys(members)
    ensures Increasing(Keys(SortByKey(members)))
  {
    if members != [] {
      SortIncreasing(members[1..]);
      forall e | e in SortByKey(members[1..]) ensures e.key != members[0].key {
        SortElements(members[1..], e);
      }
      InsertIncreasing(members[0], SortByKey(members[1..]));
    }
  }

  lemma SortedKey(v: Json, key: string)
    requires v.Object?
    ensures key in Keys(SortedMembers(v)) <==> HasKey(v.members, key)
  {
    var sorted := SortedMembers(v);
    if HasKey(v.members, key) {
      var m :| m in v.members && m.key == key;
      var p :| 0 <= p < |sorted| && sorted[p] == m;
      assert Keys(sorted)[p] == key;
    }
    if key in Keys(sorted) {
      var p :| 0 <= p < |sorted| && Keys(sorted)[p] == key;
      assert sorted[p] in v.members;
    }
  }

  lemma SameKeys(a: Json, b: Json, key: string)
    requires a.Object? && b.Object? && Same(a, b)
    ensures HasKey(a.members, key) <==> HasKey(b.members, key)
  {
    if x :| x in a.members && x.key == key {
      assert HasMatch(x, b.members);
    }
  }

  lemma SortedKeysAgree(a: Json, b: Json)
    requires a.Object? && b.Object? && DistinctKeys(a.members) && DistinctKeys(b.members) && Same(a, b)
    ensures Keys(SortedMembers(a)) == Keys(SortedMembers(b))
  {
    SortIncreasing(a.members);
    SortIncreasing(b.members);
    forall key ensures key in Keys(SortedMembers(a)) <==> key in Keys(SortedMembers(b)) {
      SortedKey(a, key);
      SortedKey(b, key);
      SameKeys(a, b, key);
    }
    IncreasingUnique(Keys(SortedMembers(a)), Keys(SortedMembers(b)));
  }

  lemma MatchByKey(x: Member, ys: seq<Member>, y: Member)
    requires DistinctKeys(ys) && HasMatch(x, ys) && y in ys && x.key == y.key
    ensures Same(x.value, y.value)
  {
    var z :| z in ys && z.key == x.key && Same(x.value, z.value);
    var j :| 0 <= j < |ys| && ys[j] == z;
    var k :| 0 <= k < |ys| && ys[k] == y;
    assert j == k;
  }

  lemma SortedAgree(a: Json, b: Json)
    requires a.Object? && b.Object? && DistinctKeys(a.members) && DistinctKeys(b.members) && Same(a, b)
    ensures SameSorted(SortedMembers(a), SortedMembers(b))
  {
    var xs, ys := SortedMembers(a), SortedMembers(b);
    SortedKeysAgree(a, b);
    assert |Keys(xs)| == |Keys(ys)|;
    forall i | 0 <= i < |xs| ensures xs[i].key == ys[i].key && Same(xs[i].value, ys[i].value) {
      assert Keys(xs)[i] == Keys(ys)[i];
      assert xs[i] in a.members && ys[i] in b.members;
      MatchByKey(xs[i], b.members, ys[i]);
    }
  }

  lemma {:induction false} SameText(a: Json, b: Json)
    requires Valid(a) && Valid(b) && Same(a, b)
    ensures CanonicalText(a) == CanonicalText(b)
    decreases a, 1, 0
  {
    if a.Array? {
      SameItemTexts(a, b, a.items, b.items);
    } else if a.Object? {
      SortedAgree(a, b);
      ValidMembers(a);
      ValidMembers(b);
      SameMemberTexts(a, b, SortedMembers(a), SortedMembers(b));
    }
  }

  lemma {:induction false} SameItemTexts(a: Json, b: Json, xs: seq<Json>, ys: seq<Json>)
    requires a.Array? && b.Array? && |xs| == |ys|
    requires forall x :: x in xs ==> x in a.items && Valid(x)
    requires forall y :: y in ys ==> y in b.items && Valid(y)
    requires forall i :: 0 <= i < |xs| ==> Same(xs[i], ys[i])
    ensures ItemTexts(a, xs) == ItemTexts(b, ys)
    decreases a, 0, |xs|
  {
    if xs != [] {
      assert xs[0] in xs && ys[0] in ys;
      SameText(xs[0], ys[0]);
      SameItemTexts(a, b, xs[1..], ys[1..]);
    }
  }

  lemma {:induction false} SameMemberTexts(a: Json, b: Json, xs: seq<Member>, ys: seq<Member>)
    requires a.Object? && b.Object? && SameSorted(xs, ys)
    requires forall x :: x in xs ==> x in a.members && Valid(x.value)
    requires forall y :: y in ys ==> y in b.members && Valid(y.value)
    ensures MemberTexts(a, xs) == MemberTexts(b, ys)
    decreases a, 0, |xs|
  {
    if xs != [] {
      assert xs[0] in xs && ys[0] in ys;
      SameText(xs[0].value, ys[0].value);
      SameMemberTexts(a, b, xs[1..], ys[1..]);
    }
  }

  /** Main result: two values have the same canonical text exactly when they are equal up to the
      order of object members at every depth. */
  lemma CanonicalTextIsUnique(a: Json, b: Json)
    requires Valid(a) && Valid(b)
    ensures CanonicalText(a) == CanonicalText(b) <==> Same(a, b)
  {
    if CanonicalText(a) == CanonicalText(b) {
      TextUnique(a, b, "", "");
    } else if Same(a, b) {
      SameText(a, b);
    }
  }

  /** No canonical text followed by what can follow a value is another canonical text so followed. */
  lemma CanonicalTextIsPrefixFree(a: Json, b: Json, s: string, t: string)
    requires Valid(a) && Valid(b) && Stops(s) && Stops(t)
    ensures CanonicalText(a) + s == CanonicalText(b) + t <==> Same(a, b) && s == t
  {
    if CanonicalText(a) + s == CanonicalText(b) + t {
      TextUnique(a, b, s, t);
    } else if Same(a, b) {
      SameText(a, b);
    }
  }
}
