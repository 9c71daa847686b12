/** `String` as a program: it collects keys in whatever order the map yields them, sorts them, and
    joins the texts of the parts. */
module TlaPrinter {
  import opened Numerals
  import opened Tla

  // ---- sorting leaves one order only ----

  lemma {:induction false} LeqAntisymmetric(a: string, b: string)
    requires Leq(a, b) && Leq(b, a)
    ensures a == b
  {
    if a != "" && b != "" {
      LeqAntisymmetric(a[1..], b[1..]);
      assert a == [a[0]] + a[1..] && b == [b[0]] + b[1..];
    }
  }

  lemma {:induction false} LeqTransitive(a: string, b: string, c: string)
    requires Leq(a, b) && Leq(b, c)
    ensures Leq(a, c)
  {
    if a != "" && b != "" && c != "" && a[0] == b[0] == c[0] {
      LeqTransitive(a[1..], b[1..], c[1..]);
    }
  }

  lemma {:induction false} LeqReflexive(a: string)
    ensures Leq(a, a)
  {
    LeqTotal(a, a);
  }

  lemma {:induction false} HeadIsLeast(s: seq<string>, i: nat)
    requires Sorted(s) && i < |s|
    ensures Leq(s[0], s[i])
  {
    if i == 0 {
      LeqReflexive(s[0]);
    } else {
      HeadIsLeast(s, i - 1);
      LeqTransitive(s[0], s[i - 1], s[i]);
    }
  }

  lemma {:induction false} SameHead(s: seq<string>, t: seq<string>)
    requires Sorted(s) && Sorted(t) && s != [] && t != [] && s[0] in t && t[0] in s
    ensures s[0] == t[0]
  {
    var i :| 0 <= i < |t| && t[i] == s[0];
    var j :| 0 <= j < |s| && s[j] == t[0];
    HeadIsLeast(t, i);
    HeadIsLeast(s, j);
    LeqAntisymmetric(s[0], t[0]);
  }

  lemma Tail(s: seq<string>)
    requires s != []
    ensures multiset(s[1..]) == multiset(s) - multiset{s[0]} && s[0] in multiset(s)
  {
    assert s == [s[0]] + s[1..];
  }

  lemma Heads(s: seq<string>, t: seq<string>)
    requires multiset(s) == multiset(t)
    ensures s == [] <==> t == []
    ensures s != [] ==> s[0] in t && t[0] in s
  {
    assert |multiset(s)| == |s| && |multiset(t)| == |t|;
    if s != [] {
      assert s[0] in multiset(t) && t[0] in multiset(s);
    }
  }

  lemma {:induction false} SortedIsUnique(s: seq<string>, t: seq<string>)
    requires Sorted(s) && Sorted(t) && multiset(s) == multiset(t)
    ensures s == t
  {
    hide Sorted;
    Heads(s, t);
    if s != [] {
      SameHead(s, t);
      Tail(s);
      Tail(t);
      SortedTail(s);
      SortedTail(t);
      SortedIsUnique(s[1..], t[1..]);
      assert s == [s[0]] + s[1..] && t == [t[0]] + t[1..];
    }
  }

  lemma SortedTail(s: seq<string>)
    requires Sorted(s) && s != []
    ensures Sorted(s[1..])
  {
    hide Leq;
    var t := s[1..];
    forall i | 0 < i < |t| ensures Leq(t[i - 1], t[i]) {
      assert Leq(s[i], s[i + 1]);
    }
  }

  method SortStrings(keys: seq<string>) returns (sorted: seq<string>)
    ensures Sorted(sorted) && multiset(sorted) == multiset(keys)
  {
    sorted := [];
    for i := 0 to |keys|
      invariant Sorted(sorted) && multiset(sorted) == multiset(keys[..i])
    {
      sorted := Insert(keys[i], sorted);
      assert keys[..i + 1] == keys[..i] + [keys[i]];
    }
    assert keys[..|keys|] == keys;
  }

  /** The order in which a map is traversed is arbitrary; what is printed does not depend on it. */
  method KeysOf(m: map<string, TLA>) returns (keys: seq<string>)
    ensures keys == SortedKeys(m.Keys)
  {
    var rest := m.Keys;
    keys := [];
    while rest != {}
      invariant rest <= m.Keys && multiset(keys) == multiset(m.Keys - rest)
      decreases rest
    {
      var k :| k in rest;
      assert m.Keys - (rest - {k}) == (m.Keys - rest) + {k};
      keys := keys + [k];
      rest := rest - {k};
    }
    assert m.Keys - rest == m.Keys;
    keys := SortStrings(keys);
    SortedIsUnique(keys, SortedKeys(m.Keys));
  }

  // ---- joining ----

  function Join(texts: seq<string>): string {
    if texts == [] then ""
    else if |texts| == 1 then texts[0]
    else texts[0] + ", " + Join(texts[1..])
  }

  ghost function Texts(v: TLA, parts: seq<(string, TLA)>): (texts: seq<string>)
    ensures |texts| == |parts|
    ensures forall i :: 0 <= i < |parts| ==> texts[i] == Label(v.Record?, parts[i].0) + Print(parts[i].1)
  {
    seq(|parts|, i requires 0 <= i < |parts| => Label(v.Record?, parts[i].0) + Print(parts[i].1))
  }

  lemma {:induction false} JoinIsPrintParts(v: TLA, parts: seq<(string, TLA)>)
    requires forall i :: 0 <= i < |parts| ==> parts[i].1 < v
    ensures Join(Texts(v, parts)) == PrintParts(v, parts)
  {
    hide Print, Label;
    if parts != [] {
      JoinIsPrintParts(v, parts[1..]);
      assert Texts(v, parts)[1..] == Texts(v, parts[1..]);
    }
  }

  // ---- `String` ----

  /** `String` prints every value canonically. */
  method String(v: TLA) returns (s: string)
    ensures s == Print(v)
    decreases v, 1
  {
    match v
    case Seq(_) =>
      var texts := ElementTexts(v);
      s := "<<" + Join(texts) + ">>";
    case Record(_) =>
      var texts := FieldTexts(v);
      s := "[" + Join(texts) + "]";
    case Set(_) =>
      var texts := MemberTexts(v);
      s := "{" + Join(texts) + "}";
    case Int(n) => s := PrintInt(n);
    case Bool(b) => s := PrintBool(b);
    case Str(str) => s := str;
  }

  method ElementTexts(v: TLA) returns (texts: seq<string>)
    requires v.Seq?
    ensures Join(texts) == PrintParts(v, Parts(v))
    decreases v, 0
  {
    hide Print, PrintParts;
    ghost var parts := Parts(v);
    texts := [];
    for i := 0 to |v.elements|
      invariant |texts| == i && forall k :: 0 <= k < i ==> texts[k] == Texts(v, parts)[k]
    {
      assert parts[i] == ("", v.elements[i]);
      var text := String(v.elements[i]);
      texts := texts + [text];
      assert "" + text == text;
    }
    assert texts == Texts(v, parts);
    JoinIsPrintParts(v, parts);
  }

  method FieldTexts(v: TLA) returns (texts: seq<string>)
    requires v.Record?
    ensures Join(texts) == PrintParts(v, Parts(v))
    decreases v, 0
  {
    hide Print, PrintParts, Parts, SortedKeys, Join;
    ghost var parts := Parts(v);
    var keys := KeysOf(v.fields);
    FieldParts(v);
    texts := [];
    for i := 0 to |keys|
      invariant |texts| == i && forall k :: 0 <= k < i ==> texts[k] == Texts(v, parts)[k]
    {
      assert parts[i].1 == v.fields[keys[i]];
      var text := String(v.fields[keys[i]]);
      texts := texts + [keys[i] + " |-> " + text];
    }
    assert texts == Texts(v, parts);
    JoinIsPrintParts(v, parts);
  }

  method MemberTexts(v: TLA) returns (texts: seq<string>)
    requires v.Set?
    ensures Join(texts) == PrintParts(v, Parts(v))
    decreases v, 0
  {
    hide Print, PrintParts, Parts, SortedKeys, Join;
    ghost var parts := Parts(v);
    var keys := KeysOf(v.members);
    MemberParts(v);
    texts := [];
    for i := 0 to |keys|
      invariant |texts| == i && forall k :: 0 <= k < i ==> texts[k] == Texts(v, parts)[k]
    {
      assert parts[i].1 == v.members[keys[i]];
      var text := String(v.members[keys[i]]);
      texts := texts + [text];
      assert "" + text == text;
    }
    assert texts == Texts(v, parts);
    JoinIsPrintParts(v, parts);
  }

  lemma FieldParts(v: TLA)
    requires v.Record?
    ensures
      var keys := SortedKeys(v.fields.Keys);
      && |Parts(v)| == |keys|
      && forall i :: 0 <= i < |keys| ==> keys[i] in v.fields && Parts(v)[i] == (keys[i], v.fields[keys[i]])
  {
    hide SortedKeys;
    var keys := SortedKeys(v.fields.Keys);
    assert forall i :: 0 <= i < |keys| ==> keys[i] in keys;
  }

  lemma MemberParts(v: TLA)
    requires v.Set?
    ensures
      var keys := SortedKeys(v.members.Keys);
      && |Parts(v)| == |keys|
      && forall i :: 0 <= i < |keys| ==> keys[i] in v.members && Parts(v)[i] == ("", v.members[keys[i]])
  {
    hide SortedKeys;
    var keys := SortedKeys(v.members.Keys);
    assert forall i :: 0 <= i < |keys| ==> keys[i] in keys;
  }

  // ---- what the text looks like ----

  /** `a` comes before `b` in a dictionary: it is a prefix, or smaller where they first differ. */
  predicate Precedes(a: string, b: string, n: nat) {
    && n <= |a| && n <= |b| && a[..n] == b[..n]
    && (n == |a| || (n < |b| && a[n] < b[n]))
  }

  lemma {:induction false} LeqPrecedes(a: string, b: string) returns (n: nat)
    requires Leq(a, b)
    ensures Precedes(a, b, n)
  {
    if a == "" || a[0] != b[0] {
      n := 0;
    } else {
      var m := LeqPrecedes(a[1..], b[1..]);
      n := m + 1;
      assert a == [a[0]] + a[1..] && b == [b[0]] + b[1..];
      assert a[..n] == [a[0]] + a[1..][..m] && b[..n] == [b[0]] + b[1..][..m];
    }
  }

  lemma {:induction false} SortedPairs(s: seq<string>, i: nat, j: nat)
    requires Sorted(s) && i <= j < |s|
    ensures Leq(s[i], s[j])
  {
    if i == j {
      LeqReflexive(s[i]);
    } else {
      SortedPairs(s, i, j - 1);
      LeqTransitive(s[i], s[j - 1], s[j]);
    }
  }

  /** Keys print in dictionary order, each once. */
  lemma {:induction false} KeysAscend(keys: set<string>, i: nat, j: nat) returns (n: nat)
    requires i < j < |SortedKeys(keys)|
    ensures Precedes(SortedKeys(keys)[i], SortedKeys(keys)[j], n)
    ensures SortedKeys(keys)[i] != SortedKeys(keys)[j]
  {
    var s := SortedKeys(keys);
    SortedPairs(s, i, j);
    n := LeqPrecedes(s[i], s[j]);
    AtMostOnce(keys, s[i]);
    if s[i] == s[j] {
      Twice(s, i, j);
    }
  }

  lemma AtMostOnce(keys: set<string>, x: string)
    ensures multiset(keys)[x] <= 1
  {
  }

  lemma Twice(s: seq<string>, i: nat, j: nat)
    requires i < j < |s| && s[i] == s[j]
    ensures multiset(s)[s[i]] >= 2
  {
    var x := s[i];
    assert s == s[..i] + [x] + s[i + 1..j] + [x] + s[j + 1..];
  }

  /** A sequence prints its elements in order, with commas between. */
  lemma PrintedSeq(v: TLA, texts: seq<string>)
    requires v.Seq? && |texts| == |v.elements|
    requires forall i :: 0 <= i < |texts| ==> texts[i] == Print(v.elements[i])
    ensures Print(v) == "<<" + Join(texts) + ">>"
  {
    JoinIsPrintParts(v, Parts(v));
    assert forall i :: 0 <= i < |texts| ==> "" + texts[i] == texts[i];
    assert Texts(v, Parts(v)) == texts;
  }

  /** A record prints its fields in the order of their keys. */
  lemma PrintedRecord(v: TLA, texts: seq<string>)
    requires v.Record? && |texts| == |SortedKeys(v.fields.Keys)|
    requires forall i :: 0 <= i < |texts| ==>
      var key := SortedKeys(v.fields.Keys)[i];
      key in v.fields && texts[i] == key + " |-> " + Print(v.fields[key])
    ensures Print(v) == "[" + Join(texts) + "]"
  {
    FieldParts(v);
    JoinIsPrintParts(v, Parts(v));
    hide SortedKeys, Parts;
    assert Texts(v, Parts(v)) == texts;
  }

  /** A set prints its members in the order of their hashes. */
  lemma PrintedSet(v: TLA, texts: seq<string>)
    requires v.Set? && |texts| == |SortedKeys(v.members.Keys)|
    requires forall i :: 0 <= i < |texts| ==>
      var key := SortedKeys(v.members.Keys)[i];
      key in v.members && texts[i] == Print(v.members[key])
    ensures Print(v) == "{" + Join(texts) + "}"
  {
    MemberParts(v);
    JoinIsPrintParts(v, Parts(v));
    hide SortedKeys, Parts;
    assert forall i :: 0 <= i < |texts| ==> "" + texts[i] == texts[i];
    assert Texts(v, Parts(v)) == texts;
  }

  /** Between texts there is a comma and a blank, and there is nothing at the ends. */
  lemma JoinThree(a: string, b: string, c: string)
    ensures Join([]) == "" && Join([a]) == a && Join([a, b]) == a + ", " + b
    ensures Join([a, b, c]) == a + ", " + (b + ", " + c)
  {
    assert [a, b][1..] == [b] && [b, c][1..] == [c] && [a, b, c][1..] == [b, c];
    assert Join([b, c]) == b + ", " + c;
  }

  lemma {:induction false} PrecedesLeq(a: string, b: string, n: nat)
    requires Precedes(a, b, n)
    ensures Leq(a, b)
  {
    if n > 0 {
      assert a[..n][0] == b[..n][0] && a[1..][..n - 1] == a[..n][1..] && b[1..][..n - 1] == b[..n][1..];
      PrecedesLeq(a[1..], b[1..], n - 1);
    }
  }

  /** The keys of a message in order. */
  lemma MessageKeys()
    ensures SortedKeys({"type", "mdest", "msource"}) == ["mdest", "msource", "type"]
  {
    assert "mdest"[..1] == "msource"[..1] == "m";
    PrecedesLeq("mdest", "msource", 1);
    assert "msource"[..0] == "type"[..0] == "";
    PrecedesLeq("msource", "type", 0);
    hide Leq, SortedKeys;
    OneOrder({"type", "mdest", "msource"}, ["mdest", "msource", "type"]);
  }

  lemma OneOrder(keys: set<string>, order: seq<string>)
    requires keys == {"type", "mdest", "msource"} && order == ["mdest", "msource", "type"] && Sorted(order)
    ensures SortedKeys(keys) == order
  {
    hide Leq, Sorted;
    assert multiset(keys) == multiset{"type", "mdest", "msource"} == multiset(order);
    SortedIsUnique(SortedKeys(keys), order);
  }

  /** How a message that `Put` records is hashed. */
  lemma PrintedMessage(typ: string, source: string, dest: string)
    ensures
      var a, b, c := "mdest" + " |-> " + dest, "msource" + " |-> " + source, "type" + " |-> " + typ;
      Print(Record(map["type" := Str(typ), "msource" := Str(source), "mdest" := Str(dest)])) ==
        "[" + (a + ", " + (b + ", " + c)) + "]"
  {
    var fields := map["type" := Str(typ), "msource" := Str(source), "mdest" := Str(dest)];
    assert Print(Str(typ)) == typ && Print(Str(source)) == source && Print(Str(dest)) == dest;
    hide Print, SortedKeys, Join;
    var a, b, c := "mdest" + " |-> " + dest, "msource" + " |-> " + source, "type" + " |-> " + typ;
    JoinThree(a, b, c);
    ThreeFields(fields, a, b, c);
  }

  lemma ThreeFields(fields: map<string, TLA>, a: string, b: string, c: string)
    requires fields.Keys == {"type", "mdest", "msource"}
    requires a == "mdest" + " |-> " + Print(fields["mdest"]) && b == "msource" + " |-> " + Print(fields["msource"])
    requires c == "type" + " |-> " + Print(fields["type"])
    ensures Print(Record(fields)) == "[" + Join([a, b, c]) + "]"
  {
    hide Print, SortedKeys, Join;
    MessageKeys();
    PrintedRecord(Record(fields), [a, b, c]);
  }

  /** Negative numbers print with a minus sign, and the most significant digit comes first. */
  lemma PrintedNumbers()
    ensures Print(Int(-12)) == "-12" && Print(Int(305)) == "305" && Print(Int(0)) == "0"
  {
    assert Decimal(12) == Decimal(1) + [Digit(2)] == "12";
    assert Decimal(30) == Decimal(3) + [Digit(0)] == "30";
    assert Decimal(305) == Decimal(30) + [Digit(5)] == "305";
  }
}
