/** TLA+ values as the monitor holds them, how they print, and a parser that undoes printing. */
module Tla {
  import opened Numerals
  import opened Replicas

  datatype TLA =
    | Seq(elements: seq<TLA>)
    | Record(fields: map<string, TLA>)
    | Set(members: map<string, TLA>)
    | Int(n: int)
    | Bool(b: bool)
    | Str(s: string)

  // ---- sorting of keys ----

  predicate Leq(a: string, b: string) {
    if a == "" then true
    else if b == "" then false
    else a[0] < b[0] || (a[0] == b[0] && Leq(a[1..], b[1..]))
  }

  lemma {:induction false} LeqTotal(a: string, b: string)
    ensures Leq(a, b) || Leq(b, a)
  {
    if a != "" && b != "" {
      LeqTotal(a[1..], b[1..]);
    }
  }

  predicate Sorted(s: seq<string>) {
    forall i :: 0 < i < |s| ==> Leq(s[i - 1], s[i])
  }

  function Insert(k: string, s: seq<string>): (r: seq<string>)
    requires Sorted(s)
    ensures Sorted(r)
    ensures multiset(r) == multiset(s) + multiset{k}
    ensures r[0] == k || (s != [] && r[0] == s[0])
  {
    if s == [] then [k]
    else
      assert s == [s[0]] + s[1..];
      if Leq(k, s[0]) then [k] + s
      else
        LeqTotal(k, s[0]);
        [s[0]] + Insert(k, s[1..])
  }

  ghost function SortedKeys(keys: set<string>): (r: seq<string>)
    ensures Sorted(r) && multiset(r) == multiset(keys)
    ensures forall k :: k in r <==> k in keys
  {
    if keys == {} then []
    else
      var k :| k in keys;
      assert keys == keys - {k} + {k};
      var r := Insert(k, SortedKeys(keys - {k}));
      assert forall x :: x in r <==> x in multiset(r);
      r
  }

  // ---- printing ----

  /** The items of a map in the order of its sorted keys. */
  ghost function SortedItems(m: map<string, TLA>): (vs: seq<(string, TLA)>)
    ensures |vs| == |SortedKeys(m.Keys)|
    ensures forall i :: 0 <= i < |vs| ==>
      SortedKeys(m.Keys)[i] in m && vs[i] == (SortedKeys(m.Keys)[i], m[SortedKeys(m.Keys)[i]])
  {
    var keys := SortedKeys(m.Keys);
    assert forall i :: 0 <= i < |keys| ==> keys[i] in keys;
    seq(|keys|, i requires 0 <= i < |keys| && keys[i] in m => (keys[i], m[keys[i]]))
  }

  /** The parts of a sequence, a record or a set in the order they print; with the key for a
      record. The parts of records and sets come in the order of their sorted keys. */
  ghost function Parts(v: TLA): (parts: seq<(string, TLA)>)
    ensures forall i :: 0 <= i < |parts| ==> parts[i].1 < v
  {
    match v
    case Seq(elements) => seq(|elements|, i requires 0 <= i < |elements| => ("", elements[i]))
    case Record(fields) =>
      assert forall k :: k in fields ==> fields[k] < v;
      SortedItems(fields)
    case Set(members) =>
      assert forall k :: k in members ==> members[k] < v;
      seq(|SortedItems(members)|, i requires 0 <= i < |SortedItems(members)| => ("", SortedItems(members)[i].1))
    case _ => []
  }

  ghost function Print(v: TLA): string
    decreases v, 1
  {
    match v
    case Seq(_) => "<<" + PrintParts(v, Parts(v)) + ">>"
    case Record(_) => "[" + PrintParts(v, Parts(v)) + "]"
    case Set(_) => "{" + PrintParts(v, Parts(v)) + "}"
    case Int(n) => PrintInt(n)
    case Bool(b) => PrintBool(b)
    case Str(s) => s
  }

  ghost function PrintParts(v: TLA, parts: seq<(string, TLA)>): string
    requires forall i :: 0 <= i < |parts| ==> parts[i].1 < v
    decreases v, 0, |parts|
  {
    if parts == [] then ""
    else
      Label(v.Record?, parts[0].0) + Print(parts[0].1) +
      if |parts| == 1 then "" else ", " + PrintParts(v, parts[1..])
  }

  function Label(labelled: bool, key: string): string {
    if labelled then key + " |-> " else ""
  }

  function PrintBool(b: bool): string {
    if b then "true" else "false"
  }

  function PrintInt(n: int): string {
    if n < 0 then "-" + Decimal(-n) else Decimal(n)
  }

  // ---- parsing ----

  predicate Letter(c: char) { 'a' <= c <= 'z' || 'A' <= c <= 'Z' }

  predicate IsDigit(c: char) { '0' <= c <= '9' }

  predicate TokenChar(c: char) { Letter(c) || IsDigit(c) || c == '_' || c == '-' }

  /** Identifiers: the strings and keys that the monitor's values use. */
  predicate Identifier(s: string) {
    s != "" && Letter(s[0]) && s != "true" && s != "false" && forall i :: 0 <= i < |s| ==> TokenChar(s[i])
  }

  function TokenLength(s: string): (n: nat)
    ensures n <= |s|
  {
    if s == "" || !TokenChar(s[0]) then 0 else 1 + TokenLength(s[1..])
  }

  function ParseNat(s: string): nat {
    if s == "" then 0
    else 10 * ParseNat(s[..|s| - 1]) + DigitValue(s[|s| - 1])
  }

  function DigitValue(c: char): nat {
    if IsDigit(c) then c as nat - '0' as nat else 0
  }

  function ParseToken(t: string): TLA
    requires t != ""
  {
    if t == "true" then Bool(true)
    else if t == "false" then Bool(false)
    else if Letter(t[0]) then Str(t)
    else if t[0] == '-' then Int(0 - ParseNat(t[1..]))
    else Int(ParseNat(t))
  }

  predicate Closes(s: string) {
    s == "" || s[0] in ">]}"
  }

  /** The value that `s` starts with, and what follows it. */
  ghost function Parse(s: string): (r: Option<(TLA, string)>)
    ensures r.Some? ==> |r.value.1| < |s|
    decreases |s|, 0
  {
    if "<<" <= s then
      match ParseParts(s[2..], false)
      case Some((parts, rest)) =>
        if ">>" <= rest then Some((Seq(Values(parts)), rest[2..])) else None
      case None => None
    else if "[" <= s then
      match ParseParts(s[1..], true)
      case Some((parts, rest)) =>
        if "]" <= rest then Some((Record(ByKey(parts)), rest[1..])) else None
      case None => None
    else if "{" <= s then
      match ParseParts(s[1..], false)
      case Some((parts, rest)) =>
        if "}" <= rest then Some((Set(ByHash(Values(parts))), rest[1..])) else None
      case None => None
    else
      var n := TokenLength(s);
      if n == 0 then None else Some((ParseToken(s[..n]), s[n..]))
  }

  ghost function ParseParts(s: string, labelled: bool): (r: Option<(seq<(string, TLA)>, string)>)
    ensures r.Some? ==> |r.value.1| <= |s|
    decreases |s|, 1
  {
    if Closes(s) then Some(([], s))
    else
      var n := if labelled then TokenLength(s) else 0;
      if labelled && !(" |-> " <= s[n..]) then None
      else
        match Parse(s[if labelled then n + 5 else 0..])
        case None => None
        case Some((v, rest)) =>
          if ", " <= rest then
            match ParseParts(rest[2..], labelled)
            case None => None
            case Some((parts, rest')) => Some(([(s[..n], v)] + parts, rest'))
          else Some(([(s[..n], v)], rest))
  }

  function Values(parts: seq<(string, TLA)>): seq<TLA> {
    seq(|parts|, i requires 0 <= i < |parts| => parts[i].1)
  }

  function ByKey(parts: seq<(string, TLA)>): map<string, TLA> {
    if parts == [] then map[]
    else
      var last := parts[|parts| - 1];
      ByKey(parts[..|parts| - 1])[last.0 := last.1]
  }

  /** A set of values, keyed by how they print, as the loops in `ToSet` and `set` build it. */
  ghost function ByHash(vs: seq<TLA>): map<string, TLA> {
    if vs == [] then map[]
    else
      var last := vs[|vs| - 1];
      ByHash(vs[..|vs| - 1])[Print(last) := last]
  }

  // ---- well-formed values, and the round trip ----

  /** Strings and keys are identifiers, and sets are keyed by how their members print. */
  ghost predicate WellFormed(v: TLA)
    decreases v
  {
    match v
    case Seq(elements) => forall i :: 0 <= i < |elements| ==> WellFormed(elements[i])
    case Record(fields) => forall k :: k in fields ==> Identifier(k) && WellFormed(fields[k])
    case Set(members) => forall k :: k in members ==> WellFormed(members[k]) && k == Print(members[k])
    case Str(s) => Identifier(s)
    case _ => true
  }

  /** Nothing that could be read as part of a token follows. */
  predicate Delimited(rest: string) {
    rest == "" || !TokenChar(rest[0])
  }

  lemma {:induction false} TokenLengthOf(t: string, rest: string)
    requires (forall i :: 0 <= i < |t| ==> TokenChar(t[i])) && Delimited(rest)
    ensures TokenLength(t + rest) == |t|
  {
    if t != "" {
      assert (t + rest)[1..] == t[1..] + rest;
      TokenLengthOf(t[1..], rest);
    } else {
      assert t + rest == rest;
    }
  }

  lemma {:induction false} DecimalRoundTrip(n: nat)
    ensures ParseNat(Decimal(n)) == n && Decimal(n) != ""
    ensures forall i :: 0 <= i < |Decimal(n)| ==> IsDigit(Decimal(n)[i])
  {
    assert forall d: nat :: d < 10 ==> DigitValue(Digit(d)) == d && IsDigit(Digit(d));
    if n < 10 {
      assert ParseNat([Digit(n)]) == 10 * ParseNat([Digit(n)][..0]) + DigitValue(Digit(n));
    } else {
      DecimalRoundTrip(n / 10);
      var t := Decimal(n / 10);
      assert Decimal(n) == t + [Digit(n % 10)];
      assert (t + [Digit(n % 10)])[..|t|] == t;
    }
  }

  /** Leaves print as tokens. */
  lemma TokenRoundTrip(v: TLA)
    requires WellFormed(v) && (v.Int? || v.Bool? || v.Str?)
    ensures Print(v) != "" && ParseToken(Print(v)) == v
    ensures forall i :: 0 <= i < |Print(v)| ==> TokenChar(Print(v)[i])
  {
    hide ParseToken, PrintInt, PrintBool, TokenChar;
    match v
    case Int(n) => IntRoundTrip(n);
    case Bool(b) => BoolRoundTrip(b);
    case Str(s) => IdentifierRoundTrip(s);
  }

  lemma BoolRoundTrip(b: bool)
    ensures PrintBool(b) != "" && ParseToken(PrintBool(b)) == Bool(b)
    ensures forall i :: 0 <= i < |PrintBool(b)| ==> TokenChar(PrintBool(b)[i])
  {
  }

  lemma IdentifierRoundTrip(s: string)
    requires Identifier(s)
    ensures ParseToken(s) == Str(s)
    ensures forall i :: 0 <= i < |s| ==> TokenChar(s[i])
  {
  }

  lemma IntRoundTrip(n: int)
    ensures PrintInt(n) != "" && ParseToken(PrintInt(n)) == Int(n)
    ensures forall i :: 0 <= i < |PrintInt(n)| ==> TokenChar(PrintInt(n)[i])
  {
    hide Decimal, ParseNat;
    if n < 0 {
      DecimalRoundTrip(-n);
      Negative(Decimal(-n));
    } else {
      DecimalRoundTrip(n);
      Digits(Decimal(n));
    }
  }

  lemma Digits(t: string)
    requires t != "" && forall i :: 0 <= i < |t| ==> IsDigit(t[i])
    ensures ParseToken(t) == Int(ParseNat(t))
    ensures forall i :: 0 <= i < |t| ==> TokenChar(t[i])
  {
    hide ParseNat;
    assert IsDigit(t[0]) && t[0] != 't' && t[0] != 'f' && t[0] != '-' && !Letter(t[0]);
  }

  lemma Negative(t: string)
    requires t != "" && forall i :: 0 <= i < |t| ==> IsDigit(t[i])
    ensures ParseToken("-" + t) == Int(0 - ParseNat(t))
    ensures forall i :: 0 <= i < |"-" + t| ==> TokenChar(("-" + t)[i])
  {
    hide ParseNat;
    var s := "-" + t;
    assert s[0] == '-' && s[1..] == t;
    assert s != "true" && s != "false";
    forall i | 0 <= i < |s| ensures TokenChar(s[i]) {
      assert i > 0 ==> s[i] == t[i - 1];
    }
  }

  ghost predicate PartsOk(parts: seq<(string, TLA)>, labelled: bool) {
    forall i :: 0 <= i < |parts| ==>
      WellFormed(parts[i].1) && if labelled then Identifier(parts[i].0) else parts[i].0 == ""
  }

  lemma PartsWellFormed(v: TLA)
    requires WellFormed(v)
    ensures PartsOk(Parts(v), v.Record?)
  {
    match v
    case Record(fields) =>
      forall i | 0 <= i < |Parts(v)|
        ensures WellFormed(Parts(v)[i].1) && Identifier(Parts(v)[i].0)
      {
        assert SortedKeys(fields.Keys)[i] in SortedKeys(fields.Keys);
      }
    case Set(members) =>
      forall i | 0 <= i < |Parts(v)|
        ensures WellFormed(Parts(v)[i].1)
      {
        assert SortedKeys(members.Keys)[i] in SortedKeys(members.Keys);
      }
    case _ =>
  }

  /** Building a map from labelled parts that agree with `m` gives the part of `m` they name. */
  lemma {:induction false} ByKeyRestores(m: map<string, TLA>, parts: seq<(string, TLA)>)
    requires forall i :: 0 <= i < |parts| ==> parts[i].0 in m && m[parts[i].0] == parts[i].1
    ensures forall k :: k in ByKey(parts) ==> k in m && ByKey(parts)[k] == m[k]
    ensures forall i :: 0 <= i < |parts| ==> parts[i].0 in ByKey(parts)
  {
    if parts != [] {
      ByKeyRestores(m, parts[..|parts| - 1]);
    }
  }

  lemma {:induction false} ByHashRestores(m: map<string, TLA>, vs: seq<TLA>)
    requires forall i :: 0 <= i < |vs| ==> Print(vs[i]) in m && m[Print(vs[i])] == vs[i]
    ensures forall k :: k in ByHash(vs) ==> k in m && ByHash(vs)[k] == m[k]
    ensures forall i :: 0 <= i < |vs| ==> Print(vs[i]) in ByHash(vs)
  {
    hide Print;
    if vs != [] {
      var before, last := vs[..|vs| - 1], vs[|vs| - 1];
      ByHashRestores(m, before);
      assert ByHash(vs) == ByHash(before)[Print(last) := last];
      assert forall i :: 0 <= i < |before| ==> before[i] == vs[i];
    }
  }

  /** The parts of a record determine it. */
  lemma {:induction false} RecordRestores(fields: map<string, TLA>)
    ensures ByKey(Parts(Record(fields))) == fields
  {
    hide ByKey, SortedKeys;
    var keys, parts := SortedKeys(fields.Keys), Parts(Record(fields));
    forall i | 0 <= i < |parts| ensures parts[i].0 in fields && fields[parts[i].0] == parts[i].1 {
      assert keys[i] in keys;
    }
    ByKeyRestores(fields, parts);
    forall k | k in fields ensures k in ByKey(parts) {
      assert k in keys;
      var i :| 0 <= i < |keys| && keys[i] == k;
      assert parts[i].0 == k;
    }
  }

  /** The members of a well-formed set determine it. */
  lemma {:induction false} SetRestores(members: map<string, TLA>)
    requires WellFormed(Set(members))
    ensures ByHash(Values(Parts(Set(members)))) == members
  {
    hide ByHash, SortedKeys, Print;
    var keys, vs := SortedKeys(members.Keys), Values(Parts(Set(members)));
    forall i | 0 <= i < |vs|
      ensures Print(vs[i]) == keys[i] && Print(vs[i]) in members && members[Print(vs[i])] == vs[i]
    {
      assert keys[i] in keys;
    }
    ByHashRestores(members, vs);
    forall k | k in members ensures k in ByHash(vs) {
      assert k in keys;
      var i :| 0 <= i < |keys| && keys[i] == k;
      assert Print(vs[i]) == k;
    }
  }

  lemma PrintStarts(v: TLA)
    requires WellFormed(v)
    ensures Print(v) != "" && !Closes(Print(v))
    ensures v.Int? || v.Bool? || v.Str? ==> TokenChar(Print(v)[0])
  {
    if v.Int? || v.Bool? || v.Str? {
      TokenRoundTrip(v);
    }
  }

  /** Parsing what was printed gives the value back, whatever follows. */
  lemma {:induction false} ParsePrint(v: TLA, rest: string)
    requires WellFormed(v) && Delimited(rest)
    ensures Parse(Print(v) + rest) == Some((v, rest))
    decreases v, 2
  {
    match v
    case Seq(_) => ParsePrintSeq(v, rest);
    case Record(_) => ParsePrintRecord(v, rest);
    case Set(_) => ParsePrintSet(v, rest);
    case _ => ParsePrintToken(v, rest);
  }

  lemma {:induction false} ParsePrintToken(v: TLA, rest: string)
    requires WellFormed(v) && (v.Int? || v.Bool? || v.Str?) && Delimited(rest)
    ensures Parse(Print(v) + rest) == Some((v, rest))
  {
    TokenRoundTrip(v);
    ParseText(Print(v), rest);
  }

  /** Text without blanks or brackets parses as one token. */
  lemma ParseText(t: string, rest: string)
    requires t != "" && Delimited(rest) && forall i :: 0 <= i < |t| ==> TokenChar(t[i])
    ensures Parse(t + rest) == Some((ParseToken(t), rest))
  {
    hide ParseToken, TokenLength, ParseParts, Values, ByKey, ByHash;
    var s := t + rest;
    TokenLengthOf(t, rest);
    assert s[..|t|] == t && s[|t|..] == rest;
    assert TokenChar(s[0]);
  }

  lemma {:induction false} ParsePrintSeq(v: TLA, rest: string)
    requires WellFormed(v) && v.Seq?
    ensures Parse(Print(v) + rest) == Some((v, rest))
    decreases v, 1
  {
    hide ParseParts, PrintParts, WellFormed;
    var s, inner := Print(v) + rest, PrintParts(v, Parts(v));
    PartsWellFormed(v);
    assert Values(Parts(v)) == v.elements;
    hide Parts, Values;
    assert s == "<<" + (inner + (">>" + rest));
    assert s[2..] == inner + (">>" + rest);
    ParsePrintParts(v, Parts(v), ">>" + rest);
    assert (">>" + rest)[2..] == rest;
  }

  lemma {:induction false} ParsePrintRecord(v: TLA, rest: string)
    requires WellFormed(v) && v.Record?
    ensures Parse(Print(v) + rest) == Some((v, rest))
    decreases v, 1
  {
    hide ParseParts, PrintParts, WellFormed, Parts, ByKey;
    var s, inner := Print(v) + rest, PrintParts(v, Parts(v));
    PartsWellFormed(v);
    RecordRestores(v.fields);
    assert v == Record(v.fields);
    assert s == "[" + (inner + ("]" + rest)) && s[0] == '[';
    assert s[1..] == inner + ("]" + rest);
    ParsePrintParts(v, Parts(v), "]" + rest);
    assert ("]" + rest)[1..] == rest;
  }

  lemma {:induction false} ParsePrintSet(v: TLA, rest: string)
    requires WellFormed(v) && v.Set?
    ensures Parse(Print(v) + rest) == Some((v, rest))
    decreases v, 1
  {
    hide ParseParts, PrintParts, WellFormed, Parts, ByHash, Values;
    var s, inner := Print(v) + rest, PrintParts(v, Parts(v));
    PartsWellFormed(v);
    SetRestores(v.members);
    assert v == Set(v.members);
    assert s == "{" + (inner + ("}" + rest)) && s[0] == '{';
    assert s[1..] == inner + ("}" + rest);
    ParsePrintParts(v, Parts(v), "}" + rest);
    assert ("}" + rest)[1..] == rest;
  }

  lemma {:induction false} ParsePrintParts(v: TLA, parts: seq<(string, TLA)>, rest: string)
    requires PartsOk(parts, v.Record?) && forall i :: 0 <= i < |parts| ==> parts[i].1 < v
    requires rest != "" && Closes(rest)
    ensures ParseParts(PrintParts(v, parts) + rest, v.Record?) == Some((parts, rest))
    decreases v, 0, |parts|
  {
    hide Print, Parse, WellFormed, TokenLength, Label, ParseParts, PrintParts, Identifier;
    PrintPartsText(v, parts, rest);
    if parts == [] {
      NoParts(rest, v.Record?);
    } else {
      var key, part := parts[0].0, parts[0].1;
      var more := parts[1..];
      var after := if more == [] then rest else ", " + (PrintParts(v, more) + rest);
      ParsePrint(part, after);
      PrintStarts(part);
      OnePart(v.Record?, key, Print(part), part, after);
      if more != [] {
        ParsePrintParts(v, more, rest);
        assert after[2..] == PrintParts(v, more) + rest;
        assert parts == [(key, part)] + more;
      } else {
        assert parts == [(key, part)];
      }
    }
  }

  lemma {:induction false} PrintPartsText(v: TLA, parts: seq<(string, TLA)>, rest: string)
    requires forall i :: 0 <= i < |parts| ==> parts[i].1 < v
    ensures
      PrintParts(v, parts) + rest ==
        if parts == [] then rest
        else
          Label(v.Record?, parts[0].0) +
          (Print(parts[0].1) + if parts[1..] == [] then rest else ", " + (PrintParts(v, parts[1..]) + rest))
  {
    hide Print, Label;
    if parts == [] {
      assert "" + rest == rest;
    } else {
      var a, b := Label(v.Record?, parts[0].0), Print(parts[0].1);
      var d := PrintParts(v, parts[1..]);
      hide PrintParts;
      Regroup(a, b, if |parts| == 1 then "" else ", " + d, rest);
      Regroup("", ", ", d, rest);
    }
  }

  lemma Regroup(a: string, b: string, c: string, d: string)
    ensures a + b + c + d == a + (b + (c + d))
    ensures (b + c) + d == b + (c + d) && "" + d == d
  {
  }

  lemma NoParts(rest: string, labelled: bool)
    requires Closes(rest)
    ensures ParseParts(rest, labelled) == Some(([], rest))
  {
  }

  /** One part parses; whether more follow depends on the separator. */
  lemma {:induction false} OnePart(labelled: bool, key: string, text: string, part: TLA, after: string)
    requires if labelled then Identifier(key) else key == ""
    requires text != "" && !Closes(text) && Parse(text + after) == Some((part, after))
    ensures
      var s := Label(labelled, key) + (text + after);
      ParseParts(s, labelled) ==
        if ", " <= after then
          match ParseParts(after[2..], labelled)
          case None => None
          case Some((parts, rest)) => Some(([(key, part)] + parts, rest))
        else Some(([(key, part)], after))
  {
    hide Parse, TokenLength, Label, Identifier;
    assert (text + after)[0] == text[0];
    LabelParses(labelled, key, text + after);
  }

  /** A label parses back, and leaves what follows it. */
  lemma LabelParses(labelled: bool, key: string, rest: string)
    requires if labelled then Identifier(key) else key == ""
    requires rest != "" && !Closes(rest)
    ensures
      var s := Label(labelled, key) + rest;
      var n := if labelled then TokenLength(s) else 0;
      && !Closes(s) && n == |key| && s[..n] == key
      && (labelled ==> " |-> " <= s[n..])
      && (if labelled then |s| >= n + 5 && s[n + 5..] == rest else s[0..] == rest)
  {
    if labelled {
      var s := Label(labelled, key) + rest;
      assert s == key + (" |-> " + rest);
      TokenLengthOf(key, " |-> " + rest);
    } else {
      assert Label(labelled, key) + rest == rest;
    }
  }

  /** Printing is injective on well-formed values. */
  lemma PrintInjective(a: TLA, b: TLA)
    requires WellFormed(a) && WellFormed(b)
    ensures Print(a) == Print(b) <==> a == b
  {
    ParsePrint(a, "");
    ParsePrint(b, "");
    assert Print(a) + "" == Print(a) && Print(b) + "" == Print(b);
  }
}
