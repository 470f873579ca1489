/** The compact JSON text the repository prints, and why it can be read back in only one way. */
module JsonText {
  import opened Digits
  import opened Json

  function HexDigit(d: nat): (c: char)
    requires d < 16
  {
    "0123456789abcdef"[d]
  }

  /** The text of one character inside a string: only quotes, backslashes and controls are escaped. */
  function Escape(c: char): (s: string)
    ensures |s| >= 1 && s[0] != '"'
  {
    if c == '"' then "\\\""
    else if c == '\\' then "\\\\"
    else if c == '\n' then "\\n"
    else if c == '\r' then "\\r"
    else if c == '\t' then "\\t"
    else if c as int == 8 then "\\b"
    else if c as int == 12 then "\\f"
    else if c as int < 32 then "\\u00" + [HexDigit(c as int / 16), HexDigit(c as int % 16)]
    else [c]
  }

  function Escaped(s: string): (t: string) {
    if s == "" then "" else Escape(s[0]) + Escaped(s[1..])
  }

  function Quoted(s: string): (t: string) {
    "\"" + Escaped(s) + "\""
  }

  function IntText(n: int): (t: string) {
    if n < 0 then "-" + NatText(-n) else NatText(n)
  }

  /** json.dumps with sorted keys and without spaces. */
  function Print(v: Json): (t: string)
    decreases v
  {
    match v
    case Null => "null"
    case Bool(b) => if b then "true" else "false"
    case Number(n) => IntText(n)
    case Text(s) => Quoted(s)
    case List(items) => "[" + PrintItems(items) + "]"
    case Object(members) => "{" + PrintMembers(members) + "}"
  }

  function PrintItems(items: seq<Json>): (t: string)
    decreases items
  {
    if items == [] then "" else Print(items[0]) + PrintMoreItems(items[1..])
  }

  function PrintMoreItems(items: seq<Json>): (t: string)
    decreases items
  {
    if items == [] then "" else "," + Print(items[0]) + PrintMoreItems(items[1..])
  }

  function PrintMember(m: Member): (t: string)
    decreases m
  {
    Quoted(m.key) + ":" + Print(m.value)
  }

  function PrintMembers(ms: seq<Member>): (t: string)
    decreases ms
  {
    if ms == [] then "" else PrintMember(ms[0]) + PrintMoreMembers(ms[1..])
  }

  function PrintMoreMembers(ms: seq<Member>): (t: string)
    decreases ms
  {
    if ms == [] then "" else "," + PrintMember(ms[0]) + PrintMoreMembers(ms[1..])
  }

  // ---------------------------------------------------------------- unique reading

  /** What may follow a value inside a document: the end, or a separator or closing bracket. */
  predicate Delimited(x: string) {
    x == "" || x[0] in ",]}"
  }

  lemma {:induction false} Cancel(p: string, x: string, y: string)
    requires p + x == p + y
    ensures x == y
  {
    assert (p + x)[|p|..] == x && (p + y)[|p|..] == y;
  }

  lemma {:induction false} Reassociate(p: string, q: string, x: string)
    ensures (p + q) + x == p + (q + x)
  {
  }

  /** Character texts are a prefix code. */
  lemma {:induction false} EscapeExact(c: char, d: char, x: string, y: string)
    requires Escape(c) + x == Escape(d) + y
    ensures c == d && x == y
  {
    var s, t := Escape(c) + x, Escape(d) + y;
    assert s[0] == Escape(c)[0] && t[0] == Escape(d)[0];
    if s[0] == '\\' {
      assert s[1] == Escape(c)[1] && t[1] == Escape(d)[1];
      if s[1] == 'u' {
        assert s[4] == HexDigit(c as int / 16) && t[4] == HexDigit(d as int / 16);
        assert s[5] == HexDigit(c as int % 16) && t[5] == HexDigit(d as int % 16);
        HexDigitExact(c as int / 16, d as int / 16);
        HexDigitExact(c as int % 16, d as int % 16);
        assert c as int == d as int;
      }
    }
    assert c == d;
    Cancel(Escape(c), x, y);
  }

  lemma {:induction false} HexDigitExact(a: nat, b: nat)
    requires a < 16 && b < 16
    ensures HexDigit(a) == HexDigit(b) ==> a == b
  {
  }

  lemma {:induction false} EscapedExact(s: string, t: string, x: string, y: string)
    requires Escaped(s) + "\"" + x == Escaped(t) + "\"" + y
    ensures s == t && x == y
    decreases |s|
  {
    hide Escape;
    var a, b := Escaped(s) + "\"" + x, Escaped(t) + "\"" + y;
    EscapedStart(s, x);
    EscapedStart(t, y);
    if s == "" {
      assert a == "\"" + x && b == "\"" + y;
      Cancel("\"", x, y);
    } else {
      var u, v := Escaped(s[1..]) + "\"" + x, Escaped(t[1..]) + "\"" + y;
      assert a == Escape(s[0]) + u && b == Escape(t[0]) + v;
      EscapeExact(s[0], t[0], u, v);
      EscapedExact(s[1..], t[1..], x, y);
    }
  }

  lemma {:induction false} EscapedStart(s: string, x: string)
    ensures var t := Escaped(s) + "\"" + x;
      t != "" && (t[0] == '"' <==> s == "")
  {
    hide Escape;
    if s != "" {
      assert (Escaped(s) + "\"" + x)[0] == Escape(s[0])[0];
    }
  }

  lemma {:induction false} QuotedExact(s: string, t: string, x: string, y: string)
    requires Quoted(s) + x == Quoted(t) + y
    ensures s == t && x == y
  {
    hide Escaped;
    assert Quoted(s) + x == "\"" + (Escaped(s) + "\"" + x);
    assert Quoted(t) + y == "\"" + (Escaped(t) + "\"" + y);
    Cancel("\"", Escaped(s) + "\"" + x, Escaped(t) + "\"" + y);
    EscapedExact(s, t, x, y);
  }

  lemma {:induction false} DigitsThenDelimiter(a: string, x: string)
    requires AllDigits(a) && Delimited(x)
    ensures forall k :: 0 <= k < |a| ==> IsDigit((a + x)[k])
    ensures |a + x| > |a| ==> !IsDigit((a + x)[|a|])
  {
  }

  /** Digit texts before something that is not a digit are read in one way. */
  lemma {:induction false} DigitsExact(a: string, b: string, x: string, y: string)
    requires AllDigits(a) && AllDigits(b) && Delimited(x) && Delimited(y)
    requires a + x == b + y
    ensures a == b && x == y
  {
    DigitsThenDelimiter(a, x);
    DigitsThenDelimiter(b, y);
    assert |a| == |b|;
    assert (a + x)[..|a|] == a && (b + y)[..|b|] == b;
    Cancel(a, x, y);
  }

  lemma {:induction false} NatExact(m: nat, n: nat, x: string, y: string)
    requires Delimited(x) && Delimited(y) && NatText(m) + x == NatText(n) + y
    ensures m == n && x == y
  {
    hide NatText;
    DigitsExact(NatText(m), NatText(n), x, y);
    assert NatOf(NatText(m)) == m && NatOf(NatText(n)) == n;
  }

  lemma {:induction false} IntStart(n: int, x: string)
    ensures IntText(n) != "" && (IntText(n)[0] == '-' || IsDigit(IntText(n)[0]))
    ensures (IntText(n) + x)[0] == '-' <==> n < 0
  {
    hide NatText;
    assert n >= 0 ==> IsDigit(NatText(n)[0]);
  }

  lemma {:induction false} IntExact(m: int, n: int, x: string, y: string)
    requires Delimited(x) && Delimited(y) && IntText(m) + x == IntText(n) + y
    ensures m == n && x == y
  {
    hide NatText;
    IntStart(m, x);
    IntStart(n, y);
    if m < 0 {
      Reassociate("-", NatText(-m), x);
      Reassociate("-", NatText(-n), y);
      Cancel("-", NatText(-m) + x, NatText(-n) + y);
      NatExact(-m, -n, x, y);
    } else {
      NatExact(m, n, x, y);
    }
  }

  /** The first character tells the kind of value. */
  function Kind(c: char): (k: nat) {
    match c
    case 'n' => 0
    case 't' => 1
    case 'f' => 2
    case '"' => 3
    case '[' => 4
    case '{' => 5
    case _ => if IsDigit(c) || c == '-' then 6 else 7
  }

  function KindOf(v: Json): (k: nat) {
    match v
    case Null => 0
    case Bool(b) => if b then 1 else 2
    case Number(_) => 6
    case Text(_) => 3
    case List(_) => 4
    case Object(_) => 5
  }

  lemma {:induction false} FirstCharacter(v: Json)
    ensures |Print(v)| >= 1 && Kind(Print(v)[0]) == KindOf(v)
  {
    match v {
      case Number(n) => IntStart(n, "");
      case _ =>
    }
  }

  /** Two printed values before delimiters are equal only if the values are. */
  lemma {:induction false} PrintExact(a: Json, b: Json, x: string, y: string)
    requires Delimited(x) && Delimited(y) && Print(a) + x == Print(b) + y
    ensures a == b && x == y
    decreases a
  {
    hide Quoted, IntText, PrintItems, PrintMembers;
    FirstCharacter(a);
    FirstCharacter(b);
    assert Print(a)[0] == (Print(a) + x)[0] && Print(b)[0] == (Print(b) + y)[0];
    match a {
      case Null => Cancel("null", x, y);
      case Bool(_) => Cancel(Print(a), x, y);
      case Number(m) => IntExact(m, b.number, x, y);
      case Text(s) => QuotedExact(s, b.text, x, y);
      case List(items) =>
        Bracketed('[', PrintItems(items), ']', x, PrintItems(b.items), y);
        ItemsExact(items, b.items, x, y);
      case Object(members) =>
        Bracketed('{', PrintMembers(members), '}', x, PrintMembers(b.members), y);
        MembersExact(members, b.members, x, y);
    }
  }

  lemma {:induction false} Bracketed(open: char, p: string, close: char, x: string, q: string, y: string)
    requires [open] + p + [close] + x == [open] + q + [close] + y
    ensures p + [close] + x == q + [close] + y
  {
    assert [open] + p + [close] + x == [open] + (p + [close] + x);
    assert [open] + q + [close] + y == [open] + (q + [close] + y);
    Cancel([open], p + [close] + x, q + [close] + y);
  }

  lemma {:induction false} ItemsExact(a: seq<Json>, b: seq<Json>, x: string, y: string)
    requires PrintItems(a) + "]" + x == PrintItems(b) + "]" + y
    ensures a == b && x == y
    decreases a, 1
  {
    hide Print, PrintMoreItems;
    var s, t := PrintItems(a) + "]" + x, PrintItems(b) + "]" + y;
    ItemsStart(a, x);
    ItemsStart(b, y);
    if a == [] {
      assert s == "]" + x && t == "]" + y;
      Cancel("]", x, y);
    } else {
      var u, v := PrintMoreItems(a[1..]) + "]" + x, PrintMoreItems(b[1..]) + "]" + y;
      assert s == Print(a[0]) + u && t == Print(b[0]) + v;
      MoreItemsDelimited(a[1..], x);
      MoreItemsDelimited(b[1..], y);
      PrintExact(a[0], b[0], u, v);
      MoreItemsExact(a[1..], b[1..], x, y);
    }
  }

  lemma {:induction false} ItemsStart(items: seq<Json>, x: string)
    ensures var t := PrintItems(items) + "]" + x;
      t != "" && (t[0] == ']' <==> items == [])
  {
    hide Print, PrintMoreItems;
    if items != [] {
      FirstCharacter(items[0]);
      assert (PrintItems(items) + "]" + x)[0] == Print(items[0])[0];
    }
  }

  lemma {:induction false} MoreItemsDelimited(items: seq<Json>, x: string)
    ensures var t := PrintMoreItems(items) + "]" + x;
      t != "" && t[0] == (if items == [] then ']' else ',')
  {
  }

  lemma {:induction false} MoreItemsExact(a: seq<Json>, b: seq<Json>, x: string, y: string)
    requires PrintMoreItems(a) + "]" + x == PrintMoreItems(b) + "]" + y
    ensures a == b && x == y
    decreases a
  {
    hide Print;
    var s, t := PrintMoreItems(a) + "]" + x, PrintMoreItems(b) + "]" + y;
    MoreItemsDelimited(a, x);
    MoreItemsDelimited(b, y);
    if a == [] {
      assert s == "]" + x && t == "]" + y;
      Cancel("]", x, y);
    } else {
      var u, v := PrintMoreItems(a[1..]) + "]" + x, PrintMoreItems(b[1..]) + "]" + y;
      assert s == "," + (Print(a[0]) + u) && t == "," + (Print(b[0]) + v);
      Cancel(",", Print(a[0]) + u, Print(b[0]) + v);
      MoreItemsDelimited(a[1..], x);
      MoreItemsDelimited(b[1..], y);
      PrintExact(a[0], b[0], u, v);
      MoreItemsExact(a[1..], b[1..], x, y);
    }
  }

  lemma {:induction false} MemberExact(a: Member, b: Member, x: string, y: string)
    requires Delimited(x) && Delimited(y) && PrintMember(a) + x == PrintMember(b) + y
    ensures a == b && x == y
    decreases a
  {
    hide Print, Quoted;
    assert PrintMember(a) + x == Quoted(a.key) + (":" + Print(a.value) + x);
    assert PrintMember(b) + y == Quoted(b.key) + (":" + Print(b.value) + y);
    QuotedExact(a.key, b.key, ":" + Print(a.value) + x, ":" + Print(b.value) + y);
    assert ":" + Print(a.value) + x == ":" + (Print(a.value) + x);
    assert ":" + Print(b.value) + y == ":" + (Print(b.value) + y);
    Cancel(":", Print(a.value) + x, Print(b.value) + y);
    PrintExact(a.value, b.value, x, y);
  }

  lemma {:induction false} MembersExact(a: seq<Member>, b: seq<Member>, x: string, y: string)
    requires PrintMembers(a) + "}" + x == PrintMembers(b) + "}" + y
    ensures a == b && x == y
    decreases a, 1
  {
    hide PrintMember, PrintMoreMembers;
    var s, t := PrintMembers(a) + "}" + x, PrintMembers(b) + "}" + y;
    MembersStart(a, x);
    MembersStart(b, y);
    if a == [] {
      assert s == "}" + x && t == "}" + y;
      Cancel("}", x, y);
    } else {
      var u, v := PrintMoreMembers(a[1..]) + "}" + x, PrintMoreMembers(b[1..]) + "}" + y;
      assert s == PrintMember(a[0]) + u && t == PrintMember(b[0]) + v;
      MoreMembersDelimited(a[1..], x);
      MoreMembersDelimited(b[1..], y);
      MemberExact(a[0], b[0], u, v);
      MoreMembersExact(a[1..], b[1..], x, y);
    }
  }

  lemma {:induction false} MembersStart(ms: seq<Member>, x: string)
    ensures var t := PrintMembers(ms) + "}" + x;
      t != "" && (t[0] == '}' <==> ms == [])
  {
    hide Print, PrintMoreMembers, Escaped;
    if ms != [] {
      assert (PrintMembers(ms) + "}" + x)[0] == PrintMember(ms[0])[0] == '"';
    }
  }

  lemma {:induction false} MoreMembersDelimited(ms: seq<Member>, x: string)
    ensures var t := PrintMoreMembers(ms) + "}" + x;
      t != "" && t[0] == (if ms == [] then '}' else ',')
  {
  }

  lemma {:induction false} MoreMembersExact(a: seq<Member>, b: seq<Member>, x: string, y: string)
    requires PrintMoreMembers(a) + "}" + x == PrintMoreMembers(b) + "}" + y
    ensures a == b && x == y
    decreases a
  {
    hide PrintMember;
    var s, t := PrintMoreMembers(a) + "}" + x, PrintMoreMembers(b) + "}" + y;
    MoreMembersDelimited(a, x);
    MoreMembersDelimited(b, y);
    if a == [] {
      assert s == "}" + x && t == "}" + y;
      Cancel("}", x, y);
    } else {
      var u, v := PrintMoreMembers(a[1..]) + "}" + x, PrintMoreMembers(b[1..]) + "}" + y;
      assert s == "," + (PrintMember(a[0]) + u) && t == "," + (PrintMember(b[0]) + v);
      Cancel(",", PrintMember(a[0]) + u, PrintMember(b[0]) + v);
      MoreMembersDelimited(a[1..], x);
      MoreMembersDelimited(b[1..], y);
      MemberExact(a[0], b[0], u, v);
      MoreMembersExact(a[1..], b[1..], x, y);
    }
  }

  /** Printing is injective: the text determines the value. */
  lemma {:induction false} PrintInjective(a: Json, b: Json)
    ensures Print(a) == Print(b) <==> a == b
  {
    if Print(a) == Print(b) {
      assert Print(a) + "" == Print(a) && Print(b) + "" == Print(b);
      PrintExact(a, b, "", "");
    }
  }
}
