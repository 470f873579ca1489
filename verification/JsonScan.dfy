/** The one-pass scanner that bounds JSON text before it is decoded. */
module JsonScan {
  import opened Digits
  import opened Json
  import opened JsonText

  const MAX_NESTING := 64
  const MAX_TOKENS := 100_000

  /** The scanner's variables, or the rejection it ends with. */
  datatype Scan =
    | Scanning(depth: int, tokens: nat, inString: bool, escaped: bool)
    | Rejected

  const START := Scanning(0, 0, false, false)

  /** What one character outside a string does to the counters. */
  function Structural(s: Scan, c: char): (r: Scan)
    requires s.Scanning?
  {
    if c == '[' || c == '{' then
      if s.depth + 1 > MAX_NESTING then Rejected else Bounded(s.(depth := s.depth + 1, tokens := s.tokens + 1))
    else if c == ']' || c == '}' then Bounded(s.(depth := s.depth - 1))
    else if c == ',' || c == ':' then Bounded(s.(tokens := s.tokens + 1))
    else Bounded(s)
  }

  function Bounded(s: Scan): (r: Scan)
    requires s.Scanning?
  {
    if s.tokens > MAX_TOKENS then Rejected else s
  }

  function Advance(s: Scan, c: char): (r: Scan) {
    if s.Rejected? then Rejected
    else if s.inString then
      if s.escaped then s.(escaped := false)
      else if c == '\\' then s.(escaped := true)
      else if c == '"' then s.(inString := false)
      else s
    else if c == '"' then Bounded(s.(inString := true))
    else Structural(s, c)
  }

  /** The state after all characters of a text. */
  function ScanText(s: Scan, text: string): (r: Scan)
    decreases |text|
  {
    if text == "" then s else ScanText(Advance(s, text[0]), text[1..])
  }

  /** The scanning loop of strict_json. */
  method ScanLoop(text: string) returns (ok: bool, depth: int, inString: bool)
    ensures ok <==> ScanText(START, text).Scanning?
    ensures ok ==> depth == ScanText(START, text).depth && inString == ScanText(START, text).inString
  {
    var structuralTokens: nat := 0;
    var escaped := false;
    depth, inString := 0, false;
    assert text[0..] == text;
    for i := 0 to |text|
      invariant ScanText(START, text) == ScanText(Scanning(depth, structuralTokens, inString, escaped), text[i..])
      invariant structuralTokens <= MAX_TOKENS
    {
      var character := text[i];
      ScanStep(Scanning(depth, structuralTokens, inString, escaped), text, i);
      if inString {
        if escaped {
          escaped := false;
        } else if character == '\\' {
          escaped := true;
        } else if character == '"' {
          inString := false;
        }
        continue;
      }
      if character == '"' {
        inString := true;
      } else if character == '[' || character == '{' {
        depth := depth + 1;
        structuralTokens := structuralTokens + 1;
        if depth > MAX_NESTING {
          return false, depth, inString;
        }
      } else if character == ']' || character == '}' {
        depth := depth - 1;
      } else if character == ',' || character == ':' {
        structuralTokens := structuralTokens + 1;
      }
      if structuralTokens > MAX_TOKENS {
        return false, depth, inString;
      }
    }
    assert text[|text|..] == "";
    ok := true;
  }

  lemma {:induction false} ScanStep(s: Scan, text: string, i: nat)
    requires i < |text|
    ensures ScanText(s, text[i..]) == ScanText(Advance(s, text[i]), text[i + 1..])
    ensures Advance(s, text[i]).Rejected? ==> ScanText(s, text[i..]).Rejected?
  {
    assert text[i..][0] == text[i] && text[i..][1..] == text[i + 1..];
    if Advance(s, text[i]).Rejected? {
      StaysRejected(text[i + 1..]);
    }
  }

  lemma {:induction false} StaysRejected(text: string)
    ensures ScanText(Rejected, text) == Rejected
  {
    if text != "" {
      StaysRejected(text[1..]);
    }
  }

  lemma {:induction false} ScanAppend(s: Scan, a: string, b: string)
    ensures ScanText(s, a + b) == ScanText(ScanText(s, a), b)
    decreases |a|
  {
    if a == "" {
      assert a + b == b;
    } else {
      assert (a + b)[0] == a[0] && (a + b)[1..] == a[1..] + b;
      ScanAppend(Advance(s, a[0]), a[1..], b);
    }
  }

  lemma {:induction false} ScanOne(s: Scan, c: char)
    ensures ScanText(s, [c]) == Advance(s, c)
  {
    assert [c][1..] == "";
    assert ScanText(Advance(s, c), "") == Advance(s, c);
  }

  // ---------------------------------------------------------------- measures of the tree

  function Max(a: nat, b: nat): (m: nat) {
    if a < b then b else a
  }

  /** How deeply containers are nested. */
  function Nesting(v: Json): (n: nat)
    decreases v
  {
    match v
    case List(items) => 1 + NestingOfItems(items)
    case Object(members) => 1 + NestingOfMembers(members)
    case _ => 0
  }

  function NestingOfItems(items: seq<Json>): (n: nat)
    decreases items
  {
    if items == [] then 0 else Max(Nesting(items[0]), NestingOfItems(items[1..]))
  }

  function NestingOfMembers(ms: seq<Member>): (n: nat)
    decreases ms
  {
    if ms == [] then 0 else Max(Nesting(ms[0].value), NestingOfMembers(ms[1..]))
  }

  /** Containers, separating commas, and colons. */
  function Tokens(v: Json): (n: nat)
    decreases v
  {
    match v
    case List(items) => 1 + Commas(|items|) + TokensOfItems(items)
    case Object(members) => 1 + Commas(|members|) + |members| + TokensOfMembers(members)
    case _ => 0
  }

  function Commas(count: nat): (n: nat) {
    if count == 0 then 0 else count - 1
  }

  function TokensOfItems(items: seq<Json>): (n: nat)
    decreases items
  {
    if items == [] then 0 else Tokens(items[0]) + TokensOfItems(items[1..])
  }

  function TokensOfMembers(ms: seq<Member>): (n: nat)
    decreases ms
  {
    if ms == [] then 0 else Tokens(ms[0].value) + TokensOfMembers(ms[1..])
  }

  /** The state after something with the given nesting and number of tokens was read. */
  function After(depth: nat, tokens: nat, nesting: nat, more: nat): (s: Scan) {
    if depth + nesting <= MAX_NESTING && tokens + more <= MAX_TOKENS then Scanning(depth, tokens + more, false, false) else Rejected
  }

  // ---------------------------------------------------------------- exactness

  lemma {:induction false} EscapeScans(s: Scan, c: char)
    requires s.Scanning? && s.inString && !s.escaped
    ensures ScanText(s, Escape(c)) == s
  {
    var t := Escape(c);
    if |t| == 1 {
      ScanOne(s, c);
    } else {
      assert t[1..][0] == t[1];
      var u := t[1..][1..];
      assert ScanText(s, t) == ScanText(s, u);
      if |t| == 2 {
        assert u == "";
      } else {
        PlainScans(s, u);
      }
    }
  }

  /** Characters inside a string that are neither quotes nor backslashes change nothing. */
  lemma {:induction false} PlainScans(s: Scan, t: string)
    requires s.Scanning? && s.inString && !s.escaped
    requires '"' !in t && '\\' !in t
    ensures ScanText(s, t) == s
  {
    if t != "" {
      PlainScans(s, t[1..]);
    }
  }

  lemma {:induction false} EscapedScans(s: Scan, text: string)
    requires s.Scanning? && s.inString && !s.escaped
    ensures ScanText(s, Escaped(text)) == s
  {
    hide Escape;
    if text != "" {
      EscapeScans(s, text[0]);
      EscapedScans(s, text[1..]);
      ScanAppend(s, Escape(text[0]), Escaped(text[1..]));
    }
  }

  /** A printed string leaves the scanner where it was, whatever it contains. */
  lemma {:induction false} QuotedScans(s: Scan, text: string)
    requires s.Scanning? && !s.inString && !s.escaped && s.tokens <= MAX_TOKENS
    ensures ScanText(s, Quoted(text)) == s
  {
    hide Escaped;
    var inside := s.(inString := true);
    ScanAppend(s, "\"" + Escaped(text), "\"");
    ScanAppend(s, "\"", Escaped(text));
    ScanOne(s, '"');
    ScanOne(inside, '"');
    EscapedScans(inside, text);
  }

  predicate Unstructured(c: char) {
    c !in "[]{},:\""
  }

  /** Literals and numbers change nothing. */
  lemma {:induction false} LiteralScans(s: Scan, text: string)
    requires s.Scanning? && !s.inString && s.tokens <= MAX_TOKENS
    requires forall i :: 0 <= i < |text| ==> Unstructured(text[i])
    ensures ScanText(s, text) == s
  {
    if text != "" {
      LiteralScans(s, text[1..]);
    }
  }

  lemma {:induction false} NumberScans(s: Scan, n: int)
    requires s.Scanning? && !s.inString && s.tokens <= MAX_TOKENS
    ensures ScanText(s, IntText(n)) == s
  {
    hide ScanText, NatText;
    forall i | 0 <= i < |IntText(n)| ensures Unstructured(IntText(n)[i]) {
      assert IntText(n)[i] == '-' || IsDigit(IntText(n)[i]);
    }
    LiteralScans(s, IntText(n));
  }

  /** Two texts in a row. */
  lemma {:induction false} AfterBoth(a: string, b: string, d: nat, t: nat, n1: nat, m1: nat, n2: nat, m2: nat)
    requires ScanText(Scanning(d, t, false, false), a) == After(d, t, n1, m1)
    requires t + m1 <= MAX_TOKENS ==> ScanText(Scanning(d, t + m1, false, false), b) == After(d, t + m1, n2, m2)
    ensures ScanText(Scanning(d, t, false, false), a + b) == After(d, t, Max(n1, n2), m1 + m2)
  {
    ScanAppend(Scanning(d, t, false, false), a, b);
    StaysRejected(b);
  }

  /** A printed value moves the counters by its tokens, or is rejected for its nesting or tokens. */
  lemma {:induction false} ValueScans(v: Json, d: nat, t: nat)
    requires d <= MAX_NESTING && t <= MAX_TOKENS
    ensures ScanText(Scanning(d, t, false, false), Print(v)) == After(d, t, Nesting(v), Tokens(v))
    decreases v
  {
    hide ScanText, Quoted, IntText, PrintItems, PrintMembers, NestingOfItems, NestingOfMembers, TokensOfItems, TokensOfMembers;
    var s := Scanning(d, t, false, false);
    match v {
      case Null => LiteralScans(s, "null");
      case Bool(b) => LiteralScans(s, Print(v));
      case Number(n) => NumberScans(s, n);
      case Text(text) => QuotedScans(s, text);
      case List(items) =>
        if d < MAX_NESTING && t < MAX_TOKENS {
          ItemsScan(items, d + 1, t + 1);
        }
        ContainerScans('[', PrintItems(items), ']', d, t, NestingOfItems(items), Commas(|items|) + TokensOfItems(items));
      case Object(members) =>
        if d < MAX_NESTING && t < MAX_TOKENS {
          MembersScan(members, d + 1, t + 1);
        }
        ContainerScans('{', PrintMembers(members), '}', d, t,
          NestingOfMembers(members), Commas(|members|) + |members| + TokensOfMembers(members));
    }
  }

  lemma {:induction false} ContainerScans(open: char, body: string, close: char, d: nat, t: nat, nesting: nat, more: nat)
    requires d <= MAX_NESTING && t <= MAX_TOKENS
    requires (open == '[' && close == ']') || (open == '{' && close == '}')
    requires d < MAX_NESTING && t < MAX_TOKENS ==>
      ScanText(Scanning(d + 1, t + 1, false, false), body) == After(d + 1, t + 1, nesting, more)
    ensures ScanText(Scanning(d, t, false, false), [open] + body + [close]) == After(d, t, 1 + nesting, 1 + more)
  {
    var s := Scanning(d, t, false, false);
    ScanAppend(s, [open] + body, [close]);
    ScanAppend(s, [open], body);
    ScanOne(s, open);
    StaysRejected(body);
    StaysRejected([close]);
    ScanOne(After(d + 1, t + 1, nesting, more), close);
  }

  lemma {:induction false} ItemsScan(items: seq<Json>, d: nat, t: nat)
    requires d <= MAX_NESTING && t <= MAX_TOKENS
    ensures ScanText(Scanning(d, t, false, false), PrintItems(items))
         == After(d, t, NestingOfItems(items), Commas(|items|) + TokensOfItems(items))
    decreases items, 1
  {
    hide Print, PrintMoreItems, Nesting, Tokens;
    if items != [] {
      ValueScans(items[0], d, t);
      var used := Tokens(items[0]);
      if t + used <= MAX_TOKENS {
        MoreItemsScan(items[1..], d, t + used);
      }
      AfterBoth(Print(items[0]), PrintMoreItems(items[1..]), d, t,
        Nesting(items[0]), used, NestingOfItems(items[1..]), |items[1..]| + TokensOfItems(items[1..]));
    }
  }

  lemma {:induction false} MoreItemsScan(items: seq<Json>, d: nat, t: nat)
    requires d <= MAX_NESTING && t <= MAX_TOKENS
    ensures ScanText(Scanning(d, t, false, false), PrintMoreItems(items))
         == After(d, t, NestingOfItems(items), |items| + TokensOfItems(items))
    decreases items
  {
    hide Print, Nesting, Tokens;
    if items != [] {
      ScanOne(Scanning(d, t, false, false), ',');
      if t < MAX_TOKENS {
        ValueScans(items[0], d, t + 1);
      }
      AfterBoth(",", Print(items[0]), d, t, 0, 1, Nesting(items[0]), Tokens(items[0]));
      var used := 1 + Tokens(items[0]);
      if t + used <= MAX_TOKENS {
        MoreItemsScan(items[1..], d, t + used);
      }
      AfterBoth("," + Print(items[0]), PrintMoreItems(items[1..]), d, t,
        Nesting(items[0]), used, NestingOfItems(items[1..]), |items[1..]| + TokensOfItems(items[1..]));
    }
  }

  lemma {:induction false} MemberScans(m: Member, d: nat, t: nat)
    requires d <= MAX_NESTING && t <= MAX_TOKENS
    ensures ScanText(Scanning(d, t, false, false), PrintMember(m)) == After(d, t, Nesting(m.value), 1 + Tokens(m.value))
    decreases m
  {
    hide Print, Nesting, Tokens, Quoted;
    var s := Scanning(d, t, false, false);
    QuotedScans(s, m.key);
    ScanOne(s, ':');
    AfterBoth(Quoted(m.key), ":", d, t, 0, 0, 0, 1);
    if t < MAX_TOKENS {
      ValueScans(m.value, d, t + 1);
    }
    AfterBoth(Quoted(m.key) + ":", Print(m.value), d, t, 0, 1, Nesting(m.value), Tokens(m.value));
  }

  lemma {:induction false} MembersScan(ms: seq<Member>, d: nat, t: nat)
    requires d <= MAX_NESTING && t <= MAX_TOKENS
    ensures ScanText(Scanning(d, t, false, false), PrintMembers(ms))
         == After(d, t, NestingOfMembers(ms), Commas(|ms|) + |ms| + TokensOfMembers(ms))
    decreases ms, 1
  {
    hide PrintMember, PrintMoreMembers, Nesting, Tokens;
    if ms != [] {
      MemberScans(ms[0], d, t);
      var used := 1 + Tokens(ms[0].value);
      if t + used <= MAX_TOKENS {
        MoreMembersScan(ms[1..], d, t + used);
      }
      AfterBoth(PrintMember(ms[0]), PrintMoreMembers(ms[1..]), d, t,
        Nesting(ms[0].value), used, NestingOfMembers(ms[1..]), 2 * |ms[1..]| + TokensOfMembers(ms[1..]));
    }
  }

  lemma {:induction false} MoreMembersScan(ms: seq<Member>, d: nat, t: nat)
    requires d <= MAX_NESTING && t <= MAX_TOKENS
    ensures ScanText(Scanning(d, t, false, false), PrintMoreMembers(ms))
         == After(d, t, NestingOfMembers(ms), 2 * |ms| + TokensOfMembers(ms))
    decreases ms
  {
    hide PrintMember, Nesting, Tokens;
    if ms != [] {
      ScanOne(Scanning(d, t, false, false), ',');
      if t < MAX_TOKENS {
        MemberScans(ms[0], d, t + 1);
      }
      AfterBoth(",", PrintMember(ms[0]), d, t, 0, 1, Nesting(ms[0].value), 1 + Tokens(ms[0].value));
      var used := 2 + Tokens(ms[0].value);
      if t + used <= MAX_TOKENS {
        MoreMembersScan(ms[1..], d, t + used);
      }
      AfterBoth("," + PrintMember(ms[0]), PrintMoreMembers(ms[1..]), d, t,
        Nesting(ms[0].value), used, NestingOfMembers(ms[1..]), 2 * |ms[1..]| + TokensOfMembers(ms[1..]));
    }
  }

  /**
   Over every printed value, with any string contents, the scanner accepts exactly when the nesting
   is at most 64 and there are at most 100000 containers, commas and colons; and it then ends
   outside a string at depth 0. The newline at the end of the repository's documents changes nothing.
   */
  lemma {:induction false} ScannerExact(v: Json)
    ensures ScanText(START, Print(v) + "\n").Scanning? <==> Nesting(v) <= MAX_NESTING && Tokens(v) <= MAX_TOKENS
    ensures ScanText(START, Print(v) + "\n").Scanning? ==> ScanText(START, Print(v) + "\n") == Scanning(0, Tokens(v), false, false)
  {
    hide Print, Nesting, Tokens;
    ValueScans(v, 0, 0);
    ScanAppend(START, Print(v), "\n");
    StaysRejected("\n");
    ScanOne(After(0, 0, Nesting(v), Tokens(v)), '\n');
  }
}
