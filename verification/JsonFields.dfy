/** Objects with a fixed set of fields, and what strict_json accepts of printed values. */
module JsonFields {
  import opened Basics
  import opened Json
  import opened JsonText
  import opened JsonScan

  // ---------------------------------------------------------------- fixed fields

  /** The object with these keys, printed in this order. */
  function Named(names: seq<string>, values: seq<Json>): (j: Json)
    requires |names| == |values|
  {
    Object(seq(|names|, i requires 0 <= i < |names| => Member(names[i], values[i])))
  }

  function Lookup(ms: seq<Member>, key: string): (v: Option<Json>) {
    if ms == [] then None else if ms[0].key == key then Some(ms[0].value) else Lookup(ms[1..], key)
  }

  /** The values of an object that has exactly these keys, in the order of the names. */
  function Fields(j: Json, names: seq<string>): (vs: Option<seq<Json>>)
    ensures vs.Some? ==> |vs.value| == |names|
  {
    if !j.Object? || |j.members| != |names| then None else Pick(j.members, names)
  }

  function Pick(ms: seq<Member>, names: seq<string>): (vs: Option<seq<Json>>)
    ensures vs.Some? ==> |vs.value| == |names|
  {
    if names == [] then Some([])
    else
      var first, rest := Lookup(ms, names[0]), Pick(ms, names[1..]);
      if first.None? || rest.None? then None else Some([first.value] + rest.value)
  }

  lemma {:induction false} LookupAt(ms: seq<Member>, i: nat)
    requires i < |ms| && forall j :: 0 <= j < i ==> ms[j].key != ms[i].key
    ensures Lookup(ms, ms[i].key) == Some(ms[i].value)
  {
    if i > 0 {
      assert ms[1..][i - 1] == ms[i];
      LookupAt(ms[1..], i - 1);
    }
  }

  lemma {:induction false} PickAll(ms: seq<Member>, names: seq<string>, k: nat)
    requires |ms| == |names| && k <= |names| && Distinct(names)
    requires forall i :: 0 <= i < |ms| ==> ms[i].key == names[i]
    ensures Pick(ms, names[k..]).Some?
    ensures forall i :: 0 <= i < |names| - k ==> Pick(ms, names[k..]).value[i] == ms[k + i].value
    decreases |names| - k
  {
    if k < |names| {
      assert names[k..][0] == names[k] && names[k..][1..] == names[k + 1..];
      LookupAt(ms, k);
      PickAll(ms, names, k + 1);
      var rest := Pick(ms, names[k + 1..]).value;
      assert Pick(ms, names[k..]).value == [ms[k].value] + rest;
      assert forall i :: 1 <= i < |names| - k ==> ([ms[k].value] + rest)[i] == rest[i - 1] == ms[k + i].value;
    }
  }

  /** Reading the fields of a printed object gives back its values. */
  lemma {:induction false} FieldsOfNamed(names: seq<string>, values: seq<Json>)
    requires |names| == |values| && Distinct(names)
    ensures Fields(Named(names, values), names) == Some(values)
  {
    var ms := Named(names, values).members;
    PickAll(ms, names, 0);
    assert names[0..] == names;
    assert Pick(ms, names).value == values;
  }

  // ---------------------------------------------------------------- typed values

  function OptionalTextJson(o: Option<string>): (j: Json) {
    if o.Some? then Text(o.value) else Null
  }

  function OptionalIntJson(o: Option<int>): (j: Json) {
    if o.Some? then Number(o.value) else Null
  }

  function TextsJson(ts: seq<string>): (j: Json) {
    List(Map(ts, (t: string) => Text(t)))
  }

  function AsOptionalText(j: Json): (o: Option<string>)
    requires j.Text? || j.Null?
  {
    if j.Text? then Some(j.text) else None
  }

  function AsOptionalInt(j: Json): (o: Option<int>)
    requires j.Number? || j.Null?
  {
    if j.Number? then Some(j.number) else None
  }

  predicate IsTexts(j: Json) {
    j.List? && forall i :: 0 <= i < |j.items| ==> j.items[i].Text?
  }

  function AsTexts(j: Json): (ts: seq<string>)
    requires IsTexts(j)
  {
    seq(|j.items|, i requires 0 <= i < |j.items| => j.items[i].text)
  }

  lemma {:induction false} TextsRoundTrip(ts: seq<string>)
    ensures IsTexts(TextsJson(ts)) && AsTexts(TextsJson(ts)) == ts
  {
  }

  // ---------------------------------------------------------------- strict reading

  predicate UniqueKeys(v: Json)
    decreases v
  {
    match v
    case List(items) => UniqueInItems(items)
    case Object(members) =>
      && (forall i, j :: 0 <= i < j < |members| ==> members[i].key != members[j].key)
      && UniqueInMembers(members)
    case _ => true
  }

  predicate UniqueInItems(items: seq<Json>)
    decreases items
  {
    items == [] || (UniqueKeys(items[0]) && UniqueInItems(items[1..]))
  }

  predicate UniqueInMembers(ms: seq<Member>)
    decreases ms
  {
    ms == [] || (UniqueKeys(ms[0].value) && UniqueInMembers(ms[1..]))
  }

  const MAX_NUMBER_LENGTH := 128

  predicate ShortNumbers(v: Json)
    decreases v
  {
    match v
    case Number(n) => |IntText(n)| <= MAX_NUMBER_LENGTH
    case List(items) => ShortInItems(items)
    case Object(members) => ShortInMembers(members)
    case _ => true
  }

  predicate ShortInItems(items: seq<Json>)
    decreases items
  {
    items == [] || (ShortNumbers(items[0]) && ShortInItems(items[1..]))
  }

  predicate ShortInMembers(ms: seq<Member>)
    decreases ms
  {
    ms == [] || (ShortNumbers(ms[0].value) && ShortInMembers(ms[1..]))
  }

  /** strict_json on the printed text of v; size is the number of bytes of that text. */
  function StrictJson(v: Json, size: nat, maxBytes: nat): (r: Option<Json>) {
    if size <= maxBytes && ScanText(START, Print(v) + "\n").Scanning? && UniqueKeys(v) && ShortNumbers(v) then Some(v) else None
  }

  /** Within all limits of the strict reader. */
  predicate Readable(v: Json, size: nat, maxBytes: nat) {
    size <= maxBytes && Nesting(v) <= MAX_NESTING && Tokens(v) <= MAX_TOKENS && UniqueKeys(v) && ShortNumbers(v)
  }

  lemma {:induction false} StrictJsonExact(v: Json, size: nat, maxBytes: nat)
    ensures StrictJson(v, size, maxBytes) == if Readable(v, size, maxBytes) then Some(v) else None
  {
    hide Print, ScanText, Nesting, Tokens, UniqueKeys, ShortNumbers;
    ScannerExact(v);
  }
}
