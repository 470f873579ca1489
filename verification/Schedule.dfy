/** The schedule of mutator pairs, and why it covers every ordered pair once per cycle. */
module Schedule {
  import opened Basics
  import opened Mutators

  const MUTATOR_ORDER: seq<Mutator> := [
    InvoiceId, BuyerReference, InvoiceNoteUnicode, SellerEndpoint, BuyerEndpoint,
    SellerName, BuyerName, PaymentTerms, LineOrder, LineDescription,
    LineIdentifier, QuantityScale, PriceScale, VatRate, LineNote,
    SellerIdentifier, AddressVariant, AddLine, RemoveOptionals, DueDate]

  const ORDER_LENGTH := 20
  const OTHERS_LENGTH := 19

  function Order(k: nat): (m: Mutator)
    requires k < ORDER_LENGTH
  {
    MUTATOR_ORDER[k]
  }

  /** The position of a mutator in the order. */
  function Place(m: Mutator): (k: nat)
    ensures k < ORDER_LENGTH && Order(k) == m
  {
    match m
    case InvoiceId => 0
    case BuyerReference => 1
    case InvoiceNoteUnicode => 2
    case SellerEndpoint => 3
    case BuyerEndpoint => 4
    case SellerName => 5
    case BuyerName => 6
    case PaymentTerms => 7
    case LineOrder => 8
    case LineDescription => 9
    case LineIdentifier => 10
    case QuantityScale => 11
    case PriceScale => 12
    case VatRate => 13
    case LineNote => 14
    case SellerIdentifier => 15
    case AddressVariant => 16
    case AddLine => 17
    case RemoveOptionals => 18
    case DueDate => 19
  }

  function Primary(index: nat): (m: Mutator) {
    Order(index % ORDER_LENGTH)
  }

  function Except(x: Mutator): (p: Mutator -> bool) {
    m => m != x
  }

  /** The mutators that can follow a primary one, in order. */
  function Others(primary: Mutator): (ms: seq<Mutator>)
    ensures |ms| == OTHERS_LENGTH
  {
    OthersAre(primary);
    Filter(MUTATOR_ORDER, Except(primary))
  }

  lemma {:induction false} PlaceOf(k: nat)
    requires k < ORDER_LENGTH
    ensures Place(Order(k)) == k
  {
  }

  lemma {:induction false} FilterAll(s: seq<Mutator>, x: Mutator)
    requires x !in s
    ensures Filter(s, Except(x)) == s
  {
    if s != [] {
      FilterAll(s[1..], x);
      assert s == [s[0]] + s[1..];
    }
  }

  lemma {:induction false} FilterOne(s: seq<Mutator>, i: nat, x: Mutator)
    requires i < |s| && s[i] == x && x !in s[..i] && x !in s[i + 1..]
    ensures Filter(s, Except(x)) == s[..i] + s[i + 1..]
  {
    assert s == s[..i] + ([x] + s[i + 1..]);
    FilterAppend(s[..i], [x] + s[i + 1..], Except(x));
    FilterAppend([x], s[i + 1..], Except(x));
    FilterAll(s[..i], x);
    FilterAll(s[i + 1..], x);
    assert Filter([x], Except(x)) == [];
  }

  lemma {:induction false} OthersAre(primary: Mutator)
    ensures var p := Place(primary);
      Filter(MUTATOR_ORDER, Except(primary)) == MUTATOR_ORDER[..p] + MUTATOR_ORDER[p + 1..]
  {
    var p := Place(primary);
    forall k | 0 <= k < ORDER_LENGTH && k != p ensures MUTATOR_ORDER[k] != primary {
      PlaceOf(k);
    }
    FilterOne(MUTATOR_ORDER, p, primary);
  }

  /** The k-th position other than p. */
  function Skipping(p: nat, k: nat): (i: nat)
    ensures k <= i <= k + 1
  {
    if k < p then k else k + 1
  }

  lemma {:induction false} OthersAt(primary: Mutator, k: nat)
    requires k < OTHERS_LENGTH
    ensures Others(primary)[k] == Order(Skipping(Place(primary), k))
  {
    hide Place;
    OthersAre(primary);
    SkipAt(MUTATOR_ORDER, Place(primary), k);
  }

  lemma {:induction false} SkipAt(s: seq<Mutator>, p: nat, k: nat)
    requires p < |s| && k < |s| - 1
    ensures (s[..p] + s[p + 1..])[k] == s[if k < p then k else k + 1]
  {
  }

  /** The second mutator of a candidate after the first round. */
  function Interaction(index: nat): (m: Mutator)
    requires index >= ORDER_LENGTH
    ensures m != Primary(index)
  {
    var k := ((index - ORDER_LENGTH) / ORDER_LENGTH) % OTHERS_LENGTH;
    OthersAt(Primary(index), k);
    var m := Others(Primary(index))[k];
    assert m in Others(Primary(index));
    m
  }

  // ---------------------------------------------------------------- interaction coverage

  /** Where b stands among the mutators other than a. */
  function Slot(a: Mutator, b: Mutator): (k: nat)
    requires a != b
    ensures k < OTHERS_LENGTH
  {
    if Place(b) < Place(a) then Place(b) else Place(b) - 1
  }

  lemma {:induction false} OrderAt(i: nat, b: Mutator)
    requires i < ORDER_LENGTH
    ensures Order(i) == b <==> i == Place(b)
  {
    hide Place, Order;
    PlaceOf(i);
  }

  lemma {:induction false} SlotExact(a: Mutator, b: Mutator, k: nat)
    requires a != b && k < OTHERS_LENGTH
    ensures Others(a)[k] == b <==> k == Slot(a, b)
  {
    hide Others, Place, Order, Slot, Skipping;
    OthersAt(a, k);
    OrderAt(Skipping(Place(a), k), b);
    SlotSkips(a, b, k);
  }

  lemma {:induction false} SlotSkips(a: Mutator, b: Mutator, k: nat)
    requires a != b
    ensures Skipping(Place(a), k) == Place(b) <==> k == Slot(a, b)
  {
    hide Place, Order;
    PlacesDiffer(a, b);
  }

  lemma {:induction false} PlacesDiffer(a: Mutator, b: Mutator)
    requires a != b
    ensures Place(a) != Place(b)
  {
    hide Place, Order;
  }

  /** The place of the pair (a, b) in one full cycle of pairs. */
  function Residue(a: Mutator, b: Mutator): (r: nat)
    requires a != b
  {
    Slot(a, b) * ORDER_LENGTH + Place(a)
  }

  lemma {:induction false} ResidueBound(a: Mutator, b: Mutator)
    requires a != b
    ensures Residue(a, b) < 380
  {
    hide Slot, Place;
  }

  predicate Pairs(index: nat, a: Mutator, b: Mutator) {
    index >= ORDER_LENGTH && Primary(index) == a && Interaction(index) == b
  }

  lemma {:induction false} CycleOf(r: nat, slot: nat, place: nat)
    requires slot < OTHERS_LENGTH && place < ORDER_LENGTH
    ensures (r / ORDER_LENGTH) % OTHERS_LENGTH == slot && r % ORDER_LENGTH == place <==> r % 380 == slot * ORDER_LENGTH + place
  {
    var high := r / ORDER_LENGTH;
    assert r == high * ORDER_LENGTH + r % ORDER_LENGTH;
    assert high == (high / OTHERS_LENGTH) * OTHERS_LENGTH + high % OTHERS_LENGTH;
    Remainder(r, high / OTHERS_LENGTH, (high % OTHERS_LENGTH) * ORDER_LENGTH + r % ORDER_LENGTH);
  }

  lemma {:induction false} Remainder(r: nat, q: nat, rest: nat)
    requires r == q * 380 + rest && rest < 380
    ensures r % 380 == rest
  {
  }

  /** An index shows the pair (a, b) exactly when it stands at the pair's place in the cycle. */
  lemma {:induction false} PairExact(index: nat, a: Mutator, b: Mutator)
    requires index >= ORDER_LENGTH && a != b
    ensures Pairs(index, a, b) <==> (index - ORDER_LENGTH) % 380 == Residue(a, b)
  {
    hide Others, Place, Slot, Primary, Order;
    var r := index - ORDER_LENGTH;
    CycleOf(r, Slot(a, b), Place(a));
    PairByParts(index, a, b);
  }

  lemma {:induction false} PairByParts(index: nat, a: Mutator, b: Mutator)
    requires index >= ORDER_LENGTH && a != b
    ensures Pairs(index, a, b) <==>
      (index - ORDER_LENGTH) % ORDER_LENGTH == Place(a) && ((index - ORDER_LENGTH) / ORDER_LENGTH) % OTHERS_LENGTH == Slot(a, b)
  {
    hide Others, Place, Slot, Primary, Order;
    PrimaryAt(index, a);
    if Primary(index) == a {
      SlotExact(a, b, ((index - ORDER_LENGTH) / ORDER_LENGTH) % OTHERS_LENGTH);
    }
  }

  lemma {:induction false} PrimaryAt(index: nat, a: Mutator)
    requires index >= ORDER_LENGTH
    ensures Primary(index) == a <==> (index - ORDER_LENGTH) % ORDER_LENGTH == Place(a)
  {
    hide Place, Order;
    OrderAt(index % ORDER_LENGTH, a);
  }

  /** Any 380 consecutive indices after the first round show every ordered pair exactly once. */
  lemma {:induction false} EveryPairOnce(start: nat, a: Mutator, b: Mutator)
    requires start >= ORDER_LENGTH && a != b
    ensures exists i :: start <= i < start + 380 && Pairs(i, a, b)
    ensures forall i, j :: start <= i < start + 380 && start <= j < start + 380 && Pairs(i, a, b) && Pairs(j, a, b) ==> i == j
  {
    hide Pairs, Residue;
    ResidueBound(a, b);
    var offset := (Residue(a, b) - (start - ORDER_LENGTH)) % 380;
    PairExact(start + offset, a, b);
    Wraps(start - ORDER_LENGTH, Residue(a, b));
    forall i, j | start <= i < start + 380 && start <= j < start + 380 && Pairs(i, a, b) && Pairs(j, a, b) ensures i == j {
      PairExact(i, a, b);
      PairExact(j, a, b);
      SameResidue(i - ORDER_LENGTH, j - ORDER_LENGTH);
    }
  }

  lemma {:induction false} Wraps(from: nat, r: nat)
    requires r < 380
    ensures (from + (r - from) % 380) % 380 == r
  {
    var q := (r - from) / 380;
    assert from + (r - from) % 380 == r - q * 380;
    Remainder(from + (r - from) % 380, -q, r) by {
      assert -q >= 0 || r - q * 380 >= 0;
    }
  }

  lemma {:induction false} SameResidue(x: nat, y: nat)
    requires x % 380 == y % 380 && -380 < x - y < 380
    ensures x == y
  {
  }
}
