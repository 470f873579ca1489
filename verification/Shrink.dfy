/**
 The greedy shrinker as a function of its two oracles: a validity judgement of documents, and
 the answers the finding check gives, call by call.
 */
module Shrink {
  import opened Basics
  import opened Invoices
  import opened Totals
  import opened Trees
  import opened Serialize
  import opened InvoiceRoundTrip
  import opened Fingerprint
  import opened Documents
  import opened Reductions
  import opened Enumerate
  import opened Measure
  import opened OneStepReductions

  /** One answer of the finding check; Raised stands for an exception that ends the run. */
  datatype Verdict = Preserved | Lost | Raised

  /** The answer of the n-th call may depend on n: the importer need not be deterministic. */
  datatype Oracles = Oracles(valid: Element -> bool, finding: (nat, Element) -> Verdict)

  /** What is known about a document in the checked set. */
  datatype Status =
    | Start
    | Invalid
    | LostAt(call: nat)
    | AcceptedAt(call: nat)
    | DeferredBehind(call: nat)

  datatype Trial = Trial(reduction: Reduction, xml: Element)

  /**
   The loop state: the checked set is the domain of status, attempts is its size, and asked
   lists the documents given to the finding check so far.
   */
  datatype State = State(
    current: Invoice,
    accepted: seq<Operation>,
    status: map<Element, Status>,
    asked: seq<Element>)

  /** The unchecked candidates of a frontier with their documents; None when writing one raises. */
  function Pending(rs: seq<Reduction>, checked: set<Element>): (r: Option<seq<Trial>>)
    ensures r.Some? ==> forall t :: t in r.value ==> t.reduction in rs && SerializeInvoice(t.reduction.invoice) == Some(t.xml)
  {
    if rs == [] then Some([])
    else
      var xml := SerializeInvoice(rs[0].invoice);
      if xml.None? then None
      else if xml.value in checked then Pending(rs[1..], checked)
      else
        var rest := Pending(rs[1..], checked + {xml.value});
        if rest.None? then None else Some([Trial(rs[0], xml.value)] + rest.value)
  }

  /** The result of trying the pending candidates in order. */
  datatype Tried =
    | Exhausted(status: map<Element, Status>, asked: seq<Element>)
    | Hit(reduction: Reduction, status: map<Element, Status>, asked: seq<Element>)
    | Aborted

  /** Every document of ts put behind the accepted call. */
  function Defer(ts: seq<Trial>, call: nat): (m: map<Element, Status>) {
    map t | t in ts :: t.xml := DeferredBehind(call)
  }

  /** The checked set after candidate t is accepted with ts still untried. */
  function HitStatus(t: Trial, ts: seq<Trial>, status: map<Element, Status>, call: nat, markTail: bool): (m: map<Element, Status>) {
    var marked := status[t.xml := AcceptedAt(call)];
    if markTail then Defer(ts, call) + marked else marked
  }

  /**
   Candidates are tried until one is valid and preserves the finding. With markTail the
   untried rest joins the checked set, as in the source; without it, the rest is forgotten.
   */
  function Try(ts: seq<Trial>, status: map<Element, Status>, asked: seq<Element>, o: Oracles, markTail: bool): (r: Tried)
    ensures r.Hit? ==> exists t :: t in ts && t.reduction == r.reduction
  {
    if ts == [] then Exhausted(status, asked)
    else
      var t, call := ts[0], |asked|;
      if !o.valid(t.xml) then Try(ts[1..], status[t.xml := Invalid], asked, o, markTail)
      else
        match o.finding(call, t.xml)
        case Raised => Aborted
        case Lost => Try(ts[1..], status[t.xml := LostAt(call)], asked + [t.xml], o, markTail)
        case Preserved =>
          assert ts[0] in ts;
          Hit(t.reduction, HitStatus(t, ts[1..], status, call, markTail), asked + [t.xml])
  }

  /** The main loop: one frontier per round, until a round accepts nothing. */
  function Run(s: State, o: Oracles, markTail: bool): (r: Option<State>)
    requires ValidInvoice(s.current)
    decreases InvoiceMeasure(s.current)
  {
    hide ValidInvoice, InvoiceMeasure, OneStep;
    var pending := Pending(OneStep(s.current), s.status.Keys);
    if pending.None? then None
    else
      var tried := Try(pending.value, s.status, s.asked, o, markTail);
      match tried
      case Aborted => None
      case Exhausted(status, asked) => Some(s.(status := status, asked := asked))
      case Hit(reduction, status, asked) =>
        OneStepSound(s.current, reduction);
        Run(State(reduction.invoice, s.accepted + [reduction.operation], status, asked), o, markTail)
  }

  /** The initial check: the document must be valid and show the finding. */
  function Begin(inv: Invoice, o: Oracles): (r: Option<State>) {
    var xml := SerializeInvoice(inv);
    if xml.None? || !o.valid(xml.value) || o.finding(0, xml.value) != Preserved then None
    else Some(State(inv, [], map[xml.value := Start], [xml.value]))
  }

  /** shrink_invoice; None when it raises. */
  function Shrunk(inv: Invoice, o: Oracles, markTail: bool): (r: Option<State>) {
    hide ValidInvoice;
    var begin := Begin(inv, o);
    if begin.None? then None else Run(begin.value, o, markTail)
  }
}
