/**
  The moving-average inventory ledger, backend/app/features/inventory.py, with the goods receipt
  reversal of backend/app/features/procurement_extensions.py.

  Every operation appends movements and moves balances. `Books` is what the two must always say
  about each other. Quantities are in thousandths, values in cents; one request is one
  transaction, so a refused request leaves everything as it was. An integer that SQLite cannot
  store refuses the request like a failed check.
*/
module Inventory {
  import opened Rounding

  datatype Item = Item(quantity: int, value: int)

  datatype Kind = Opening | Adjusting | GoodsReceipt | ProjectIssue | Reversal

  datatype Movement = Movement(
    item: nat, quantityDelta: int, valueDelta: int, quantityAfter: int, valueAfter: int, kind: Kind)

  datatype Adjustment = Adjustment(item: nat, quantityDelta: int, valueDelta: int, active: bool, revision: nat)

  /** A quantity of one item with the value it was booked at: a receipt line, or part of an issue line. */
  datatype Portion = Portion(item: nat, quantity: nat, value: nat)

  datatype IssueLine = IssueLine(issue: nat, procurementLine: Option<nat>, portion: Portion)

  datatype RequestLine = RequestLine(item: nat, procurementLine: Option<nat>, quantity: nat)

  datatype Requirement = Requirement(item: nat, quantity: nat)

  datatype Option<T> = None | Some(value: T)

  datatype Error =
    | NotFound | Insufficient | Invalid | UsageExceeded | AlreadyReversed | RevisionConflict | Overflow

  datatype Result<T> = Ok(value: T) | Err(error: Error)

  // Sums over movements.

  function QuantityMoved(ms: seq<Movement>, item: nat): (r: int)
  {
    if ms == [] then 0
    else
      var last := ms[|ms| - 1];
      QuantityMoved(ms[..|ms| - 1], item) + if last.item == item then last.quantityDelta else 0
  }

  function ValueMoved(ms: seq<Movement>, item: nat): (r: int)
  {
    if ms == [] then 0
    else
      var last := ms[|ms| - 1];
      ValueMoved(ms[..|ms| - 1], item) + if last.item == item then last.valueDelta else 0
  }

  predicate Sound(item: Item) {
    item.quantity >= 0 && item.value >= 0 && (item.quantity == 0 ==> item.value == 0)
  }

  /** Every recorded balance is the running sum of the movements up to it. */
  ghost predicate AftersHold(ms: seq<Movement>) {
    forall k :: 0 <= k < |ms| ==>
      && ms[k].quantityAfter == QuantityMoved(ms[..k + 1], ms[k].item)
      && ms[k].valueAfter == ValueMoved(ms[..k + 1], ms[k].item)
      && Sound(Item(ms[k].quantityAfter, ms[k].valueAfter))
  }

  /** Each item is sound and holds exactly what its movements sum to. */
  ghost predicate Books(items: map<nat, Item>, ms: seq<Movement>) {
    && AftersHold(ms)
    && (forall i :: i in items ==>
          Sound(items[i]) && items[i] == Item(QuantityMoved(ms, i), ValueMoved(ms, i)))
    && (forall i: nat :: i !in items ==> QuantityMoved(ms, i) == 0 && ValueMoved(ms, i) == 0)
  }

  function Moved(item: Item, dq: int, dv: int): (r: Item)
  {
    Item(item.quantity + dq, item.value + dv)
  }

  /** _insert_movement and _update_balance together. */
  function Posted(items: map<nat, Item>, ms: seq<Movement>, i: nat, dq: int, dv: int, kind: Kind)
    : (r: (map<nat, Item>, seq<Movement>))
    requires i in items
  {
    var after := Moved(items[i], dq, dv);
    (items[i := after], ms + [Movement(i, dq, dv, after.quantity, after.value, kind)])
  }

  lemma SumsAfterAppend(ms: seq<Movement>, m: Movement)
    ensures forall i :: QuantityMoved(ms + [m], i) == QuantityMoved(ms, i) + if m.item == i then m.quantityDelta else 0
    ensures forall i :: ValueMoved(ms + [m], i) == ValueMoved(ms, i) + if m.item == i then m.valueDelta else 0
  {
    assert (ms + [m])[..|ms|] == ms;
  }

  lemma AppendKeepsAfters(ms: seq<Movement>, m: Movement)
    requires AftersHold(ms) && Sound(Item(m.quantityAfter, m.valueAfter))
    requires m.quantityAfter == QuantityMoved(ms + [m], m.item) && m.valueAfter == ValueMoved(ms + [m], m.item)
    ensures AftersHold(ms + [m])
  {
    var all := ms + [m];
    forall k | 0 <= k < |all|
      ensures all[k].quantityAfter == QuantityMoved(all[..k + 1], all[k].item)
      ensures all[k].valueAfter == ValueMoved(all[..k + 1], all[k].item)
    {
      assert all[..k + 1] == if k < |ms| then ms[..k + 1] else all;
    }
  }

  /** A posting that leaves the item sound keeps the books. */
  lemma PostingKeepsBooks(items: map<nat, Item>, ms: seq<Movement>, i: nat, dq: int, dv: int, kind: Kind)
    requires Books(items, ms) && i in items && Sound(Moved(items[i], dq, dv))
    ensures var p := Posted(items, ms, i, dq, dv, kind); Books(p.0, p.1)
  {
    var m := Movement(i, dq, dv, items[i].quantity + dq, items[i].value + dv, kind);
    SumsAfterAppend(ms, m);
    AppendKeepsAfters(ms, m);
  }

  lemma ItemsAreSound(items: map<nat, Item>, ms: seq<Movement>)
    requires Books(items, ms)
    ensures forall i :: i in items ==> Sound(items[i])
  {
  }

  // Outbound cost.

  /** The cost of taking `quantity` out of a stock: its share of the value, or all of it at the end. */
  function OutboundCost(stock: Item, quantity: nat): (cost: nat)
    requires Sound(stock) && 0 < quantity <= stock.quantity
    ensures cost <= stock.value && (quantity == stock.quantity ==> cost == stock.value)
  {
    if quantity == stock.quantity then stock.value
    else
      ShareWithinWhole(stock.value, quantity, stock.quantity);
      RoundRatio(stock.value * quantity, stock.quantity)
  }

  function AfterOutbound(stock: Item, quantity: nat): (r: Item)
    requires Sound(stock) && 0 < quantity <= stock.quantity
    ensures Sound(r)
  {
    Moved(stock, 0 - quantity, 0 - OutboundCost(stock, quantity))
  }

  function Total(outs: seq<nat>): (r: nat)
  {
    if outs == [] then 0 else outs[0] + Total(outs[1..])
  }

  function AfterOutbounds(stock: Item, outs: seq<nat>): (r: Item)
    requires Sound(stock) && Total(outs) <= stock.quantity && forall i :: 0 <= i < |outs| ==> outs[i] > 0
    ensures Sound(r) && r.quantity == stock.quantity - Total(outs)
    decreases |outs|
  {
    if outs == [] then stock else AfterOutbounds(AfterOutbound(stock, outs[0]), outs[1..])
  }

  /** How far a stock is from its proportional share of the opening stock, over the common denominator, doubled. */
  function Drift(opening: Item, stock: Item): (r: int)
  {
    2 * (stock.value * opening.quantity - opening.value * stock.quantity)
  }

  /** One outbound is off its own proportional share by at most half a cent. */
  lemma OutboundDrift(stock: Item, quantity: nat)
    requires Sound(stock) && 0 < quantity <= stock.quantity
    ensures var next := AfterOutbound(stock, quantity);
      -stock.quantity <= 2 * (next.value * stock.quantity - stock.value * next.quantity) <= stock.quantity
  {
    var cost := OutboundCost(stock, quantity);
    var v, q := stock.value, stock.quantity;
    assert (v - cost) * q - v * (q - quantity) == v * quantity - cost * q;
  }

  lemma CancelFactor(x: int, bound: int, q: nat)
    requires q > 0 && x * q <= bound * q
    ensures x <= bound
  {
    assert (x - bound) * q == x * q - bound * q;
    if x > bound {
      MulLe(1, x - bound, q);
    }
  }

  /** Two bounded terms, weighed by q0 and by r <= q, stay within the sum of their bounds times q. */
  lemma BoundsAdd(d: int, step: int, before: int, q: nat, q0: nat, r: nat, bound: nat)
    requires q > 0 && r <= q
    requires d * q == step * q0 + before * r
    requires 0 - q <= step <= q && 0 - bound <= before <= bound
    ensures -(q0 + bound) <= d <= q0 + bound
  {
    Bounded(step, q, q0);
    Bounded(before, bound, r);
    MulLe(r, q, bound);
    assert r * bound == bound * r && q * bound == bound * q && q * q0 == q0 * q;
    assert (q0 + bound) * q == q0 * q + bound * q;
    assert (-d) * q == -(d * q);
    CancelFactor(d, q0 + bound, q);
    CancelFactor(-d, q0 + bound, q);
  }

  lemma DriftCombines(opening: Item, stock: Item, next: Item, n: nat)
    requires opening.quantity > 0 && stock.quantity > 0 && 0 <= next.quantity <= stock.quantity
    requires -(n * opening.quantity) <= Drift(opening, stock) <= n * opening.quantity
    requires -stock.quantity <= 2 * (next.value * stock.quantity - stock.value * next.quantity) <= stock.quantity
    ensures -((n + 1) * opening.quantity) <= Drift(opening, next) <= (n + 1) * opening.quantity
  {
    DriftIdentity(opening, stock, next);
    var step := 2 * (next.value * stock.quantity - stock.value * next.quantity);
    BoundsAdd(Drift(opening, next), step, Drift(opening, stock),
              stock.quantity, opening.quantity, next.quantity, n * opening.quantity);
    assert (n + 1) * opening.quantity == opening.quantity + n * opening.quantity;
  }

  lemma {:induction false} DriftOfOutbounds(opening: Item, stock: Item, n: nat, outs: seq<nat>)
    requires Sound(stock) && Total(outs) <= stock.quantity && forall i :: 0 <= i < |outs| ==> outs[i] > 0
    requires opening.quantity > 0
    requires -(n * opening.quantity) <= Drift(opening, stock) <= n * opening.quantity
    ensures var m := n + |outs|;
      -(m * opening.quantity) <= Drift(opening, AfterOutbounds(stock, outs)) <= m * opening.quantity
    decreases |outs|
  {
    if outs != [] {
      var next := AfterOutbound(stock, outs[0]);
      OutboundDrift(stock, outs[0]);
      DriftCombines(opening, stock, next, n);
      DriftOfOutbounds(opening, next, n + 1, outs[1..]);
    }
  }

  /**
    After n outbound movements and no inbound one, the value left differs from the exact
    proportional share of the opening value by at most n/2 cents, and an empty stock is worth
    nothing at all.
  */
  lemma DriftAtMostHalfACentEach(opening: Item, outs: seq<nat>)
    requires Sound(opening) && opening.quantity > 0
    requires Total(outs) <= opening.quantity && forall i :: 0 <= i < |outs| ==> outs[i] > 0
    ensures var left := AfterOutbounds(opening, outs);
      && left.quantity == opening.quantity - Total(outs)
      && -(|outs| * opening.quantity) <= 2 * (left.value * opening.quantity - opening.value * left.quantity)
      && 2 * (left.value * opening.quantity - opening.value * left.quantity) <= |outs| * opening.quantity
      && (left.quantity == 0 ==> left.value == 0)
  {
    DriftOfOutbounds(opening, opening, 0, outs);
  }

  lemma DriftIdentity(opening: Item, stock: Item, next: Item)
    ensures Drift(opening, next) * stock.quantity
         == 2 * (next.value * stock.quantity - stock.value * next.quantity) * opening.quantity + Drift(opening, stock) * next.quantity
  {
    var v0, q0, v, q, w, r := opening.value, opening.quantity, stock.value, stock.quantity, next.value, next.quantity;
    assert (w * q0 - v0 * r) * q == w * q0 * q - v0 * r * q;
    assert (w * q - v * r) * q0 == w * q * q0 - v * r * q0;
    assert (v * q0 - v0 * q) * r == v * q0 * r - v0 * q * r;
    assert w * q0 * q == w * q * q0 && v * r * q0 == v * q0 * r && v0 * r * q == v0 * q * r;
  }

  lemma Bounded(x: int, bound: int, factor: nat)
    requires -bound <= x <= bound
    ensures -(bound * factor) <= x * factor <= bound * factor
  {
    assert (bound - x) * factor >= 0 && (bound + x) * factor >= 0;
  }

  // What a list of portions does to a stock.

  function PortionQuantity(portions: seq<Portion>, i: nat): (r: int)
  {
    if portions == [] then 0
    else
      var last := portions[|portions| - 1];
      PortionQuantity(portions[..|portions| - 1], i) + if last.item == i then last.quantity else 0
  }

  function PortionValue(portions: seq<Portion>, i: nat): (r: int)
  {
    if portions == [] then 0
    else
      var last := portions[|portions| - 1];
      PortionValue(portions[..|portions| - 1], i) + if last.item == i then last.value else 0
  }

  /** The stock of every item differs from an earlier one by `sign` times these portions. */
  ghost predicate ShiftedBy(before: map<nat, Item>, after: map<nat, Item>, portions: seq<Portion>, sign: int) {
    && after.Keys == before.Keys
    && (forall i :: i in before ==>
          after[i] == Moved(before[i], sign * PortionQuantity(portions, i), sign * PortionValue(portions, i)))
  }

  lemma ShiftStep(before: map<nat, Item>, items: map<nat, Item>, portions: seq<Portion>, p: Portion, sign: int)
    requires ShiftedBy(before, items, portions, sign) && p.item in items
    ensures ShiftedBy(before, items[p.item := Moved(items[p.item], sign * p.quantity, sign * p.value)],
                      portions + [p], sign)
  {
    assert (portions + [p])[..|portions|] == portions;
    var after := items[p.item := Moved(items[p.item], sign * p.quantity, sign * p.value)];
    forall i | i in before
      ensures after[i] == Moved(before[i], sign * PortionQuantity(portions + [p], i), sign * PortionValue(portions + [p], i))
    {
      assert sign * (PortionQuantity(portions, i) + p.quantity) == sign * PortionQuantity(portions, i) + sign * p.quantity;
      assert sign * (PortionValue(portions, i) + p.value) == sign * PortionValue(portions, i) + sign * p.value;
    }
  }

  predicate AllPresent(portions: seq<Portion>, items: map<nat, Item>) {
    forall k :: 0 <= k < |portions| ==> portions[k].item in items
  }

  /** The books after are the books before with these portions posted one after the other. */
  predicate PostedFrom(before: (map<nat, Item>, seq<Movement>), after: (map<nat, Item>, seq<Movement>),
      portions: seq<Portion>, sign: int, kind: Kind)
  {
    AllPresent(portions, before.0) && after == PostedAll(before.0, before.1, portions, sign, kind)
  }

  /** Portions posted one after the other. */
  function PostedAll(items: map<nat, Item>, ms: seq<Movement>, portions: seq<Portion>, sign: int, kind: Kind)
    : (r: (map<nat, Item>, seq<Movement>))
    requires AllPresent(portions, items)
    ensures r.0.Keys == items.Keys
  {
    if portions == [] then (items, ms)
    else
      var p := portions[|portions| - 1];
      var before := PostedAll(items, ms, portions[..|portions| - 1], sign, kind);
      Posted(before.0, before.1, p.item, sign * p.quantity, sign * p.value, kind)
  }

  lemma PostedAllStep(items: map<nat, Item>, ms: seq<Movement>, portions: seq<Portion>, p: Portion, sign: int, kind: Kind)
    requires p.item in items && AllPresent(portions, items)
    ensures AllPresent(portions + [p], items)
    ensures var before := PostedAll(items, ms, portions, sign, kind);
      PostedAll(items, ms, portions + [p], sign, kind) == Posted(before.0, before.1, p.item, sign * p.quantity, sign * p.value, kind)
  {
    assert (portions + [p])[..|portions|] == portions;
  }

  lemma {:induction false} PostedAllAppends(items: map<nat, Item>, ms: seq<Movement>, portions: seq<Portion>, sign: int, kind: Kind)
    requires AllPresent(portions, items)
    ensures ms <= PostedAll(items, ms, portions, sign, kind).1
  {
    if portions != [] {
      PostedAllAppends(items, ms, portions[..|portions| - 1], sign, kind);
    }
  }

  /** Posting portions moves each item by the sum of its own, whatever their order. */
  lemma {:induction false} PostedAllShifts(items: map<nat, Item>, ms: seq<Movement>, portions: seq<Portion>, sign: int, kind: Kind)
    requires AllPresent(portions, items)
    ensures ShiftedBy(items, PostedAll(items, ms, portions, sign, kind).0, portions, sign)
  {
    if portions != [] {
      var front, p := portions[..|portions| - 1], portions[|portions| - 1];
      PostedAllShifts(items, ms, front, sign, kind);
      ShiftStep(items, PostedAll(items, ms, front, sign, kind).0, front, p, sign);
      assert front + [p] == portions;
    }
  }

  function Portions(lines: seq<IssueLine>): (r: seq<Portion>)
    ensures |r| == |lines| && forall k :: 0 <= k < |lines| ==> r[k] == lines[k].portion
  {
    seq(|lines|, k requires 0 <= k < |lines| => lines[k].portion)
  }

  function ValueTotal(lines: seq<IssueLine>): (r: int)
  {
    if lines == [] then 0 else ValueTotal(lines[..|lines| - 1]) + lines[|lines| - 1].portion.value
  }

  /** The lines stored for one issue, in order. */
  function LinesOf(lines: seq<IssueLine>, issue: nat): (r: seq<IssueLine>)
  {
    if lines == [] then []
    else
      var last := lines[|lines| - 1];
      LinesOf(lines[..|lines| - 1], issue) + if last.issue == issue then [last] else []
  }

  lemma {:induction false} LinesOfAppend(lines: seq<IssueLine>, more: seq<IssueLine>, issue: nat)
    requires forall k :: 0 <= k < |lines| ==> lines[k].issue != issue
    requires forall k :: 0 <= k < |more| ==> more[k].issue == issue
    ensures LinesOf(lines + more, issue) == more
  {
    if more == [] {
      assert lines + more == lines;
      NoLines(lines, issue);
    } else {
      LinesOfAppend(lines, more[..|more| - 1], issue);
      assert (lines + more)[..|lines + more| - 1] == lines + more[..|more| - 1];
      assert more == more[..|more| - 1] + [more[|more| - 1]];
    }
  }

  lemma {:induction false} NoLines(lines: seq<IssueLine>, issue: nat)
    requires forall k :: 0 <= k < |lines| ==> lines[k].issue != issue
    ensures LinesOf(lines, issue) == []
  {
    if lines != [] {
      NoLines(lines[..|lines| - 1], issue);
    }
  }

  /** Lines stored for other issues do not matter. */
  lemma {:induction false} LinesOfLater(lines: seq<IssueLine>, more: seq<IssueLine>, issue: nat)
    requires forall k :: 0 <= k < |more| ==> more[k].issue != issue
    ensures LinesOf(lines + more, issue) == LinesOf(lines, issue)
  {
    if more == [] {
      assert lines + more == lines;
    } else {
      LinesOfLater(lines, more[..|more| - 1], issue);
      assert (lines + more)[..|lines + more| - 1] == lines + more[..|more| - 1];
    }
  }

  /** What active issues have already taken for one procurement line. */
  function Used(lines: seq<IssueLine>, issues: map<nat, bool>, procurementLine: nat): (r: nat)
  {
    if lines == [] then 0
    else
      var last := lines[|lines| - 1];
      Used(lines[..|lines| - 1], issues, procurementLine)
        + if last.procurementLine == Some(procurementLine) && last.issue in issues && issues[last.issue]
          then last.portion.quantity else 0
  }

  /** One request to the ledger. */
  datatype Operation =
    | NewItem(item: nat, quantity: nat, unitCost: nat)
    | Adjust(id: nat, item: nat, delta: int, unitCost: nat)
    | UndoAdjustment(id: nat, expectedRevision: nat)
    | TakeIn(portion: Portion)
    | ReturnBatches(portions: seq<Portion>)
    | Issue(issue: nat, lines: seq<RequestLine>)
    | UndoIssue(issue: nat)

  /** No item and no movement has gone. */
  predicate BooksGrow(before: (map<nat, Item>, seq<Movement>), after: (map<nat, Item>, seq<Movement>)) {
    before.0.Keys <= after.0.Keys && before.1 <= after.1
  }

  /** No issue has gone, and stored lines stay; what is new belongs to new issues. */
  predicate Onward(issues: map<nat, bool>, lines: seq<IssueLine>, laterIssues: map<nat, bool>, laterLines: seq<IssueLine>) {
    && issues.Keys <= laterIssues.Keys && lines <= laterLines
    && (forall k :: |lines| <= k < |laterLines| ==> laterLines[k].issue !in issues)
  }

  /** When an adjustment can be taken back, and why not. */
  function ReversalAnswer(items: map<nat, Item>, adjustments: map<nat, Adjustment>, id: nat, expectedRevision: nat)
    : (r: Result<()>)
    requires forall a :: a in adjustments ==> adjustments[a].item in items
  {
    if id !in adjustments then Err(NotFound)
    else if !adjustments[id].active then Err(AlreadyReversed)
    else if adjustments[id].revision != expectedRevision then Err(RevisionConflict)
    else
      var after := Moved(items[adjustments[id].item], -adjustments[id].quantityDelta, -adjustments[id].valueDelta);
      if after.quantity < 0 || after.value < 0 then Err(Insufficient)
      else if !Sound(after) || after.quantity > SQLITE_MAX_INTEGER || after.value > SQLITE_MAX_INTEGER then Err(Overflow)
      else Ok(())
  }

  // Why a request is refused, cause by cause.

  predicate Storable(item: Item) {
    item.quantity <= 9223372036854775807 && item.value <= 9223372036854775807
  }

  ghost predicate ReversalRefused(
    items: map<nat, Item>, adjustments: map<nat, Adjustment>, id: nat, expectedRevision: nat, e: Error)
  {
    if id !in adjustments then e == NotFound
    else
      var a := adjustments[id];
      var due := a.active && a.revision == expectedRevision && a.item in items;
      match e
      case AlreadyReversed => !a.active
      case RevisionConflict => a.active && a.revision != expectedRevision
      case Insufficient =>
        due && (items[a.item].quantity < a.quantityDelta || items[a.item].value < a.valueDelta)
      case Overflow =>
        && due && items[a.item].quantity >= a.quantityDelta && items[a.item].value >= a.valueDelta
        && (!Storable(Item(items[a.item].quantity - a.quantityDelta, items[a.item].value - a.valueDelta))
            || (items[a.item].quantity == a.quantityDelta && items[a.item].value != a.valueDelta))
      case _ => false
  }

  ghost predicate AdjustmentRefused(items: map<nat, Item>, i: nat, delta: int, unitCost: nat, e: Error)
    requires delta != 0 && forall j :: j in items ==> Sound(items[j])
  {
    match e
    case NotFound => i !in items
    case Insufficient => i in items && items[i].quantity + delta < 0
    case Invalid =>
      && i in items && items[i].quantity + delta >= 0
      && var after := if delta > 0 then LineValue(unitCost, delta) + items[i].value
                      else items[i].value - OutboundCost(items[i], 0 - delta);
         !Storable(Item(items[i].quantity + delta, after))
    case _ => false
  }

  ghost predicate LineRefused(
    items: map<nat, Item>, stored: seq<IssueLine>, issues: map<nat, bool>, requirements: map<nat, Requirement>, line: RequestLine, e: Error)
  {
    if line.item !in items then e == NotFound
    else if line.quantity > items[line.item].quantity then e == Insufficient
    else if line.procurementLine.None? then false
    else
      var p := line.procurementLine.value;
      match e
      case Invalid => p !in requirements || requirements[p].item != line.item
      case UsageExceeded =>
        p in requirements && requirements[p].item == line.item && Used(stored, issues, p) + line.quantity > requirements[p].quantity
      case _ => false
  }

  /** What a request asks for of one item. */
  function Requested(lines: seq<RequestLine>, i: nat): (r: nat) {
    if lines == [] then 0
    else
      var last := lines[|lines| - 1];
      Requested(lines[..|lines| - 1], i) + if last.item == i then last.quantity else 0
  }

  /** What a request claims of one procurement line. */
  function Claimed(lines: seq<RequestLine>, p: nat): (r: nat) {
    if lines == [] then 0
    else
      var last := lines[|lines| - 1];
      Claimed(lines[..|lines| - 1], p) + if last.procurementLine == Some(p) then last.quantity else 0
  }

  /** Stock covers all that is requested of each item, and requirements all that is claimed of each procurement line. */
  ghost predicate Covered(
    items: map<nat, Item>, stored: seq<IssueLine>, issues: map<nat, bool>, requirements: map<nat, Requirement>, lines: seq<RequestLine>)
  {
    forall k :: 0 <= k < |lines| ==> LineCovered(items, stored, issues, requirements, lines, lines[k])
  }

  predicate LineCovered(
    items: map<nat, Item>, stored: seq<IssueLine>, issues: map<nat, bool>, requirements: map<nat, Requirement>,
    lines: seq<RequestLine>, line: RequestLine)
  {
    && line.item in items && Requested(lines, line.item) <= items[line.item].quantity
    && (line.procurementLine.Some? ==>
          var p := line.procurementLine.value;
          p in requirements && requirements[p].item == line.item && Used(stored, issues, p) + Claimed(lines, p) <= requirements[p].quantity)
  }

  predicate Outgoing(items: map<nat, Item>, line: RequestLine) {
    line.item in items && Sound(items[line.item]) && 0 < line.quantity <= items[line.item].quantity
  }

  /** The stock after lines have gone out one by one. */
  ghost function AfterLines(items: map<nat, Item>, lines: seq<RequestLine>): (r: map<nat, Item>)
  {
    if lines == [] then items
    else
      var before, last := AfterLines(items, lines[..|lines| - 1]), lines[|lines| - 1];
      if Outgoing(before, last) then before[last.item := AfterOutbound(before[last.item], last.quantity)] else before
  }

  /** What they cost together. */
  ghost function CostOfLines(items: map<nat, Item>, lines: seq<RequestLine>): (r: nat)
  {
    if lines == [] then 0
    else
      var before, last := AfterLines(items, lines[..|lines| - 1]), lines[|lines| - 1];
      CostOfLines(items, lines[..|lines| - 1]) + if Outgoing(before, last) then OutboundCost(before[last.item], last.quantity) else 0
  }

  lemma {:induction false} RequestsGrow(lines: seq<RequestLine>, k: nat, i: nat)
    requires k <= |lines|
    ensures Requested(lines[..k], i) <= Requested(lines, i) && Claimed(lines[..k], i) <= Claimed(lines, i)
  {
    if k < |lines| {
      var front := lines[..|lines| - 1];
      RequestsGrow(front, k, i);
      assert front[..k] == lines[..k];
    } else {
      assert lines[..k] == lines;
    }
  }

  lemma {:induction false} CostsGrow(items: map<nat, Item>, lines: seq<RequestLine>, k: nat)
    requires k <= |lines|
    ensures CostOfLines(items, lines[..k]) <= CostOfLines(items, lines)
  {
    if k < |lines| {
      var front := lines[..|lines| - 1];
      CostsGrow(items, front, k);
      assert front[..k] == lines[..k];
    } else {
      assert lines[..k] == lines;
    }
  }

  /** An issue without lines uses nothing. */
  lemma {:induction false} UsedBefore(lines: seq<IssueLine>, issues: map<nat, bool>, issue: nat, p: nat)
    requires forall k :: 0 <= k < |lines| ==> lines[k].issue != issue
    ensures Used(lines, issues[issue := true], p) == Used(lines, issues, p)
  {
    if lines != [] {
      UsedBefore(lines[..|lines| - 1], issues, issue, p);
    }
  }

  /** The usage of procurement lines adds up over the active issues' lines, and an issue reversed uses nothing. */
  lemma {:induction false} UsedAdds(a: seq<IssueLine>, b: seq<IssueLine>, issues: map<nat, bool>, p: nat)
    ensures Used(a + b, issues, p) == Used(a, issues, p) + Used(b, issues, p)
    ensures forall l: IssueLine ::
      Used([l], issues, p) == if l.procurementLine == Some(p) && l.issue in issues && issues[l.issue] then l.portion.quantity else 0
  {
    assert forall l: IssueLine :: [l][..0] == [];
    if b == [] {
      assert a + b == a;
    } else {
      UsedAdds(a, b[..|b| - 1], issues, p);
      assert (a + b)[..|a + b| - 1] == a + b[..|b| - 1];
    }
  }

  /** What the loop of an issue has done after some of its lines. */
  ghost predicate TakenOut(
    items: map<nat, Item>, stored: seq<IssueLine>, issues: map<nat, bool>, requirements: map<nat, Requirement>,
    lines: seq<RequestLine>, now: map<nat, Item>, storedNow: seq<IssueLine>)
  {
    && now == AfterLines(items, lines) && now.Keys == items.Keys
    && (forall i :: i in items ==> now[i].quantity == items[i].quantity - Requested(lines, i))
    && (forall p: nat :: Used(storedNow, issues, p) == Used(stored, issues, p) + Claimed(lines, p))
    && Covered(items, stored, issues, requirements, lines)
  }

  /** One more line is covered exactly when it can be posted now. */
  lemma NextLineCovered(
      items: map<nat, Item>, stored: seq<IssueLine>, issues: map<nat, bool>, requirements: map<nat, Requirement>,
      lines: seq<RequestLine>, k: nat, now: map<nat, Item>, storedNow: seq<IssueLine>)
    requires k < |lines| && lines[k].quantity > 0 && (forall i :: i in now ==> Sound(now[i]))
    requires TakenOut(items, stored, issues, requirements, lines[..k], now, storedNow)
    ensures Issuable(now, storedNow, issues, requirements, lines[k])
       <==> LineCovered(items, stored, issues, requirements, lines[..k + 1], lines[k])
  {
    assert lines[..k + 1][..k] == lines[..k];
  }

  lemma CoveredByMore(
      items: map<nat, Item>, stored: seq<IssueLine>, issues: map<nat, bool>, requirements: map<nat, Requirement>,
      lines: seq<RequestLine>, k: nat)
    requires k < |lines| && LineCovered(items, stored, issues, requirements, lines, lines[k])
    ensures LineCovered(items, stored, issues, requirements, lines[..k + 1], lines[k])
  {
    RequestsGrow(lines, k + 1, lines[k].item);
    if lines[k].procurementLine.Some? {
      RequestsGrow(lines, k + 1, lines[k].procurementLine.value);
    }
  }

  lemma NotCovered(
      items: map<nat, Item>, stored: seq<IssueLine>, issues: map<nat, bool>, requirements: map<nat, Requirement>,
      lines: seq<RequestLine>, k: nat)
    requires k < |lines| && !LineCovered(items, stored, issues, requirements, lines[..k + 1], lines[k])
    ensures !Covered(items, stored, issues, requirements, lines)
  {
    if LineCovered(items, stored, issues, requirements, lines, lines[k]) {
      CoveredByMore(items, stored, issues, requirements, lines, k);
    }
  }

  lemma IssuableIsCostable(
      items: map<nat, Item>, stored: seq<IssueLine>, issues: map<nat, bool>, requirements: map<nat, Requirement>, line: RequestLine)
    ensures Issuable(items, stored, issues, requirements, line) ==>
      line.item in items && Sound(items[line.item]) && 0 < line.quantity <= items[line.item].quantity
  {
  }

  lemma NothingIssuedYet(
      books: (map<nat, Item>, seq<Movement>), stored: seq<IssueLine>, issues: map<nat, bool>, requirements: map<nat, Requirement>,
      lines: seq<RequestLine>, issue: nat)
    ensures PostedFrom(books, books, Portions([]), -1, ProjectIssue) && Fulfils([], lines[..0], issue)
    ensures ValueTotal([]) == 0 == CostOfLines(books.0, lines[..0])
    ensures TakenOut(books.0, stored, issues, requirements, lines[..0], books.0, stored)
  {
  }

  lemma AllTakenOut(
      items: map<nat, Item>, stored: seq<IssueLine>, issues: map<nat, bool>, requirements: map<nat, Requirement>,
      lines: seq<RequestLine>, now: map<nat, Item>, storedNow: seq<IssueLine>)
    requires TakenOut(items, stored, issues, requirements, lines, now, storedNow)
    ensures Covered(items, stored, issues, requirements, lines)
  {
  }

  /** A line that went out before is still covered together with the next one. */
  lemma EarlierStillCovered(
      items: map<nat, Item>, stored: seq<IssueLine>, issues: map<nat, bool>, requirements: map<nat, Requirement>,
      lines: seq<RequestLine>, k: nat, now: map<nat, Item>, storedNow: seq<IssueLine>, j: nat)
    requires j < k < |lines| && lines[k].quantity > 0 && TakenOut(items, stored, issues, requirements, lines[..k], now, storedNow)
    requires Issuable(now, storedNow, issues, requirements, lines[k])
    ensures LineCovered(items, stored, issues, requirements, lines[..k + 1], lines[j])
  {
    assert lines[..k + 1][..k] == lines[..k];
    assert LineCovered(items, stored, issues, requirements, lines[..k], lines[..k][j]);
  }

  lemma OneMoreTakenOut(
      items: map<nat, Item>, stored: seq<IssueLine>, issues: map<nat, bool>, requirements: map<nat, Requirement>,
      lines: seq<RequestLine>, k: nat, now: map<nat, Item>, storedNow: seq<IssueLine>, issue: nat)
    requires k < |lines| && lines[k].quantity > 0 && (forall i :: i in now ==> Sound(now[i])) && issue in issues && issues[issue]
    requires TakenOut(items, stored, issues, requirements, lines[..k], now, storedNow)
    requires Issuable(now, storedNow, issues, requirements, lines[k])
    ensures var cost := OutboundCost(now[lines[k].item], lines[k].quantity);
      && TakenOut(items, stored, issues, requirements, lines[..k + 1],
                  now[lines[k].item := AfterOutbound(now[lines[k].item], lines[k].quantity)], storedNow + [Stored(issue, lines[k], cost)])
      && CostOfLines(items, lines[..k + 1]) == CostOfLines(items, lines[..k]) + cost
  {
    var cost := OutboundCost(now[lines[k].item], lines[k].quantity);
    assert lines[..k + 1][..k] == lines[..k];
    forall p: nat ensures Used(storedNow + [Stored(issue, lines[k], cost)], issues, p) == Used(stored, issues, p) + Claimed(lines[..k + 1], p) {
      UsedAdds(storedNow, [Stored(issue, lines[k], cost)], issues, p);
    }
    NextLineCovered(items, stored, issues, requirements, lines, k, now, storedNow);
    var upTo := lines[..k + 1];
    forall j | 0 <= j < |upTo| ensures LineCovered(items, stored, issues, requirements, upTo, upTo[j]) {
      if j < k {
        EarlierStillCovered(items, stored, issues, requirements, lines, k, now, storedNow, j);
      }
    }
    hide Used, Covered, LineCovered, Issuable;
  }

  lemma NewIssueClaimsNothing(
      items: map<nat, Item>, stored: seq<IssueLine>, issues: map<nat, bool>, issue: nat, requirements: map<nat, Requirement>,
      lines: seq<RequestLine>)
    requires forall k :: 0 <= k < |stored| ==> stored[k].issue != issue
    ensures Covered(items, stored, issues[issue := true], requirements, lines) <==> Covered(items, stored, issues, requirements, lines)
  {
    forall k | 0 <= k < |lines|
      ensures LineCovered(items, stored, issues[issue := true], requirements, lines, lines[k])
         <==> LineCovered(items, stored, issues, requirements, lines, lines[k])
    {
      if lines[k].procurementLine.Some? {
        UsedBefore(stored, issues, issue, lines[k].procurementLine.value);
      }
    }
    hide LineCovered;
  }

  // When portions can be put back, and taken back.

  lemma {:induction false} PortionsGrow(portions: seq<Portion>, k: nat, i: nat)
    requires k <= |portions|
    ensures 0 <= PortionQuantity(portions[..k], i) <= PortionQuantity(portions, i)
    ensures 0 <= PortionValue(portions[..k], i) <= PortionValue(portions, i)
  {
    if portions == [] {
    } else if k < |portions| {
      var front := portions[..|portions| - 1];
      PortionsGrow(front, k, i);
      assert front[..k] == portions[..k];
    } else {
      assert portions[..k] == portions;
      PortionsGrow(portions[..k - 1], k - 1, i);
      assert portions[..k - 1][..k - 1] == portions[..k - 1];
    }
  }

  lemma RoomForFewer(items: map<nat, Item>, portions: seq<Portion>, k: nat, i: nat)
    requires k <= |portions| && RoomFor(items, portions, i)
    ensures RoomFor(items, portions[..k], i)
  {
    PortionsGrow(portions, k, i);
  }

  lemma NoRoom(items: map<nat, Item>, portions: seq<Portion>, k: nat)
    requires k < |portions| && !RoomFor(items, portions[..k + 1], portions[k].item)
    ensures !HasRoom(items, portions)
  {
    if RoomFor(items, portions, portions[k].item) {
      RoomForFewer(items, portions, k + 1, portions[k].item);
    }
  }

  lemma NothingPosted(books: (map<nat, Item>, seq<Movement>), portions: seq<Portion>, sign: int, kind: Kind)
    ensures PostedFrom(books, books, portions[..0], sign, kind)
  {
  }

  /** The stock with the first portions put back has room for the next one. */
  lemma NextHasRoom(
      before: map<nat, Item>, now: map<nat, Item>, portions: seq<Portion>, k: nat)
    requires k < |portions| && portions[k].item in before && ShiftedBy(before, now, portions[..k], 1)
    ensures portions[k].item in now
    ensures Storable(Moved(now[portions[k].item], portions[k].quantity, portions[k].value))
       <==> RoomFor(before, portions[..k + 1], portions[k].item)
  {
    assert portions[..k + 1][..k] == portions[..k];
  }

  lemma NextCanGiveBack(before: map<nat, Item>, now: map<nat, Item>, portions: seq<Portion>, k: nat)
    requires k < |portions| && portions[k].item in before && ShiftedBy(before, now, portions[..k], -1)
    ensures portions[k].item in now
    ensures Sound(Moved(now[portions[k].item], -1 * portions[k].quantity, -1 * portions[k].value))
       <==> SoundWithout(before, portions[..k + 1], portions[k].item)
  {
    assert portions[..k + 1][..k] == portions[..k];
  }

  /** A later portion of the same item leaves room for it all. */
  lemma {:induction false} RoomSoFar(items: map<nat, Item>, portions: seq<Portion>, n: nat, i: nat)
    requires n <= |portions| && (forall k :: 0 <= k < n ==> RoomFor(items, portions[..k + 1], portions[k].item))
    requires exists k :: 0 <= k < n && portions[k].item == i
    ensures RoomFor(items, portions[..n], i)
  {
    assert portions[..n][..n - 1] == portions[..n - 1];
    if portions[n - 1].item != i {
      RoomSoFar(items, portions, n - 1, i);
    }
  }

  lemma RoomForAll(items: map<nat, Item>, portions: seq<Portion>)
    requires forall k :: 0 <= k < |portions| ==> RoomFor(items, portions[..k + 1], portions[k].item)
    ensures HasRoom(items, portions)
  {
    forall k | 0 <= k < |portions| ensures RoomFor(items, portions, portions[k].item) {
      RoomSoFar(items, portions, |portions|, portions[k].item);
      assert portions[..|portions|] == portions;
    }
  }

  /** Every item has room for all that is put back. */
  ghost predicate HasRoom(items: map<nat, Item>, portions: seq<Portion>) {
    forall k :: 0 <= k < |portions| ==> RoomFor(items, portions, portions[k].item)
  }

  predicate RoomFor(items: map<nat, Item>, portions: seq<Portion>, i: nat) {
    i in items && Storable(Item(items[i].quantity + PortionQuantity(portions, i), items[i].value + PortionValue(portions, i)))
  }

  /** After each batch that is taken back its item has a sound balance. */
  ghost predicate CanGiveBack(items: map<nat, Item>, portions: seq<Portion>) {
    forall k :: 0 <= k < |portions| ==> SoundWithout(items, portions[..k + 1], portions[k].item)
  }

  predicate SoundWithout(items: map<nat, Item>, portions: seq<Portion>, i: nat) {
    && i in items
    && items[i].quantity >= PortionQuantity(portions, i) && items[i].value >= PortionValue(portions, i)
    && (items[i].quantity == PortionQuantity(portions, i) ==> items[i].value == PortionValue(portions, i))
  }

  class Ledger {
    var items: map<nat, Item>
    var movements: seq<Movement>
    var adjustments: map<nat, Adjustment>
    var issues: map<nat, bool>  // true while active
    var issueLines: seq<IssueLine>
    var requirements: map<nat, Requirement>

    ghost predicate Valid()
      reads this
    {
      && Books(items, movements)
      && (forall a :: a in adjustments ==> adjustments[a].item in items)
      && LinesStand(issueLines, issues, items)
    }

    constructor ()
      ensures Valid() && items == map[] && movements == [] && issueLines == []
    {
      items, movements, adjustments, issues, issueLines, requirements := map[], [], map[], map[], [], map[];
    }

    /** _insert_movement and _update_balance; the caller has checked the new balance. */
    method Post(i: nat, dq: int, dv: int, kind: Kind)
      requires Valid() && i in items && Sound(Moved(items[i], dq, dv))
      modifies `items, `movements
      ensures Valid() && (items, movements) == Posted(old(items), old(movements), i, dq, dv, kind)
    {
      PostingKeepsBooks(items, movements, i, dq, dv, kind);
      var after := Moved(items[i], dq, dv);
      movements := movements + [Movement(i, dq, dv, after.quantity, after.value, kind)];
      items := items[i := after];
    }

    /** A new item with its opening stock. */
    method CreateItem(i: nat, quantity: nat, unitCost: nat)
      requires Valid() && i !in items
      modifies `items, `movements
      ensures Valid()
      ensures items == old(items)[i := Item(quantity, if quantity == 0 then 0 else LineValue(unitCost, quantity))]
      ensures quantity == 0 ==> movements == old(movements)
      ensures quantity > 0 ==>
        movements == Posted(old(items)[i := Item(0, 0)], old(movements), i, quantity, LineValue(unitCost, quantity), Opening).1
    {
      items := items[i := Item(0, 0)];
      if quantity > 0 {
        Post(i, quantity, LineValue(unitCost, quantity), Opening);
      }
    }

    /** A counted difference: inbound at the stated unit cost, outbound at the moving average. */
    method CreateAdjustment(id: nat, i: nat, delta: int, unitCost: nat) returns (r: Result<int>)
      requires Valid() && id !in adjustments && delta != 0
      modifies `items, `movements, `adjustments
      ensures Valid()
      ensures r.Err? ==> items == old(items) && movements == old(movements) && adjustments == old(adjustments)
      ensures (forall j :: j in old(items) ==> Sound(old(items)[j]))
      ensures forall e :: r == Err(e) <==> AdjustmentRefused(old(items), i, delta, unitCost, e)
      ensures r == Err(NotFound) <==> i !in old(items)
      ensures r == Err(Insufficient) <==> i in old(items) && old(items)[i].quantity + delta < 0
      ensures r.Ok? ==> (items, movements) == Posted(old(items), old(movements), i, delta, r.value, Adjusting)
      ensures r.Ok? ==> adjustments == old(adjustments)[id := Adjustment(i, delta, r.value, true, 1)]
      ensures r.Ok? && delta > 0 ==> r.value == LineValue(unitCost, delta)
      ensures r.Ok? && delta < 0 ==> r.value == 0 - OutboundCost(old(items)[i], 0 - delta)
    {
      if i !in items {
        return Err(NotFound);
      }
      var stock := items[i];
      if stock.quantity + delta < 0 {
        return Err(Insufficient);
      }
      var value: int := if delta > 0 then LineValue(unitCost, delta) else 0 - OutboundCost(stock, 0 - delta);
      if stock.value + value > SQLITE_MAX_INTEGER || stock.quantity + delta > SQLITE_MAX_INTEGER {
        return Err(Invalid);
      }
      Post(i, delta, value, Adjusting);
      adjustments := adjustments[id := Adjustment(i, delta, value, true, 1)];
      r := Ok(value);
    }

    /** Takes back exactly what the adjustment did, unless the stock no longer allows it. */
    method ReverseAdjustment(id: nat, expectedRevision: nat) returns (r: Result<()>)
      requires Valid()
      modifies `items, `movements, `adjustments
      ensures Valid()
      ensures forall e :: r == Err(e) <==> ReversalRefused(old(items), old(adjustments), id, expectedRevision, e)
      ensures r == ReversalAnswer(old(items), old(adjustments), id, expectedRevision)
      ensures r.Ok? ==> id in old(adjustments) && old(adjustments)[id].item in old(items)
      ensures r.Ok? ==> var a := old(adjustments)[id]; var was := old(items)[a.item];
        && items == old(items)[a.item := Item(was.quantity - a.quantityDelta, was.value - a.valueDelta)]
        && id in adjustments && !adjustments[id].active && adjustments[id].revision == expectedRevision + 1
      ensures r.Err? ==> items == old(items) && movements == old(movements) && adjustments == old(adjustments)
      ensures r.Ok? ==> var a := old(adjustments)[id];
        && (items, movements) == Posted(old(items), old(movements), a.item, -a.quantityDelta, -a.valueDelta, Reversal)
        && adjustments == old(adjustments)[id := a.(active := false, revision := a.revision + 1)]
    {
      hide Books, LinesStand;
      if id !in adjustments {
        return Err(NotFound);
      }
      var a := adjustments[id];
      if !a.active {
        return Err(AlreadyReversed);
      }
      if a.revision != expectedRevision {
        return Err(RevisionConflict);
      }
      var after := Moved(items[a.item], -a.quantityDelta, -a.valueDelta);
      if after.quantity < 0 || after.value < 0 {
        return Err(Insufficient);
      }
      if after.quantity > SQLITE_MAX_INTEGER || after.value > SQLITE_MAX_INTEGER
         || (after.quantity == 0 && after.value != 0) {
        return Err(Overflow);
      }
      Post(a.item, -a.quantityDelta, -a.valueDelta, Reversal);
      adjustments := adjustments[id := a.(active := false, revision := a.revision + 1)];
      r := Ok(());
    }

    /**
      An adjustment and its reversal with nothing in between: the reversal goes through and leaves
      every item as it was before both, and a second one is refused with nothing changed.
    */
    method AdjustAndTakeBack(id: nat, i: nat, delta: int, unitCost: nat)
      returns (r: Result<int>, undone: Result<()>, again: Result<()>)
      requires Valid() && id !in adjustments && delta != 0 && (i in items ==> Storable(items[i]))
      modifies `items, `movements, `adjustments
      ensures Valid()
      ensures r.Err? ==> items == old(items) && movements == old(movements) && adjustments == old(adjustments)
      ensures r.Ok? ==> undone.Ok? && items == old(items) && again == Err(AlreadyReversed)
      ensures r.Ok? ==> |movements| == |old(movements)| + 2 && old(movements) <= movements
    {
      hide Books, LinesStand;
      ItemsAreSound(items, movements);
      undone, again := Err(NotFound), Err(NotFound);
      r := CreateAdjustment(id, i, delta, unitCost);
      if r.Ok? {
        undone := ReverseAdjustment(id, 1);
        assert undone.Err? ==> ReversalRefused(items, adjustments, id, 1, undone.error);
        again := ReverseAdjustment(id, 2);
        assert ReversalRefused(items, adjustments, id, 2, AlreadyReversed);
      }
    }

    /** post_receipt_movement. */
    method PostReceiptMovement(i: nat, quantity: nat, value: nat) returns (r: Result<()>)
      requires Valid() && i in items && quantity > 0
      modifies `items, `movements
      ensures Valid()
      ensures r.Ok? <==> old(items)[i].value + value <= SQLITE_MAX_INTEGER
                         && old(items)[i].quantity + quantity <= SQLITE_MAX_INTEGER
      ensures r.Err? ==> items == old(items) && movements == old(movements)
      ensures r.Ok? ==>
        (items, movements) == Posted(old(items), old(movements), i, quantity, value, GoodsReceipt)
    {
      var after := Moved(items[i], quantity, value);
      if after.value > SQLITE_MAX_INTEGER || after.quantity > SQLITE_MAX_INTEGER {
        return Err(Invalid);
      }
      Post(i, quantity, value, GoodsReceipt);
      r := Ok(());
    }

    /** _post_issue_line: one line of an issue, costed at the moving average. */
    method PostIssueLine(issue: nat, line: RequestLine) returns (r: Result<nat>)
      requires Valid() && issue in issues && line.quantity > 0
      modifies `items, `movements, `issueLines
      ensures Valid()
      ensures r.Err? ==> items == old(items) && movements == old(movements) && issueLines == old(issueLines)
      ensures forall e :: r == Err(e) <==> LineRefused(old(items), old(issueLines), issues, requirements, line, e)
      ensures r.Ok? <==> Issuable(old(items), old(issueLines), issues, requirements, line)
      ensures r.Ok? ==> r.value == OutboundCost(old(items)[line.item], line.quantity)
      ensures r.Ok? ==>
        (items, movements) == Posted(old(items), old(movements), line.item, -1 * line.quantity, -1 * r.value, ProjectIssue)
      ensures r.Ok? ==> issueLines == old(issueLines) + [Stored(issue, line, r.value)]
    {
      if line.item !in items {
        return Err(NotFound);
      }
      var stock := items[line.item];
      if line.quantity > stock.quantity {
        return Err(Insufficient);
      }
      if line.procurementLine.Some? {
        var p := line.procurementLine.value;
        if p !in requirements || requirements[p].item != line.item {
          return Err(Invalid);
        }
        if Used(issueLines, issues, p) + line.quantity > requirements[p].quantity {
          return Err(UsageExceeded);
        }
      }
      var cost: int := OutboundCost(stock, line.quantity);
      Post(line.item, -1 * line.quantity, -1 * cost, ProjectIssue);
      issueLines := issueLines + [Stored(issue, line, cost)];
      r := Ok(cost);
    }

    /** One turn of the loop of create_project_issue. */
    method PostNext(issue: nat, lines: seq<RequestLine>, k: nat, ghost itemsBefore: map<nat, Item>, ghost linesBefore: seq<IssueLine>)
      returns (posted: Result<nat>)
      requires Valid() && issue in issues && issues[issue] && k < |lines| && lines[k].quantity > 0
      requires TakenOut(itemsBefore, linesBefore, issues, requirements, lines[..k], items, issueLines)
      modifies `items, `movements, `issueLines
      ensures Valid()
      ensures posted.Err? ==> !Covered(itemsBefore, linesBefore, issues, requirements, lines)
      ensures posted.Ok? ==> TakenOut(itemsBefore, linesBefore, issues, requirements, lines[..k + 1], items, issueLines)
      ensures posted.Ok? ==> CostOfLines(itemsBefore, lines[..k + 1]) == CostOfLines(itemsBefore, lines[..k]) + posted.value
      ensures posted.Ok? ==> lines[k].item in old(items)
      ensures posted.Ok? ==>
        (items, movements) == Posted(old(items), old(movements), lines[k].item, -1 * lines[k].quantity, -1 * posted.value, ProjectIssue)
      ensures posted.Ok? ==> issueLines == old(issueLines) + [Stored(issue, lines[k], posted.value)]
    {
      hide Covered, TakenOut, LineCovered, Books, LinesStand, LineRefused, CostOfLines, Issuable, Stored;
      ItemsAreSound(items, movements);
      NextLineCovered(itemsBefore, linesBefore, issues, requirements, lines, k, items, issueLines);
      IssuableIsCostable(items, issueLines, issues, requirements, lines[k]);
      posted := PostIssueLine(issue, lines[k]);
      if posted.Err? {
        NotCovered(itemsBefore, linesBefore, issues, requirements, lines, k);
      } else {
        OneMoreTakenOut(itemsBefore, linesBefore, issues, requirements, lines, k, old(items), old(issueLines), issue);
      }
    }

    /** The loop of create_project_issue; a refusal part way leaves what was posted to the rollback. */
    method PostIssueLines(issue: nat, lines: seq<RequestLine>) returns (r: Result<int>, ghost stored: seq<IssueLine>)
      requires Valid() && issue in issues && issues[issue]
      requires forall k :: 0 <= k < |lines| ==> lines[k].quantity > 0
      modifies `items, `movements, `issueLines
      ensures r.Ok? <==> Covered(old(items), old(issueLines), issues, requirements, lines)
                         && CostOfLines(old(items), lines) <= SQLITE_MAX_INTEGER
      ensures r.Err? && Covered(old(items), old(issueLines), issues, requirements, lines) ==> r == Err(Invalid)
      ensures r.Ok? ==> r.value == CostOfLines(old(items), lines)
      ensures r.Ok? ==> Valid() && issueLines == old(issueLines) + stored && Fulfils(stored, lines, issue)
      ensures r.Ok? ==> PostedFrom((old(items), old(movements)), (items, movements), Portions(stored), -1, ProjectIssue)
      ensures r.Ok? ==> r.value == ValueTotal(stored) <= SQLITE_MAX_INTEGER
    {
      var total := 0;
      stored := [];
      ghost var itemsBefore, linesBefore := items, issueLines;
      NothingIssuedYet((items, movements), issueLines, issues, requirements, lines, issue);
      hide Covered, TakenOut, Books, LinesStand, CostOfLines, PostedFrom, Fulfils, ValueTotal, Portions, Posted;
      for k := 0 to |lines|
        invariant Valid()
        invariant issueLines == old(issueLines) + stored && Fulfils(stored, lines[..k], issue)
        invariant PostedFrom((old(items), old(movements)), (items, movements), Portions(stored), -1, ProjectIssue)
        invariant total == ValueTotal(stored) == CostOfLines(itemsBefore, lines[..k]) && total <= SQLITE_MAX_INTEGER
        invariant TakenOut(itemsBefore, linesBefore, issues, requirements, lines[..k], items, issueLines)
      {
        ghost var booksNow := (items, movements);
        var posted := PostNext(issue, lines, k, itemsBefore, linesBefore);
        if posted.Err? {
          return Err(posted.error), stored;
        }
        CostsGrow(itemsBefore, lines, k + 1);
        if total + posted.value > SQLITE_MAX_INTEGER {
          return Err(Invalid), stored;
        }
        total := total + posted.value;
        IssueStep((old(items), old(movements)), booksNow, stored, lines, k, issue, posted.value);
        stored := stored + [Stored(issue, lines[k], posted.value)];
      }
      assert lines[..|lines|] == lines;
      AllTakenOut(itemsBefore, linesBefore, issues, requirements, lines, items, issueLines);
      r := Ok(total);
    }

    /** create_project_issue: all lines or none. The result is the total cost. */
    method CreateIssue(issue: nat, lines: seq<RequestLine>) returns (r: Result<int>)
      requires Valid() && issue !in issues && lines != []
      requires forall k :: 0 <= k < |lines| ==> lines[k].quantity > 0
      modifies `items, `movements, `issueLines, `issues
      ensures Valid()
      ensures r.Err? ==> items == old(items) && movements == old(movements)
      ensures r.Err? ==> issueLines == old(issueLines) && issues == old(issues)
      ensures r.Ok? <==> Covered(old(items), old(issueLines), old(issues), requirements, lines)
                         && CostOfLines(old(items), lines) <= SQLITE_MAX_INTEGER
      ensures r.Err? && Covered(old(items), old(issueLines), old(issues), requirements, lines) ==> r == Err(Invalid)
      ensures r.Ok? ==> r.value == CostOfLines(old(items), lines)
      ensures r.Ok? ==> issues == old(issues)[issue := true]
      ensures r.Ok? ==> issueLines == old(issueLines) + LinesOf(issueLines, issue)
      ensures r.Ok? ==> Fulfils(LinesOf(issueLines, issue), lines, issue)
      ensures r.Ok? ==>
        PostedFrom((old(items), old(movements)), (items, movements), Portions(LinesOf(issueLines, issue)), -1, ProjectIssue)
      ensures r.Ok? ==> r.value == ValueTotal(LinesOf(issueLines, issue)) <= SQLITE_MAX_INTEGER
    {
      var itemsBefore, movementsBefore, linesBefore, issuesBefore := items, movements, issueLines, issues;
      NewIssueClaimsNothing(items, issueLines, issues, issue, requirements, lines);
      hide Covered, CostOfLines;
      issues := issues[issue := true];
      ghost var stored;
      r, stored := PostIssueLines(issue, lines);
      if r.Err? {
        items, movements, issueLines, issues := itemsBefore, movementsBefore, linesBefore, issuesBefore;
      } else {
        LinesOfAppend(linesBefore, stored, issue);
      }
    }

    /** _reverse_issue_inventory: every line comes back at the cost it was issued at. */
    method ReverseIssue(issue: nat) returns (r: Result<()>)
      requires Valid()
      modifies `items, `movements, `issues
      ensures Valid()
      ensures r.Err? ==> items == old(items) && movements == old(movements) && issues == old(issues)
      ensures r == Err(NotFound) <==> issue !in old(issues)
      ensures r == Err(AlreadyReversed) <==> issue in old(issues) && !old(issues)[issue]
      ensures r == Err(Overflow) <==>
        issue in old(issues) && old(issues)[issue] && !HasRoom(old(items), Portions(LinesOf(issueLines, issue)))
      ensures r.Err? ==> r.error in {NotFound, AlreadyReversed, Overflow}
      ensures r.Ok? ==>
        PostedFrom((old(items), old(movements)), (items, movements), Portions(LinesOf(issueLines, issue)), 1, Reversal)
      ensures r.Ok? ==> issues == old(issues)[issue := false]
    {
      if issue !in issues {
        return Err(NotFound);
      }
      if !issues[issue] {
        return Err(AlreadyReversed);
      }
      LinesAreStored(issueLines, issue);
      var lines := LinesOf(issueLines, issue);
      assert forall k :: 0 <= k < |lines| ==> lines[k] in issueLines;
      r := PutBack(Portions(lines));
      if r.Ok? {
        issues := issues[issue := false];
      }
    }

    /** The loop of _reverse_issue_inventory: puts portions back at the value they were taken out at. */
    method PutBack(portions: seq<Portion>) returns (r: Result<()>)
      requires Valid()
      requires forall k :: 0 <= k < |portions| ==> portions[k].item in items && portions[k].quantity > 0
      modifies `items, `movements
      ensures Valid()
      ensures r.Err? ==> items == old(items) && movements == old(movements)
      ensures r.Ok? <==> HasRoom(old(items), portions)
      ensures r.Err? ==> r.error == Overflow
      ensures r.Ok? ==> PostedFrom((old(items), old(movements)), (items, movements), portions, 1, Reversal)
    {
      hide Books, LinesStand, RoomFor, PostedAll, HasRoom, ShiftedBy, Posted;
      NothingPosted((items, movements), portions, 1, Reversal);
      var itemsBefore, movementsBefore := items, movements;
      for k := 0 to |portions|
        invariant Valid()
        invariant PostedFrom((itemsBefore, movementsBefore), (items, movements), portions[..k], 1, Reversal)
        invariant forall j :: 0 <= j < k ==> RoomFor(itemsBefore, portions[..j + 1], portions[j].item)
      {
        ItemsAreSound(items, movements);
        PostedAllShifts(itemsBefore, movementsBefore, portions[..k], 1, Reversal);
        NextHasRoom(itemsBefore, items, portions, k);
        var p := portions[k];
        var after := Moved(items[p.item], p.quantity, p.value);
        if after.quantity > SQLITE_MAX_INTEGER || after.value > SQLITE_MAX_INTEGER {
          NoRoom(itemsBefore, portions, k);
          items, movements := itemsBefore, movementsBefore;
          return Err(Overflow);
        }
        PostedAllStep(itemsBefore, movementsBefore, portions[..k], p, 1, Reversal);
        Post(p.item, p.quantity, p.value, Reversal);
        assert portions[..k + 1] == portions[..k] + [p];
      }
      assert portions[..|portions|] == portions;
      RoomForAll(itemsBefore, portions);
      r := Ok(());
    }

    /** _reverse_receipt_inventory: takes the lines of one receipt out again at their booked value. */
    method TakeBack(portions: seq<Portion>) returns (r: Result<()>)
      requires Valid() && forall k :: 0 <= k < |portions| ==> portions[k].item in items
      modifies `items, `movements
      ensures Valid()
      ensures r.Err? ==> items == old(items) && movements == old(movements)
      ensures r.Ok? <==> CanGiveBack(old(items), portions)
      ensures r.Err? ==> r.error == Insufficient
      ensures r.Ok? ==> PostedFrom((old(items), old(movements)), (items, movements), portions, -1, Reversal)
    {
      hide Books, LinesStand, SoundWithout, PostedAll, ShiftedBy, Posted;
      NothingPosted((items, movements), portions, -1, Reversal);
      var itemsBefore, movementsBefore := items, movements;
      for k := 0 to |portions|
        invariant Valid()
        invariant PostedFrom((itemsBefore, movementsBefore), (items, movements), portions[..k], -1, Reversal)
        invariant forall j :: 0 <= j < k ==> SoundWithout(itemsBefore, portions[..j + 1], portions[j].item)
      {
        PostedAllShifts(itemsBefore, movementsBefore, portions[..k], -1, Reversal);
        NextCanGiveBack(itemsBefore, items, portions, k);
        var p := portions[k];
        var after := Moved(items[p.item], -1 * p.quantity, -1 * p.value);
        if after.quantity < 0 || after.value < 0 || (after.quantity == 0 && after.value != 0) {
          items, movements := itemsBefore, movementsBefore;
          return Err(Insufficient);
        }
        PostedAllStep(itemsBefore, movementsBefore, portions[..k], p, -1, Reversal);
        Post(p.item, -1 * p.quantity, -1 * p.value, Reversal);
        assert portions[..k + 1] == portions[..k] + [p];
      }
      assert portions[..|portions|] == portions;
      r := Ok(());
    }

    /** Any request; one that the checks in front of the ledger turn away changes nothing. */
    method Perform(op: Operation)
      requires Valid()
      modifies `items, `movements, `adjustments, `issues, `issueLines
      ensures Valid() && Onward(old(issues), old(issueLines), issues, issueLines)
      ensures BooksGrow((old(items), old(movements)), (items, movements))
    {
      hide Books, LinesStand, PostedAll, ReversalRefused, AdjustmentRefused, Covered, CostOfLines, HasRoom, CanGiveBack, Fulfils;
      match op {
        case NewItem(i, quantity, unitCost) =>
          if i !in items {
            CreateItem(i, quantity, unitCost);
          }
        case Adjust(id, i, delta, unitCost) =>
          if id !in adjustments && delta != 0 {
            var adjusted := CreateAdjustment(id, i, delta, unitCost);
          }
        case UndoAdjustment(id, expectedRevision) =>
          var undone := ReverseAdjustment(id, expectedRevision);
        case TakeIn(portion) =>
          if portion.item in items && portion.quantity > 0 {
            var taken := PostReceiptMovement(portion.item, portion.quantity, portion.value);
          }
        case ReturnBatches(portions) =>
          if forall k :: 0 <= k < |portions| ==> portions[k].item in items {
            var returned := TakeBack(portions);
            PostedAllAppends(old(items), old(movements), portions, -1, Reversal);
          }
        case Issue(issue, lines) =>
          if issue !in issues && lines != [] && (forall k :: 0 <= k < |lines| ==> lines[k].quantity > 0) {
            var issued := CreateIssue(issue, lines);
            LinesAreStored(issueLines, issue);
            if issued.Ok? {
              PostedAllAppends(old(items), old(movements), Portions(LinesOf(issueLines, issue)), -1, ProjectIssue);
            }
          }
        case UndoIssue(issue) =>
          var undone := ReverseIssue(issue);
          if undone.Ok? {
            PostedAllAppends(old(items), old(movements), Portions(LinesOf(issueLines, issue)), 1, Reversal);
          }
      }
    }

    method PerformAll(ops: seq<Operation>)
      requires Valid()
      modifies `items, `movements, `adjustments, `issues, `issueLines
      ensures Valid() && Onward(old(issues), old(issueLines), issues, issueLines)
      ensures BooksGrow((old(items), old(movements)), (items, movements))
      ensures ops == [] ==> items == old(items) && movements == old(movements) && issues == old(issues) && issueLines == old(issueLines)
    {
      hide Books, LinesStand;
      for k := 0 to |ops|
        invariant Valid() && Onward(old(issues), old(issueLines), issues, issueLines)
        invariant BooksGrow((old(items), old(movements)), (items, movements))
        invariant k == 0 ==> items == old(items) && movements == old(movements) && issues == old(issues) && issueLines == old(issueLines)
      {
        Perform(ops[k]);
      }
    }

    /**
      An issue, any number of other requests, and the reversal of the issue. `issued` and `later`
      are the books behind the issue and in front of the reversal: the issue posts its stored lines
      out, the requests in between only add to the books, and the reversal posts the very same
      lines in again. So every item gets back exactly the quantity and the value the issue took.
    */
    method IssueAndReverse(issue: nat, lines: seq<RequestLine>, between: seq<Operation>)
      returns (r: Result<int>, undone: Result<()>,
        ghost issued: (map<nat, Item>, seq<Movement>), ghost later: (map<nat, Item>, seq<Movement>))
      requires Valid() && issue !in issues && lines != []
      requires forall k :: 0 <= k < |lines| ==> lines[k].quantity > 0
      modifies `items, `movements, `adjustments, `issues, `issueLines
      ensures Valid()
      ensures r.Err? ==> items == old(items) && movements == old(movements) && issueLines == old(issueLines) && undone.Err?
      ensures r.Ok? ==> Fulfils(LinesOf(issueLines, issue), lines, issue) && r.value == ValueTotal(LinesOf(issueLines, issue))
      ensures r.Ok? ==>
        PostedFrom((old(items), old(movements)), issued, Portions(LinesOf(issueLines, issue)), -1, ProjectIssue)
      ensures r.Ok? ==> BooksGrow(issued, later) && (between == [] ==> later == issued)
      ensures r.Ok? ==>
        Onward(old(issues)[issue := true], old(issueLines) + LinesOf(issueLines, issue), issues, issueLines)
      ensures r.Ok? && undone.Err? ==> (items, movements) == later
      ensures undone.Ok? ==> PostedFrom(later, (items, movements), Portions(LinesOf(issueLines, issue)), 1, Reversal)
      ensures undone.Ok? ==> issue in issues && !issues[issue] && GivenBack(old(items), issued.0, later.0, items)
      ensures undone.Ok? && between == [] ==> items == old(items)
      ensures r.Ok? && between == [] && (forall i :: i in old(items) ==> Storable(old(items)[i])) ==> undone.Ok?
    {
      hide Books, LinesStand, Fulfils, Covered, CostOfLines, HasRoom, PostedAll;
      r := CreateIssue(issue, lines);
      issued, later, undone := (items, movements), (items, movements), Err(NotFound);
      if r.Err? {
        return;
      }
      ghost var linesThen := issueLines;
      PerformAll(between);
      later := (items, movements);
      if between == [] && forall i :: i in old(items) ==> Storable(old(items)[i]) {
        WhatWentOutFits(old(items), issued.0, old(movements), issued.1, Portions(LinesOf(linesThen, issue)));
      }
      LinesOfLater(linesThen, issueLines[|linesThen|..], issue);
      assert issueLines == linesThen + issueLines[|linesThen|..];
      undone := ReverseIssue(issue);
      if undone.Ok? {
        IssueAndReversalCancel((old(items), old(movements)), issued, later, (items, movements), LinesOf(linesThen, issue));
      }
    }
  }

  lemma WhatWentOutFits(before: map<nat, Item>, after: map<nat, Item>, ms: seq<Movement>, later: seq<Movement>, portions: seq<Portion>)
    requires PostedFrom((before, ms), (after, later), portions, -1, ProjectIssue)
    requires forall i :: i in before ==> Storable(before[i])
    ensures HasRoom(after, portions)
  {
    PostedAllShifts(before, ms, portions, -1, ProjectIssue);
    hide PostedAll;
  }

  /** What the first change took from each item the second one gave back. */
  predicate GivenBack(before: map<nat, Item>, after: map<nat, Item>, later: map<nat, Item>, last: map<nat, Item>) {
    forall i :: i in before ==>
      && i in after && i in later && i in last
      && last[i].quantity - later[i].quantity == before[i].quantity - after[i].quantity
      && last[i].value - later[i].value == before[i].value - after[i].value
  }

  /** Every stored issue line belongs to an issue and to an item, with a real quantity. */
  ghost predicate LinesStand(lines: seq<IssueLine>, issues: map<nat, bool>, items: map<nat, Item>) {
    forall k :: 0 <= k < |lines| ==>
      lines[k].issue in issues && lines[k].portion.item in items && lines[k].portion.quantity > 0
  }

  function Stored(issue: nat, line: RequestLine, cost: nat): (r: IssueLine) {
    IssueLine(issue, line.procurementLine, Portion(line.item, line.quantity, cost))
  }

  /** When a line can be issued: enough stock and, for a procurement line, enough of its requirement left. */
  predicate Issuable(
    items: map<nat, Item>, lines: seq<IssueLine>, issues: map<nat, bool>, requirements: map<nat, Requirement>, line: RequestLine)
  {
    && line.item in items && Sound(items[line.item]) && 0 < line.quantity <= items[line.item].quantity
    && (line.procurementLine.Some? ==>
          var p := line.procurementLine.value;
          && p in requirements
          && requirements[p].item == line.item
          && Used(lines, issues, p) + line.quantity <= requirements[p].quantity)
  }

  /** The stored lines are the requested ones, in order, each with a cost. */
  ghost predicate Fulfils(stored: seq<IssueLine>, lines: seq<RequestLine>, issue: nat) {
    && |stored| == |lines|
    && (forall k :: 0 <= k < |lines| ==> stored[k] == Stored(issue, lines[k], stored[k].portion.value))
  }

  lemma IssueStep(before: (map<nat, Item>, seq<Movement>), now: (map<nat, Item>, seq<Movement>), stored: seq<IssueLine>,
      lines: seq<RequestLine>, k: nat, issue: nat, cost: nat)
    requires k < |lines| && lines[k].item in now.0
    requires PostedFrom(before, now, Portions(stored), -1, ProjectIssue) && Fulfils(stored, lines[..k], issue)
    ensures PostedFrom(before, Posted(now.0, now.1, lines[k].item, -1 * lines[k].quantity, -1 * cost, ProjectIssue),
                       Portions(stored + [Stored(issue, lines[k], cost)]), -1, ProjectIssue)
    ensures Fulfils(stored + [Stored(issue, lines[k], cost)], lines[..k + 1], issue)
    ensures ValueTotal(stored + [Stored(issue, lines[k], cost)]) == ValueTotal(stored) + cost
  {
    var line := Stored(issue, lines[k], cost);
    PostedAllStep(before.0, before.1, Portions(stored), line.portion, -1, ProjectIssue);
    assert Portions(stored + [line]) == Portions(stored) + [line.portion];
    assert (stored + [line])[..|stored|] == stored;
  }

  lemma {:induction false} LinesAreStored(lines: seq<IssueLine>, issue: nat)
    ensures forall l :: l in LinesOf(lines, issue) ==> l in lines && l.issue == issue
  {
    if lines != [] {
      LinesAreStored(lines[..|lines| - 1], issue);
    }
  }

  /** An issue and its later reversal cancel on every item, whatever happened in between. */
  lemma IssueAndReversalCancel(
      before: (map<nat, Item>, seq<Movement>), issued: (map<nat, Item>, seq<Movement>),
      later: (map<nat, Item>, seq<Movement>), reversed: (map<nat, Item>, seq<Movement>), lines: seq<IssueLine>)
    requires PostedFrom(before, issued, Portions(lines), -1, ProjectIssue)
    requires PostedFrom(later, reversed, Portions(lines), 1, Reversal)
    ensures forall i :: i in before.0 && i in later.0 ==>
      && reversed.0[i].quantity - later.0[i].quantity == before.0[i].quantity - issued.0[i].quantity
      && reversed.0[i].value - later.0[i].value == before.0[i].value - issued.0[i].value
    ensures before.0.Keys <= later.0.Keys ==> GivenBack(before.0, issued.0, later.0, reversed.0)
    ensures issued.0 == later.0 ==> reversed.0 == before.0
  {
    PostedAllShifts(before.0, before.1, Portions(lines), -1, ProjectIssue);
    PostedAllShifts(later.0, later.1, Portions(lines), 1, Reversal);
    hide PostedAll;
    if issued.0 == later.0 {
      forall j | j in before.0 ensures reversed.0[j] == before.0[j] {
        assert issued.0[j] == Moved(before.0[j], -1 * PortionQuantity(Portions(lines), j), -1 * PortionValue(Portions(lines), j));
      }
    }
  }
}
