/**
  What the receipts of a purchase order are worth: backend/app/features/purchase_order_tax.py,
  the goods receipts of backend/app/features/procurement.py and their reversal in
  backend/app/features/procurement_extensions.py.

  An order line priced with tax is worth a fixed gross amount. Its batches arrive and are reversed
  in any order, each valued on its own when it arrives; `Consistent` is what keeps their sum right.
*/
module ReceiptValuation {
  import opened Rounding

  type Positive = x: int | 0 < x witness 1

  datatype Option<T> = None | Some(value: T)

  datatype Error =
    | NotFound | Invalid | QuantityExceeded | NotReceivable | AlreadyReversed | StockRefused
    | ValueExceedsOrder | BalanceInvalid

  datatype Result<T> = Ok(value: T) | Err(error: Error)

  // Line amounts.

  datatype Amounts = Amounts(net: int, tax: int, gross: int)

  /** `r` is the nearest integer to numerator / denominator; a tie goes up. */
  predicate NearestUp(r: int, numerator: int, denominator: int) {
    -denominator < 2 * (r * denominator - numerator) <= denominator
  }

  /** There is only one. */
  lemma NearestUpIsUnique(r: nat, s: nat, numerator: nat, denominator: nat)
    requires denominator > 0 && NearestUp(r, numerator, denominator) && NearestUp(s, numerator, denominator)
    ensures r == s
  {
    if r < s {
      MulLe(r + 1, s, denominator);
    } else if s < r {
      MulLe(s + 1, r, denominator);
    }
  }

  function GrossLineValue(unitCost: nat, quantity: nat, tax: nat, grossUnit: Option<nat>): (r: Result<nat>)
  {
    var gross :=
      if grossUnit.Some? then LineValue(grossUnit.value, quantity) else LineValue(unitCost, quantity) + tax;
    if gross <= SQLITE_MAX_INTEGER then Ok(gross) else Err(Invalid)
  }

  function Rate(taxRate: Option<nat>): (r: nat) {
    if taxRate.Some? then taxRate.value else 0
  }

  function CalculateLineAmounts(unitCost: nat, quantity: nat, taxRate: Option<nat>, grossUnit: Option<nat>)
    : (r: Result<Amounts>)
  {
    if Rate(taxRate) > 10000 then Err(Invalid)
    else if grossUnit.Some? then
      var divisor := 10000 + Rate(taxRate);
      if grossUnit.value > SQLITE_MAX_INTEGER || unitCost != RoundRatio(grossUnit.value * 10000, divisor) then
        Err(Invalid)
      else
        var gross := LineValue(grossUnit.value, quantity);
        var net := RoundRatio(gross * 10000, divisor);
        Ok(Amounts(net, gross - net, gross))
    else
      var net := LineValue(unitCost, quantity);
      var tax := (net * Rate(taxRate) + 5000) / 10000;
      var gross := GrossLineValue(unitCost, quantity, tax, None);
      if gross.Err? then Err(gross.error) else Ok(Amounts(net, tax, gross.value))
  }

  /** `r` is a nearest integer to numerator / denominator. */
  predicate Nearest(r: int, numerator: int, denominator: int) {
    -denominator <= 2 * (r * denominator - numerator) <= denominator
  }

  /** Why the price of a line is refused: the rate, a unit cost that is not the quoted one without tax, or the size. */
  predicate PriceRefused(unitCost: nat, quantity: nat, taxRate: Option<nat>, grossUnit: Option<nat>) {
    || (taxRate.Some? && taxRate.value > 10000)
    || match grossUnit
       case Some(quoted) =>
         quoted > 0x7FFF_FFFF_FFFF_FFFF || !NearestUp(unitCost, quoted * 10000, 10000 + Rate(taxRate))
       case None =>
         var net := LineValue(unitCost, quantity);
         net + (net * Rate(taxRate) + 5000) / 10000 > 0x7FFF_FFFF_FFFF_FFFF
  }

  /** A price is refused for these reasons only, and the amount it is quoted in is the quantity's share to the nearest cent. */
  lemma PriceRefusedExactlyWhen(unitCost: nat, quantity: nat, taxRate: Option<nat>, grossUnit: Option<nat>)
    ensures var r := CalculateLineAmounts(unitCost, quantity, taxRate, grossUnit);
      && (r == Err(Invalid) <==> PriceRefused(unitCost, quantity, taxRate, grossUnit))
      && (r.Ok? <==> r != Err(Invalid))
      && (r.Ok? && grossUnit.Some? ==> NearestUp(r.value.gross, grossUnit.value * quantity, 1000))
      && (r.Ok? && grossUnit.None? ==> NearestUp(r.value.net, unitCost * quantity, 1000))
      && (r.Ok? && taxRate.None? ==> r.value.tax == 0)
  {
    if grossUnit.Some? && Rate(taxRate) <= 10000 {
      var numerator, divisor := grossUnit.value * 10000, 10000 + Rate(taxRate);
      if NearestUp(unitCost, numerator, divisor) {
        NearestUpIsUnique(unitCost, RoundRatio(numerator, divisor), numerator, divisor);
      }
      if taxRate.None? {
        var gross := LineValue(grossUnit.value, quantity);
        NearestUpIsUnique(gross, RoundRatio(gross * 10000, 10000), gross * 10000, 10000);
      }
    }
  }

  lemma TaxIsNearest(net: nat, rate: nat)
    ensures Nearest((net * rate + 5000) / 10000, net * rate, 10000)
  {
    Euclid(net * rate + 5000, 10000);
  }

  lemma NetWithinGross(gross: nat, rate: nat)
    ensures RoundRatio(gross * 10000, 10000 + rate) <= gross
  {
    var net := RoundRatio(gross * 10000, 10000 + rate);
    assert gross * (10000 + rate) == gross * 10000 + gross * rate;
    assert (gross + 1) * (10000 + rate) == gross * (10000 + rate) + 10000 + rate;
    assert gross * rate >= 0;
    if net > gross {
      MulLe(gross + 1, net, 10000 + rate);
    }
  }

  /**
    Accepted amounts always add up, tax is never negative, and the gross is the very amount that
    later receipts are valued against, whichever way the line was priced. Whichever of net and tax
    was derived is the nearest cent to its exact value.
  */
  lemma AmountsAddUp(unitCost: nat, quantity: nat, taxRate: Option<nat>, grossUnit: Option<nat>)
    ensures var r := CalculateLineAmounts(unitCost, quantity, taxRate, grossUnit);
      r.Ok? ==>
        var a := r.value;
        && a.net + a.tax == a.gross && a.net >= 0 && a.tax >= 0
        && (a.gross <= SQLITE_MAX_INTEGER ==> GrossLineValue(unitCost, quantity, a.tax, grossUnit) == Ok(a.gross))
        && (grossUnit.Some? ==> Nearest(a.net, a.gross * 10000, 10000 + Rate(taxRate)))
        && (grossUnit.None? ==> Nearest(a.tax, a.net * Rate(taxRate), 10000))
  {
    if grossUnit.Some? {
      NetWithinGross(LineValue(grossUnit.value, quantity), Rate(taxRate));
    } else {
      TaxIsNearest(LineValue(unitCost, quantity), Rate(taxRate));
    }
  }

  // Orders, receipts and their batches.

  datatype OrderLine = OrderLine(
    quantity: Positive, received: int, unitCost: nat, taxAmount: nat, grossUnit: Option<nat>)

  /** A goods receipt line: part of one receipt, for one order line. */
  datatype Batch = Batch(receipt: nat, line: nat, quantity: Positive, value: nat)

  datatype InputLine = InputLine(line: nat, quantity: Positive)

  datatype Order = Order(taxed: bool, lines: seq<OrderLine>, batches: seq<Batch>, active: set<nat>)

  /** The line is worth a fixed gross amount; other lines keep the rounding of each batch. */
  predicate FixedGross(o: Order, i: nat)
    requires i < |o.lines|
  {
    o.taxed || o.lines[i].grossUnit.Some?
  }

  function Gross(line: OrderLine): (r: Result<nat>) {
    GrossLineValue(line.unitCost, line.quantity, line.taxAmount, line.grossUnit)
  }

  function ActiveQuantity(batches: seq<Batch>, active: set<nat>, i: nat): (r: nat)
  {
    if batches == [] then 0
    else
      var last := batches[|batches| - 1];
      ActiveQuantity(batches[..|batches| - 1], active, i)
        + if last.line == i && last.receipt in active then last.quantity else 0
  }

  function ActiveValue(batches: seq<Batch>, active: set<nat>, i: nat): (r: nat)
  {
    if batches == [] then 0
    else
      var last := batches[|batches| - 1];
      ActiveValue(batches[..|batches| - 1], active, i)
        + if last.line == i && last.receipt in active then last.value else 0
  }

  /**
    _receipt_line_value. The batch that completes a line gets what is left of the gross; any other
    gets its nearest proportional share, but never more than what is left.
  */
  function ReceiptLineValue(o: Order, i: nat, quantity: Positive): (r: Result<nat>)
    requires i < |o.lines|
  {
    var line := o.lines[i];
    if !FixedGross(o, i) then Ok(LineValue(line.unitCost, quantity))
    else if Gross(line).Err? then Err(Gross(line).error)
    else
      var gross := Gross(line).value;
      var remaining := gross - ActiveValue(o.batches, o.active, i);
      if remaining < 0 then Err(ValueExceedsOrder)
      else if quantity == line.quantity - line.received then Ok(remaining)
      else
        var share := RoundRatio(gross * quantity, line.quantity);
        Ok(if share < remaining then share else remaining)
  }

  /** Receiving one line of a receipt. */
  function ReceiveLine(o: Order, receipt: nat, input: InputLine): (r: Result<Order>)
  {
    if input.line >= |o.lines| then Err(Invalid)
    else
      var line := o.lines[input.line];
      if line.received + input.quantity > line.quantity then Err(QuantityExceeded)
      else
        var value := ReceiptLineValue(o, input.line, input.quantity);
        if value.Err? then Err(value.error)
        else
          Ok(o.(
             lines := o.lines[input.line := line.(received := line.received + input.quantity)],
             batches := o.batches + [Batch(receipt, input.line, input.quantity, value.value)]))
  }

  /** What always holds of a purchase order that takes receipts. */
  ghost predicate Consistent(o: Order) {
    && (forall i :: 0 <= i < |o.lines| ==> Gross(o.lines[i]).Ok?)
    && (forall k :: 0 <= k < |o.batches| ==> o.batches[k].line < |o.lines|)
    && (forall i :: 0 <= i < |o.lines| ==> LineHolds(o, i))
  }

  ghost predicate LineHolds(o: Order, i: nat)
    requires i < |o.lines| && Gross(o.lines[i]).Ok?
  {
    var line := o.lines[i];
    var value := ActiveValue(o.batches, o.active, i);
    && line.received == ActiveQuantity(o.batches, o.active, i) && line.received <= line.quantity
    && (FixedGross(o, i) ==> value <= Gross(line).value)
    && (FixedGross(o, i) && line.received == line.quantity ==> value == Gross(line).value)
  }

  lemma ActiveAfterAppend(batches: seq<Batch>, active: set<nat>, b: Batch, i: nat)
    ensures ActiveQuantity(batches + [b], active, i)
         == ActiveQuantity(batches, active, i) + if b.line == i && b.receipt in active then b.quantity else 0
    ensures ActiveValue(batches + [b], active, i)
         == ActiveValue(batches, active, i) + if b.line == i && b.receipt in active then b.value else 0
  {
    assert (batches + [b])[..|batches|] == batches;
  }

  /** A batch is worth something between nothing and what is left; it closes the line exactly. */
  lemma BatchWithinRemainder(o: Order, i: nat, quantity: Positive)
    requires Consistent(o) && i < |o.lines| && FixedGross(o, i)
    requires quantity <= o.lines[i].quantity - o.lines[i].received
    ensures var value := ReceiptLineValue(o, i, quantity);
      var left := Gross(o.lines[i]).value - ActiveValue(o.batches, o.active, i);
      && value.Ok? && 0 <= value.value <= left
      && (quantity == o.lines[i].quantity - o.lines[i].received ==> value.value == left)
      && (quantity < o.lines[i].quantity - o.lines[i].received && value.value < left ==>
            Nearest(value.value, Gross(o.lines[i]).value * quantity, o.lines[i].quantity))
  {
    assert LineHolds(o, i);
  }

  lemma ReceiveLineKeeps(o: Order, receipt: nat, input: InputLine)
    requires Consistent(o) && receipt in o.active
    requires ReceiveLine(o, receipt, input).Ok?
    ensures Consistent(ReceiveLine(o, receipt, input).value)
  {
    var next := ReceiveLine(o, receipt, input).value;
    var i := input.line;
    var b := next.batches[|o.batches|];
    forall j | 0 <= j < |o.lines| ensures Gross(next.lines[j]).Ok? && LineHolds(next, j) {
      ActiveAfterAppend(o.batches, o.active, b, j);
      assert LineHolds(o, j);
      if j == i && FixedGross(o, i) {
        BatchWithinRemainder(o, i, input.quantity);
      }
    }
  }

  /** With the books in order, a line is refused only for naming nothing or asking too much. */
  lemma ReceiveLineRefusals(o: Order, receipt: nat, input: InputLine)
    requires Consistent(o)
    ensures var r := ReceiveLine(o, receipt, input);
      && (r == Err(Invalid) <==> input.line >= |o.lines|)
      && (r == Err(QuantityExceeded) <==>
            input.line < |o.lines| && o.lines[input.line].received + input.quantity > o.lines[input.line].quantity)
      && (r.Err? ==> r.error == Invalid || r.error == QuantityExceeded)
  {
    if input.line < |o.lines| && FixedGross(o, input.line)
       && o.lines[input.line].received + input.quantity <= o.lines[input.line].quantity {
      BatchWithinRemainder(o, input.line, input.quantity);
    }
  }

  // Whole receipts.

  function ReceiveLines(o: Order, receipt: nat, input: seq<InputLine>): (r: Result<Order>)
    decreases |input|
  {
    if input == [] then Ok(o)
    else
      var before := ReceiveLines(o, receipt, input[..|input| - 1]);
      if before.Err? then before else ReceiveLine(before.value, receipt, input[|input| - 1])
  }

  /** create_goods_receipt: the receipt is active from the start, and all its lines arrive or none. */
  function CreateReceipt(o: Order, receipt: nat, input: seq<InputLine>): (r: Result<Order>)
  {
    ReceiveLines(o.(active := o.active + {receipt}), receipt, input)
  }

  predicate NewReceipt(o: Order, receipt: nat) {
    receipt !in o.active && forall k :: 0 <= k < |o.batches| ==> o.batches[k].receipt != receipt
  }

  lemma {:induction false} ReceiveLinesKeeps(o: Order, receipt: nat, input: seq<InputLine>)
    requires Consistent(o) && receipt in o.active && ReceiveLines(o, receipt, input).Ok?
    ensures Consistent(ReceiveLines(o, receipt, input).value)
    ensures ReceiveLines(o, receipt, input).value.active == o.active
    decreases |input|
  {
    if input != [] {
      ReceiveLinesKeeps(o, receipt, input[..|input| - 1]);
      ReceiveLineKeeps(ReceiveLines(o, receipt, input[..|input| - 1]).value, receipt, input[|input| - 1]);
    }
  }

  lemma {:induction false} ActiveWithNewReceipt(batches: seq<Batch>, active: set<nat>, receipt: nat, i: nat)
    requires forall k :: 0 <= k < |batches| ==> batches[k].receipt != receipt
    ensures ActiveQuantity(batches, active + {receipt}, i) == ActiveQuantity(batches, active, i)
    ensures ActiveValue(batches, active + {receipt}, i) == ActiveValue(batches, active, i)
  {
    if batches != [] {
      ActiveWithNewReceipt(batches[..|batches| - 1], active, receipt, i);
    }
  }

  lemma CreateReceiptKeeps(o: Order, receipt: nat, input: seq<InputLine>)
    requires Consistent(o) && NewReceipt(o, receipt) && CreateReceipt(o, receipt, input).Ok?
    ensures Consistent(CreateReceipt(o, receipt, input).value)
  {
    var begun := o.(active := o.active + {receipt});
    BegunIsConsistent(o, receipt);
    ReceiveLinesKeeps(begun, receipt, input);
  }

  /** What a receipt asks for line `i`, all in all. */
  function Requested(input: seq<InputLine>, i: nat): (r: nat)
  {
    if input == [] then 0
    else
      var last := input[|input| - 1];
      Requested(input[..|input| - 1], i) + if last.line == i then last.quantity else 0
  }

  lemma {:induction false} RequestedAdds(a: seq<InputLine>, b: seq<InputLine>, i: nat)
    ensures Requested(a + b, i) == Requested(a, i) + Requested(b, i)
    ensures forall line: nat, quantity: Positive ::
      Requested([InputLine(line, quantity)], i) == if line == i then quantity else 0
  {
    if b == [] {
      assert a + b == a;
    } else {
      assert (a + b)[..|a + b| - 1] == a + b[..|b| - 1];
      RequestedAdds(a, b[..|b| - 1], i);
    }
  }

  /** The receipt names lines of the order only, and no line is asked for more than is outstanding. */
  predicate Fits(lines: seq<OrderLine>, input: seq<InputLine>) {
    && (forall k :: 0 <= k < |input| ==> input[k].line < |lines|)
    && (forall i :: 0 <= i < |lines| ==> lines[i].received + Requested(input, i) <= lines[i].quantity)
  }

  /** The receipt fits up to line `k`, and that line is refused. */
  predicate RefusedAt(lines: seq<OrderLine>, input: seq<InputLine>, k: int, e: Error) {
    && 0 <= k < |input| && Fits(lines, input[..k])
    && if input[k].line >= |lines| then
         e == Invalid
       else
         var i := input[k].line;
         lines[i].received + Requested(input[..k], i) + input[k].quantity > lines[i].quantity && e == QuantityExceeded
  }

  /** Every line of the receipt has become a batch, and counts on its order line. */
  ghost predicate Arrived(o: Order, next: Order, receipt: nat, input: seq<InputLine>)
  {
    && next == o.(lines := next.lines, batches := next.batches) && |next.lines| == |o.lines|
    && (forall i :: 0 <= i < |o.lines| ==> next.lines[i] == o.lines[i].(received := o.lines[i].received + Requested(input, i)))
    && o.batches <= next.batches && |next.batches| == |o.batches| + |input|
    && forall k :: 0 <= k < |input| ==> BatchOf(o, next.batches[|o.batches| + k], receipt, input[k])
  }

  /** On a line without a fixed gross a batch is worth its own share of the unit cost, to the nearest cent. */
  ghost predicate BatchOf(o: Order, b: Batch, receipt: nat, input: InputLine) {
    && b.receipt == receipt && b.line == input.line && b.quantity == input.quantity
    && (input.line < |o.lines| && !FixedGross(o, input.line) ==>
          -500 < 1000 * b.value - o.lines[input.line].unitCost * input.quantity <= 500)
  }

  lemma FitsLast(lines: seq<OrderLine>, input: seq<InputLine>)
    requires input != []
    ensures var front, last := input[..|input| - 1], input[|input| - 1];
      Fits(lines, input) <==>
        && Fits(lines, front) && last.line < |lines|
        && lines[last.line].received + Requested(front, last.line) + last.quantity <= lines[last.line].quantity
  {
    var front := input[..|input| - 1];
    assert input == front + [input[|input| - 1]];
    if Fits(lines, input) {
      forall i | 0 <= i < |lines| ensures lines[i].received + Requested(front, i) <= lines[i].quantity {
        assert lines[i].received + Requested(input, i) <= lines[i].quantity;
      }
    }
  }

  lemma {:induction false} FitsPrefix(lines: seq<OrderLine>, input: seq<InputLine>, n: nat)
    requires n <= |input| && Fits(lines, input)
    ensures Fits(lines, input[..n])
    decreases |input|
  {
    if n == |input| {
      assert input[..n] == input;
    } else {
      FitsLast(lines, input);
      FitsPrefix(lines, input[..|input| - 1], n);
      assert input[..|input| - 1][..n] == input[..n];
    }
  }

  /** There is one first refusal, and from then on nothing fits. */
  lemma RefusedOnce(lines: seq<OrderLine>, input: seq<InputLine>, k: nat, e: Error, n: nat)
    requires RefusedAt(lines, input, k, e) && k < n <= |input|
    ensures !Fits(lines, input[..n])
  {
    assert input[..n][..k + 1] == input[..k + 1] && input[..k + 1][..k] == input[..k];
    FitsLast(lines, input[..k + 1]);
    if Fits(lines, input[..n]) {
      FitsPrefix(lines, input[..n], k + 1);
    }
  }

  lemma ReceiveLineArrives(o: Order, next: Order, end: Order, receipt: nat, input: seq<InputLine>)
    requires input != [] && Arrived(o, next, receipt, input[..|input| - 1])
    requires ReceiveLine(next, receipt, input[|input| - 1]) == Ok(end)
    ensures Arrived(o, end, receipt, input)
  {
    var front, last := input[..|input| - 1], input[|input| - 1];
    assert FixedGross(next, last.line) == FixedGross(o, last.line);
    forall k | 0 <= k < |input| ensures BatchOf(o, end.batches[|o.batches| + k], receipt, input[k]) {
      if k < |front| {
        assert BatchOf(o, next.batches[|o.batches| + k], receipt, front[k]);
      }
    }
  }

  /** A receipt is accepted exactly when it fits, and then every line of it arrives. */
  lemma {:induction false} AcceptedExactlyWhenItFits(o: Order, receipt: nat, input: seq<InputLine>)
    requires Consistent(o) && receipt in o.active
    ensures ReceiveLines(o, receipt, input).Ok? <==> Fits(o.lines, input)
    ensures ReceiveLines(o, receipt, input).Ok? ==> Arrived(o, ReceiveLines(o, receipt, input).value, receipt, input)
    decreases |input|
  {
    if input == [] {
      forall i | 0 <= i < |o.lines| ensures o.lines[i].received <= o.lines[i].quantity {
        assert LineHolds(o, i);
      }
    } else {
      hide Consistent, Fits, ReceiveLine, Arrived;
      var front, last := input[..|input| - 1], input[|input| - 1];
      AcceptedExactlyWhenItFits(o, receipt, front);
      FitsLast(o.lines, input);
      var before := ReceiveLines(o, receipt, front);
      if before.Ok? {
        ReceiveLinesKeeps(o, receipt, front);
        LastLineAccepted(o, before.value, receipt, input);
        if ReceiveLine(before.value, receipt, last).Ok? {
          ReceiveLineArrives(o, before.value, ReceiveLine(before.value, receipt, last).value, receipt, input);
        }
      }
    }
  }

  lemma LastLineAccepted(o: Order, next: Order, receipt: nat, input: seq<InputLine>)
    requires Consistent(next) && input != [] && Arrived(o, next, receipt, input[..|input| - 1])
    ensures var front, last := input[..|input| - 1], input[|input| - 1];
      var r := ReceiveLine(next, receipt, last);
      && (r == Err(Invalid) <==> last.line >= |o.lines|)
      && (r == Err(QuantityExceeded) <==>
            && last.line < |o.lines|
            && o.lines[last.line].received + Requested(front, last.line) + last.quantity > o.lines[last.line].quantity)
      && (r.Err? ==> r.error == Invalid || r.error == QuantityExceeded)
  {
    ReceiveLineRefusals(next, receipt, input[|input| - 1]);
  }

  /** A refused receipt is refused for its first line that does not fit. */
  lemma {:induction false} RefusedForItsFirstMisfit(o: Order, receipt: nat, input: seq<InputLine>)
    returns (k: nat)
    requires Consistent(o) && receipt in o.active && ReceiveLines(o, receipt, input).Err?
    ensures RefusedAt(o.lines, input, k, ReceiveLines(o, receipt, input).error)
    decreases |input|
  {
    hide Consistent, Fits, ReceiveLine, Arrived;
    var front := input[..|input| - 1];
    AcceptedExactlyWhenItFits(o, receipt, front);
    var before := ReceiveLines(o, receipt, front);
    if before.Err? {
      k := RefusedForItsFirstMisfit(o, receipt, front);
      assert front[..k] == input[..k];
    } else {
      k := |front|;
      ReceiveLinesKeeps(o, receipt, front);
      LastLineAccepted(o, before.value, receipt, input);
    }
  }

  // Reversal.

  /** The lines after the first `n` batches have been gone through, those of `receipt` given back. */
  function GiveBack(lines: seq<OrderLine>, batches: seq<Batch>, receipt: nat): (r: seq<OrderLine>)
    requires forall k :: 0 <= k < |batches| ==> batches[k].line < |lines|
    ensures |r| == |lines|
  {
    if batches == [] then lines
    else
      var last := batches[|batches| - 1];
      var before := GiveBack(lines, batches[..|batches| - 1], receipt);
      if last.receipt != receipt then before
      else before[last.line := before[last.line].(received := before[last.line].received - last.quantity)]
  }

  function Reverse(o: Order, receipt: nat): (r: Order)
    requires forall k :: 0 <= k < |o.batches| ==> o.batches[k].line < |o.lines|
  {
    o.(lines := GiveBack(o.lines, o.batches, receipt), active := o.active - {receipt})
  }

  /** What one batch list gives back to line `i`. */
  lemma {:induction false} GiveBackIsActiveDifference(
      lines: seq<OrderLine>, batches: seq<Batch>, active: set<nat>, receipt: nat, i: nat)
    requires forall k :: 0 <= k < |batches| ==> batches[k].line < |lines|
    requires i < |lines| && receipt in active
    ensures var back := ActiveQuantity(batches, active, i) - ActiveQuantity(batches, active - {receipt}, i);
      && back >= 0
      && GiveBack(lines, batches, receipt)[i] == lines[i].(received := lines[i].received - back)
      && ActiveValue(batches, active - {receipt}, i) <= ActiveValue(batches, active, i)
      && (back == 0 ==> ActiveValue(batches, active - {receipt}, i) == ActiveValue(batches, active, i))
  {
    if batches != [] {
      GiveBackIsActiveDifference(lines, batches[..|batches| - 1], active, receipt, i);
    }
  }

  lemma ReverseKeeps(o: Order, receipt: nat)
    requires Consistent(o) && receipt in o.active
    ensures Consistent(Reverse(o, receipt))
  {
    var next := Reverse(o, receipt);
    forall i | 0 <= i < |o.lines| ensures Gross(next.lines[i]).Ok? && LineHolds(next, i) {
      assert LineHolds(o, i);
      GiveBackIsActiveDifference(o.lines, o.batches, o.active, receipt, i);
    }
  }

  lemma ReversedLines(o: Order, receipt: nat)
    requires Consistent(o) && receipt in o.active
    ensures var next := Reverse(o, receipt);
      forall i :: 0 <= i < |o.lines| ==>
        next.lines[i] == o.lines[i].(received := ActiveQuantity(o.batches, o.active - {receipt}, i))
  {
    forall i | 0 <= i < |o.lines|
      ensures Reverse(o, receipt).lines[i] == o.lines[i].(received := ActiveQuantity(o.batches, o.active - {receipt}, i))
    {
      assert LineHolds(o, i);
      GiveBackIsActiveDifference(o.lines, o.batches, o.active, receipt, i);
    }
  }

  /** Taking a receipt and reversing it, with nothing in between, leaves every line and what counts of it as it was. */
  lemma ReceiptTakenBack(o: Order, receipt: nat, input: seq<InputLine>, i: nat)
    requires Consistent(o) && NewReceipt(o, receipt) && CreateReceipt(o, receipt, input).Ok? && i < |o.lines|
    ensures (CreateReceiptKeeps(o, receipt, input);
      var back := Reverse(CreateReceipt(o, receipt, input).value, receipt);
      && back.active == o.active && |back.lines| == |o.lines| && back.lines[i] == o.lines[i]
      && ActiveQuantity(back.batches, back.active, i) == ActiveQuantity(o.batches, o.active, i)
      && ActiveValue(back.batches, back.active, i) == ActiveValue(o.batches, o.active, i))
  {
    var begun := o.(active := o.active + {receipt});
    BegunIsConsistent(o, receipt);
    AcceptedExactlyWhenItFits(begun, receipt, input);
    CreateReceiptKeeps(o, receipt, input);
    var taken := CreateReceipt(o, receipt, input).value;
    ReverseKeeps(taken, receipt);
    var back := Reverse(taken, receipt);
    assert back.active == o.active;
    forall k | |o.batches| <= k < |taken.batches| ensures taken.batches[k].receipt !in o.active {
      assert BatchOf(begun, taken.batches[|o.batches| + (k - |o.batches|)], receipt, input[k - |o.batches|]);
    }
    InactiveTail(o.batches, taken.batches, o.active, i);
    GiveBackIsActiveDifference(taken.lines, taken.batches, taken.active, receipt, i);
    assert LineHolds(o, i) && LineHolds(back, i);
  }

  lemma {:induction false} InactiveTail(batches: seq<Batch>, more: seq<Batch>, active: set<nat>, i: nat)
    requires batches <= more && forall k :: |batches| <= k < |more| ==> more[k].receipt !in active
    ensures ActiveQuantity(more, active, i) == ActiveQuantity(batches, active, i)
    ensures ActiveValue(more, active, i) == ActiveValue(batches, active, i)
    decreases |more|
  {
    if |more| > |batches| {
      InactiveTail(batches, more[..|more| - 1], active, i);
    } else {
      assert more == batches;
    }
  }

  // Runs: receipts and reversals in any order, refused requests included.

  datatype Request = Receive(receipt: nat, input: seq<InputLine>) | TakeBack(receipt: nat)

  function Handle(o: Order, request: Request): (r: Order)
    requires Consistent(o)
  {
    match request
    case Receive(receipt, input) =>
      if NewReceipt(o, receipt) && CreateReceipt(o, receipt, input).Ok? then CreateReceipt(o, receipt, input).value
      else o
    case TakeBack(receipt) =>
      if receipt in o.active then Reverse(o, receipt) else o
  }

  lemma HandleKeeps(o: Order, request: Request)
    requires Consistent(o)
    ensures Consistent(Handle(o, request))
    ensures |Handle(o, request).lines| == |o.lines| && Handle(o, request).taxed == o.taxed
  {
    match request
    case Receive(receipt, input) =>
      if NewReceipt(o, receipt) && CreateReceipt(o, receipt, input).Ok? {
        CreateReceiptKeeps(o, receipt, input);
        ReceiveLinesKeepTerms(o.(active := o.active + {receipt}), receipt, input);
      }
    case TakeBack(receipt) =>
      if receipt in o.active {
        ReverseKeeps(o, receipt);
      }
  }

  lemma {:induction false} ReceiveLinesKeepTerms(o: Order, receipt: nat, input: seq<InputLine>)
    requires ReceiveLines(o, receipt, input).Ok?
    ensures var next := ReceiveLines(o, receipt, input).value;
      && |next.lines| == |o.lines| && next.taxed == o.taxed
      && forall i :: 0 <= i < |o.lines| ==> next.lines[i] == o.lines[i].(received := next.lines[i].received)
    decreases |input|
  {
    if input != [] {
      ReceiveLinesKeepTerms(o, receipt, input[..|input| - 1]);
    }
  }

  ghost predicate Reaches(o: Order, requests: seq<Request>, end: Order)
    requires Consistent(o)
    decreases |requests|
  {
    if requests == [] then end == o
    else HandleKeeps(o, requests[0]); Reaches(Handle(o, requests[0]), requests[1..], end)
  }

  /** An order just confirmed: nothing received yet, every line's amount accepted when it was drawn up. */
  ghost predicate JustConfirmed(o: Order)
    ensures JustConfirmed(o) ==> Consistent(o)
  {
    && o.batches == [] && o.active == {}
    && (forall i :: 0 <= i < |o.lines| ==>
          o.lines[i].received == 0 && Gross(o.lines[i]).Ok?)
  }

  lemma {:induction false} ReachesKeeps(o: Order, requests: seq<Request>, end: Order)
    requires Consistent(o) && Reaches(o, requests, end)
    ensures Consistent(end) && |end.lines| == |o.lines| && end.taxed == o.taxed
    decreases |requests|
  {
    if requests != [] {
      HandleKeeps(o, requests[0]);
      ReachesKeeps(Handle(o, requests[0]), requests[1..], end);
    }
  }

  /**
    After any receipts and reversals in any order, a line's active batches hold exactly the
    quantity received, are never worth more than its gross, and are worth exactly the gross as
    soon as the line is complete. So the error for an exceeded amount is never raised.
  */
  lemma ReceiptsAddUpToTheGross(o: Order, requests: seq<Request>, end: Order, i: nat)
    requires JustConfirmed(o) && Reaches(o, requests, end) && i < |end.lines|
    ensures Gross(end.lines[i]).Ok?
    ensures end.lines[i].received == ActiveQuantity(end.batches, end.active, i) <= end.lines[i].quantity
    ensures FixedGross(end, i) ==> ActiveValue(end.batches, end.active, i) <= Gross(end.lines[i]).value
    ensures FixedGross(end, i) && end.lines[i].received == end.lines[i].quantity ==>
      ActiveValue(end.batches, end.active, i) == Gross(end.lines[i]).value
    ensures forall quantity: Positive :: ReceiptLineValue(end, i, quantity) != Err(ValueExceedsOrder)
  {
    ReachesKeeps(o, requests, end);
    assert LineHolds(end, i);
  }

  // The status of an order.

  datatype Status = Draft | Confirmed | PartiallyReceived | Received

  function Ordered(lines: seq<OrderLine>): (r: nat) {
    if lines == [] then 0 else Ordered(lines[..|lines| - 1]) + lines[|lines| - 1].quantity
  }

  function ReceivedTotal(lines: seq<OrderLine>): (r: int) {
    if lines == [] then 0 else ReceivedTotal(lines[..|lines| - 1]) + lines[|lines| - 1].received
  }

  /** _refresh_order_receipt_status. */
  function StatusAfterReceipt(lines: seq<OrderLine>): (r: Status) {
    if ReceivedTotal(lines) == Ordered(lines) then Received else PartiallyReceived
  }

  /** _refresh_order_status_after_reversal. */
  function StatusAfterReversal(lines: seq<OrderLine>): (r: Status) {
    if ReceivedTotal(lines) == 0 then Confirmed
    else if ReceivedTotal(lines) == Ordered(lines) then Received
    else PartiallyReceived
  }

  predicate Complete(lines: seq<OrderLine>) {
    forall i :: 0 <= i < |lines| ==> lines[i].received == lines[i].quantity
  }

  predicate Untouched(lines: seq<OrderLine>) {
    forall i :: 0 <= i < |lines| ==> lines[i].received == 0
  }

  /** Comparing the totals is the same as comparing line by line. */
  lemma {:induction false} TotalsCompareLineByLine(lines: seq<OrderLine>)
    requires forall i :: 0 <= i < |lines| ==> 0 <= lines[i].received <= lines[i].quantity
    ensures 0 <= ReceivedTotal(lines) <= Ordered(lines)
    ensures ReceivedTotal(lines) == Ordered(lines) <==> Complete(lines)
    ensures ReceivedTotal(lines) == 0 <==> Untouched(lines)
  {
    if lines != [] {
      var front, last := lines[..|lines| - 1], lines[|lines| - 1];
      TotalsCompareLineByLine(front);
      ByFrontAndLast(lines);
    }
  }

  lemma ByFrontAndLast(lines: seq<OrderLine>)
    requires lines != []
    ensures var front, last := lines[..|lines| - 1], lines[|lines| - 1];
      && (Complete(lines) <==> Complete(front) && last.received == last.quantity)
      && (Untouched(lines) <==> Untouched(front) && last.received == 0)
  {
    assert lines == lines[..|lines| - 1] + [lines[|lines| - 1]];
  }

  function ActiveTotal(o: Order, n: nat): (r: nat)
    requires n <= |o.lines|
  {
    if n == 0 then 0 else ActiveTotal(o, n - 1) + ActiveValue(o.batches, o.active, n - 1)
  }

  function GrossTotal(lines: seq<OrderLine>, n: nat): (r: nat)
    requires n <= |lines| && forall i :: 0 <= i < |lines| ==> Gross(lines[i]).Ok?
  {
    if n == 0 then 0 else GrossTotal(lines, n - 1) + Gross(lines[n - 1]).value
  }

  /** The stock taken in for an order priced with tax is worth at most its gross total, and exactly that when received. */
  lemma {:induction false} ReceivedOrderIsWorthItsGross(o: Order, n: nat)
    requires Consistent(o) && n <= |o.lines| && forall i :: 0 <= i < |o.lines| ==> FixedGross(o, i)
    ensures ActiveTotal(o, n) <= GrossTotal(o.lines, n)
    ensures StatusAfterReceipt(o.lines) == Received ==> ActiveTotal(o, n) == GrossTotal(o.lines, n)
    ensures ActiveTotal(o, n) == GrossTotal(o.lines, n) <==>
      forall i :: 0 <= i < n ==> ActiveValue(o.batches, o.active, i) == Gross(o.lines[i]).value
  {
    if n > 0 {
      ReceivedOrderIsWorthItsGross(o, n - 1);
      assert LineHolds(o, n - 1);
      forall i | 0 <= i < |o.lines| ensures 0 <= o.lines[i].received <= o.lines[i].quantity {
        assert LineHolds(o, i);
      }
      TotalsCompareLineByLine(o.lines);
    }
  }

  class PurchaseOrder {
    const taxed: bool
    var lines: seq<OrderLine>
    var batches: seq<Batch>
    var active: set<nat>
    var status: Status

    function State(): Order
      reads this
    {
      Order(taxed, lines, batches, active)
    }

    ghost predicate Valid()
      reads this
    {
      Consistent(State())
    }

    /**
      create_goods_receipt. `accepted` is how many of the stock postings the inventory takes
      before it refuses one.
    */
    method TakeReceipt(receipt: nat, input: seq<InputLine>, accepted: nat) returns (r: Result<()>)
      requires Valid() && NewReceipt(State(), receipt) && input != []
      modifies this
      ensures Valid()
      ensures r.Ok? <==> old(status) != Draft && Fits(old(lines), input) && |input| <= accepted
      ensures r.Ok? ==> CreateReceipt(old(State()), receipt, input) == Ok(State())
      ensures r.Ok? ==> Arrived(old(State()).(active := old(active) + {receipt}), State(), receipt, input)
      ensures r.Ok? ==> status == StatusAfterReceipt(lines) == if Complete(lines) then Received else PartiallyReceived
      ensures r.Err? ==> State() == old(State()) && status == old(status)
      ensures forall e :: r == Err(e) ==> ReceiptRefused(old(status), old(lines), input, accepted, e)
    {
      if status == Draft {
        return Err(NotReceivable);
      }
      var linesBefore, batchesBefore, activeBefore := lines, batches, active;
      active := active + {receipt};
      ghost var begun := State();
      BegunIsConsistent(old(State()), receipt);
      for k := 0 to |input|
        invariant k <= accepted && status == old(status)
        invariant ReceiveLines(begun, receipt, input[..k]) == Ok(State())
      {
        assert input[..k + 1][..k] == input[..k];
        var next := ReceiveLine(State(), receipt, input[k]);
        assert ReceiveLines(begun, receipt, input[..k + 1]) == next;
        WhereRefused(begun, receipt, input, k);
        if next.Err? || k == accepted {
          lines, batches, active := linesBefore, batchesBefore, activeBefore;
          return Err(if next.Err? then next.error else StockRefused);
        }
        lines, batches := next.value.lines, next.value.batches;
      }
      assert input[..|input|] == input;
      CreateReceiptKeeps(old(State()), receipt, input);
      AcceptedExactlyWhenItFits(begun, receipt, input);
      status := StatusAfterReceipt(lines);
      StatusByLines(State());
      r := Ok(());
    }

    /**
      reverse_goods_receipt. `stockAllows` says whether the inventory could give the goods back.
      The check that a line's received quantity covers the batch never fails.
    */
    method ReverseReceipt(receipt: nat, stockAllows: bool) returns (r: Result<()>)
      requires Valid()
      modifies this
      ensures Valid()
      ensures r == if receipt !in old(active) then Err(AlreadyReversed) else if !stockAllows then Err(StockRefused) else Ok(())
      ensures r.Ok? ==> State() == Reverse(old(State()), receipt)
      ensures r.Ok? ==> active == old(active) - {receipt} && batches == old(batches) && |lines| == |old(lines)|
      ensures r.Ok? ==> forall i :: 0 <= i < |lines| ==>
        lines[i] == old(lines)[i].(received := ActiveQuantity(old(batches), old(active) - {receipt}, i))
      ensures r.Ok? ==> status == StatusAfterReversal(lines)
      ensures r.Ok? ==> (status == Confirmed <==> Untouched(lines))
      ensures r.Ok? ==> (status == Received <==> !Untouched(lines) && Complete(lines)) && status != Draft
      ensures r.Err? ==> State() == old(State()) && status == old(status)
    {
      if receipt !in active {
        return Err(AlreadyReversed);
      }
      if !stockAllows {
        return Err(StockRefused);
      }
      var linesBefore := lines;
      for k := 0 to |batches|
        invariant batches == old(batches) && active == old(active)
        invariant lines == GiveBack(linesBefore, batches[..k], receipt)
      {
        assert batches[..k + 1][..k] == batches[..k];
        if batches[k].receipt == receipt {
          var line := lines[batches[k].line];
          BatchIsCovered(old(State()), receipt, k);
          if line.received < batches[k].quantity {
            assert false;
          }
          lines := lines[batches[k].line := line.(received := line.received - batches[k].quantity)];
        }
      }
      assert batches[..|batches|] == batches;
      active := active - {receipt};
      ReverseKeeps(old(State()), receipt);
      ReversedLines(old(State()), receipt);
      status := StatusAfterReversal(lines);
      StatusByLines(State());
      r := Ok(());
    }
  }

  /** Why a receipt is refused, all in all; `accepted` is how many stock postings the inventory takes. */
  ghost predicate ReceiptRefused(status: Status, lines: seq<OrderLine>, input: seq<InputLine>, accepted: nat, e: Error) {
    if status == Draft then
      e == NotReceivable
    else if e == StockRefused then
      accepted < |input| && Fits(lines, input[..accepted + 1])
    else
      exists k :: k <= accepted && RefusedAt(lines, input, k, e)
  }

  /** There is at most one reason, and none for a receipt that is accepted. */
  lemma ReceiptRefusalsExclude(
      status: Status, lines: seq<OrderLine>, input: seq<InputLine>, accepted: nat, e: Error, f: Error)
    requires ReceiptRefused(status, lines, input, accepted, e)
    ensures ReceiptRefused(status, lines, input, accepted, f) ==> e == f
    ensures !(status != Draft && Fits(lines, input) && |input| <= accepted)
  {
    if status != Draft {
      forall k, g, n | RefusedAt(lines, input, k, g) && k < n <= |input| ensures !Fits(lines, input[..n]) {
        RefusedOnce(lines, input, k, g, n);
      }
      assert input[..|input|] == input;
    }
  }

  lemma WhereRefused(o: Order, receipt: nat, input: seq<InputLine>, k: nat)
    requires Consistent(o) && receipt in o.active && k < |input| && ReceiveLines(o, receipt, input[..k]).Ok?
    ensures var r := ReceiveLines(o, receipt, input[..k + 1]);
      if r.Err? then RefusedAt(o.lines, input, k, r.error) && !Fits(o.lines, input) else Fits(o.lines, input[..k + 1])
  {
    hide Consistent, Fits, ReceiveLine, Arrived;
    var part := input[..k + 1];
    assert part[..k] == input[..k] && input[..|input|] == input;
    AcceptedExactlyWhenItFits(o, receipt, input[..k]);
    AcceptedExactlyWhenItFits(o, receipt, part);
    ReceiveLinesKeeps(o, receipt, input[..k]);
    LastLineAccepted(o, ReceiveLines(o, receipt, input[..k]).value, receipt, part);
    if ReceiveLines(o, receipt, part).Err? {
      RefusedOnce(o.lines, input, k, ReceiveLines(o, receipt, part).error, |input|);
    }
  }

  lemma BegunIsConsistent(o: Order, receipt: nat)
    requires Consistent(o) && NewReceipt(o, receipt)
    ensures Consistent(o.(active := o.active + {receipt}))
  {
    var begun := o.(active := o.active + {receipt});
    forall i | 0 <= i < |o.lines| ensures LineHolds(begun, i) {
      assert LineHolds(o, i);
      ActiveWithNewReceipt(o.batches, o.active, receipt, i);
    }
  }

  /** The totals that decide the status compare as the lines do. */
  lemma StatusByLines(o: Order)
    requires Consistent(o)
    ensures StatusAfterReceipt(o.lines) == if Complete(o.lines) then Received else PartiallyReceived
    ensures StatusAfterReversal(o.lines) ==
      if Untouched(o.lines) then Confirmed else if Complete(o.lines) then Received else PartiallyReceived
  {
    forall i | 0 <= i < |o.lines| ensures 0 <= o.lines[i].received <= o.lines[i].quantity {
      assert LineHolds(o, i);
    }
    TotalsCompareLineByLine(o.lines);
  }

  lemma {:induction false} ActiveMonotone(batches: seq<Batch>, active: set<nat>, i: nat, k: nat)
    requires k <= |batches|
    ensures ActiveQuantity(batches[..k], active, i) <= ActiveQuantity(batches, active, i)
  {
    if k < |batches| {
      ActiveMonotone(batches[..|batches| - 1], active, i, k);
      assert batches[..|batches| - 1][..k] == batches[..k];
    } else {
      assert batches[..k] == batches;
    }
  }

  /** When batch `k` is given back, its line still holds at least that much. */
  lemma BatchIsCovered(o: Order, receipt: nat, k: nat)
    requires Consistent(o) && receipt in o.active && k < |o.batches| && o.batches[k].receipt == receipt
    ensures GiveBack(o.lines, o.batches[..k], receipt)[o.batches[k].line].received >= o.batches[k].quantity
  {
    var i := o.batches[k].line;
    assert LineHolds(o, i);
    GiveBackIsActiveDifference(o.lines, o.batches[..k], o.active, receipt, i);
    ActiveMonotone(o.batches, o.active, i, k + 1);
    assert o.batches[..k + 1][..k] == o.batches[..k];
  }
}
