/** The cash dispenser: a chain of banknote handlers (100, 50, 20 and 10
    euro). Each handler pays out as many of its notes as fit and passes
    the rest of the amount on to the next handler; the 10-euro handler
    ends the chain and drops whatever is below 10. */
module Chain {
  import opened Common

  /** A handler and, for the three forwarding ones, the handler its
      nextHandler field points to (None: the field was never set). The
      chain is built once and not rewired afterwards, so it is a value. */
  datatype Handler =
    | Hundred(next: Option<Handler>)
    | Fifty(next: Option<Handler>)
    | Twenty(next: Option<Handler>)
    | Ten

  function Denomination(h: Handler): (d: nat)
    ensures d > 0 && d % 10 == 0
  {
    match h
    case Hundred(_) => 100
    case Fifty(_) => 50
    case Twenty(_) => 20
    case Ten => 10
  }

  /** One "Dispensing <count> <denomination>€ bill(s)" line. */
  datatype Line = Dispensed(count: nat, denomination: nat)

  function LineText(l: Line): string
  {
    "Dispensing " + IntToString(l.count) + " " + IntToString(l.denomination) + "€ bill(s)"
  }

  /** The console text of a run of dispense, line by line. */
  function Printed(lines: seq<Line>): seq<string>
  {
    seq(|lines|, i requires 0 <= i < |lines| => LineText(lines[i]))
  }

  /** What one handler does with `money` on its own: the line it prints,
      if any, and the amount it hands to nextHandler, if any. */
  datatype Step = Step(line: Option<Line>, passOn: Option<nat>)

  /** The body of dispense in one handler, without the call down the
      chain. */
  function Handle(h: Handler, money: nat): (r: Step)
    // the ten-euro handler always prints money / 10 notes and passes nothing on
    ensures h.Ten? ==> r == Step(Some(Dispensed(money / 10, 10)), None)
    // a forwarding handler prints only when at least one of its notes fits
    ensures !h.Ten? ==> (r.line.Some? <==> money >= Denomination(h))
    ensures r.line.Some? ==> r.line.value.denomination == Denomination(h) && r.line.value.count * Denomination(h) <= money
    // an exact multiple ends the chain here
    ensures !h.Ten? ==> (r.passOn.None? <==> money >= Denomination(h) && money % Denomination(h) == 0)
    // what is passed on is below the handler's denomination, and nothing is lost
    ensures r.passOn.Some? ==> r.passOn.value < Denomination(h)
    ensures !h.Ten? ==> Paid(r) + (if r.passOn.Some? then r.passOn.value else 0) == money
  {
    var d := Denomination(h);
    if h.Ten? then Step(Some(Dispensed(money / 10, 10)), None)
    else if money >= d then
      var remainder := money % d;
      Step(Some(Dispensed(money / d, d)), if remainder != 0 then Some(remainder) else None)
    else Step(None, Some(money))
  }

  /** The value of the notes a step pays out. */
  function Paid(st: Step): nat
  {
    if st.line.Some? then st.line.value.count * st.line.value.denomination else 0
  }

  /** The lines printed by dispense and whether it ended in a null
      dereference (a forwarding handler with an amount to pass on and no
      nextHandler). */
  datatype Outcome = Outcome(lines: seq<Line>, crashed: bool)

  /** dispense(money) on handler h, down the chain. */
  function Dispense(h: Handler, money: nat): (r: Outcome)
    // the ten-euro handler ends the chain on its own
    ensures h.Ten? ==> r == Outcome([Dispensed(money / 10, 10)], false)
    // whatever the wiring, and even when the chain breaks off, no more is
    // paid out than was asked for
    ensures Total(r.lines) <= money
    decreases h
  {
    var st := Handle(h, money);
    var mine := if st.line.Some? then [st.line.value] else [];
    if st.passOn.None? then Outcome(mine, false)
    else if h.next.None? then Outcome(mine, true)
    else
      var rest := Dispense(h.next.value, st.passOn.value);
      TotalAppend(mine, rest.lines);
      Outcome(mine + rest.lines, rest.crashed)
  }

  /** setNextHandler: the forwarding handlers store the next one, the
      ten-euro handler ignores it. */
  function SetNext(h: Handler, n: Handler): (r: Handler)
    ensures h.Ten? ==> r == h
    ensures !h.Ten? ==> !r.Ten? && r.next == Some(n) && Denomination(r) == Denomination(h)
  {
    match h
    case Hundred(_) => Hundred(Some(n))
    case Fifty(_) => Fifty(Some(n))
    case Twenty(_) => Twenty(Some(n))
    case Ten => Ten
  }

  /** The chain of the demo: 100 -> 50 -> 20 -> 10. */
  const Standard := Hundred(Some(Fifty(Some(Twenty(Some(Ten))))))

  /** A chain every forwarding handler of which has a next handler. */
  predicate Terminated(h: Handler)
  {
    h.Ten? || (h.next.Some? && Terminated(h.next.value))
  }

  /** The total value of the notes paid out. */
  function Total(lines: seq<Line>): nat
  {
    if lines == [] then 0 else lines[0].count * lines[0].denomination + Total(lines[1..])
  }

  lemma {:induction false} TotalAppend(a: seq<Line>, b: seq<Line>)
    ensures Total(a + b) == Total(a) + Total(b)
  {
    if a == [] {
      assert a + b == b;
    } else {
      assert (a + b)[1..] == a[1..] + b;
      TotalAppend(a[1..], b);
    }
  }

  /** Amounts that differ by a multiple of 10 leave the same remainder
      modulo 10. */
  lemma ModTen(money: nat, k: nat)
    requires k % 10 == 0 && k <= money
    ensures (money - k) % 10 == money % 10
  {
    var q := k / 10;
    assert k == 10 * q;
  }

  /** A chain whose every handler has a next one never dereferences null. */
  lemma {:induction false} TerminatedNeverCrashes(h: Handler, money: nat)
    requires Terminated(h)
    ensures !Dispense(h, money).crashed
    decreases h
  {
    var st := Handle(h, money);
    if st.passOn.Some? {
      TerminatedNeverCrashes(h.next.value, st.passOn.value);
    }
  }

  /** A forwarding handler pays a multiple of 10 and so passes on an
      amount with the same units as the one it got; it ends the chain only
      on an amount without units. */
  lemma StepKeepsUnits(h: Handler, money: nat)
    requires !h.Ten?
    ensures Paid(Handle(h, money)) % 10 == 0
    ensures Handle(h, money).passOn.Some? ==> Handle(h, money).passOn.value % 10 == money % 10
    ensures Handle(h, money).passOn.None? ==> money % 10 == 0
  {
    var st := Handle(h, money);
    if st.line.Some? {
      MultipleOfTen(st.line.value.count, st.line.value.denomination);
    }
    ModTen(money, Paid(st));
  }

  /** A number of notes of a denomination that is a multiple of 10 is
      worth a multiple of 10. */
  lemma MultipleOfTen(count: nat, denomination: nat)
    requires denomination % 10 == 0
    ensures (count * denomination) % 10 == 0
  {
    var q := denomination / 10;
    assert count * denomination == 10 * (count * q);
  }

  /** Whatever the chain, unless it crashes it pays out exactly the amount
      less its remainder modulo 10: every forwarding denomination is a
      multiple of 10, and only the ten-euro handler drops anything. */
  lemma {:induction false} PaysAllButUnits(h: Handler, money: nat)
    requires !Dispense(h, money).crashed
    ensures Total(Dispense(h, money).lines) == money - money % 10
    decreases h
  {
    var st := Handle(h, money);
    var mine := if st.line.Some? then [st.line.value] else [];
    assert Total(mine) == Paid(st);
    if !h.Ten? {
      StepKeepsUnits(h, money);
      if st.passOn.Some? {
        var p := st.passOn.value;
        PaysAllButUnits(h.next.value, p);
        TotalAppend(mine, Dispense(h.next.value, p).lines);
      }
    }
  }

  /** Denominations strictly decrease along the printed lines. */
  predicate Decreasing(lines: seq<Line>)
  {
    forall i, j :: 0 <= i < j < |lines| ==> lines[i].denomination > lines[j].denomination
  }

  /** The 20 -> 10 tail of the demo's chain, for what the 50-euro handler
      can pass on: at most two 20s and one 10, in that order. */
  lemma TwentyTenShape(money: nat)
    requires money < 50
    ensures !Dispense(Twenty(Some(Ten)), money).crashed
    ensures Decreasing(Dispense(Twenty(Some(Ten)), money).lines)
    ensures forall l :: l in Dispense(Twenty(Some(Ten)), money).lines ==>
      (l.denomination == 20 && l.count <= 2) || (l.denomination == 10 && l.count <= 1)
  {
  }

  /** The 50 -> 20 -> 10 tail, for what the 100-euro handler can pass on. */
  lemma FiftyTailShape(money: nat)
    requires money < 100
    ensures !Dispense(Fifty(Some(Twenty(Some(Ten)))), money).crashed
    ensures Decreasing(Dispense(Fifty(Some(Twenty(Some(Ten)))), money).lines)
    ensures forall l :: l in Dispense(Fifty(Some(Twenty(Some(Ten)))), money).lines ==>
      (l.denomination == 50 && l.count <= 1) || (l.denomination == 20 && l.count <= 2) || (l.denomination == 10 && l.count <= 1)
  {
    var p := if money >= 50 then money % 50 else money;
    TwentyTenShape(p);
  }

  /** On the demo's chain: no crash, every amount is paid but its units,
      the denominations come in decreasing order, and the 50-, 20- and
      10-euro handlers pay at most 1, 2 and 1 notes. */
  lemma StandardChain(money: nat)
    ensures !Dispense(Standard, money).crashed
    ensures Total(Dispense(Standard, money).lines) == money - money % 10
    ensures Decreasing(Dispense(Standard, money).lines)
    ensures forall l :: l in Dispense(Standard, money).lines && l.denomination != 100 ==>
      (l.denomination == 50 && l.count <= 1) || (l.denomination == 20 && l.count <= 2) || (l.denomination == 10 && l.count <= 1)
  {
    TerminatedNeverCrashes(Standard, money);
    PaysAllButUnits(Standard, money);
    StandardShape(money);
  }

  /** The order and counts part of StandardChain: the 100-euro line, if
      any, comes before what the 50 -> 20 -> 10 tail prints. */
  lemma StandardShape(money: nat)
    ensures Decreasing(Dispense(Standard, money).lines)
    ensures forall l :: l in Dispense(Standard, money).lines && l.denomination != 100 ==>
      (l.denomination == 50 && l.count <= 1) || (l.denomination == 20 && l.count <= 2) || (l.denomination == 10 && l.count <= 1)
  {
    var st := Handle(Standard, money);
    var mine := if st.line.Some? then [st.line.value] else [];
    if st.passOn.Some? {
      var rest := Dispense(Fifty(Some(Twenty(Some(Ten)))), st.passOn.value).lines;
      FiftyTailShape(st.passOn.value);
      assert Dispense(Standard, money).lines == mine + rest;
      DecreasingCons(mine, rest);
    }
  }

  /** At most one line before a decreasing list of smaller denominations
      keeps it decreasing. */
  lemma DecreasingCons(mine: seq<Line>, rest: seq<Line>)
    requires |mine| <= 1 && Decreasing(rest)
    requires forall l :: l in mine ==> forall m :: m in rest ==> l.denomination > m.denomination
    ensures Decreasing(mine + rest)
  {
    var all := mine + rest;
    forall i, j | 0 <= i < j < |all|
      ensures all[i].denomination > all[j].denomination
    {
      if i < |mine| {
        assert all[i] in mine && all[j] == rest[j - |mine|];
      } else {
        assert all[i] == rest[i - |mine|] && all[j] == rest[j - |mine|];
      }
    }
  }
}

module ChainScenarios {
  import opened Common
  import opened Chain

  /** The demo wires the handlers with setNextHandler. It sets the 100-euro
      handler's successor first, which is the same as building from the tail
      only because handlers are values here: a handler's successor cannot
      change after it has been linked in. */
  lemma Wiring()
    ensures SetNext(Hundred(None), SetNext(Fifty(None), SetNext(Twenty(None), Ten))) == Standard
  {
  }

  /** 280 euro: two 100s, one 50, one 20, one 10. */
  lemma Dispense280()
    ensures Dispense(Standard, 280) == Outcome([Dispensed(2, 100), Dispensed(1, 50), Dispensed(1, 20), Dispensed(1, 10)], false)
  {
  }

  /** 130 euro: one 100, one 20, one 10; the 50-euro handler prints nothing. */
  lemma Dispense130()
    ensures Dispense(Standard, 130) == Outcome([Dispensed(1, 100), Dispensed(1, 20), Dispensed(1, 10)], false)
  {
  }

  /** What the demo prints for 130 euro. */
  lemma Printed130()
    ensures Printed(Dispense(Standard, 130).lines)
      == ["Dispensing 1 100€ bill(s)", "Dispensing 1 20€ bill(s)", "Dispensing 1 10€ bill(s)"]
  {
    Dispense130();
    var lines := [Dispensed(1, 100), Dispensed(1, 20), Dispensed(1, 10)];
    assert Printed(lines) == [LineText(lines[0]), LineText(lines[1]), LineText(lines[2])];
    OneNoteTexts();
  }

  lemma OneNoteTexts()
    ensures LineText(Dispensed(1, 100)) == "Dispensing 1 100€ bill(s)"
    ensures LineText(Dispensed(1, 20)) == "Dispensing 1 20€ bill(s)"
    ensures LineText(Dispensed(1, 10)) == "Dispensing 1 10€ bill(s)"
  {
    Numerals();
  }

  lemma Numerals()
    ensures IntToString(1) == "1" && IntToString(10) == "10"
    ensures IntToString(20) == "20" && IntToString(100) == "100"
  {
    assert DigitChar(0) == '0' && DigitChar(1) == '1' && DigitChar(2) == '2';
    assert NatToString(10) == NatToString(1) + ['0'];
    assert NatToString(100) == NatToString(10) + ['0'];
    assert NatToString(20) == NatToString(2) + ['0'];
  }

  /** Nothing to pay still travels to the end: the ten-euro handler prints
      a line for zero notes. */
  lemma DispenseZero()
    ensures Dispense(Standard, 0) == Outcome([Dispensed(0, 10)], false)
  {
  }

  /** A forwarding handler without a next one dereferences null as soon as
      it has a remainder, after printing its own line. */
  lemma UnwiredCrashes()
    ensures Dispense(Hundred(None), 150) == Outcome([Dispensed(1, 100)], true)
    ensures Dispense(Hundred(None), 200) == Outcome([Dispensed(2, 100)], false)
  {
  }
}
