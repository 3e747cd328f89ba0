/** What one barcode scan does to the state: the dispatch sequence of
    `handleBarCodeScanned`, the mocked validity check and the toast. */
module Scan {
  import opened Values
  import opened Reducer

  const ValidResult := "Valid"
  const InvalidResult := "Invalid"

  /** `checkValidity`: after its delay it resolves with a coin flip on
      `Math.random() < 0.5`. The coin is a parameter; the delay is not modelled. */
  function CheckValidity(coin: Random): (res: string)
    ensures res == ValidResult || res == InvalidResult
    ensures res == ValidResult <==> coin < 0.5
  {
    if coin < 0.5 then ValidResult else InvalidResult
  }

  datatype Toast = Toast(title: string, message: string)

  const NothingFound := "Nothing found, perhaps try again."
  const SuccessfulRead := "Successful read, please continue"

  /** The toast shown once the check has resolved with `res`. */
  function ToastFor(res: string): (t: Toast)
    ensures t.title == res
    ensures t.message == NothingFound <==> res == InvalidResult
    ensures t.message == NothingFound || t.message == SuccessfulRead
  {
    Toast(res, if res == InvalidResult then NothingFound else SuccessfulRead)
  }

  /** The scan handler is passed to the camera only while `scanned` is falsy. */
  predicate HandlerInstalled(s: State)
  {
    !Truthy(s.scanned)
  }

  /** The dispatches before the handler awaits the check. */
  function StartDispatches(d: string): seq<Dispatch>
  {
    [Plain("SET_SCANNED", Bool(true)), Plain("SET_DATA", Text(d)), Plain("SET_POSITION_I", Null)]
  }

  /** The dispatches after the check resolved with `res`; `key` is the random
      number that `SET_KEY` stores. */
  function FinishDispatches(d: string, res: string, key: Random): seq<Dispatch>
  {
    [ Plain("SET_POSITION_I", Null),
      Plain("SET_RESULT", Text(res)),
      Dispatch(Action("SET_KEY", Null), key),
      Plain("SET_HISTORY", Text(d)),
      Plain("SET_DATA", Null) ]
  }

  /** The dispatch the 500 ms timer issues once the scan has finished. */
  function TimeoutDispatches(): seq<Dispatch>
  {
    [Plain("SET_SCANNED", Bool(false))]
  }

  /** The dispatch of the sheet's open/close callback. */
  function SheetOpenDispatches(open: bool): seq<Dispatch>
  {
    [Plain("SET_SCANNED", Bool(open))]
  }

  /** Starting a scan opens the sheet, records the payload, moves the animation
      one step, and withdraws the handler so no second scan is accepted. */
  lemma ScanStartEffect(s: State, d: string)
    ensures var r := Run(s, StartDispatches(d));
      && r.Ok?
      && r.value.scanned == Bool(true)
      && !HandlerInstalled(r.value)
      && r.value.data == Text(d)
      && r.value.positionI == (s.positionI + 1) % PositionCount
      && r.value.(scanned := s.scanned, data := s.data, positionI := s.positionI) == s
  {
    var ds := StartDispatches(d);
    var s1 := s.(scanned := Bool(true));
    var s2 := s1.(data := Text(d));
    var s3 := s2.(positionI := (s.positionI + 1) % PositionCount);
    RunStep(s, ds);
    RunStep(s1, ds[1..]);
    RunStep(s2, ds[1..][1..]);
    assert ds[1..][1..][1..] == [];
    assert Run(s, ds) == Ok(s3);
  }

  /** Finishing a scan moves the animation again, records the result and a new
      key, appends the payload to the history and clears it. */
  lemma ScanFinishEffect(s: State, d: string, res: string, key: Random)
    ensures var r := Run(s, FinishDispatches(d, res, key));
      && r.Ok?
      && r.value.positionI == (s.positionI + 1) % PositionCount
      && r.value.result == Text(res)
      && r.value.key == key
      && r.value.history == s.history + [Text(d)]
      && r.value.data == Null
      && r.value.(positionI := s.positionI, result := s.result, key := s.key,
                  history := s.history, data := s.data) == s
  {
    var ds := FinishDispatches(d, res, key);
    var s1 := s.(positionI := (s.positionI + 1) % PositionCount);
    var s2 := s1.(result := Text(res));
    var s3 := s2.(key := key);
    var s4 := s3.(history := s.history + [Text(d)]);
    var s5 := s4.(data := Null);
    RunStep(s, ds);
    RunStep(s1, ds[1..]);
    RunStep(s2, ds[1..][1..]);
    RunStep(s3, ds[1..][1..][1..]);
    RunStep(s4, ds[1..][1..][1..][1..]);
    assert ds[1..][1..][1..][1..][1..] == [];
    assert Run(s, ds) == Ok(s5);
  }

  /** One completed scan with payload `d`, checked with coin `coin`, when
      nothing else is dispatched while the check is awaited: the sheet
      is open, `positionI` has gone two steps round, the result is one of the
      two literals, the history has grown by exactly `d`, the payload is
      cleared, and permission, sheet position and loading are untouched. */
  lemma {:induction false} ScanCompleteEffect(s: State, d: string, coin: Random, key: Random)
    ensures var res := CheckValidity(coin);
      var r := Run(s, StartDispatches(d) + FinishDispatches(d, res, key));
      && r.Ok?
      && r.value.scanned == Bool(true)
      && !HandlerInstalled(r.value)
      && r.value.positionI == (s.positionI + 2) % PositionCount
      && (r.value.result == Text(ValidResult) || r.value.result == Text(InvalidResult))
      && r.value.result == Text(res)
      && r.value.history == s.history + [Text(d)]
      && r.value.data == Null
      && r.value.key == key
      && r.value.hasPermission == s.hasPermission
      && r.value.position == s.position
      && r.value.loading == s.loading
  {
    var res := CheckValidity(coin);
    RunAppend(s, StartDispatches(d), FinishDispatches(d, res, key));
    ScanStartEffect(s, d);
    var mid := Run(s, StartDispatches(d)).value;
    ScanFinishEffect(mid, d, res, key);
  }

  /** The timer closes the sheet and hands the scanner its handler back. */
  lemma TimeoutReinstallsHandler(s: State)
    ensures var r := Run(s, TimeoutDispatches());
      r.Ok? && HandlerInstalled(r.value) && r.value.(scanned := s.scanned) == s
  {
  }

  /** Opening or closing the sheet stores its state in `scanned` and nothing else. */
  lemma SheetOpenEffect(s: State, open: bool)
    ensures Run(s, SheetOpenDispatches(open)) == Ok(s.(scanned := Bool(open)))
  {
  }

  /** Nothing keeps a second scan out while the first check is pending: if the
      sheet is dismissed during the `await`, the handler is installed again, a
      second scan `b` starts, and when both checks resolve (first `a`, then
      `b`) both payloads are in the history, in that order, and the result is
      the second one. */
  lemma {:induction false} DismissDuringCheckAdmitsSecondScan(
    s: State, a: string, b: string, resA: string, resB: string, keyA: Random, keyB: Random)
    ensures var r := Run(s, StartDispatches(a) + SheetOpenDispatches(false));
      r.Ok? && HandlerInstalled(r.value)
    ensures var r := Run(s, StartDispatches(a) + SheetOpenDispatches(false) + StartDispatches(b)
                            + FinishDispatches(a, resA, keyA) + FinishDispatches(b, resB, keyB));
      && r.Ok?
      && r.value.history == s.history + [Text(a), Text(b)]
      && r.value.result == Text(resB)
      && r.value.scanned == Bool(true)
      && r.value.positionI == (s.positionI + 4) % PositionCount
  {
    var start, close := StartDispatches(a), SheetOpenDispatches(false);
    var startB, finA, finB := StartDispatches(b), FinishDispatches(a, resA, keyA), FinishDispatches(b, resB, keyB);
    ScanStartEffect(s, a);
    var m1 := Run(s, start).value;
    SheetOpenEffect(m1, false);
    RunAppend(s, start, close);
    var m2 := m1.(scanned := Bool(false));
    ScanStartEffect(m2, b);
    var m3 := Run(m2, startB).value;
    ScanFinishEffect(m3, a, resA, keyA);
    var m4 := Run(m3, finA).value;
    ScanFinishEffect(m4, b, resB, keyB);
    RunAppend(s, start + close, startB);
    RunAppend(s, start + close + startB, finA);
    RunAppend(s, start + close + startB + finA, finB);
    assert m4.history == s.history + [Text(a)];
    assert Run(m4, finB).value.history == s.history + [Text(a)] + [Text(b)];
  }
}
