/** The `HomeScreen` component: what it renders from the state, the actions it
    ever dispatches, and its event handlers as methods on the reducer-held state. */
module Screen {
  import opened Values
  import opened Reducer
  import opened Scan

  /** The three things the component can render. */
  datatype View = RequestingPermission | NoCameraAccess | Scanner(sheetOpen: bool, acceptsScans: bool)

  /** The component's render: a permission message, or the camera with its
      handler installed only while `scanned` is falsy, under a sheet that is
      open exactly while `scanned` is truthy. */
  function Render(s: State): (v: View)
    ensures v == RequestingPermission <==> s.hasPermission == Null
    ensures v == NoCameraAccess <==> s.hasPermission == Bool(false)
    ensures v.Scanner? ==> (v.acceptsScans <==> HandlerInstalled(s)) && v.sheetOpen != v.acceptsScans
  {
    if s.hasPermission == Null then RequestingPermission
    else if s.hasPermission == Bool(false) then NoCameraAccess
    else Scanner(Truthy(s.scanned), !Truthy(s.scanned))
  }

  /** The actions this component dispatches, with the payloads it gives them:
      `scanned` from the handler, the timer and the sheet (always a boolean),
      the scanned string or `null` for `data`, the two literal results, a
      string for the history, a number for the sheet position, and no payload
      for `SET_POSITION_I` and `SET_KEY`. */
  predicate ScreenAction(a: Action)
  {
    match a.kind
    case "SET_SCANNED" => a.payload.Bool?
    case "SET_DATA" => a.payload.Text? || a.payload.Null?
    case "SET_POSITION_I" => a.payload.Null?
    case "SET_RESULT" => a.payload == Text(ValidResult) || a.payload == Text(InvalidResult)
    case "SET_KEY" => a.payload.Null?
    case "SET_HISTORY" => a.payload.Text?
    case "SET_POSITION" => a.payload.Number?
    case _ => false
  }

  predicate AllScreenActions(ds: seq<Dispatch>)
  {
    forall i :: 0 <= i < |ds| ==> ScreenAction(ds[i].action)
  }

  /** The screen's actions together with a boolean permission or loading
      flag: the actions of any state whose fields have the types the screen
      expects, whether or not this file dispatches them. */
  predicate TypedAction(a: Action)
  {
    || ScreenAction(a)
    || ((a.kind == "SET_HAS_PERMISSION" || a.kind == "SET_LOADING") && a.payload.Bool?)
  }

  /** Every field holds the kind of value its payloads give it: the flags are
      booleans, `data` is `null` or the scanned string, the history holds
      strings, `positionI` indexes `positions`, the key is a random number and
      the result is `null` or one of the two literals. */
  predicate WellTyped(s: State)
  {
    && s.hasPermission.Bool?
    && s.scanned.Bool?
    && (s.data.Null? || s.data.Text?)
    && s.position.Number?
    && (forall i :: 0 <= i < |s.history| ==> s.history[i].Text?)
    && s.loading.Bool?
    && 0.0 <= s.key < 1.0
    && s.positionI < PositionCount
    && (s.result == Null || s.result == Text(ValidResult) || s.result == Text(InvalidResult))
  }

  /** What holds of every state this component can reach from its initial
      state: the fields are well typed, permission is never granted and the
      loading flag is never raised. */
  predicate Inv(s: State)
  {
    && WellTyped(s)
    && s.hasPermission == Bool(false)
    && s.loading == Bool(false)
  }

  lemma InitialStateInv()
    ensures Inv(InitialState)
  {
  }

  lemma ScreenActionKeepsInv(s: State, a: Action, random: Random)
    requires Inv(s) && ScreenAction(a)
    ensures Reduce(s, a, random).Ok? && Inv(Reduce(s, a, random).value)
  {
  }

  /** A typed action, including a permission or loading flag the component
      never dispatches, keeps every field well typed. */
  lemma TypedActionKeepsWellTyped(s: State, a: Action, random: Random)
    requires WellTyped(s) && TypedAction(a)
    ensures Reduce(s, a, random).Ok? && WellTyped(Reduce(s, a, random).value)
  {
    if ScreenAction(a) {
      ScreenActionKeepsWellTyped(s, a, random);
    } else if a.kind == "SET_HAS_PERMISSION" {
      assert Reduce(s, a, random) == Ok(s.(hasPermission := a.payload));
    } else {
      assert Reduce(s, a, random) == Ok(s.(loading := a.payload));
    }
  }

  lemma ScreenActionKeepsWellTyped(s: State, a: Action, random: Random)
    requires WellTyped(s) && ScreenAction(a)
    ensures Reduce(s, a, random).Ok? && WellTyped(Reduce(s, a, random).value)
  {
  }

  /** No sequence of this component's own dispatches throws, and each keeps
      the invariant. */
  lemma {:induction false} RunKeepsInv(s: State, ds: seq<Dispatch>)
    requires Inv(s) && AllScreenActions(ds)
    ensures Run(s, ds).Ok? && Inv(Run(s, ds).value)
    decreases |ds|
  {
    if ds != [] {
      ScreenActionKeepsInv(s, ds[0].action, ds[0].random);
      RunStep(s, ds);
      assert AllScreenActions(ds[1..]) by {
        forall i | 0 <= i < |ds[1..]| ensures ScreenAction(ds[1..][i].action) {
          assert ds[1..][i] == ds[i + 1];
        }
      }
      RunKeepsInv(Reduce(s, ds[0].action, ds[0].random).value, ds[1..]);
    }
  }

  /** Nothing the component dispatches ever sets `hasPermission`, so from the
      initial state it always renders "No access to camera", and `positionI`
      is always a valid index into `positions`. */
  lemma {:induction false} PermissionNeverGranted(ds: seq<Dispatch>)
    requires AllScreenActions(ds)
    ensures Run(InitialState, ds).Ok?
    ensures Run(InitialState, ds).value.hasPermission == Bool(false)
    ensures Render(Run(InitialState, ds).value) == NoCameraAccess
    ensures Run(InitialState, ds).value.positionI < PositionCount
  {
    InitialStateInv();
    RunKeepsInv(InitialState, ds);
  }

  /** The scan handler, the timer and the sheet callbacks only dispatch
      actions of this component. */
  lemma ScanDispatchesAreScreenActions(d: string, coin: Random, key: Random)
    ensures AllScreenActions(StartDispatches(d))
    ensures AllScreenActions(FinishDispatches(d, CheckValidity(coin), key))
    ensures AllScreenActions(TimeoutDispatches())
  {
  }

  /** The component, holding the state that `useReducer` keeps for it. The
      event methods run only where the source would run them: the camera and
      the sheet exist only while the scanner view is rendered. */
  class HomeScreen {
    var state: State

    predicate Valid()
      reads this
    {
      WellTyped(state)
    }

    constructor ()
      ensures state == InitialState && Valid()
    {
      state := InitialState;
    }

    /** `dispatch`: run the reducer on the current state. When it throws, the
        state is not replaced. */
    method Dispatch(a: Action, random: Random) returns (r: Result<State>)
      modifies this
      ensures r == Reduce(old(state), a, random)
      ensures state == if r.Ok? then r.value else old(state)
      ensures old(Valid()) && TypedAction(a) ==> Valid()
    {
      r := Reduce(state, a, random);
      if r.Ok? {
        state := r.value;
      }
    }

    /** The camera's scan callback. It reaches the handler only when the
        scanner is rendered (permission granted) and the handler is installed
        (`scanned` false); the handler then runs the dispatches before the
        check is awaited. */
    method OnBarCodeScanned(d: string) returns (accepted: bool)
      requires Valid()
      modifies this
      ensures Valid()
      ensures accepted <==> old(state.hasPermission) == Bool(true) && old(state.scanned) == Bool(false)
      ensures accepted ==> Render(old(state)) == Scanner(false, true)
      ensures accepted ==> Run(old(state), StartDispatches(d)) == Ok(state)
      ensures !accepted ==> state == old(state)
    {
      accepted := Render(state).Scanner? && Render(state).acceptsScans;
      if accepted {
        var r := Dispatch(Action("SET_SCANNED", Bool(true)), 0.0);
        r := Dispatch(Action("SET_DATA", Text(d)), 0.0);
        r := Dispatch(Action("SET_POSITION_I", Null), 0.0);
        ScanStartEffect(old(state), d);
      }
    }

    /** The rest of the scan handler once `checkValidity` has resolved with
        the outcome of `coin`; `key` is the random number `SET_KEY` draws.
        Returns the result and the toast shown for it. */
    method FinishScan(d: string, coin: Random, key: Random) returns (res: string, toast: Toast)
      requires Valid()
      modifies this
      ensures Valid()
      ensures res == CheckValidity(coin) && toast == ToastFor(res)
      ensures Run(old(state), FinishDispatches(d, res, key)) == Ok(state)
    {
      res := CheckValidity(coin);
      var r := Dispatch(Action("SET_POSITION_I", Null), 0.0);
      r := Dispatch(Action("SET_RESULT", Text(res)), 0.0);
      r := Dispatch(Action("SET_KEY", Null), key);
      r := Dispatch(Action("SET_HISTORY", Text(d)), 0.0);
      r := Dispatch(Action("SET_DATA", Null), 0.0);
      ScanFinishEffect(old(state), d, res, key);
      toast := ToastFor(res);
    }

    /** The timer set by the scan handler: close the sheet. */
    method OnScanTimeout()
      requires Valid()
      modifies this
      ensures Valid() && HandlerInstalled(state)
      ensures Run(old(state), TimeoutDispatches()) == Ok(state)
    {
      var r := Dispatch(Action("SET_SCANNED", Bool(false)), 0.0);
      TimeoutReinstallsHandler(old(state));
    }

    /** The sheet's open/close callback stores the sheet's new state; there
        is no sheet unless the scanner view is rendered. */
    method OnOpenChange(open: bool)
      requires Valid()
      modifies this
      ensures Valid()
      ensures Render(old(state)).Scanner? ==> state == old(state).(scanned := Bool(open))
      ensures !Render(old(state)).Scanner? ==> state == old(state)
    {
      if Render(state).Scanner? {
        var r := Dispatch(Action("SET_SCANNED", Bool(open)), 0.0);
      }
    }

    /** The sheet's position callback stores the sheet's new snap position;
        there is no sheet unless the scanner view is rendered. */
    method OnPositionChange(position: real)
      requires Valid()
      modifies this
      ensures Valid()
      ensures Render(old(state)).Scanner? ==> state == old(state).(position := Number(position))
      ensures !Render(old(state)).Scanner? ==> state == old(state)
    {
      if Render(state).Scanner? {
        var r := Dispatch(Action("SET_POSITION", Number(position)), 0.0);
      }
    }
  }
}
