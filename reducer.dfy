/** The screen's state record and its reducer (v9/apps/expo/app/index.tsx). */
module Reducer {
  import opened Values

  /** `positions.length`: the animation table that `positionI` indexes has
      three entries. Their contents are presentation only. */
  const PositionCount: nat := 3

  /** The nine-field state held by `useReducer`. `key` is only ever `0` or a
      value of `Math.random()`, and `positionI` only ever `0` or a remainder,
      so those two keep their numeric types; the other fields hold whatever
      payload was dispatched. */
  datatype State = State(
    hasPermission: Value,
    scanned: Value,
    data: Value,
    position: Value,
    history: seq<Value>,
    loading: Value,
    key: real,
    positionI: nat,
    result: Value)

  const InitialState: State :=
    State(Bool(false), Bool(false), Null, Number(0.0), [], Bool(false), 0.0, 0, Null)

  /** An action object `{ type, payload }`. Actions sent without a payload
      (`SET_POSITION_I`, `SET_KEY`, whose payload the reducer ignores) carry
      `Null` here where JavaScript has `undefined`. */
  datatype Action = Action(kind: string, payload: Value)

  /** The error the reducer throws for an action type it does not handle; its
      message is the same for every such type. */
  datatype Error = UnhandledActionType

  datatype Result<T> = Ok(value: T) | Err(error: Error)

  const HandledKinds: set<string> := {
    "SET_HAS_PERMISSION", "SET_SCANNED", "SET_DATA", "SET_POSITION", "SET_HISTORY",
    "SET_LOADING", "SET_KEY", "SET_POSITION_I", "SET_RESULT"
  }

  /** `reducer(state, action)`. `random` is what `Math.random()` returns if the
      reducer calls it; only `SET_KEY` does. */
  function Reduce(s: State, a: Action, random: Random): (r: Result<State>)
    ensures r.Err? <==> a.kind !in HandledKinds
  {
    match a.kind
    case "SET_HAS_PERMISSION" => Ok(s.(hasPermission := a.payload))
    case "SET_SCANNED" => Ok(s.(scanned := a.payload))
    case "SET_DATA" => Ok(s.(data := a.payload))
    case "SET_POSITION" => Ok(s.(position := a.payload))
    case "SET_HISTORY" => Ok(s.(history := s.history + [a.payload]))
    case "SET_LOADING" => Ok(s.(loading := a.payload))
    case "SET_KEY" => Ok(s.(key := random))
    case "SET_POSITION_I" => Ok(s.(positionI := (s.positionI + 1) % PositionCount))
    case "SET_RESULT" => Ok(s.(result := a.payload))
    case _ => Err(UnhandledActionType)
  }

  /** One call of `dispatch`, together with the value `Math.random()` yields
      while the reducer handles it (ignored by every action but `SET_KEY`). */
  datatype Dispatch = Dispatch(action: Action, random: Random)

  /** A dispatch whose action never consults `Math.random()`. */
  function Plain(kind: string, payload: Value): Dispatch
  {
    Dispatch(Action(kind, payload), 0.0)
  }

  /** The state after a sequence of dispatches, or the first error thrown. */
  function Run(s: State, ds: seq<Dispatch>): (r: Result<State>)
    ensures r.Err? <==> exists i :: 0 <= i < |ds| && ds[i].action.kind !in HandledKinds
    decreases |ds|
  {
    if ds == [] then Ok(s)
    else
      match Reduce(s, ds[0].action, ds[0].random)
      case Err(e) => Err(e)
      case Ok(next) =>
        var r := Run(next, ds[1..]);
        assert forall i :: 1 <= i < |ds| ==> ds[i] == ds[1..][i - 1];
        r
  }

  /** Running a non-empty sequence is one reduction followed by the rest. */
  lemma RunStep(s: State, ds: seq<Dispatch>)
    requires ds != [] && ds[0].action.kind in HandledKinds
    ensures Run(s, ds) == Run(Reduce(s, ds[0].action, ds[0].random).value, ds[1..])
  {
  }

  lemma {:induction false} RunAppend(s: State, xs: seq<Dispatch>, ys: seq<Dispatch>)
    ensures Run(s, xs + ys) == match Run(s, xs)
                               case Err(e) => Err(e)
                               case Ok(t) => Run(t, ys)
    decreases |xs|
  {
    if xs != [] {
      assert (xs + ys)[0] == xs[0];
      assert (xs + ys)[1..] == xs[1..] + ys;
      match Reduce(s, xs[0].action, xs[0].random)
      case Err(e) =>
      case Ok(next) => RunAppend(next, xs[1..], ys);
    } else {
      assert xs + ys == ys;
    }
  }

  /** The fields that a plain setter action overwrites with its payload. */
  datatype Field = HasPermission | Scanned | Data | Position | Loading | ResultField

  function SetterKind(f: Field): string
  {
    match f
    case HasPermission => "SET_HAS_PERMISSION"
    case Scanned => "SET_SCANNED"
    case Data => "SET_DATA"
    case Position => "SET_POSITION"
    case Loading => "SET_LOADING"
    case ResultField => "SET_RESULT"
  }

  function Get(s: State, f: Field): Value
  {
    match f
    case HasPermission => s.hasPermission
    case Scanned => s.scanned
    case Data => s.data
    case Position => s.position
    case Loading => s.loading
    case ResultField => s.result
  }

  /** Each setter stores its payload in its own field and leaves every other
      field as it was. */
  lemma SetterChangesOnlyItsField(s: State, f: Field, v: Value, random: Random)
    ensures var r := Reduce(s, Action(SetterKind(f), v), random);
      && r.Ok?
      && Get(r.value, f) == v
      && (forall g :: g != f ==> Get(r.value, g) == Get(s, g))
      && r.value.history == s.history
      && r.value.key == s.key
      && r.value.positionI == s.positionI
  {
  }

  /** Dispatching the same setter twice has the effect of dispatching it once. */
  lemma SetterIdempotent(s: State, f: Field, v: Value, random1: Random, random2: Random)
    ensures var a := Action(SetterKind(f), v);
      var r := Reduce(s, a, random1);
      r.Ok? && Reduce(r.value, a, random2) == r
  {
  }

  /** `SET_HISTORY` appends its payload: one entry longer, the old entries
      untouched, the payload last, and no other field changed. */
  lemma HistoryAppends(s: State, v: Value, random: Random)
    ensures var r := Reduce(s, Action("SET_HISTORY", v), random);
      && r.Ok?
      && |r.value.history| == |s.history| + 1
      && r.value.history[..|s.history|] == s.history
      && r.value.history[|s.history|] == v
      && r.value.(history := s.history) == s
  {
  }

  /** `SET_POSITION_I` moves `positionI` one step round the `positions` table. */
  lemma PositionIAdvances(s: State, v: Value, random: Random)
    ensures var r := Reduce(s, Action("SET_POSITION_I", v), random);
      && r.Ok?
      && r.value.positionI < PositionCount
      && (s.positionI + 1 < PositionCount ==> r.value.positionI == s.positionI + 1)
      && (s.positionI + 1 == PositionCount ==> r.value.positionI == 0)
      && r.value.(positionI := s.positionI) == s
  {
  }

  /** `SET_KEY` ignores its payload and stores a fresh random number as the key. */
  lemma KeyChangesOnlyKey(s: State, v: Value, random: Random)
    ensures var r := Reduce(s, Action("SET_KEY", v), random);
      && r.Ok?
      && r.value.key == random
      && 0.0 <= r.value.key < 1.0
      && r.value.(key := s.key) == s
  {
  }

  /** The reducer throws on an unknown type and then yields no state at all. */
  lemma UnhandledIsError(s: State, a: Action, random: Random)
    requires a.kind !in HandledKinds
    ensures Reduce(s, a, random) == Err(UnhandledActionType)
    ensures Run(s, [Dispatch(a, random)]).Err?
  {
  }
}
