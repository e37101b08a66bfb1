/** The counter slice of `features/counter/counterSlice.ts`.

    The slice state is a counter value and a request status. Its reducers are
    transitions from one state to the next: increment, decrement and
    increment-by-amount change the value only; the three lifecycle actions of
    `incrementAsync` set the status (and, when fulfilled, add the payload);
    `fetchUserById.fulfilled` sets the status to idle and adds the user id.
    Every other action leaves the state alone. `incrementIfOdd` is a thunk that
    dispatches `incrementByAmount` only when the current value is odd. */
module CounterSlice {
  import opened Base

  datatype Status = Idle | Loading | Failed

  /** `CounterSliceState`; the JavaScript number is modelled as an integer. */
  datatype CounterState = CounterState(value: int, status: Status)

  /** The user record `fetchUserById` fulfils with. */
  datatype User = User(userId: int, name: string)

  /** The `type` strings of the actions the slice reduces: its own case
      reducers under the slice name `counter`, the lifecycle of
      `incrementAsync`, and the fulfilled action of `fetchUserById`. */
  const HandledTypes: set<string> := {
    "counter/increment", "counter/decrement", "counter/incrementByAmount",
    "counter/incrementAsync/pending", "counter/incrementAsync/fulfilled",
    "counter/incrementAsync/rejected", "users/fetchByIdStatus/fulfilled"
  }

  /** An action type the slice does not handle. */
  type UnhandledType = t: string | t !in HandledTypes witness "other/action"

  /** The actions the slice reduces, and a catch-all for every other action type. */
  datatype Action =
    | Increment
    | Decrement
    | IncrementByAmount(amount: int)
    | IncrementAsyncPending
    | IncrementAsyncFulfilled(payload: int)
    | IncrementAsyncRejected
    | FetchUserByIdFulfilled(user: User)
    | OtherAction(actionType: UnhandledType)

  const InitialState: CounterState := CounterState(0, Idle)

  function SelectCount(s: CounterState): int
  {
    s.value
  }

  function SelectStatus(s: CounterState): Status
  {
    s.status
  }

  /** The slice reducer: the case reducers and the extra reducer, by action. */
  function Reduce(s: CounterState, a: Action): (r: CounterState)
    ensures r.value == s.value + Delta(a)
    ensures r.status == (if StatusSet(a).Some? then StatusSet(a).value else s.status)
  {
    match a
    case Increment => s.(value := s.value + 1)
    case Decrement => s.(value := s.value - 1)
    case IncrementByAmount(n) => s.(value := s.value + n)
    case IncrementAsyncPending => s.(status := Loading)
    case IncrementAsyncFulfilled(n) => CounterState(s.value + n, Idle)
    case IncrementAsyncRejected => s.(status := Failed)
    case FetchUserByIdFulfilled(u) => CounterState(s.value + u.userId, Idle)
    case OtherAction(_) => s
  }

  /** The state after dispatching the actions in order. */
  function Run(s: CounterState, actions: seq<Action>): CounterState
  {
    if actions == [] then s else Reduce(Run(s, actions[..|actions| - 1]), actions[|actions| - 1])
  }

  // ---------------------------------------------------------------------------
  // A reference for the reducer: each action's effect on the value and on the status

  /** How much an action adds to the value. */
  function Delta(a: Action): int
  {
    match a
    case Increment => 1
    case Decrement => -1
    case IncrementByAmount(n) => n
    case IncrementAsyncFulfilled(n) => n
    case FetchUserByIdFulfilled(u) => u.userId
    case _ => 0
  }

  /** The status an action sets, if it sets one. */
  function StatusSet(a: Action): Option<Status>
  {
    match a
    case IncrementAsyncPending => Some(Loading)
    case IncrementAsyncFulfilled(_) => Some(Idle)
    case IncrementAsyncRejected => Some(Failed)
    case FetchUserByIdFulfilled(_) => Some(Idle)
    case _ => None
  }

  function TotalDelta(actions: seq<Action>): int
  {
    if actions == [] then 0 else TotalDelta(actions[..|actions| - 1]) + Delta(actions[|actions| - 1])
  }

  /** The status after `actions`: the last one set, or `initial` when none sets one. */
  function LastStatus(initial: Status, actions: seq<Action>): Status
  {
    if actions == [] then initial
    else match StatusSet(actions[|actions| - 1])
      case Some(st) => st
      case None => LastStatus(initial, actions[..|actions| - 1])
  }

  // ---------------------------------------------------------------------------
  // Thunks

  /** JavaScript's `a % 2`: the remainder takes the sign of the dividend
      (Dafny's `%` is Euclidean and never negative). */
  function JsRemainderTwo(a: int): (r: int)
    ensures a >= 0 ==> 0 <= r <= 1
    ensures a < 0 ==> -1 <= r <= 0
  {
    if a >= 0 then a % 2 else -((-a) % 2)
  }

  /** The action `incrementIfOdd(amount)` dispatches, if any, given the state it reads. */
  function IncrementIfOdd(amount: int, s: CounterState): (dispatched: Option<Action>)
    ensures dispatched.Some? <==> s.value % 2 == 1
    ensures dispatched.Some? ==> dispatched.value == IncrementByAmount(amount)
  {
    var rem := JsRemainderTwo(SelectCount(s));
    if rem == 1 || rem == -1 then Some(IncrementByAmount(amount)) else None
  }

  /** The state after running `incrementIfOdd(amount)`. */
  function AfterIncrementIfOdd(amount: int, s: CounterState): (r: CounterState)
    ensures s.value % 2 == 1 ==> r == CounterState(s.value + amount, s.status)
    ensures s.value % 2 != 1 ==> r == s
  {
    match IncrementIfOdd(amount, s)
    case Some(a) => Reduce(s, a)
    case None => s
  }

  /** How a thunk made by `createEffectThunk` settles. */
  datatype Settlement<A, E> = Fulfilled(payload: A) | Rejected(rejectValue: E)

  /** The `Either` branch of `createEffectThunk`: reject with `left`, fulfil with `right`. */
  function SettleEffectThunk<A, E>(outcome: Either<E, A>): (r: Settlement<A, E>)
    ensures r.Rejected? <==> outcome.Left?
    ensures outcome.Left? ==> r.rejectValue == outcome.left
    ensures outcome.Right? ==> r.payload == outcome.right
  {
    if outcome.Left? then Rejected(outcome.left) else Fulfilled(outcome.right)
  }

  // ---------------------------------------------------------------------------
  // Properties

  /** Each reducer changes the value by its action's delta and the status as
      its action sets it, and nothing else. */
  lemma ReduceMatchesReference(s: CounterState, a: Action)
    ensures Reduce(s, a).value == s.value + Delta(a)
    ensures Reduce(s, a).status == (if StatusSet(a).Some? then StatusSet(a).value else s.status)
  {
  }

  /** After any sequence of actions, the value has moved by the sum of their deltas. */
  lemma {:induction false} RunValue(s: CounterState, actions: seq<Action>)
    ensures Run(s, actions).value == s.value + TotalDelta(actions)
  {
    if actions != [] {
      RunValue(s, actions[..|actions| - 1]);
      ReduceMatchesReference(Run(s, actions[..|actions| - 1]), actions[|actions| - 1]);
    }
  }

  /** After any sequence of actions, the status is the one the last status-setting action set. */
  lemma {:induction false} RunStatus(s: CounterState, actions: seq<Action>)
    ensures Run(s, actions).status == LastStatus(s.status, actions)
  {
    if actions != [] {
      RunStatus(s, actions[..|actions| - 1]);
      ReduceMatchesReference(Run(s, actions[..|actions| - 1]), actions[|actions| - 1]);
    }
  }

  /** An unknown action on the initial state gives the initial state `{value: 0, status: idle}`. */
  lemma InitialStateUnknownAction(t: UnhandledType)
    ensures Reduce(InitialState, OtherAction(t)) == CounterState(0, Idle)
  {
  }

  /** Increment and decrement undo each other. */
  lemma IncrementDecrementInverse(s: CounterState)
    ensures Reduce(Reduce(s, Increment), Decrement) == s
    ensures Reduce(Reduce(s, Decrement), Increment) == s
  {
  }

  /** Two increments by amount add up: `n` then `m` is one increment by `n + m`. */
  lemma IncrementByAmountAdds(s: CounterState, n: int, m: int)
    ensures Reduce(Reduce(s, IncrementByAmount(n)), IncrementByAmount(m)) == Reduce(s, IncrementByAmount(n + m))
    ensures Reduce(s, IncrementByAmount(1)) == Reduce(s, Increment)
  {
  }

  /** The `incrementAsync` lifecycle: pending then fulfilled adds the payload
      and ends idle; pending then rejected keeps the value and ends failed. */
  lemma {:induction false} IncrementAsyncLifecycle(s: CounterState, n: int)
    ensures Run(s, [IncrementAsyncPending]).status == Loading
    ensures Run(s, [IncrementAsyncPending, IncrementAsyncFulfilled(n)]) == CounterState(s.value + n, Idle)
    ensures Run(s, [IncrementAsyncPending, IncrementAsyncRejected]) == CounterState(s.value, Failed)
  {
    assert [IncrementAsyncPending][..0] == [];
    assert [IncrementAsyncPending, IncrementAsyncFulfilled(n)][..1] == [IncrementAsyncPending];
    assert [IncrementAsyncPending, IncrementAsyncRejected][..1] == [IncrementAsyncPending];
  }

  /** JavaScript's `x % 2` is 1 or -1 exactly for odd `x`: the `=== -1` test
      is what makes negative odd values count. */
  lemma OddRemainder(x: int)
    ensures (JsRemainderTwo(x) == 1 || JsRemainderTwo(x) == -1) <==> x % 2 == 1
    ensures x < 0 && x % 2 == 1 ==> JsRemainderTwo(x) == -1
  {
  }

  /** `incrementIfOdd` adds the amount to an odd value and leaves every other state unchanged. */
  lemma IncrementIfOddEffect(amount: int, s: CounterState)
    ensures s.value % 2 == 1 ==> AfterIncrementIfOdd(amount, s) == CounterState(s.value + amount, s.status)
    ensures s.value % 2 != 1 ==> AfterIncrementIfOdd(amount, s) == s
  {
  }

  /** A fulfilled `fetchUserById` for user 2 on a counter at 3 leaves it at 5, idle. */
  lemma FetchUserByIdExample(s: CounterState)
    requires s.value == 3
    ensures Reduce(s, FetchUserByIdFulfilled(User(2, "some-name"))) == CounterState(5, Idle)
  {
  }
}
