/** The client's auth reducer (client/src/reducers/authReducer.js): a pure
    transition over the auth slice of the store, with one recognised action. */
module AuthReducer {

  datatype Option<T> = None | Some(value: T)

  /** The JavaScript values an action may carry. */
  datatype Json =
    | Undefined
    | Null
    | Bool(b: bool)
    | Num(n: int)
    | Str(s: string)
    | Arr(items: seq<Json>)
    | Obj(fields: map<string, Json>)

  /** A plain JavaScript object: the auth slice may carry any other keys. */
  type AuthState = map<string, Json>

  /** The action type constant imported from `actions/types`. */
  const SET_CURRENT_USER: string := "SET_CURRENT_USER"

  /** `{ type, payload }`; an action without a payload carries `Undefined`. */
  datatype Action = Action(kind: string, payload: Json)

  /** The reducer's answer: the next state, or the `TypeError` thrown by
      reading `payload.user` when the payload is `null` or `undefined`. */
  datatype Reduced = Next(state: AuthState) | Threw

  /** `{ isAuthenticated: false, user: {}, token: null }`. */
  const InitialState: AuthState :=
    map["isAuthenticated" := Bool(false), "user" := Obj(map[]), "token" := Null]

  /** The three keys the recognised action overwrites. */
  const AuthKeys: set<string> := {"isAuthenticated", "user", "token"}

  /** Reading a property throws only on `null` and `undefined`. */
  predicate Nullish(v: Json) {
    v.Undefined? || v.Null?
  }

  /** `v[key]` for a value that does not throw: the field of an object, and
      `undefined` for a missing field or a non-object. */
  function Member(v: Json, key: string): Json
    requires !Nullish(v)
  {
    if v.Obj? && key in v.fields then v.fields[key] else Undefined
  }

  /** The default parameter `state = initialState`: `None` is `undefined`. */
  function Current(state: Option<AuthState>): AuthState {
    if state.Some? then state.value else InitialState
  }

  /** The reducer; `isEmpty` is the helper of `validation/is-empty`, which is
      not part of this model. */
  function Reduce(state: Option<AuthState>, action: Action, isEmpty: Json -> bool): (r: Reduced)
    ensures action.kind != SET_CURRENT_USER ==> r == Next(Current(state))
    ensures action.kind == SET_CURRENT_USER ==> (r.Threw? <==> Nullish(action.payload))
    ensures action.kind == SET_CURRENT_USER && r.Next? ==>
      r.state.Keys == Current(state).Keys + AuthKeys &&
      r.state["isAuthenticated"] == Bool(!isEmpty(action.payload)) &&
      r.state["user"] == Member(action.payload, "user") &&
      r.state["token"] == Member(action.payload, "token") &&
      (forall k :: k in Current(state) && k !in AuthKeys ==> r.state[k] == Current(state)[k])
  {
    var s := Current(state);
    if action.kind != SET_CURRENT_USER then Next(s)
    else if Nullish(action.payload) then Threw
    else
      Next(s["isAuthenticated" := Bool(!isEmpty(action.payload))]
            ["user" := Member(action.payload, "user")]
            ["token" := Member(action.payload, "token")])
  }

  /** Without a state the reducer starts from the unauthenticated initial state. */
  lemma InitialStateWhenAbsent(action: Action, isEmpty: Json -> bool)
    ensures Reduce(None, action, isEmpty) == Reduce(Some(InitialState), action, isEmpty)
    ensures InitialState["isAuthenticated"] == Bool(false)
    ensures InitialState["user"] == Obj(map[]) && InitialState["token"] == Null
  {
  }

  /** Applying the same action twice gives what applying it once gave. */
  lemma ReduceIdempotent(state: AuthState, action: Action, isEmpty: Json -> bool)
    ensures Reduce(Some(state), action, isEmpty).Next? ==>
      var once := Reduce(Some(state), action, isEmpty).state;
      Reduce(Some(once), action, isEmpty) == Next(once)
    ensures Reduce(Some(state), action, isEmpty).Threw? ==>
      forall other :: Reduce(Some(other), action, isEmpty).Threw?
  {
  }
}
