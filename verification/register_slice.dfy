/**
 * The registration slice: three fields that hold what the user typed on the
 * registration form until the request completes. `undefined` is None and
 * `null` is Some(JNull).
 */
module RegisterSlice {
  import opened Js

  datatype RegisterState = RegisterState(name: Option<Json>, email: Option<Json>, password: Option<Json>)

  /** `initialState`: all three fields null. */
  const InitialState := RegisterState(Some(JNull), Some(JNull), Some(JNull))

  class Slice {
    var name: Option<Json>
    var email: Option<Json>
    var password: Option<Json>

    function State(): RegisterState
      reads this
    {
      RegisterState(name, email, password)
    }

    constructor ()
      ensures State() == InitialState
    {
      name, email, password := Some(JNull), Some(JNull), Some(JNull);
    }

    /** `setRegister`: copies `name`, `email` and `password` from the payload, whatever they are. */
    method SetRegister(payload: map<string, Json>)
      modifies this
      ensures name == Get(payload, "name")
      ensures email == Get(payload, "email")
      ensures password == Get(payload, "password")
    {
      name := Get(payload, "name");
      email := Get(payload, "email");
      password := Get(payload, "password");
    }

    /** `clearRegister`: back to the initial state from any state. */
    method ClearRegister()
      modifies this
      ensures State() == InitialState
    {
      name := Some(JNull);
      email := Some(JNull);
      password := Some(JNull);
    }
  }

  /**
   * A registration round: the form is stored, then cleared twice. Clearing is
   * idempotent and undoes whatever was stored.
   */
  method SetThenClear(payload: map<string, Json>) returns (stored: RegisterState, cleared: RegisterState)
    ensures stored.name == Get(payload, "name") && stored.email == Get(payload, "email")
    ensures stored.password == Get(payload, "password")
    ensures cleared == InitialState
  {
    var s := new Slice();
    s.SetRegister(payload);
    stored := s.State();
    s.ClearRegister();
    s.ClearRegister();
    cleared := s.State();
  }
}
