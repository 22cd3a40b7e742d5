/**
  Element handles crossing instruction boundaries (src/utils.rs:5-13 and the
  selection and element instructions of src/lib.rs, e.g. 266-275, 393-402).

  A selection instruction turns the element it found into a JSON string; an
  element instruction parses such a string and binds it to the open session.
  The JSON conversion, the parser and the binding live in libraries outside
  this model, so they are parameters here: `toJson` and `render` for
  serialising, `parse` and `bind` for deserialising. `J` is the JSON value
  type and `E` the live element type.
*/
module ElementCodec {
  import opened Wrappers
  import opened Session

  /** The text put in front of a JSON parse error. */
  const ParseErrorPrefix: string := "Invalid element parameter: "

  /** The text put in front of a binding error. */
  const BindErrorPrefix: string := "Invalid element: "

  /** The message reports a malformed parameter rather than a failed binding. */
  predicate IsParseError(message: string) {
    ParseErrorPrefix <= message
  }

  /** `serialise_elem`: the element's JSON form as a string; a failing conversion is passed on. */
  function Serialise<J, E>(elem: E, toJson: E -> Result<J, string>, render: J -> string): (r: Result<string, string>)
    ensures r.Success? <==> toJson(elem).Success?
    ensures r.Success? ==> r.value == render(toJson(elem).value)
    ensures r.Failure? ==> r.error == toJson(elem).error
  {
    match toJson(elem)
    case Failure(e) => Failure(e)
    case Success(j) => Success(render(j))
  }

  /**
    `deserialise_elem`: parse the string, then bind the JSON to the session.
    A parse failure is reported before binding is tried, and the two kinds of
    failure are told apart by their messages.
  */
  function Deserialise<J, E>(
    session: Driver, s: string,
    parse: string -> Result<J, string>, bind: (J, Driver) -> Result<E, string>): (r: Result<E, string>)
    ensures r.Success? <==> parse(s).Success? && bind(parse(s).value, session).Success?
    ensures r.Success? ==> r.value == bind(parse(s).value, session).value
    ensures r.Failure? ==> (IsParseError(r.error) <==> parse(s).Failure?)
    ensures parse(s).Failure? ==> r.Failure? && r.error == ParseErrorPrefix + parse(s).error
    ensures parse(s).Success? && r.Failure? ==> r.error == BindErrorPrefix + bind(parse(s).value, session).error
  {
    match parse(s)
    case Failure(e) => Failure(ParseErrorPrefix + e)
    case Success(j) =>
      match bind(j, session)
      case Failure(e) =>
        var m := BindErrorPrefix + e;
        // The two prefixes first differ at index 15 (' ' against ':'), so a bind error never reads as a parse error.
        assert m[15] != ParseErrorPrefix[15];
        Failure(m)
      case Success(elem) => Success(elem)
  }

  /**
    A selection instruction: the guard, the element query against the open
    session, then serialisation of the element found.
  */
  function SelectInstruction<J, E>(
    b: Browser, query: Driver -> Result<E, Error>,
    toJson: E -> Result<J, string>, render: J -> string): (r: Result<string, Error>)
    ensures !Ready(b) ==> r.Failure? && r.error == NotInitialised
    ensures Ready(b) && query(b.driver.value).Failure? ==> r.Failure? && r.error == query(b.driver.value).error
    ensures r.Success? ==>
      && Ready(b)
      && query(b.driver.value).Success?
      && Serialise(query(b.driver.value).value, toJson, render) == Success(r.value)
    ensures Ready(b) && query(b.driver.value).Success? ==>
      r == (match Serialise(query(b.driver.value).value, toJson, render)
            case Success(s) => Success(s)
            case Failure(m) => Failure(InstructionFailed(m)))
  {
    match Guard(b)
    case Failure(e) => Failure(e)
    case Success(d) =>
      match query(d)
      case Failure(e) => Failure(e)
      case Success(elem) =>
        match Serialise(elem, toJson, render)
        case Failure(m) => Failure(InstructionFailed(m))
        case Success(s) => Success(s)
  }

  /**
    An element instruction: the guard, then deserialisation against the open
    session, then the action on the element. A missing session is reported
    before the parameter is looked at.
  */
  function ElementInstruction<J, E>(
    b: Browser, element: string,
    parse: string -> Result<J, string>, bind: (J, Driver) -> Result<E, string>,
    action: E -> Outcome<Error>): (r: Outcome<Error>)
    ensures !Ready(b) ==> r == Fail(NotInitialised)
    ensures Ready(b) && Deserialise(b.driver.value, element, parse, bind).Failure? ==>
      r == Fail(InstructionFailed(Deserialise(b.driver.value, element, parse, bind).error))
    ensures Ready(b) && Deserialise(b.driver.value, element, parse, bind).Success? ==>
      r == action(Deserialise(b.driver.value, element, parse, bind).value)
  {
    match Guard(b)
    case Failure(e) => Fail(e)
    case Success(d) =>
      match Deserialise(d, element, parse, bind)
      case Failure(m) => Fail(InstructionFailed(m))
      case Success(elem) => action(elem)
  }

  /**
    The round trip across two instructions: when rendering and parsing JSON
    are inverse and the session binds an element's own JSON back to it, a
    serialised element deserialises to the same element.
  */
  lemma RoundTrip<J, E>(
    session: Driver, elem: E,
    toJson: E -> Result<J, string>, render: J -> string,
    parse: string -> Result<J, string>, bind: (J, Driver) -> Result<E, string>)
    requires toJson(elem).Success?
    requires parse(render(toJson(elem).value)) == Success(toJson(elem).value)
    requires bind(toJson(elem).value, session) == Success(elem)
    ensures Serialise(elem, toJson, render).Success?
    ensures Deserialise(session, Serialise(elem, toJson, render).value, parse, bind) == Success(elem)
  {
  }

  /**
    The handle a selection instruction outputs, passed to an element
    instruction on the same state, reaches the action as the element the query
    found, provided the JSON libraries round-trip that element.
  */
  lemma SelectThenAct<J, E>(
    b: Browser, query: Driver -> Result<E, Error>,
    toJson: E -> Result<J, string>, render: J -> string,
    parse: string -> Result<J, string>, bind: (J, Driver) -> Result<E, string>,
    action: E -> Outcome<Error>)
    requires SelectInstruction(b, query, toJson, render).Success?
    requires var elem := query(b.driver.value).value;
      && parse(render(toJson(elem).value)) == Success(toJson(elem).value)
      && bind(toJson(elem).value, b.driver.value) == Success(elem)
    ensures ElementInstruction(b, SelectInstruction(b, query, toJson, render).value, parse, bind, action)
      == action(query(b.driver.value).value)
  {
    var elem := query(b.driver.value).value;
    RoundTrip(b.driver.value, elem, toJson, render, parse, bind);
  }
}
