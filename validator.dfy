/** The request-body validation table: named chains of field rules, each chain
    closed by the handler that answers 422 when some rule failed. */
module Validator {
  import opened Http
  import opened SetFacts

  /** One middleware of a chain: a rule `body(path)` with its checks, or `validationHandler`. */
  datatype Middleware = Rule(path: string, checks: seq<Check>) | Handler

  /** The request body, flattened: `"user.email"` maps to the value at `req.body.user.email`;
      a path that is not a key is undefined. */
  type Body = map<string, string>

  /** The value a check sees; an undefined field is seen as "". */
  function ValueAt(body: Body, path: string): string
  {
    if path in body then body[path] else ""
  }

  predicate Passes(body: Body, isEmail: string -> bool, path: string, c: Check)
  {
    match c
    case Exists => path in body
    case IsEmail => isEmail(ValueAt(body, path))
  }

  /** The errors one rule records: one per failing check, in chain order. */
  function RuleErrors(body: Body, isEmail: string -> bool, path: string, checks: seq<Check>): (errs: seq<FieldError>)
    ensures |errs| <= |checks|
    ensures forall j :: 0 <= j < |errs| ==>
              errs[j].path == path && errs[j].check in checks && !Passes(body, isEmail, path, errs[j].check)
    decreases |checks|
  {
    if checks == [] then []
    else
      (if Passes(body, isEmail, path, checks[0]) then [] else [FieldError(path, checks[0])])
      + RuleErrors(body, isEmail, path, checks[1..])
  }

  /** The errors a sequence of rules records (a handler records none). */
  function Errors(chain: seq<Middleware>, body: Body, isEmail: string -> bool): (errs: seq<FieldError>)
    ensures forall j :: 0 <= j < |errs| ==> !Passes(body, isEmail, errs[j].path, errs[j].check)
    decreases |chain|
  {
    if chain == [] then []
    else
      (match chain[0]
       case Rule(path, checks) => RuleErrors(body, isEmail, path, checks)
       case Handler => [])
      + Errors(chain[1..], body, isEmail)
  }

  /** A rule fails iff one of its checks fails. */
  lemma {:induction false} RuleErrorsEmpty(body: Body, isEmail: string -> bool, path: string, checks: seq<Check>)
    ensures RuleErrors(body, isEmail, path, checks) == [] <==>
              forall k :: 0 <= k < |checks| ==> Passes(body, isEmail, path, checks[k])
    decreases |checks|
  {
    if checks != [] {
      RuleErrorsEmpty(body, isEmail, path, checks[1..]);
      assert forall k :: 1 <= k < |checks| ==> checks[k] == checks[1..][k - 1];
    }
  }

  /** Errors of a concatenation are the concatenated errors. */
  lemma {:induction false} ErrorsAppend(a: seq<Middleware>, b: seq<Middleware>, body: Body, isEmail: string -> bool)
    ensures Errors(a + b, body, isEmail) == Errors(a, body, isEmail) + Errors(b, body, isEmail)
    decreases |a|
  {
    if a != [] {
      assert (a + b)[1..] == a[1..] + b;
      ErrorsAppend(a[1..], b, body, isEmail);
    } else {
      assert a + b == b;
    }
  }

  /** No error is recorded iff every check of every rule passes. */
  lemma {:induction false} ErrorsEmpty(chain: seq<Middleware>, body: Body, isEmail: string -> bool)
    ensures Errors(chain, body, isEmail) == [] <==>
              forall i, k :: 0 <= i < |chain| && chain[i].Rule? && 0 <= k < |chain[i].checks| ==>
                Passes(body, isEmail, chain[i].path, chain[i].checks[k])
    decreases |chain|
  {
    if chain != [] {
      ErrorsEmpty(chain[1..], body, isEmail);
      assert forall i :: 1 <= i < |chain| ==> chain[i] == chain[1..][i - 1];
      if chain[0].Rule? {
        RuleErrorsEmpty(body, isEmail, chain[0].path, chain[0].checks);
      }
    }
  }

  /** How a request leaves a chain: answered 422 by a handler, or passed on to the
      route's own handler with the errors recorded so far. */
  datatype Verdict = Rejected(errors: seq<FieldError>) | Passed(errors: seq<FieldError>)

  /** `validationHandler`: 422 with the recorded errors iff there are any, else `next()`. */
  function ValidationHandler(errs: seq<FieldError>): (v: Verdict)
    ensures v.Rejected? <==> errs != []
    ensures v.errors == errs
  {
    if errs != [] then Rejected(errs) else Passed(errs)
  }

  /** Express running a chain: each rule records its errors and calls `next()`;
      a handler stops the request if anything was recorded. */
  function Run(chain: seq<Middleware>, body: Body, isEmail: string -> bool, errs: seq<FieldError>): (v: Verdict)
    ensures errs <= v.errors
    ensures v.Rejected? ==> v.errors != []
    decreases |chain|
  {
    if chain == [] then Passed(errs)
    else match chain[0]
      case Rule(path, checks) =>
        Run(chain[1..], body, isEmail, errs + RuleErrors(body, isEmail, path, checks))
      case Handler =>
        match ValidationHandler(errs)
        case Rejected(e) => Rejected(e)
        case Passed(_) => Run(chain[1..], body, isEmail, errs)
  }

  predicate OnlyRules(chain: seq<Middleware>)
  {
    forall i :: 0 <= i < |chain| ==> chain[i].Rule?
  }

  /** A chain of rules closed by one handler answers 422 exactly with all the
      errors its rules record, and lets the request through iff there are none. */
  lemma {:induction false} RunClosedChain(rules: seq<Middleware>, body: Body, isEmail: string -> bool, errs: seq<FieldError>)
    requires OnlyRules(rules)
    ensures Run(rules + [Handler], body, isEmail, errs) ==
              var all := errs + Errors(rules, body, isEmail);
              if all == [] then Passed([]) else Rejected(all)
    decreases |rules|
  {
    if rules == [] {
      assert rules + [Handler] == [Handler];
    } else {
      assert (rules + [Handler])[1..] == rules[1..] + [Handler];
      var r := rules[0];
      RunClosedChain(rules[1..], body, isEmail, errs + RuleErrors(body, isEmail, r.path, r.checks));
      assert errs + RuleErrors(body, isEmail, r.path, r.checks) + Errors(rules[1..], body, isEmail)
          == errs + Errors(rules, body, isEmail);
    }
  }

  /** The rule chains as registered, before the handler is appended. */
  function LoginRules(): (r: seq<Middleware>)
    ensures OnlyRules(r)
    ensures forall body: Body, isEmail: string -> bool {:trigger Errors(r, body, isEmail)} ::
              Errors(r, body, isEmail) == [] <==>
                "user.email" in body && "user.password" in body && isEmail(body["user.email"])
  {
    [Rule("user.email", [Exists, IsEmail]), Rule("user.password", [Exists])]
  }

  function RegisterRules(): (r: seq<Middleware>)
    ensures OnlyRules(r)
    ensures forall body: Body, isEmail: string -> bool {:trigger Errors(r, body, isEmail)} ::
              Errors(r, body, isEmail) == [] <==>
                "user.email" in body && "user.password" in body && "user.username" in body && isEmail(body["user.email"])
  {
    [Rule("user.email", [Exists, IsEmail]), Rule("user.password", [Exists]), Rule("user.username", [Exists])]
  }

  /** The chains as the two `set` calls register them: register is login plus the username rule. */
  function Registered(): (r: map<string, seq<Middleware>>)
    ensures r.Keys == {"login", "register"}
    ensures forall name :: name in r ==> OnlyRules(r[name])
    ensures r["register"] == r["login"] + [Rule("user.username", [Exists])]
  {
    map["login" := LoginRules(), "register" := RegisterRules()]
  }

  /** The `forEach` that pushes `validationHandler` onto every chain. */
  function WithHandler(table: map<string, seq<Middleware>>): (t: map<string, seq<Middleware>>)
    ensures t.Keys == table.Keys
    ensures forall name :: name in t ==> t[name] == table[name] + [Handler]
  {
    map name | name in table :: table[name] + [Handler]
  }

  /** `validator(method)`: the chain registered under a name, if any. */
  function Lookup(table: map<string, seq<Middleware>>, name: string): (r: Option<seq<Middleware>>)
    ensures r.None? <==> name !in table
    ensures r.Some? ==> r.value == table[name]
  {
    if name in table then Some(table[name]) else None
  }

  /** The table after the module has loaded. */
  function Initialised(): (r: map<string, seq<Middleware>>)
    ensures r.Keys == Registered().Keys
    ensures forall name :: name in r ==> r[name] == Registered()[name] + [Handler]
  {
    WithHandler(Registered())
  }

  /** After loading, every chain is its rules followed by exactly one handler, at the end;
      a name that was never registered, such as `createArticle`, finds nothing. */
  lemma InitialisedShape()
    ensures Initialised().Keys == {"login", "register"}
    ensures forall name :: name in Initialised() ==>
              var chain := Initialised()[name];
              && |chain| > 0 && chain[|chain| - 1] == Handler
              && OnlyRules(chain[..|chain| - 1])
    ensures Lookup(Initialised(), "createArticle").None?
    ensures Lookup(Initialised(), "login") == Some(LoginRules() + [Handler])
    ensures Lookup(Initialised(), "register") == Some(RegisterRules() + [Handler])
  {
    forall name | name in Initialised()
      ensures var chain := Initialised()[name];
              && |chain| > 0 && chain[|chain| - 1] == Handler
              && OnlyRules(chain[..|chain| - 1])
    {
      var rules := Registered()[name];
      assert (rules + [Handler])[..|rules|] == rules;
    }
  }

  /** A registered chain answers 422 iff some check of one of its rules fails, and
      the answer lists the errors of all its rules. */
  lemma Responds422Iff(name: string, body: Body, isEmail: string -> bool)
    requires name in Registered()
    ensures var v := Run(Initialised()[name], body, isEmail, []);
            && (v.Rejected? <==> exists i, k :: 0 <= i < |Registered()[name]| && 0 <= k < |Registered()[name][i].checks| &&
                                   !Passes(body, isEmail, Registered()[name][i].path, Registered()[name][i].checks[k]))
            && (v.Rejected? ==> v.errors == Errors(Registered()[name], body, isEmail))
            && (v.Passed? ==> v.errors == [])
  {
    var rules := Registered()[name];
    RunClosedChain(rules, body, isEmail, []);
    ErrorsEmpty(rules, body, isEmail);
    assert [] + Errors(rules, body, isEmail) == Errors(rules, body, isEmail);
  }

  /** A body the register chain lets through is one the login chain lets through. */
  lemma RegisterValidIsLoginValid(body: Body, isEmail: string -> bool)
    ensures Run(Initialised()["register"], body, isEmail, []).Passed? ==>
              Run(Initialised()["login"], body, isEmail, []).Passed?
  {
    RunClosedChain(LoginRules(), body, isEmail, []);
    RunClosedChain(RegisterRules(), body, isEmail, []);
    assert RegisterRules() == LoginRules() + [Rule("user.username", [Exists])];
    ErrorsAppend(LoginRules(), [Rule("user.username", [Exists])], body, isEmail);
  }

  /** What the login chain guarantees to the login handler. */
  lemma LoginPassedHasFields(body: Body, isEmail: string -> bool)
    requires Run(Initialised()["login"], body, isEmail, []).Passed?
    ensures "user.email" in body && "user.password" in body && isEmail(body["user.email"])
  {
    Responds422Iff("login", body, isEmail);
    assert Registered()["login"][0].checks[0] == Exists;
    assert Registered()["login"][0].checks[1] == IsEmail;
    assert Registered()["login"][1].checks[0] == Exists;
  }

  /** What the register chain guarantees to the register handler. */
  lemma RegisterPassedHasFields(body: Body, isEmail: string -> bool)
    requires Run(Initialised()["register"], body, isEmail, []).Passed?
    ensures "user.email" in body && "user.password" in body && "user.username" in body
    ensures isEmail(body["user.email"])
  {
    Responds422Iff("register", body, isEmail);
    assert Registered()["register"][0].checks[0] == Exists;
    assert Registered()["register"][0].checks[1] == IsEmail;
    assert Registered()["register"][1].checks[0] == Exists;
    assert Registered()["register"][2].checks[0] == Exists;
  }

  /** The module-level `validation` Map, filled by `set` and then by the `forEach`. */
  class ValidationTable {
    var chains: map<string, seq<Middleware>>

    /** The two `set` calls. */
    constructor ()
      ensures chains == Registered()
    {
      var table := map["login" := LoginRules()];
      table := table["register" := RegisterRules()];
      chains := table;
    }

    /** `validation.forEach((value) => value.push(validationHandler))`. */
    method AppendHandler()
      modifies this
      ensures chains == WithHandler(old(chains))
    {
      var todo := chains.Keys;
      while todo != {}
        invariant todo <= chains.Keys
        invariant chains.Keys == old(chains).Keys
        invariant forall name :: name in chains ==>
                    chains[name] == if name in todo then old(chains)[name] else old(chains)[name] + [Handler]
        decreases todo
      {
        Inhabited(todo);
        var name :| name in todo;
        chains := chains[name := chains[name] + [Handler]];
        todo := todo - {name};
      }
    }

    /** `validator(method)`. */
    function Get(name: string): (r: Option<seq<Middleware>>)
      reads this
      ensures r.None? <==> name !in chains
      ensures r.Some? ==> r.value == chains[name]
    {
      Lookup(chains, name)
    }
  }

  /** Loading the module: the table the routes draw their chains from. */
  method Load() returns (t: ValidationTable)
    ensures fresh(t) && t.chains == Initialised()
  {
    t := new ValidationTable();
    t.AppendHandler();
  }
}
