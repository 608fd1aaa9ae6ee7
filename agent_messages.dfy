/**
 * The agent's normaliser: the SPOE message's named arguments copied into the
 * record (init), and NewAgentMessage, which runs the pipeline on the result.
 * Argument values are taken as the strings fmt.Sprintf("%v", ...) renders.
 */
module AgentMessages {
  import opened Wrappers
  import opened GoStrings
  import opened Routes
  import opened Engine
  import opened Messages

  datatype Arg = Arg(name: string, value: string)

  /**
   * The path as init stores it: a value of at most one character gives "",
   * otherwise the first character (the leading '/') is dropped and then one
   * trailing '/' if there is one.
   */
  function TrimPath(value: string): (p: string)
    ensures |value| <= 1 ==> p == ""
    ensures |value| > 1 && value[|value| - 1] == '/' ==> p == value[1..|value| - 1]
    ensures |value| > 1 && value[|value| - 1] != '/' ==> p == value[1..]
  {
    if |value| <= 1 then "" else TrimSuffix(value[1..], "/")
  }

  /** One iteration of init's loop. */
  function ApplyArg(rec: Record, arg: Arg): (r: Record)
    ensures arg.name !in {"uid", "ip", "host", "path", "query", "method", "status"} ==> r == rec
    ensures arg.name == "uid" ==> r == rec.(uniqueId := arg.value)
    ensures arg.name == "ip" ==> r == rec.(ipAddress := arg.value)
    ensures arg.name == "host" ==> r == rec.(host := arg.value)
    ensures arg.name == "path" ==> r == rec.(path := TrimPath(arg.value))
    ensures arg.name == "query" ==> r == rec.(query := arg.value)
    ensures arg.name == "method" ==> r == rec.(httpMethod := arg.value)
    ensures arg.name == "status" && IsNumeric(arg.value) ==> r == rec.(status := Atoi(arg.value).value)
    ensures arg.name == "status" && !IsNumeric(arg.value) ==> r == rec
  {
    var value := arg.value;
    if arg.name == "uid" then rec.(uniqueId := value)
    else if arg.name == "ip" then rec.(ipAddress := value)
    else if arg.name == "host" then rec.(host := value)
    else if arg.name == "path" then rec.(path := TrimPath(value))
    else if arg.name == "query" then rec.(query := value)
    else if arg.name == "method" then rec.(httpMethod := value)
    else if arg.name == "status" then
      match Atoi(value)
      case Some(status) => rec.(status := status)
      case None => rec
    else rec
  }

  /** The record after init has applied args in order. */
  function ApplyArgs(rec: Record, args: seq<Arg>): (r: Record)
    ensures r.route == rec.route && r.authToken == rec.authToken && r.time == rec.time
  {
    if |args| == 0 then rec
    else ApplyArg(ApplyArgs(rec, args[..|args| - 1]), args[|args| - 1])
  }

  /** init: walks the message's arguments, copying the recognised ones. */
  method Init(m: Message, args: seq<Arg>)
    modifies m
    ensures m.Value() == ApplyArgs(old(m.Value()), args)
  {
    for i := 0 to |args|
      invariant m.Value() == ApplyArgs(old(m.Value()), args[..i])
    {
      assert args[..i + 1][..i] == args[..i];
      CopyArg(m, args[i]);
    }
    assert args[..|args|] == args;
  }

  /** The body of init's loop: the switch on the argument's name. */
  method CopyArg(m: Message, arg: Arg)
    modifies m
    ensures m.Value() == ApplyArg(old(m.Value()), arg)
  {
    var value := arg.value;
    if arg.name == "uid" {
      m.uniqueId := value;
    } else if arg.name == "ip" {
      m.ipAddress := value;
    } else if arg.name == "host" {
      m.host := value;
    } else if arg.name == "path" {
      if |value| <= 1 {
        m.path := "";
      } else {
        m.path := value[1..];
        m.path := TrimSuffix(m.path, "/");
      }
    } else if arg.name == "query" {
      m.query := value;
    } else if arg.name == "method" {
      m.httpMethod := value;
    } else if arg.name == "status" {
      var status := Atoi(value);
      if status.Some? {
        m.status := status.value;
      }
    }
  }

  /**
   * NewAgentMessage: a message is returned exactly when the pipeline accepts
   * the normalised record; otherwise nil and the pipeline's one error.
   */
  method NewAgentMessage(args: seq<Arg>) returns (msg: Message?, err: Option<AuditError>)
    ensures var p := Process(ApplyArgs(Empty, args));
      && err == p.error
      && (msg != null <==> err.None?)
      && (msg != null ==> fresh(msg) && msg.Value() == p.record)
  {
    var m := new Message();
    Init(m, args);
    err := m.Parse();
    if err.Some? {
      msg := null;
    } else {
      msg := m;
    }
  }

  /** The record field a string-valued argument name sets. */
  function FieldNamed(rec: Record, name: string): string
  {
    if name == "uid" then rec.uniqueId
    else if name == "ip" then rec.ipAddress
    else if name == "host" then rec.host
    else if name == "path" then rec.path
    else if name == "query" then rec.query
    else if name == "method" then rec.httpMethod
    else ""
  }

  function Stored(name: string, value: string): string
  {
    if name == "path" then TrimPath(value) else value
  }

  const StringArgNames := {"uid", "ip", "host", "path", "query", "method"}

  /** A field no argument names keeps its value. */
  lemma {:induction false} FieldUntouched(rec: Record, args: seq<Arg>, name: string)
    requires name in StringArgNames
    requires forall j | 0 <= j < |args| :: args[j].name != name
    ensures FieldNamed(ApplyArgs(rec, args), name) == FieldNamed(rec, name)
  {
    if |args| > 0 {
      FieldUntouched(rec, args[..|args| - 1], name);
    }
  }

  /** The last argument with a given name decides that field: later ones overwrite earlier ones. */
  lemma {:induction false} LastArgWins(rec: Record, args: seq<Arg>, k: nat)
    requires k < |args| && args[k].name in StringArgNames
    requires forall j | k < j < |args| :: args[j].name != args[k].name
    ensures FieldNamed(ApplyArgs(rec, args), args[k].name) == Stored(args[k].name, args[k].value)
  {
    if k < |args| - 1 {
      LastArgWins(rec, args[..|args| - 1], k);
    }
  }

  /** The status changes only through a "status" argument whose value passes Atoi. */
  lemma {:induction false} StatusNeedsNumericArg(rec: Record, args: seq<Arg>)
    requires forall j | 0 <= j < |args| :: args[j].name == "status" ==> !IsNumeric(args[j].value)
    ensures ApplyArgs(rec, args).status == rec.status
  {
    if |args| > 0 {
      StatusNeedsNumericArg(rec, args[..|args| - 1]);
    }
  }

  /** A message without a numeric status keeps status 0 and is never parsed. */
  lemma NonNumericStatusShouldntParse(args: seq<Arg>)
    requires forall j | 0 <= j < |args| :: args[j].name == "status" ==> !IsNumeric(args[j].value)
    ensures Process(ApplyArgs(Empty, args)).error == Some(ShouldntParse)
  {
    StatusNeedsNumericArg(Empty, args);
  }

  /** The last "status" argument with a numeric value decides the status. */
  lemma {:induction false} LastStatusWins(rec: Record, args: seq<Arg>, k: nat)
    requires k < |args| && args[k].name == "status" && IsNumeric(args[k].value)
    requires forall j | k < j < |args| :: args[j].name == "status" ==> !IsNumeric(args[j].value)
    ensures ApplyArgs(rec, args).status == Atoi(args[k].value).value
  {
    if k < |args| - 1 {
      LastStatusWins(rec, args[..|args| - 1], k);
    }
  }
}
