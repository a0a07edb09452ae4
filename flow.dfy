/**
 * A model of the Flow GitHub action: resolve the `flow` executable, read the
 * checker's JSON diagnostics, flatten every error's messages into one list of
 * "failure" annotations and hand that list, titled "Flow", to the reporter.
 *
 * Running the checker, parsing JSON and the reporter itself are outside the
 * model: the checker's output arrives already parsed, and handing the
 * annotations to the reporter is the `Reported` outcome.
 */
module Flow {

  // ---------------------------------------------------------------------------
  // The checker's diagnostics (the shape `flow --json` prints)
  // ---------------------------------------------------------------------------

  /** A position in a source file, as the checker reports it (1-based). */
  datatype Pos = Pos(line: int, column: int)

  /** The span a message points at. */
  datatype Loc = Loc(start: Pos, end: Pos)

  /** One location of an error, with its description. */
  datatype Message = Message(path: string, loc: Loc, descr: string)

  /** One type error; it may span several related locations. */
  datatype Error = Error(message: seq<Message>)

  /** The whole parsed output of the checker. */
  datatype Report = Report(errors: seq<Error>)

  /** What running the checker yields: a report, or stdout that is not JSON. */
  datatype ParsedOutput = Parsed(report: Report) | Unparseable(stdout: string)

  // ---------------------------------------------------------------------------
  // Annotations and outcomes
  // ---------------------------------------------------------------------------

  /** The only annotation level this action ever produces. */
  const FailureLevel: string := "failure"

  /** The title every report is sent under. */
  const Title: string := "Flow"

  /** The conventional install location probed when no input is given. */
  const GuessPath: string := "node_modules/.bin/flow"

  /** The message printed when no executable can be found. */
  const NoFlowBinMessage: string := "No flow-bin found (pass in as an input)"

  /** One flattened, presentation-ready diagnostic. */
  datatype Annotation = Annotation(
    path: string,
    start: Pos,
    end: Pos,
    annotationLevel: string,
    message: string)

  /** Why a run ends with exit status 1. */
  datatype Fatal = NoFlowBin | ParseFailure(stdout: string)

  /** How one run of the action ends. */
  datatype Outcome =
    | NoErrors                                             // "No errors" logged, no report sent
    | Reported(title: string, annotations: seq<Annotation>) // the reporter was called once
    | Failed(reason: Fatal)                                 // the process exits with status 1

  datatype Option<T> = None | Some(value: T)

  datatype Result<T> = Ok(value: T) | Err(message: string)

  // ---------------------------------------------------------------------------
  // The specification of flattening
  // ---------------------------------------------------------------------------

  /** Recovers the message an annotation was made from. */
  function Origin(a: Annotation): Message
  {
    Message(a.path, Loc(a.start, a.end), a.message)
  }

  /** The annotation pushed for one message. */
  function Annotate(m: Message): (a: Annotation)
    ensures Origin(a) == m
    ensures a.annotationLevel == FailureLevel
  {
    Annotation(m.path, m.loc.start, m.loc.end, FailureLevel, m.descr)
  }

  /** The annotations for the messages of one error, in their order. */
  function AnnotateAll(ms: seq<Message>): seq<Annotation>
  {
    seq(|ms|, k requires 0 <= k < |ms| => Annotate(ms[k]))
  }

  /** Every error's annotations, errors in report order. */
  function Flatten(errors: seq<Error>): seq<Annotation>
  {
    if errors == [] then []
    else Flatten(errors[..|errors| - 1]) + AnnotateAll(errors[|errors| - 1].message)
  }

  /** The total number of messages over all errors. */
  function MessageCount(errors: seq<Error>): nat
  {
    if errors == [] then 0
    else MessageCount(errors[..|errors| - 1]) + |errors[|errors| - 1].message|
  }

  // ---------------------------------------------------------------------------
  // Properties of flattening
  // ---------------------------------------------------------------------------

  /** Flattening distributes over concatenation of error lists. */
  lemma {:induction false} FlattenAppend(a: seq<Error>, b: seq<Error>)
    ensures Flatten(a + b) == Flatten(a) + Flatten(b)
    decreases |b|
  {
    if b == [] {
      assert a + b == a;
    } else {
      var b', last := b[..|b| - 1], b[|b| - 1];
      var ab := a + b;
      assert ab[..|ab| - 1] == a + b' && ab[|ab| - 1] == last;
      FlattenAppend(a, b');
      calc {
        Flatten(ab);
        Flatten(a + b') + AnnotateAll(last.message);
        Flatten(a) + (Flatten(b') + AnnotateAll(last.message));
      }
    }
  }

  /** One annotation per message: the count is the sum of the errors' message counts. */
  lemma {:induction false} FlattenLength(errors: seq<Error>)
    ensures |Flatten(errors)| == MessageCount(errors)
    decreases |errors|
  {
    if errors != [] {
      FlattenLength(errors[..|errors| - 1]);
    }
  }

  /**
   * Order and field mapping: message j of error i becomes the annotation
   * right after all messages of the errors before i and the first j
   * messages of error i.
   */
  lemma FlattenAt(errors: seq<Error>, i: nat, j: nat)
    requires i < |errors| && j < |errors[i].message|
    ensures MessageCount(errors[..i]) + j < |Flatten(errors)|
    ensures Flatten(errors)[MessageCount(errors[..i]) + j] == Annotate(errors[i].message[j])
  {
    var before, rest := errors[..i], errors[i + 1..];
    assert errors == before + [errors[i]] + rest;
    FlattenAppend(before + [errors[i]], rest);
    FlattenAppend(before, [errors[i]]);
    assert Flatten([errors[i]]) == AnnotateAll(errors[i].message) by {
      assert [errors[i]][..0] == [];
    }
    FlattenLength(before);
  }

  /** Every annotation comes from some message of the report, and is a failure. */
  lemma {:induction false} FlattenFrom(errors: seq<Error>, k: nat)
    requires k < |Flatten(errors)|
    ensures Flatten(errors)[k].annotationLevel == FailureLevel
    ensures exists i, j :: 0 <= i < |errors| && 0 <= j < |errors[i].message|
                        && Flatten(errors)[k] == Annotate(errors[i].message[j])
    decreases |errors|
  {
    var front := errors[..|errors| - 1];
    var last := |errors| - 1;
    if k < |Flatten(front)| {
      FlattenFrom(front, k);
      var i, j :| 0 <= i < |front| && 0 <= j < |front[i].message|
               && Flatten(front)[k] == Annotate(front[i].message[j]);
      assert errors[i] == front[i];
    } else {
      var j := k - |Flatten(front)|;
      assert Flatten(errors)[k] == Annotate(errors[last].message[j]);
    }
  }

  /** Errors whose message lists are all empty flatten to no annotations at all. */
  lemma {:induction false} FlattenEmptyMessages(errors: seq<Error>)
    requires forall e :: e in errors ==> e.message == []
    ensures Flatten(errors) == []
    decreases |errors|
  {
    if errors != [] {
      var front := errors[..|errors| - 1];
      assert forall e :: e in front ==> e in errors;
      FlattenEmptyMessages(front);
      assert errors[|errors| - 1] in errors;
    }
  }

  /**
   * A worked report: one error with one message, then one with two. The
   * three annotations follow report order and copy each message's fields.
   */
  lemma FlattenExample()
    ensures
      var a := Message("a.js", Loc(Pos(1, 2), Pos(1, 5)), "bad type");
      var b1 := Message("b.js", Loc(Pos(3, 1), Pos(3, 4)), "oops");
      var b2 := Message("b.js", Loc(Pos(4, 1), Pos(4, 2)), "also");
      Flatten([Error([a]), Error([b1, b2])]) ==
        [ Annotation("a.js", Pos(1, 2), Pos(1, 5), "failure", "bad type"),
          Annotation("b.js", Pos(3, 1), Pos(3, 4), "failure", "oops"),
          Annotation("b.js", Pos(4, 1), Pos(4, 2), "failure", "also") ]
  {
    var a := Message("a.js", Loc(Pos(1, 2), Pos(1, 5)), "bad type");
    var b1 := Message("b.js", Loc(Pos(3, 1), Pos(3, 4)), "oops");
    var b2 := Message("b.js", Loc(Pos(4, 1), Pos(4, 2)), "also");
    var errors := [Error([a]), Error([b1, b2])];
    assert errors[..1] == [Error([a])] && [Error([a])][..0] == [];
    assert AnnotateAll([a]) == [Annotate(a)];
    assert AnnotateAll([b1, b2]) == [Annotate(b1), Annotate(b2)];
    assert Flatten([Error([a])]) == [Annotate(a)];
    assert Flatten(errors) == Flatten([Error([a])]) + AnnotateAll([b1, b2]);
  }

  // ---------------------------------------------------------------------------
  // run (the part after the checker's output has been parsed)
  // ---------------------------------------------------------------------------

  /**
   * Decides the outcome for a parsed report: nothing is sent when there are
   * no errors; otherwise the annotations are collected by nested loops and
   * sent once, titled "Flow" — even when no error carries a message.
   */
  method Run(report: Report) returns (outcome: Outcome)
    ensures outcome == NoErrors <==> report.errors == []
    ensures report.errors != [] ==> outcome == Reported(Title, Flatten(report.errors))
  {
    if |report.errors| == 0 {
      return NoErrors;
    }
    var errors := report.errors;
    var annotations: seq<Annotation> := [];
    var i := 0;
    while i < |errors|
      invariant 0 <= i <= |errors|
      invariant annotations == Flatten(errors[..i])
    {
      var messages := errors[i].message;
      var j := 0;
      while j < |messages|
        invariant 0 <= j <= |messages|
        invariant annotations == Flatten(errors[..i]) + AnnotateAll(messages[..j])
      {
        annotations := annotations + [Annotate(messages[j])];
        j := j + 1;
      }
      assert messages[..j] == messages;
      assert errors[..i + 1][..i] == errors[..i];
      i := i + 1;
    }
    assert errors[..i] == errors;
    return Reported(Title, annotations);
  }

  // ---------------------------------------------------------------------------
  // getFlowBin
  // ---------------------------------------------------------------------------

  /** JavaScript truthiness of an environment value: present and non-empty. */
  predicate Truthy(input: Option<string>)
  {
    input.Some? && input.value != ""
  }

  /**
   * Resolves the executable: a truthy input wins outright, without any
   * existence check; otherwise the conventional path, if it exists;
   * otherwise resolution fails.
   */
  function FlowBin(input: Option<string>, guessExists: bool): (r: Result<string>)
    ensures Truthy(input) ==> r == Ok(input.value)
    ensures !Truthy(input) && guessExists ==> r == Ok(GuessPath)
    ensures !Truthy(input) && !guessExists ==> r == Err(NoFlowBinMessage)
  {
    if Truthy(input) then Ok(input.value)
    else if guessExists then Ok(GuessPath)
    else Err(NoFlowBinMessage)
  }

  /** A resolved executable is never empty, and it is either the input or the conventional path. */
  lemma FlowBinResolved(input: Option<string>, guessExists: bool)
    ensures FlowBin(input, guessExists).Ok? <==> Truthy(input) || guessExists
    ensures FlowBin(input, guessExists).Ok? ==>
              FlowBin(input, guessExists).value != ""
              && (FlowBin(input, guessExists).value == GuessPath
                  || Some(FlowBin(input, guessExists).value) == input)
  {
  }

  // ---------------------------------------------------------------------------
  // The top level: run(getFlowBin()).catch(...)
  // ---------------------------------------------------------------------------

  /**
   * One whole run. `checker` stands for executing the resolved path with
   * `--json` and parsing its stdout. Resolution failure and unparseable
   * output are fatal (exit status 1); otherwise the outcome is Run's and
   * the exit status is 0, whatever the checker's own exit status was.
   */
  method Action(input: Option<string>, guessExists: bool, checker: string -> ParsedOutput)
    returns (outcome: Outcome, status: nat)
    ensures status == (if outcome.Failed? then 1 else 0)
    ensures FlowBin(input, guessExists).Err? ==> outcome == Failed(NoFlowBin)
    ensures FlowBin(input, guessExists).Ok? ==>
              match checker(FlowBin(input, guessExists).value)
              case Unparseable(out) => outcome == Failed(ParseFailure(out))
              case Parsed(report) =>
                (outcome == NoErrors <==> report.errors == [])
                && (report.errors != [] ==> outcome == Reported(Title, Flatten(report.errors)))
  {
    var bin := FlowBin(input, guessExists);
    if bin.Err? {
      return Failed(NoFlowBin), 1;
    }
    var output := checker(bin.value);
    match output
    case Unparseable(out) =>
      outcome, status := Failed(ParseFailure(out)), 1;
    case Parsed(report) =>
      outcome := Run(report);
      status := 0;
  }
}
