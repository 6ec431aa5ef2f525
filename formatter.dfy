/**
 * The commit-message formatter and validator of src/formatter.js.
 *
 * `FormatCommitMessage` hands the message over to the user's `messageFormat`
 * function when the configuration has one, and otherwise writes the default
 * shape `type/[branch] | #taskId | subject`. `ValidateCommitMessage` collects
 * the violations of three independent rules about a message.
 */
module Formatter {
  import opened JsStrings
  import opened JsValues

  // ---------------------------------------------------------------------------
  // formatCommitMessage
  // ---------------------------------------------------------------------------

  /** The default message shape, on the texts of its four parts. */
  function DefaultFormat(commitType: string, branch: string, taskId: string, subject: string): string
  {
    commitType + ("/[" + (branch + ("] | #" + (taskId + (" | " + subject)))))
  }

  /** The four parts a default-shaped message is made of. */
  datatype DefaultParts = DefaultParts(commitType: string, branch: string, taskId: string, subject: string)

  /**
   * Reads the parts back from a default-shaped message: the type runs to the
   * first `/`, the branch to the first `]`, the task id to the first space.
   */
  function ParseDefault(m: string): Option<DefaultParts>
  {
    var (t, r1) := CutAt(m, '/');
    match DropPrefix(r1, "/[")
    case None => None
    case Some(r2) =>
      var (b, r3) := CutAt(r2, ']');
      match DropPrefix(r3, "] | #")
      case None => None
      case Some(r4) =>
        var (id, r5) := CutAt(r4, ' ');
        match DropPrefix(r5, " | ")
        case None => None
        case Some(subject) => Some(DefaultParts(t, b, id, subject))
  }

  /**
   * The default shape loses nothing: a type without `/`, a branch without `]`
   * and a task id without a space are all recovered, the subject verbatim. So no
   * part is truncated or changed, and distinct such inputs give distinct messages.
   */
  lemma DefaultFormatRoundTrip(commitType: string, branch: string, taskId: string, subject: string)
    requires '/' !in commitType && ']' !in branch && ' ' !in taskId
    ensures ParseDefault(DefaultFormat(commitType, branch, taskId, subject))
            == Some(DefaultParts(commitType, branch, taskId, subject))
  {
    var r5 := " | " + subject;
    var r3 := "] | #" + (taskId + r5);
    var r1 := "/[" + (branch + r3);
    CutAtOf(commitType, r1, '/');
    DropPrefixOf("/[", branch + r3);
    CutAtOf(branch, r3, ']');
    DropPrefixOf("] | #", taskId + r5);
    CutAtOf(taskId, r5, ' ');
    DropPrefixOf(" | ", subject);
  }

  /**
   * `formatCommitMessage(answers, config, currentBranch)`. A function-valued
   * `messageFormat` decides the message alone and its result is returned as it
   * is; otherwise the message is the default shape over the texts of the
   * `type`, `taskId` and `subject` answers and the branch passed in.
   */
  function FormatCommitMessage(answers: map<string, Value>, config: map<string, Value>,
                               currentBranch: string, run: HookRunner): (r: Value)
    ensures IsFunction(Get(config, "messageFormat")) ==>
              r == run(Get(config, "messageFormat"), [Obj(answers), Obj(config), Str(currentBranch)])
    ensures !IsFunction(Get(config, "messageFormat")) ==>
              r == Str(DefaultFormat(ToJsString(Get(answers, "type")), currentBranch,
                                     ToJsString(Get(answers, "taskId")), ToJsString(Get(answers, "subject"))))
  {
    var messageFormat := Get(config, "messageFormat");
    // `config.messageFormat && typeof config.messageFormat === 'function'`
    if Truthy(messageFormat) && IsFunction(messageFormat) then
      run(messageFormat, [Obj(answers), Obj(config), Str(currentBranch)])
    else
      Str(DefaultFormat(ToJsString(Get(answers, "type")), currentBranch,
                        ToJsString(Get(answers, "taskId")), ToJsString(Get(answers, "subject"))))
  }

  /**
   * Without a `messageFormat` function and with string answers, the message is
   * exactly `type/[branch] | #taskId | subject`, and every part can be read back
   * from it unchanged (under the separator conditions of `DefaultFormatRoundTrip`).
   */
  lemma DefaultMessageForStrings(answers: map<string, Value>, config: map<string, Value>,
                                 currentBranch: string, run: HookRunner, commitType: string, taskId: string, subject: string)
    requires !IsFunction(Get(config, "messageFormat"))
    requires Get(answers, "type") == Str(commitType)
    requires Get(answers, "taskId") == Str(taskId)
    requires Get(answers, "subject") == Str(subject)
    requires '/' !in commitType && ']' !in currentBranch && ' ' !in taskId
    ensures FormatCommitMessage(answers, config, currentBranch, run)
            == Str(commitType + ("/[" + (currentBranch + ("] | #" + (taskId + (" | " + subject))))))
    ensures ParseDefault(FormatCommitMessage(answers, config, currentBranch, run).s)
            == Some(DefaultParts(commitType, currentBranch, taskId, subject))
  {
    assert ToJsString(Get(answers, "type")) == commitType;
    assert ToJsString(Get(answers, "taskId")) == taskId;
    assert ToJsString(Get(answers, "subject")) == subject;
    DefaultFormatRoundTrip(commitType, currentBranch, taskId, subject);
  }

  /**
   * The default message reads only the `type`, `taskId` and `subject` answers:
   * `scope`, `body`, `issues` and any other answer make no difference.
   */
  lemma DefaultIgnoresOtherAnswers(a1: map<string, Value>, a2: map<string, Value>, config: map<string, Value>,
                                   currentBranch: string, run: HookRunner)
    requires !IsFunction(Get(config, "messageFormat"))
    requires Get(a1, "type") == Get(a2, "type")
    requires Get(a1, "taskId") == Get(a2, "taskId")
    requires Get(a1, "subject") == Get(a2, "subject")
    ensures FormatCommitMessage(a1, config, currentBranch, run) == FormatCommitMessage(a2, config, currentBranch, run)
  {
  }

  /**
   * `formatBranch(branch, config)`: the branch itself, unless `branchFormat` is a
   * function, whose result is then returned instead.
   */
  function FormatBranch(branch: string, config: map<string, Value>, run: HookRunner): (r: Value)
    ensures IsFunction(Get(config, "branchFormat")) ==> r == run(Get(config, "branchFormat"), [Str(branch)])
    ensures !IsFunction(Get(config, "branchFormat")) ==> r == Str(branch)
  {
    var branchFormat := Get(config, "branchFormat");
    if Truthy(branchFormat) && IsFunction(branchFormat) then run(branchFormat, [Str(branch)]) else Str(branch)
  }

  // ---------------------------------------------------------------------------
  // validateCommitMessage
  // ---------------------------------------------------------------------------

  /** The three rules a message can break, with the text the validator reports. */
  datatype Violation = FirstLineTooLong | EmptyMessage | MissingTypePrefix
  {
    function Text(): string
    {
      match this
      case FirstLineTooLong => "Первая строка сообщения должна быть короче 72 символов"
      case EmptyMessage => "Сообщение коммита не может быть пустым"
      case MissingTypePrefix => "Сообщение должно начинаться с типа коммита (feat, fix, docs, etc.)"
    }

    /** The position of the rule in the order the validator checks them. */
    function Rank(): nat
    {
      match this
      case FirstLineTooLong => 0
      case EmptyMessage => 1
      case MissingTypePrefix => 2
    }
  }

  const MaxFirstLineLength := 72

  /** The type vocabulary of the validator's pattern, in the pattern's order. */
  const ValidatorTypes: seq<string> := ["feat", "fix", "docs", "style", "refactor", "perf", "test", "chore"]

  /** The class `[a-z-]`. */
  predicate IsScopeChar(c: char)
  {
    'a' <= c <= 'z' || c == '-'
  }

  /**
   * `w` as a whole is matched by `(feat|…|chore)(\([a-z-]+\))?:` with type `t`:
   * either `t:` or `t(scope):` for a non-empty scope over `[a-z-]`.
   */
  predicate TypePrefixWordOf(w: string, t: string)
  {
    || w == t + ":"
    || (&& |w| >= |t| + 4
        && w[..|t| + 1] == t + "("
        && w[|w| - 2..] == "):"
        && forall i :: |t| + 1 <= i < |w| - 2 ==> IsScopeChar(w[i]))
  }

  /** The regular expression `^(feat|…|chore)(\([a-z-]+\))?:` matches `line`: some prefix of it is such a word. */
  ghost predicate MatchesTypePrefix(line: string)
  {
    exists k, n :: 0 <= k < |ValidatorTypes| && 0 <= n <= |line| && TypePrefixWordOf(line[..n], ValidatorTypes[k])
  }

  /** The length of the longest prefix of `s` over `[a-z-]`. */
  function ScopeRun(s: string): (n: nat)
    ensures n <= |s|
    ensures forall i :: 0 <= i < n ==> IsScopeChar(s[i])
    ensures n == |s| || !IsScopeChar(s[n])
  {
    if s != [] && IsScopeChar(s[0]) then 1 + ScopeRun(s[1..]) else 0
  }

  /** Whether `(\([a-z-]+\))?:` matches at the start of `s`. */
  predicate ScopeThenColon(s: string)
  {
    || StartsWith(s, ":")
    || (StartsWith(s, "(") && var n := ScopeRun(s[1..]); n >= 1 && StartsWith(s[1 + n..], "):"))
  }

  /** The hand-written recogniser for the validator's type-prefix pattern. */
  predicate HasTypePrefix(line: string)
  {
    exists k :: 0 <= k < |ValidatorTypes| && StartsWith(line, ValidatorTypes[k])
                && ScopeThenColon(line[|ValidatorTypes[k]|..])
  }

  /** A run of scope characters stops at the first character outside the class. */
  lemma {:induction false} ScopeRunOf(x: string, y: string)
    requires forall i :: 0 <= i < |x| ==> IsScopeChar(x[i])
    requires y != [] && !IsScopeChar(y[0])
    ensures ScopeRun(x + y) == |x|
  {
    if x == [] {
      assert x + y == y;
    } else {
      ScopeRunOf(x[1..], y);
      assert (x + y)[1..] == x[1..] + y;
    }
  }

  /** A recogniser success for type `t` yields a prefix of the line that the pattern matches. */
  lemma WordFromRecogniser(line: string, t: string) returns (n: nat)
    requires StartsWith(line, t) && ScopeThenColon(line[|t|..])
    ensures n <= |line| && TypePrefixWordOf(line[..n], t)
  {
    var rest := line[|t|..];
    if StartsWith(rest, ":") {
      n := |t| + 1;
      assert line[..n] == line[..|t|] + rest[..1];
    } else {
      var m := ScopeRun(rest[1..]);
      n := |t| + m + 3;
      var w := line[..n];
      assert w[..|t| + 1] == line[..|t|] + rest[..1];
      assert w[|w| - 2..] == rest[1 + m..][..2];
      forall i | |t| + 1 <= i < |w| - 2 ensures IsScopeChar(w[i]) {
        assert w[i] == rest[1..][i - |t| - 1];
      }
    }
  }

  /** A prefix of the line that the pattern matches with type `t` makes the recogniser succeed for `t`. */
  lemma RecogniserFromWord(line: string, t: string, n: nat)
    requires n <= |line| && TypePrefixWordOf(line[..n], t)
    ensures StartsWith(line, t) && ScopeThenColon(line[|t|..])
  {
    var w := line[..n];
    assert w[..|t|] == t;
    assert line[..|t|] == w[..|t|];
    var rest := line[|t|..];
    if w == t + ":" {
      assert rest[..1] == w[|t|..|t| + 1];
    } else {
      var scope := w[|t| + 1..|w| - 2];
      assert rest[..1] == w[|t|..|t| + 1];
      assert rest[1..] == scope + ("):" + line[n..]);
      ScopeRunOf(scope, "):" + line[n..]);
      assert rest[1 + |scope|..] == "):" + line[n..];
    }
  }

  /** The recogniser accepts exactly the lines the regular expression matches. */
  lemma TypePrefixRecogniser(line: string)
    ensures HasTypePrefix(line) <==> MatchesTypePrefix(line)
  {
    if HasTypePrefix(line) {
      var k :| 0 <= k < |ValidatorTypes| && StartsWith(line, ValidatorTypes[k])
               && ScopeThenColon(line[|ValidatorTypes[k]|..]);
      var n := WordFromRecogniser(line, ValidatorTypes[k]);
    }
    if MatchesTypePrefix(line) {
      var k, n :| 0 <= k < |ValidatorTypes| && 0 <= n <= |line| && TypePrefixWordOf(line[..n], ValidatorTypes[k]);
      RecogniserFromWord(line, ValidatorTypes[k], n);
    }
  }

  /** At most one violation of each kind, in the order length, emptiness, type prefix. */
  predicate InRuleOrder(errors: seq<Violation>)
  {
    forall i, j :: 0 <= i < j < |errors| ==> errors[i].Rank() < errors[j].Rank()
  }

  /** The violations of the rules that are broken, in rule order. */
  function Collected(tooLong: bool, empty: bool, noPrefix: bool): (errors: seq<Violation>)
    ensures FirstLineTooLong in errors <==> tooLong
    ensures EmptyMessage in errors <==> empty
    ensures MissingTypePrefix in errors <==> noPrefix
    ensures InRuleOrder(errors)
  {
    (if tooLong then [FirstLineTooLong] else [])
    + (if empty then [EmptyMessage] else [])
    + (if noPrefix then [MissingTypePrefix] else [])
  }

  /**
   * `validateCommitMessage(message)`: the violations of the three rules, each
   * checked on its own. The first line is too long iff it has more than 72
   * characters; the message is empty iff it is whitespace only; the type prefix
   * is missing iff the regular expression does not match the first line.
   */
  method ValidateCommitMessage(message: string) returns (errors: seq<Violation>)
    ensures FirstLineTooLong in errors <==> |FirstLine(message)| > MaxFirstLineLength
    ensures EmptyMessage in errors <==> AllWhitespace(message)
    ensures MissingTypePrefix in errors <==> !MatchesTypePrefix(FirstLine(message))
    ensures InRuleOrder(errors)
  {
    errors := [];
    var lines := Split(message, '\n');
    ghost var tooLong := |lines[0]| > MaxFirstLineLength;
    if |lines[0]| > MaxFirstLineLength {
      errors := errors + [FirstLineTooLong];
    }
    ghost var empty := Trim(message) == [];
    assert empty <==> AllWhitespace(message) by {
      TrimEmptyIff(message);
    }
    CollectedSteps(tooLong, empty);
    assert errors == Collected(tooLong, false, false);
    if Trim(message) == [] {
      errors := errors + [EmptyMessage];
    }
    assert errors == Collected(tooLong, empty, false);
    ghost var noPrefix := !HasTypePrefix(lines[0]);
    assert noPrefix <==> !MatchesTypePrefix(FirstLine(message)) by {
      TypePrefixRecogniser(lines[0]);
    }
    if !HasTypePrefix(lines[0]) {
      errors := errors + [MissingTypePrefix];
    }
    assert errors == Collected(tooLong, empty, noPrefix);
  }

  /** Each append of the validator extends the list of broken rules by one. */
  lemma CollectedSteps(tooLong: bool, empty: bool)
    ensures [] + [FirstLineTooLong] == Collected(true, false, false) && [] == Collected(false, false, false)
    ensures Collected(tooLong, false, false) + [EmptyMessage] == Collected(tooLong, true, false)
    ensures Collected(tooLong, empty, false) + [MissingTypePrefix] == Collected(tooLong, empty, true)
  {
    var x := if tooLong then [FirstLineTooLong] else [];
    var y := if empty then [EmptyMessage] else [];
    assert Collected(tooLong, false, false) == x;
    assert Collected(tooLong, empty, false) == x + y;
  }

  /** The violations a list holds, written in rule order. */
  function Listed(errors: seq<Violation>): seq<Violation>
  {
    Collected(FirstLineTooLong in errors, EmptyMessage in errors, MissingTypePrefix in errors)
  }

  /** A violation list in rule order is determined by which violations it holds. */
  lemma {:induction false} RuleOrderDetermines(errors: seq<Violation>)
    requires InRuleOrder(errors)
    ensures errors == Listed(errors)
  {
    if errors != [] {
      var first, rest := errors[0], errors[1..];
      forall i, j | 0 <= i < j < |rest| ensures rest[i].Rank() < rest[j].Rank() {
        assert rest[i] == errors[i + 1] && rest[j] == errors[j + 1];
      }
      RuleOrderDetermines(rest);
      forall v | v in rest ensures first.Rank() < v.Rank() {
        var j :| 0 <= j < |rest| && rest[j] == v;
        assert errors[j + 1] == v;
      }
      ListedCons(first, rest);
      assert errors == [first] + rest;
    }
  }

  /** A violation ranked before all the others goes to the front of the listing. */
  lemma ListedCons(first: Violation, rest: seq<Violation>)
    requires forall v :: v in rest ==> first.Rank() < v.Rank()
    ensures Listed([first] + rest) == [first] + Listed(rest)
  {
    var errors := [first] + rest;
    assert forall v :: v in errors <==> v == first || v in rest;
  }

  /** No prefix of the empty line is a type-prefix word. */
  lemma EmptyLineHasNoTypePrefix()
    ensures !MatchesTypePrefix("")
  {
    forall k, n | 0 <= k < |ValidatorTypes| && 0 <= n <= 0
      ensures !TypePrefixWordOf(""[..n], ValidatorTypes[k])
    {
      assert ""[..n] == "";
    }
  }

  /** The validator on the empty message: it is empty and lacks a type prefix. */
  method EmptyMessageExample()
  {
    var e := ValidateCommitMessage("");
    assert FirstLine("") == "";
    EmptyLineHasNoTypePrefix();
    RuleOrderDetermines(e);
    assert e == [EmptyMessage, MissingTypePrefix];
  }

  /** `feat(auth):` opens the line `feat(auth): valid subject`. */
  lemma WellFormedLineMatches(line: string)
    requires line == "feat(auth): valid subject"
    ensures FirstLine(line) == line
    ensures MatchesTypePrefix(line) && !AllWhitespace(line) && |line| == 25
  {
    assert forall i :: 0 <= i < |line| ==> line[i] != '\n';
    SplitNoSep(line, '\n');
    var w := line[..11];
    assert w == "feat(auth):";
    assert ValidatorTypes[0] == "feat";
    assert w[..5] == "feat(" && w[9..] == "):";
    assert TypePrefixWordOf(w, ValidatorTypes[0]);
    assert !IsWhitespace(line[0]);
  }

  /** The validator on a well-formed `type(scope): subject` line: no violation. */
  method WellFormedMessageExample()
  {
    var good := "feat(auth): valid subject";
    WellFormedLineMatches(good);
    var e := ValidateCommitMessage(good);
    RuleOrderDetermines(e);
    assert e == [];
  }
}
