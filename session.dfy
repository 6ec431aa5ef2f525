/**
 * The interactive commit session of src/index.js: the question list that
 * `promptUser` hands to the prompter, the validators and filters attached to
 * its questions, and the decisions `runCommit` takes between checking the
 * repository and committing.
 *
 * Git and the prompter are abstract: a `Repository` value holds what git
 * reports, the answers map and the confirmation attempts are what the prompter
 * returns.
 */
module Session {
  import opened JsStrings
  import opened JsValues
  import Config
  import Formatter

  // ---------------------------------------------------------------------------
  // Questions

  /** The prompt kinds the fixed questions use. */
  datatype PromptKind = ListPrompt | InputPrompt

  /** The `validate` callback attached to a question. */
  datatype Check = NoCheck | TaskIdCheck | SubjectCheck

  /** The `filter` callback attached to a question. */
  datatype Filter = NoFilter | BodyFilter | IssuesFilter

  /**
   * A question object: one of the fixed questions, or an entry of
   * `additionalQuestions` pushed as it is.
   */
  datatype Question =
    | Fixed(kind: PromptKind, name: string, message: string, choices: Value, check: Check, filter: Filter)
    | Additional(spec: Value)

  /** The first `scope` choice, meaning no scope. */
  const NoScopeChoice: Value := Config.Choice("❌ без области", "")

  /** `{ name: scope, value: scope }`. */
  function ScopeChoice(scope: Value): Value
  {
    Obj(map["name" := scope, "value" := scope])
  }

  /** The `scope` choices: no scope first, then one choice per configured scope in order. */
  function ScopeChoices(scopes: seq<Value>): (choices: seq<Value>)
    ensures |choices| == |scopes| + 1 && choices[0] == NoScopeChoice
    ensures forall i :: 0 <= i < |scopes| ==> choices[i + 1] == ScopeChoice(scopes[i])
  {
    [NoScopeChoice] + seq(|scopes|, i requires 0 <= i < |scopes| => ScopeChoice(scopes[i]))
  }

  function TypeQuestion(types: Value): Question
  {
    Fixed(ListPrompt, "type", "Выберите тип коммита:", Or(types, Arr(Config.DefaultTypes)), NoCheck, NoFilter)
  }

  const TaskIdQuestion: Question :=
    Fixed(InputPrompt, "taskId", "ID задачи (только цифры):", Undefined, TaskIdCheck, NoFilter)

  function ScopeQuestion(scopes: seq<Value>): Question
  {
    Fixed(ListPrompt, "scope", "Выберите область изменений:", Arr(ScopeChoices(scopes)), NoCheck, NoFilter)
  }

  const SubjectQuestion: Question :=
    Fixed(InputPrompt, "subject", "Краткое описание изменений:", Undefined, SubjectCheck, NoFilter)

  const BodyQuestion: Question :=
    Fixed(InputPrompt, "body", "Подробное описание (необязательно):", Undefined, NoCheck, BodyFilter)

  function IssuesQuestion(issuePrefix: Value): Question
  {
    Fixed(InputPrompt, "issues", "Ссылки на задачи (" + ToJsString(issuePrefix) + "-123):", Undefined, NoCheck, IssuesFilter)
  }

  /** `v.length > 0`. */
  predicate HasPositiveLength(v: Value)
  {
    IsPositive(LengthOf(v))
  }

  /** Which values have a positive `length`: non-empty arrays and strings, functions declaring a parameter, objects with a positive `length`. */
  lemma ScopeLengthCases(v: Value)
    ensures v.Arr? ==> (HasPositiveLength(v) <==> |v.items| > 0)
    ensures v.Str? ==> (HasPositiveLength(v) <==> |v.s| > 0)
    ensures v.Func? ==> (HasPositiveLength(v) <==> v.arity > 0)
    ensures v.Obj? && Get(v.props, "length").Num? ==> (HasPositiveLength(v) <==> Get(v.props, "length").n > 0)
    ensures v.Num? || v.Bool? ==> !HasPositiveLength(v)
  {
  }

  /** `config.scopes && config.scopes.length > 0`: the condition for asking for a scope. */
  predicate WantsScope(config: map<string, Value>)
  {
    Truthy(Get(config, "scopes")) && HasPositiveLength(Get(config, "scopes"))
  }

  /** The values `questions.push(...config.additionalQuestions)` pushes, when the spread succeeds. */
  function Extras(additional: Value): (extras: seq<Value>)
    ensures additional.Arr? ==> extras == additional.items
  {
    if !Truthy(additional) then []
    else match additional
      case Arr(items) => items
      case Str(s) => Characters(s)
      case _ => []
  }

  /** The one-character strings that spreading a string yields. */
  function Characters(s: string): seq<Value>
  {
    seq(|s|, i requires 0 <= i < |s| => Str([s[i]]))
  }

  /**
   * The builder throws a TypeError when the scopes to ask for are not an array
   * (`.map` is missing) or when truthy additional questions are not iterable.
   */
  predicate QuestionShapeOk(config: map<string, Value>)
  {
    var additional := Get(config, "additionalQuestions");
    && (WantsScope(config) ==> Get(config, "scopes").Arr?)
    && (!Truthy(additional) || additional.Arr? || additional.Str?)
  }

  /**
   * Scopes that only look like an array, an object with a positive `length` or
   * a function declaring a parameter, pass the length test and then have no
   * `.map`: the builder throws.
   */
  lemma ArrayLikeScopesThrow(config: map<string, Value>, n: nat)
    requires n > 0
    requires Get(config, "scopes") == Obj(map["length" := Num(n)]) || Get(config, "scopes") == Func(0, n, "")
    ensures !QuestionShapeOk(config)
  {
    var scopes := Get(config, "scopes");
    ScopeLengthCases(scopes);
    if scopes.Obj? {
      assert Get(scopes.props, "length") == Num(n);
    }
  }

  /** The names of the fixed questions, in the order they are asked; they are pairwise distinct. */
  function FixedNames(config: map<string, Value>): (names: seq<string>)
    ensures 4 <= |names| <= 6
    ensures forall i, j :: 0 <= i < j < |names| ==> names[i] != names[j]
  {
    ["type", "taskId"]
    + (if WantsScope(config) then ["scope"] else [])
    + ["subject", "body"]
    + (if Truthy(Get(config, "issuePrefix")) then ["issues"] else [])
  }

  /** What `promptUser` either hands to the prompter or throws before prompting. */
  datatype Build = Built(questions: seq<Question>) | TypeError

  /** The question list `promptUser` builds for a configuration whose shape it accepts. */
  function ExpectedQuestions(config: map<string, Value>): seq<Question>
  {
    var extras := Extras(Get(config, "additionalQuestions"));
    [TypeQuestion(Get(config, "types")), TaskIdQuestion]
    + (if WantsScope(config) && Get(config, "scopes").Arr? then [ScopeQuestion(Get(config, "scopes").items)] else [])
    + [SubjectQuestion, BodyQuestion]
    + (if Truthy(Get(config, "issuePrefix")) then [IssuesQuestion(Get(config, "issuePrefix"))] else [])
    + AdditionalQuestions(extras)
  }

  /** The additional questions, each passed on as it is. */
  function AdditionalQuestions(extras: seq<Value>): (qs: seq<Question>)
    ensures |qs| == |extras| && forall i :: 0 <= i < |extras| ==> qs[i] == Additional(extras[i])
  {
    seq(|extras|, i requires 0 <= i < |extras| => Additional(extras[i]))
  }

  /**
   * `promptUser`'s question list: built by successive pushes, or a TypeError
   * thrown before anything is asked.
   */
  method BuildQuestions(config: map<string, Value>) returns (r: Build)
    ensures r.Built? <==> QuestionShapeOk(config)
    ensures r.Built? ==> r.questions == ExpectedQuestions(config)
  {
    var questions: seq<Question> := [];
    questions := questions + [TypeQuestion(Get(config, "types"))];
    questions := questions + [TaskIdQuestion];
    ghost var scopePart: seq<Question> := [];
    var scopes := Get(config, "scopes");
    if WantsScope(config) {
      if !scopes.Arr? {
        return TypeError;
      }
      questions := questions + [ScopeQuestion(scopes.items)];
      scopePart := [ScopeQuestion(scopes.items)];
    }
    questions := questions + [SubjectQuestion];
    questions := questions + [BodyQuestion];
    ghost var issuesPart: seq<Question> := [];
    var issuePrefix := Get(config, "issuePrefix");
    if Truthy(issuePrefix) {
      questions := questions + [IssuesQuestion(issuePrefix)];
      issuesPart := [IssuesQuestion(issuePrefix)];
    }
    var additional := Get(config, "additionalQuestions");
    if Truthy(additional) {
      if !(additional.Arr? || additional.Str?) {
        return TypeError;
      }
    }
    var extras := Extras(additional);
    questions := questions + AdditionalQuestions(extras);
    Pushed(TypeQuestion(Get(config, "types")), TaskIdQuestion, scopePart, SubjectQuestion, BodyQuestion,
           issuesPart, AdditionalQuestions(extras));
    ExpectedInParts(config, scopePart, issuesPart);
    return Built(questions);
  }

  /** Pushing the questions one at a time lays them out in the order of the list. */
  lemma Pushed<T>(a: T, b: T, scope: seq<T>, c: T, d: T, issues: seq<T>, extras: seq<T>)
    ensures [] + [a] + [b] + scope + [c] + [d] + issues + extras == [a, b] + scope + [c, d] + issues + extras
  {
  }

  lemma ExpectedInParts(config: map<string, Value>, scopePart: seq<Question>, issuesPart: seq<Question>)
    requires scopePart == if WantsScope(config) && Get(config, "scopes").Arr? then [ScopeQuestion(Get(config, "scopes").items)] else []
    requires issuesPart == if Truthy(Get(config, "issuePrefix")) then [IssuesQuestion(Get(config, "issuePrefix"))] else []
    ensures ExpectedQuestions(config)
            == [TypeQuestion(Get(config, "types")), TaskIdQuestion] + scopePart + [SubjectQuestion, BodyQuestion]
               + issuesPart + AdditionalQuestions(Extras(Get(config, "additionalQuestions")))
  {
  }

  /**
   * The fixed questions come first, in the order type, taskId, [scope],
   * subject, body, [issues]; the scope question is there exactly when scopes
   * are configured, the issues question exactly when an issue prefix is; then
   * every additional question follows as it is and in its order.
   */
  lemma QuestionOrder(config: map<string, Value>)
    requires QuestionShapeOk(config)
    ensures var qs, names, extras := ExpectedQuestions(config), FixedNames(config), Extras(Get(config, "additionalQuestions"));
            && |qs| == |names| + |extras|
            && (forall i :: 0 <= i < |names| ==> qs[i].Fixed? && qs[i].name == names[i])
            && (forall i :: 0 <= i < |extras| ==> qs[|names| + i] == Additional(extras[i]))
  {
    var qs, names, extras := ExpectedQuestions(config), FixedNames(config), Extras(Get(config, "additionalQuestions"));
    var fixed := qs[..|names|];
    assert qs == fixed + qs[|names|..];
    assert forall i :: 0 <= i < |names| ==> qs[i].Fixed? && qs[i].name == names[i];
  }

  /**
   * The type question offers the configured types; the scope question offers
   * "no scope" and then one choice per scope, with its name equal to its value.
   */
  lemma QuestionChoices(config: map<string, Value>)
    requires QuestionShapeOk(config)
    ensures ExpectedQuestions(config)[0].choices == Or(Get(config, "types"), Arr(Config.DefaultTypes))
    ensures WantsScope(config) ==> ExpectedQuestions(config)[2] == ScopeQuestion(Get(config, "scopes").items)
    ensures WantsScope(config) ==>
              var choices := ScopeQuestion(Get(config, "scopes").items).choices.items;
              && choices[0] == NoScopeChoice
              && forall i :: 0 <= i < |Get(config, "scopes").items| ==>
                   choices[i + 1] == Obj(map["name" := Get(config, "scopes").items[i], "value" := Get(config, "scopes").items[i]])
  {
  }

  /** A loaded configuration always has truthy types, so the builder's own fallback list is never offered. */
  lemma LoadedTypesAreUsed(file: Config.ConfigFile)
    ensures Truthy(Get(Config.LoadConfig(file), "types"))
    ensures ExpectedQuestions(Config.LoadConfig(file))[0].choices == Get(Config.LoadConfig(file), "types")
  {
    var config := Config.LoadConfig(file);
    assert "types" in Config.ArrayFields;
    assert "types" in config;
    if file.Exports? && !file.value.Undefined? && !file.value.Null? {
      var user := Config.OwnProperties(file.value);
      assert config["types"] == if Truthy(Get(user, "types")) then user["types"] else Arr(Config.DefaultTypes);
    }
  }

  /** Every configuration `loadConfig` can produce from a plain object with array fields builds its questions. */
  lemma PlainConfigBuilds(file: Config.ConfigFile)
    requires file.Exports? ==> file.value.Obj?
    requires file.Exports? ==> !Truthy(Get(file.value.props, "scopes")) || Get(file.value.props, "scopes").Arr?
    requires file.Exports? ==> !Truthy(Get(file.value.props, "additionalQuestions")) || Get(file.value.props, "additionalQuestions").Arr?
    ensures QuestionShapeOk(Config.LoadConfig(file))
  {
    assert "scopes" in Config.ArrayFields && "additionalQuestions" in Config.ArrayFields;
  }

  // ---------------------------------------------------------------------------
  // Validators and filters

  const TaskIdRequired := "ID задачи обязателен"
  const TaskIdNotNumeric := "ID задачи должен содержать только цифры"

  /** The taskId validator: the trimmed input must be a non-empty run of decimal digits. */
  function CheckTaskId(input: string): (v: Verdict)
    ensures v == Accept <==> Trim(input) != "" && AllDigits(Trim(input))
    ensures v == Reject(TaskIdRequired) <==> AllWhitespace(input)
    ensures v == Accept || v == Reject(TaskIdRequired) || v == Reject(TaskIdNotNumeric)
  {
    TrimEmptyIff(input);
    if Trim(input) == "" then Reject(TaskIdRequired)
    else if !AllDigits(Trim(input)) then Reject(TaskIdNotNumeric)
    else Accept
  }

  /** Every numeral is accepted as a task id, with or without surrounding spaces. */
  lemma NumeralsAreTaskIds(n: nat)
    ensures CheckTaskId(NatToString(n)) == Accept
    ensures CheckTaskId(" " + NatToString(n) + " ") == Accept
  {
    var d := NatToString(n);
    assert !IsWhitespace(d[0]) && !IsWhitespace(d[|d| - 1]);
    TrimPadded(d);
  }

  /** One space on each side of a word that neither starts nor ends with whitespace is trimmed away. */
  lemma TrimPadded(w: string)
    requires |w| >= 1 && !IsWhitespace(w[0]) && !IsWhitespace(w[|w| - 1])
    ensures Trim(w) == w && Trim(" " + w + " ") == w
  {
    TrimStartNoop(w);
    TrimEndNoop(w);
    assert " " + w + " " == " " + (w + " ");
    TrimStartSpace(w + " ");
    TrimStartNoop(w + " ");
    TrimEndSpace(w);
  }

  lemma TrimStartSpace(s: string)
    ensures TrimStart(" " + s) == TrimStart(s)
  {
    assert (" " + s)[1..] == s;
  }

  lemma TrimEndSpace(s: string)
    ensures TrimEnd(s + " ") == TrimEnd(s)
  {
    assert (s + " ")[..|s|] == s;
  }

  const SubjectRequired := "Описание обязательно"
  const SubjectTooLong := "Описание должно быть короче 50 символов"
  const MaxSubjectLength := 50

  /** The subject validator: not blank, and at most 50 characters counted on the raw input. */
  function CheckSubject(input: string): (v: Verdict)
    ensures v == Accept <==> !AllWhitespace(input) && |input| <= MaxSubjectLength
    ensures v == Reject(SubjectRequired) <==> AllWhitespace(input)
    ensures v == Reject(SubjectTooLong) <==> !AllWhitespace(input) && |input| > MaxSubjectLength
  {
    TrimEmptyIff(input);
    if Trim(input) == "" then Reject(SubjectRequired)
    else if |input| > MaxSubjectLength then Reject(SubjectTooLong)
    else Accept
  }

  /** The body filter: the trimmed text, or undefined when nothing is left. */
  function FilterBody(input: string): (r: Value)
    ensures r == Undefined <==> AllWhitespace(input)
    ensures r != Undefined ==> r.Str? && r.s == Trim(input)
  {
    TrimEmptyIff(input);
    Or(Str(Trim(input)), Undefined)
  }

  /** Filtering a filtered body changes nothing. */
  lemma FilterBodyIdempotent(input: string)
    requires FilterBody(input).Str?
    ensures FilterBody(FilterBody(input).s) == FilterBody(input)
  {
    TrimIdempotent(input);
  }

  /** Each piece, trimmed. */
  function TrimAll(pieces: seq<string>): (r: seq<string>)
    ensures |r| == |pieces| && forall i :: 0 <= i < |pieces| ==> r[i] == Trim(pieces[i])
  {
    seq(|pieces|, i requires 0 <= i < |pieces| => Trim(pieces[i]))
  }

  /** The issues filter: undefined for blank input, else the comma-separated pieces trimmed and joined by `", "`. */
  function FilterIssues(input: string): (r: Value)
    ensures r == Undefined <==> AllWhitespace(input)
    ensures r != Undefined ==> r.Str? && r.s == Join(TrimAll(Split(input, ',')), ", ")
  {
    TrimEmptyIff(input);
    if Trim(input) == "" then Undefined
    else Str(Join(TrimAll(Split(input, ',')), ", "))
  }

  lemma TrimKeepsOut(s: string, c: char)
    requires c !in s
    ensures c !in Trim(s)
  {
    var t := TrimStart(s);
    assert t == s[|s| - |t|..];
    assert c !in t;
    assert TrimEnd(t) == t[..|TrimEnd(t)|];
  }

  lemma TrimAfterSpace(t: string)
    ensures Trim(" " + t) == Trim(t)
  {
    assert (" " + t)[1..] == t;
    assert TrimStart(" " + t) == TrimStart(t);
  }

  /** Trimming the pieces of a formatted issue list gives back the pieces. */
  lemma IssuePiecesRecovered(pieces: seq<string>)
    requires |pieces| >= 1
    requires forall i :: 0 <= i < |pieces| ==> ',' !in pieces[i]
    ensures TrimAll(Split(Join(TrimAll(pieces), ", "), ',')) == TrimAll(pieces)
  {
    var ps := TrimAll(pieces);
    forall i | 0 <= i < |ps| ensures ',' !in ps[i] {
      TrimKeepsOut(pieces[i], ',');
    }
    assert ", " == [','] + " ";
    SplitPadded(ps, ',', " ");
    var spaced := PrefixAllButFirst(ps, " ");
    forall i | 0 <= i < |ps| ensures Trim(spaced[i]) == ps[i] {
      TrimIdempotent(pieces[i]);
      if i > 0 {
        TrimAfterSpace(ps[i]);
      }
    }
  }

  /** Splitting parts joined by a separator and some padding gives the parts, each but the first behind the padding. */
  lemma SplitPadded(parts: seq<string>, sep: char, pad: string)
    requires |parts| >= 1 && sep !in pad
    requires forall i :: 0 <= i < |parts| ==> sep !in parts[i]
    ensures Split(Join(parts, [sep] + pad), sep) == PrefixAllButFirst(parts, pad)
  {
    var padded := PrefixAllButFirst(parts, pad);
    JoinRegroupPrefix(parts, [sep], pad);
    forall i | 0 <= i < |padded| ensures sep !in padded[i] {
      if i > 0 {
        assert padded[i] == pad + parts[i];
      }
    }
    SplitJoin(padded, sep);
  }

  /** Filtering a filtered issue list changes nothing. */
  lemma FilterIssuesIdempotent(input: string)
    requires FilterIssues(input).Str?
    ensures FilterIssues(FilterIssues(input).s) == FilterIssues(input)
  {
    IssuePiecesRecovered(Split(input, ','));
    FilteredNotBlank(input);
  }

  /** An issue list with some text in it keeps some text after filtering. */
  lemma FilteredNotBlank(input: string)
    requires !AllWhitespace(input)
    ensures !AllWhitespace(Join(TrimAll(Split(input, ',')), ", "))
  {
    var pieces := Split(input, ',');
    var ps := TrimAll(pieces);
    if |pieces| == 1 {
      JoinSplit(input, ',');
      assert ps[0] == Trim(input) && Join(ps, ", ") == ps[0];
      TrimEmptyIff(input);
      TrimIdempotent(input);
      TrimEmptyIff(Trim(input));
    } else {
      SeparatorAfterFirst(ps, ", ");
      assert !IsWhitespace(',');
    }
  }

  /** With two parts or more, the separator follows the first part. */
  lemma SeparatorAfterFirst(parts: seq<string>, sep: string)
    requires |parts| >= 2 && |sep| >= 1
    ensures |Join(parts, sep)| > |parts[0]| && Join(parts, sep)[|parts[0]|] == sep[0]
  {
    assert Join(parts, sep) == parts[0] + sep + Join(parts[1..], sep);
  }

  // ---------------------------------------------------------------------------
  // Staged files and confirmation

  /** One entry of `git status`: its index (staging area) letter and its path. */
  datatype StatusEntry = StatusEntry(index: string, path: string)

  /** Modified, added, deleted or renamed in the index. */
  predicate IsStaged(entry: StatusEntry)
  {
    entry.index == "M" || entry.index == "A" || entry.index == "D" || entry.index == "R"
  }

  /** `status.files.filter(…)`: the staged entries, in their order. */
  function StagedFiles(files: seq<StatusEntry>): (staged: seq<StatusEntry>)
    ensures forall e :: e in staged <==> e in files && IsStaged(e)
    ensures |staged| <= |files|
    ensures staged == [] <==> forall i :: 0 <= i < |files| ==> !IsStaged(files[i])
  {
    if files == [] then []
    else (if IsStaged(files[0]) then [files[0]] else []) + StagedFiles(files[1..])
  }

  /** Filtering keeps the order of the entries: the staged entries of a concatenation are those of each part, in turn. */
  lemma {:induction false} StagedFilesAppend(a: seq<StatusEntry>, b: seq<StatusEntry>)
    ensures StagedFiles(a + b) == StagedFiles(a) + StagedFiles(b)
  {
    if a == [] {
      assert a + b == b;
    } else {
      assert (a + b)[0] == a[0] && (a + b)[1..] == a[1..] + b;
      StagedFilesAppend(a[1..], b);
    }
  }

  /** The confirmation filter: trimmed and lower-cased. */
  function NormalizeConfirm(input: string): string
  {
    ToLower(Trim(input))
  }

  /** The answers the confirmation validator lets through. */
  const ConfirmWords: set<string> := {"", "y", "yes", "n", "no"}

  /** The session commits on these confirmation answers. */
  predicate ShouldCommit(confirm: string)
  {
    confirm == "" || confirm == "y" || confirm == "yes"
  }

  /** The prompter asks again until the validator accepts: the first accepted attempt, normalised. */
  function FirstAccepted(attempts: seq<string>): (r: Option<string>)
    ensures r.Some? ==> r.value in ConfirmWords
  {
    if attempts == [] then None
    else if NormalizeConfirm(attempts[0]) in ConfirmWords then Some(NormalizeConfirm(attempts[0]))
    else FirstAccepted(attempts[1..])
  }

  /** The answer taken is that of the first attempt the validator accepts; there is one iff some attempt is acceptable. */
  lemma {:induction false} FirstAcceptedIsFirst(attempts: seq<string>)
    ensures FirstAccepted(attempts).Some? <==>
              exists i :: 0 <= i < |attempts| && NormalizeConfirm(attempts[i]) in ConfirmWords
    ensures FirstAccepted(attempts).Some? ==>
              exists i :: 0 <= i < |attempts| && FirstAccepted(attempts).value == NormalizeConfirm(attempts[i])
                && forall j :: 0 <= j < i ==> NormalizeConfirm(attempts[j]) !in ConfirmWords
  {
    if attempts != [] && NormalizeConfirm(attempts[0]) !in ConfirmWords {
      var rest := attempts[1..];
      FirstAcceptedIsFirst(rest);
      assert forall i :: 0 < i < |attempts| ==> attempts[i] == rest[i - 1];
      if FirstAccepted(rest).Some? {
        var i :| 0 <= i < |rest| && FirstAccepted(rest).value == NormalizeConfirm(rest[i])
                 && forall j :: 0 <= j < i ==> NormalizeConfirm(rest[j]) !in ConfirmWords;
        assert FirstAccepted(attempts).value == NormalizeConfirm(attempts[i + 1]);
        assert forall j :: 0 <= j < i + 1 ==> NormalizeConfirm(attempts[j]) !in ConfirmWords by {
          forall j | 0 <= j < i + 1 ensures NormalizeConfirm(attempts[j]) !in ConfirmWords {
            if j > 0 {
              assert attempts[j] == rest[j - 1];
            }
          }
        }
      } else {
        forall i | 0 <= i < |attempts| ensures NormalizeConfirm(attempts[i]) !in ConfirmWords {
          if i > 0 {
            assert attempts[i] == rest[i - 1];
          }
        }
      }
    } else if attempts != [] {
      assert 0 < |attempts| && FirstAccepted(attempts).value == NormalizeConfirm(attempts[0]);
    }
  }

  /** The confirmation filter drops one space on either side of a word and lower-cases its letters. */
  lemma NormalizePadded(w: string)
    requires |w| >= 1 && !IsWhitespace(w[0]) && !IsWhitespace(w[|w| - 1])
    ensures NormalizeConfirm(" " + w + " ") == ToLower(w)
  {
    TrimPadded(w);
  }

  /** Blanks around an answer and upper case do not matter. */
  lemma UpperCaseYesConfirms()
    ensures FirstAccepted([" YES "]) == Some("yes") && ShouldCommit("yes")
  {
    NormalizeSpacedYes();
    assert "yes" in ConfirmWords;
    AcceptedAtOnce(" YES ");
  }

  lemma NormalizeSpacedYes()
    ensures NormalizeConfirm(" YES ") == "yes"
  {
    assert " YES " == " " + "YES" + " ";
    NormalizePadded("YES");
    LowerYes();
  }

  lemma LowerYes()
    ensures ToLower("YES") == "yes"
  {
    assert ToLowerChar('Y') == 'y' && ToLowerChar('E') == 'e' && ToLowerChar('S') == 's';
  }

  /** A first attempt the validator accepts is the answer. */
  lemma AcceptedAtOnce(attempt: string)
    requires NormalizeConfirm(attempt) in ConfirmWords
    ensures FirstAccepted([attempt]) == Some(NormalizeConfirm(attempt))
  {
    assert [attempt][0] == attempt;
  }

  lemma NormalizeWords()
    ensures NormalizeConfirm("maybe") == "maybe" && NormalizeConfirm("N") == "n"
  {
    TrimStartNoop("maybe");
    TrimEndNoop("maybe");
    assert ToLower("maybe") == "maybe";
    TrimStartNoop("N");
    TrimEndNoop("N");
    assert ToLower("N") == "n";
  }

  /** An unacceptable answer is asked again; `n` then cancels. */
  lemma RetryThenNoCancels()
    ensures FirstAccepted(["maybe", "N"]) == Some("n") && !ShouldCommit("n")
  {
    NormalizeWords();
    var attempts := ["maybe", "N"];
    assert attempts[0] == "maybe" && attempts[1..] == ["N"] && attempts[1..][0] == "N";
    assert "maybe" !in ConfirmWords && "n" in ConfirmWords;
    assert FirstAccepted(attempts) == FirstAccepted(attempts[1..]);
    assert FirstAccepted(attempts[1..]) == Some(NormalizeConfirm("N"));
  }

  // ---------------------------------------------------------------------------
  // The session

  /** What git reports about the working directory. */
  datatype Repository = Repository(isRepo: bool, branch: string, files: seq<StatusEntry>, acceptsCommit: bool)

  /** The error `runCommit` reports and rethrows. */
  datatype Failure = NotARepository | QuestionShapeError | CommitRejected

  datatype Outcome =
    | Failed(failure: Failure)
    | NothingStaged
    | Unconfirmed
    | Cancelled
    | Committed(message: Value)

  /** A staged repository and questions that build: the session gets as far as the confirmation prompt. */
  predicate Prompted(repo: Repository, configFile: Config.ConfigFile)
  {
    repo.isRepo && StagedFiles(repo.files) != [] && QuestionShapeOk(Config.LoadConfig(configFile))
  }

  /** A staged repository, questions that build, and a confirming answer. */
  predicate ConfirmedCommit(repo: Repository, configFile: Config.ConfigFile, confirmAttempts: seq<string>)
  {
    && Prompted(repo, configFile)
    && FirstAccepted(confirmAttempts).Some? && ShouldCommit(FirstAccepted(confirmAttempts).value)
  }

  /**
   * `runCommit`: check the repository, load the configuration, stop when nothing
   * is staged, ask the questions, format the message, ask for confirmation, and
   * commit exactly the formatted message when the answer is Enter, `y` or `yes`.
   * `Unconfirmed` is a prompter that never receives an acceptable answer.
   */
  method RunCommit(repo: Repository, configFile: Config.ConfigFile, answers: map<string, Value>,
                   confirmAttempts: seq<string>, run: HookRunner)
    returns (outcome: Outcome)
    ensures !repo.isRepo <==> outcome == Failed(NotARepository)
    ensures outcome == NothingStaged <==> repo.isRepo && StagedFiles(repo.files) == []
    ensures outcome == Failed(QuestionShapeError) <==>
              repo.isRepo && StagedFiles(repo.files) != [] && !QuestionShapeOk(Config.LoadConfig(configFile))
    ensures outcome.Committed? <==> ConfirmedCommit(repo, configFile, confirmAttempts) && repo.acceptsCommit
    ensures outcome == Failed(CommitRejected) <==> ConfirmedCommit(repo, configFile, confirmAttempts) && !repo.acceptsCommit
    ensures outcome == Unconfirmed <==> Prompted(repo, configFile) && FirstAccepted(confirmAttempts).None?
    ensures outcome == Cancelled <==>
              Prompted(repo, configFile) && FirstAccepted(confirmAttempts).Some? && !ShouldCommit(FirstAccepted(confirmAttempts).value)
    ensures outcome.Committed? ==>
              outcome.message == Formatter.FormatCommitMessage(answers, Config.LoadConfig(configFile), repo.branch, run)
  {
    if !repo.isRepo {
      return Failed(NotARepository);
    }
    var config := Config.LoadConfig(configFile);
    var staged := StagedFiles(repo.files);
    if |staged| == 0 {
      return NothingStaged;
    }
    var questions := BuildQuestions(config);
    if questions.TypeError? {
      return Failed(QuestionShapeError);
    }
    var message := Formatter.FormatCommitMessage(answers, config, repo.branch, run);
    var confirm := FirstAccepted(confirmAttempts);
    if confirm.None? {
      return Unconfirmed;
    }
    if !ShouldCommit(confirm.value) {
      return Cancelled;
    }
    if !repo.acceptsCommit {
      return Failed(CommitRejected);
    }
    return Committed(message);
  }
}
