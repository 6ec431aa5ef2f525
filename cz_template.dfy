/**
 * The cz-customizable configuration shipped in templates/default-cz-config.js:
 * its constant settings and its own `formatCommitMessage`, which differs from
 * the one in src/formatter.js (no brackets around the branch, the branch left
 * out on `main` and `master`, a `TBD` issue fallback, body and breaking-change
 * sections).
 *
 * The `git rev-parse --abbrev-ref HEAD` lookup is a parameter: the text git
 * prints, or `None` when the command fails.
 */
module CzTemplate {
  import opened JsStrings
  import opened JsValues

  /** A `{ value, name }` entry of the template's type list. */
  datatype TypeEntry = TypeEntry(value: string, name: string)

  /** The ten commit types the template offers, in order. */
  const Types: seq<TypeEntry> := [
    TypeEntry("feat", "feat: Новая функциональность"),
    TypeEntry("fix", "fix: Исправление бага"),
    TypeEntry("docs", "docs: Изменения в документации"),
    TypeEntry("style", "style: Изменения стилей кода (форматирование, отступы)"),
    TypeEntry("refactor", "refactor: Рефакторинг кода"),
    TypeEntry("test", "test: Добавление или изменение тестов"),
    TypeEntry("chore", "chore: Изменения в сборке, настройках, зависимостях"),
    TypeEntry("perf", "perf: Улучшение производительности"),
    TypeEntry("ci", "ci: Изменения в CI/CD"),
    TypeEntry("build", "build: Изменения в сборке проекта")
  ]

  const Messages: map<string, string> := map[
    "type" := "Выберите тип изменений:",
    "scope" := "Выберите область изменений (опционально):",
    "customScope" := "Укажите область изменений:",
    "subject" := "Краткое описание изменений:",
    "body" := "Подробное описание изменений (опционально):",
    "breaking" := "Описание breaking changes (опционально):",
    "footer" := "ID задачи в Аспро (например: 12345):",
    "confirmCommit" := "Подтвердить создание коммита?"
  ]

  const AllowCustomScopes := true
  const AllowBreakingChanges: seq<string> := ["feat", "fix"]
  const SkipQuestions: seq<string> := ["body", "breaking"]
  const SubjectLimit := 100
  const AskForBreakingChangeFirst := false

  /** The `value` of each entry, in order. */
  function TypeValues(entries: seq<TypeEntry>): (values: seq<string>)
    ensures |values| == |entries| && forall i :: 0 <= i < |entries| ==> values[i] == entries[i].value
  {
    seq(|entries|, i requires 0 <= i < |entries| => entries[i].value)
  }

  /**
   * The template's types are feat, fix, docs, style, refactor, test, chore,
   * perf, ci and build, in this order, and no two share a value.
   */
  lemma TemplateTypes()
    ensures TypeValues(Types) == ["feat", "fix", "docs", "style", "refactor", "test", "chore", "perf", "ci", "build"]
    ensures forall i, j :: 0 <= i < j < |Types| ==> TypeValues(Types)[i] != TypeValues(Types)[j]
  {
    var values := TypeValues(Types);
    assert values == ["feat", "fix", "docs", "style", "refactor", "test", "chore", "perf", "ci", "build"];
  }

  /** `scope || branch`. */
  function BranchPart(answers: map<string, Value>, branch: string): Value
  {
    Or(Get(answers, "scope"), Str(branch))
  }

  /** The `/branchPart` segment is left out for `main` and `master`. */
  predicate Suppressed(branchPart: Value)
  {
    branchPart == Str("main") || branchPart == Str("master")
  }

  /** `footer || 'TBD'`. */
  function IssueId(answers: map<string, Value>): Value
  {
    Or(Get(answers, "footer"), Str("TBD"))
  }

  /** What `message += opening + v` appends when `v` is truthy, and nothing otherwise. */
  function Section(opening: string, v: Value): (text: string)
    requires opening != [] && opening[0] == '\n'
    ensures text == [] <==> !Truthy(v)
    ensures Truthy(v) ==> |opening| <= |text| && text[..|opening|] == opening
    ensures text == [] || text[0] == '\n'
  {
    if Truthy(v) then opening + ToJsString(v) else ""
  }

  const BodyOpening := "\n\n"
  const BreakingOpening := "\n\nBREAKING CHANGE: "

  /** `'\n\n' + body` when the body is truthy. */
  function BodySection(body: Value): string
  {
    Section(BodyOpening, body)
  }

  /** `'\n\nBREAKING CHANGE: ' + breaking` when the breaking change is truthy. */
  function BreakingSection(breaking: Value): string
  {
    Section(BreakingOpening, breaking)
  }

  /** What is appended after the header: the body, then the breaking change. */
  function Sections(answers: map<string, Value>): (text: string)
    ensures text == [] || text[0] == '\n'
  {
    BodySection(Get(answers, "body")) + BreakingSection(Get(answers, "breaking"))
  }

  /** The `/branchPart` segment, or nothing on `main` and `master`. */
  function Segment(branchPart: Value): string
  {
    if Suppressed(branchPart) then "" else "/" + ToJsString(branchPart)
  }

  /**
   * The header template: type, the segment, then `" | #" + issueId + " | " + subject`,
   * with `branchPart = scope || branch` and `issueId = footer || 'TBD'`.
   */
  function CzHeader(answers: map<string, Value>, branch: string): string
  {
    ToJsString(Get(answers, "type"))
    + (Segment(BranchPart(answers, branch))
    + (" | #" + (ToJsString(IssueId(answers))
    + (" | " + ToJsString(Get(answers, "subject"))))))
  }

  /** The message for a branch name: the header, then the sections. */
  function CzMessage(answers: map<string, Value>, branch: string): string
  {
    CzHeader(answers, branch) + Sections(answers)
  }

  /** `if (body) message += …; if (breaking) message += …;` on a header. */
  method AppendSections(header: string, body: Value, breaking: Value) returns (message: string)
    ensures message == header + (BodySection(body) + BreakingSection(breaking))
  {
    message := header;
    if Truthy(body) {
      message := message + (BodyOpening + ToJsString(body));
    }
    ghost var withBody := message;
    assert withBody == header + BodySection(body);
    if Truthy(breaking) {
      message := message + (BreakingOpening + ToJsString(breaking));
    }
    assert message == withBody + BreakingSection(breaking);
    ConcatAssoc(header, BodySection(body), BreakingSection(breaking));
  }

  /**
   * The template's `formatCommitMessage`: the branch is the trimmed output of
   * the git lookup, and a failing lookup throws before anything is built.
   */
  method FormatCzMessage(answers: map<string, Value>, headOutput: Option<string>) returns (message: Option<string>)
    ensures headOutput.None? <==> message.None?
    ensures headOutput.Some? ==> message == Some(CzMessage(answers, Trim(headOutput.value)))
  {
    if headOutput.None? {
      return None;
    }
    var branch := Trim(headOutput.value);
    var text := CzHeader(answers, branch);
    text := AppendSections(text, Get(answers, "body"), Get(answers, "breaking"));
    return Some(text);
  }

  /** A template message taken apart: type, branch segment if any, issue id, subject, and what follows the first line. */
  datatype CzParts = CzParts(commitType: string, branchPart: Option<string>, issueId: string, subject: string, sections: string)

  /** Reads a message of the template's shape back into its parts. */
  function ParseCzMessage(m: string): Option<CzParts>
  {
    var (head, rest) := CutAt(m, ' ');
    var (commitType, segment) := CutAt(head, '/');
    match ParseTail(rest)
    case None => None
    case Some((issueId, subject, sections)) =>
      Some(CzParts(commitType, if segment == "" then None else Some(segment[1..]), issueId, subject, sections))
  }

  /** What follows the type and segment: ` | #`, the issue id, ` | `, the subject line and the rest. */
  function ParseTail(rest: string): Option<(string, string, string)>
  {
    match DropPrefix(rest, " | #")
    case None => None
    case Some(afterHash) =>
      var (issueId, rest2) := CutAt(afterHash, ' ');
      match DropPrefix(rest2, " | ")
      case None => None
      case Some(tail) =>
        var (subject, sections) := CutAt(tail, '\n');
        Some((issueId, subject, sections))
  }

  /** Appending the sections to a header appends them to its subject. */
  lemma SectionsAfterSubject(t: string, segment: string, id: string, subject: string, sections: string)
    ensures t + (segment + (" | #" + (id + (" | " + subject)))) + sections
            == t + (segment + (" | #" + (id + (" | " + (subject + sections)))))
  {
  }

  lemma HeaderRoundTrip(t: string, segment: string, id: string, subject: string, sections: string)
    requires ' ' !in t && '/' !in t && ' ' !in segment && ' ' !in id && '\n' !in subject
    requires segment == "" || segment[0] == '/'
    requires sections == [] || sections[0] == '\n'
    ensures ParseCzMessage(t + (segment + (" | #" + (id + (" | " + (subject + sections))))))
            == Some(CzParts(t, if segment == "" then None else Some(segment[1..]), id, subject, sections))
  {
    var rest := " | #" + (id + (" | " + (subject + sections)));
    assert rest[0] == ' ';
    ConcatAssoc(t, segment, rest);
    CutAtOf(t + segment, rest, ' ');
    CutAtOf(t, segment, '/');
    TailRoundTrip(id, subject, sections);
  }

  lemma TailRoundTrip(id: string, subject: string, sections: string)
    requires ' ' !in id && '\n' !in subject
    requires sections == [] || sections[0] == '\n'
    ensures ParseTail(" | #" + (id + (" | " + (subject + sections)))) == Some((id, subject, sections))
  {
    var tail := subject + sections;
    var afterHash := id + (" | " + tail);
    DropPrefixOf(" | #", afterHash);
    CutAtOf(id, " | " + tail, ' ');
    DropPrefixOf(" | ", tail);
    CutAtOf(subject, sections, '\n');
  }

  /**
   * Every part of a template message can be read back: the type, the branch
   * part (absent exactly when it is `main` or `master`), the issue id (`TBD`
   * when there is no footer), the subject, and the body and breaking-change
   * sections after the first line.
   */
  lemma CzMessageRoundTrip(answers: map<string, Value>, branch: string)
    requires ' ' !in ToJsString(Get(answers, "type")) && '/' !in ToJsString(Get(answers, "type"))
    requires ' ' !in ToJsString(BranchPart(answers, branch))
    requires ' ' !in ToJsString(IssueId(answers))
    requires '\n' !in ToJsString(Get(answers, "subject"))
    ensures ParseCzMessage(CzMessage(answers, branch)) == Some(CzParts(
              ToJsString(Get(answers, "type")),
              if Suppressed(BranchPart(answers, branch)) then None else Some(ToJsString(BranchPart(answers, branch))),
              if Truthy(Get(answers, "footer")) then ToJsString(Get(answers, "footer")) else "TBD",
              ToJsString(Get(answers, "subject")),
              Sections(answers)))
  {
    var branchPart := BranchPart(answers, branch);
    var segment := Segment(branchPart);
    SegmentText(branchPart);
    IssueIdText(answers);
    var t, id, subject := ToJsString(Get(answers, "type")), ToJsString(IssueId(answers)), ToJsString(Get(answers, "subject"));
    assert CzHeader(answers, branch) == t + (segment + (" | #" + (id + (" | " + subject))));
    SectionsAfterSubject(t, segment, id, subject, Sections(answers));
    HeaderRoundTrip(t, segment, id, subject, Sections(answers));
  }

  /** The segment is empty for `main` and `master`, and otherwise `/` followed by the branch part's text, with no space when that text has none. */
  lemma SegmentText(branchPart: Value)
    ensures var segment := Segment(branchPart);
            && (Suppressed(branchPart) <==> segment == "")
            && (!Suppressed(branchPart) ==> segment[0] == '/' && segment[1..] == ToJsString(branchPart))
            && (' ' !in ToJsString(branchPart) ==> ' ' !in segment)
  {
  }

  /** The issue id is the footer's text, or `TBD` without a footer. */
  lemma IssueIdText(answers: map<string, Value>)
    ensures ToJsString(IssueId(answers)) == if Truthy(Get(answers, "footer")) then ToJsString(Get(answers, "footer")) else "TBD"
  {
  }

  /** A truthy scope replaces the branch name: the message then does not depend on the branch. */
  lemma ScopeReplacesBranch(answers: map<string, Value>, branch1: string, branch2: string)
    requires Truthy(Get(answers, "scope"))
    ensures CzMessage(answers, branch1) == CzMessage(answers, branch2)
  {
  }

  /** Without a scope, on `main` or `master` the message starts with the type directly followed by the issue part. */
  lemma MainBranchHasNoSegment(answers: map<string, Value>, branch: string)
    requires !Truthy(Get(answers, "scope"))
    requires branch == "main" || branch == "master"
    ensures CzMessage(answers, branch)
            == ToJsString(Get(answers, "type")) + " | #" + ToJsString(IssueId(answers)) + " | "
               + ToJsString(Get(answers, "subject")) + Sections(answers)
  {
    assert BranchPart(answers, branch) == Str(branch);
    assert Segment(BranchPart(answers, branch)) == "";
    HeaderWithoutSegment(ToJsString(Get(answers, "type")), " | #", ToJsString(IssueId(answers)), " | ",
                  ToJsString(Get(answers, "subject")), Sections(answers));
  }

  /** A header whose segment is empty, followed by the sections, read as one flat concatenation. */
  lemma HeaderWithoutSegment(a: string, b: string, c: string, d: string, e: string, f: string)
    ensures a + ("" + (b + (c + (d + e)))) + f == a + b + c + d + e + f
  {
    assert "" + (b + (c + (d + e))) == b + c + d + e;
  }

  /** The breaking-change section always ends the message; a body comes right before it. */
  lemma BreakingChangeComesLast(answers: map<string, Value>, branch: string)
    ensures var m, tail := CzMessage(answers, branch), BreakingSection(Get(answers, "breaking"));
            |tail| <= |m| && m[|m| - |tail|..] == tail
  {
    MessageSplit(answers, branch);
    LastPartEnds(CzHeader(answers, branch), BodySection(Get(answers, "body")), BreakingSection(Get(answers, "breaking")));
  }

  /** The message is the header, then the body section, then the breaking-change section. */
  lemma MessageSplit(answers: map<string, Value>, branch: string)
    ensures CzMessage(answers, branch)
            == CzHeader(answers, branch) + (BodySection(Get(answers, "body")) + BreakingSection(Get(answers, "breaking")))
  {
  }

  /** A truthy breaking change is appended as `'\n\nBREAKING CHANGE: ' + breaking`. */
  lemma BreakingText(breaking: Value)
    requires Truthy(breaking)
    ensures BreakingSection(breaking) == "\n\nBREAKING CHANGE: " + ToJsString(breaking)
  {
  }

  /** `a + (b + c)` ends with `c`. */
  lemma LastPartEnds(a: string, b: string, c: string)
    ensures var m := a + (b + c); |c| <= |m| && m[|m| - |c|..] == c
  {
  }
}
