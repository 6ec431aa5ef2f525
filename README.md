# commit-template, modelled in Dafny

commit-template is a command-line helper that writes commit messages for a
team convention, `type/[branch] | #taskId | subject`. This project models its
core and proves properties of that model:

- **Interactive commit session** (`src/index.js`, module `Session`).
  - `promptUser` builds the question list: type, task id, optional scope,
    subject, body, optional issues, then any additional questions. Each
    question carries its validators and filters.
  - `runCommit` checks the repository and keeps only staged files. It asks
    for confirmation and commits exactly the formatted message.
- **Configuration** (`src/config.js`, module `Config`). The user's
  `commit.config.js` export is spread over fixed defaults. `types`, `scopes`
  and `additionalQuestions` fall back to their default with `||`.
- **Formatter and validator** (`src/formatter.js`, module `Formatter`).
  - The formatter uses the default message shape or a user `messageFormat`
    hook; the branch formatter uses a `branchFormat` hook.
  - The validator checks three independent rules: first-line length, emptiness
    and a type prefix.
- **The shipped cz-customizable template** (`templates/default-cz-config.js`,
  module `CzTemplate`). It has its own constants and its own
  `formatCommitMessage`:
  - the `/branch` segment is dropped on `main` and `master`
  - a `TBD` issue fallback
  - body and breaking-change sections
- **Custom template writer** (`lib/template.js`, module `TemplateGen`).
  - `generateCzConfig` and `generateFieldConfig` serialise the answers of the
    custom-template dialogue into a `cz-config.js` module.
  - The `maxSubjectLength` prompt validates its input with `parseInt`.
- **`setup` command** (`lib/setup.js`, module `Setup`).
  - It updates package.json in place for commitizen. It can write a
    `commit-msg` hook, install commitizen and copy the default template.
  - The hook's `grep -E` pattern is modelled as a predicate over message lines.
- **`init` script** (`scripts/init.js`, module `Init`). It adds a `commit`
  script to package.json. Where they are missing, it writes `commit.config.js`
  and `.gitignore`.

Three helper modules support these:

- `JsValues` models JavaScript values:
  - truthiness, `||` and the text of `${v}`
  - property reads
  - assignment in strict mode (a TypeError on a primitive) and in sloppy mode
    (ignored).
- `JsStrings` models `trim`, `split`, `join`, digit runs, numerals and ASCII
  lower case.
- `Workspace` holds the project directory as a class: a map from path to
  entry, the set of executable paths, and the external commands run.

Arrays and functions keep the named properties an assignment gives them only
in memory: `JSON.stringify` drops them. So an assignment on them is modelled
as leaving the value unchanged.

Some results relate one part of the tool to another. Each is a lemma in the
table below:

- The prompt accepts a task id with spaces around its digits, such as `" 1 "`,
  because it trims before checking. The answer keeps the spaces, so the hook
  rejects the default-format message built from it, as long as the branch and
  the subject contain no `|` (`Setup.PaddedTaskIdRejected`). A subject that
  holds an issue part of its own gives the pattern another place to match.
- The cz template types `perf`, `ci` and `build`, and the built-in prompt type
  `perf`, are not in the hook's vocabulary (`Setup.TypesOutsideTheHook`,
  `Setup.OtherTypesRejected`).
- The cz template's `TBD` fallback message on `main`/`master` is rejected by
  the hook (`Setup.TemplateFallbackRejected`).
- A default-format message passes the hook when its type is a hook type and
  its task id is digits (`Setup.DefaultFormatAccepted`).
- The `maxSubjectLength` prompt accepts a numeral followed by other text, such
  as `"50abc"`, and that whole text is written into `subjectLimit`
  (`TemplateGen.TrailingTextPasses`, `TemplateGen.CzConfigLimits`).

The validator's type token is required by the regular expression in
src/formatter.js:36. The model follows that code, not a reading in which the
token is optional.

## Model

| member | source | states |
|---|---|---|
| JsValues.AssignStrict | lib/setup.js:54-68 | an ES-module assignment succeeds exactly on objects, arrays and functions; after it, reading the assigned key of an object gives the new value and every other read is unchanged; on a primitive, null or undefined it throws |
| Formatter.FormatCommitMessage | src/formatter.js:4-16 | with a function-valued `messageFormat` the result is exactly that function's result on (answers, config, branch); otherwise it is the default shape over the `type`, `taskId` and `subject` answers and the branch |
| Formatter.DefaultFormatRoundTrip | src/formatter.js:11-15 | the default shape can be parsed back into type, branch, task id and subject, so no part is truncated or changed and distinct inputs give distinct messages |
| Formatter.DefaultMessageForStrings | src/formatter.js:11-15 | with string answers and no hook, the message is exactly `type/[branch] \| #taskId \| subject`, and all four parts read back unchanged |
| Formatter.DefaultIgnoresOtherAnswers | src/formatter.js:11-15 | the default message depends only on the type, taskId and subject answers (and the branch); scope, body, issues and any other answer make no difference |
| Formatter.FormatBranch | src/formatter.js:47-53 | the branch is returned unchanged unless `branchFormat` is a function, in which case its result is returned |
| Formatter.TypePrefixRecogniser | src/formatter.js:36 | the hand-written recogniser accepts a line exactly when some prefix of it is `type:` or `type(scope):` for one of the eight types and a non-empty scope over `[a-z-]` |
| Formatter.ValidateCommitMessage | src/formatter.js:21-42 | the length violation is reported iff the first line has more than 72 characters; the emptiness violation iff the message is whitespace only; the prefix violation iff the pattern does not match the first line; violations come in the order length, empty, prefix, at most once each |
| Formatter.Collected | src/formatter.js:22-41 | the list holds the length violation iff the line is too long, the emptiness violation iff the message is blank, the prefix violation iff the pattern fails, in rule order |
| Formatter.RuleOrderDetermines | src/formatter.js:22-41 | a violation list in rule order is determined by which violations it holds, so the validator's result is fixed by the three conditions |
| Formatter.EmptyLineHasNoTypePrefix | src/formatter.js:36 | the pattern does not match the empty line, so `""` gets both the empty and the prefix violation |
| Formatter.WellFormedLineMatches | src/formatter.js:25-39 | `feat(auth): valid subject` is one line of 25 characters that is not blank and matches the pattern, so it has no violation |
| Config.DefaultConfig | src/config.js:11-27 | the defaults have exactly the keys types, scopes, issuePrefix, additionalQuestions, messageFormat and branchFormat |
| Config.DefaultConfigShape | src/config.js:11-27 | the default types are the eight built-in types; scopes and additional questions are empty; issuePrefix, messageFormat and branchFormat are null |
| Config.DefaultTypeValues | src/config.js:12-21 | the built-in type values are feat, fix, docs, style, refactor, perf, test and chore, in this order |
| Config.MergeOverDefaults | src/config.js:35-42 | the result has the default keys plus the user keys; a truthy user array field replaces the default outright and a falsy or absent one gives the default; every other user key wins; default keys the user leaves out keep their default |
| Config.MergeIsSpread | src/config.js:35-42 | the key-by-key merge equals the object-spread expression `{...defaults, ...user, types: …, scopes: …, additionalQuestions: …}` |
| Config.MergeWith | src/config.js:35-42 | the merge over any defaults holding the three array fields has exactly the default keys and the user keys |
| Config.MergeWithIsSpread | src/config.js:35-42 | over any such defaults, the key-by-key merge equals the spread expression |
| Config.LoadConfig | src/config.js:7-50 | no file, a file that throws, or an export of null/undefined gives exactly the defaults; any other export's own properties are merged over the defaults; every result has the default keys |
| Config.UserTypesReplaceDefaults | src/config.js:39 | a user `types` array becomes the effective types exactly, with no concatenation |
| Config.ExampleFileKeepsItsTypes | src/config.js:35-42 | a configuration shaped like the repository's own `commit.config.js` (nine types and a format function) keeps its types and its messageFormat, with default scopes and issue prefix |
| CzTemplate.TemplateTypes | templates/default-cz-config.js:2-13 | the template's types are feat, fix, docs, style, refactor, test, chore, perf, ci and build in this order, with distinct values |
| CzTemplate.Section | templates/default-cz-config.js:55-61 | a conditional append is empty exactly for a falsy value, and otherwise begins with its opening, which starts with a line break |
| CzTemplate.Sections | templates/default-cz-config.js:55-61 | what is appended after the header is empty or starts with a line break |
| CzTemplate.AppendSections | templates/default-cz-config.js:55-61 | the two conditional `+=` appends produce the header, then the body section, then the breaking-change section |
| CzTemplate.FormatCzMessage | templates/default-cz-config.js:40-64 | a failing git lookup throws before any message; otherwise the message is the template's message for the trimmed branch name |
| CzTemplate.TailRoundTrip | templates/default-cz-config.js:53-61 | the text after the type and branch segment, ` \| #id \| subject` and the sections, parses back into the id, the subject and the sections |
| CzTemplate.SegmentText | templates/default-cz-config.js:52 | the segment is empty exactly on `main` and `master`, and otherwise `/` followed by the branch part |
| CzTemplate.IssueIdText | templates/default-cz-config.js:50 | the issue id is the footer's text, or `TBD` without a footer |
| CzTemplate.HeaderRoundTrip | templates/default-cz-config.js:53 | a header `type[/branchPart] \| #id \| subject` followed by the sections parses back into all of its parts |
| CzTemplate.CzMessageRoundTrip | templates/default-cz-config.js:50-61 | the message reads back as: the type; the branch part (scope, or else the branch), absent exactly on `main`/`master`; the issue id (footer, or else `TBD`); the subject; then the body and breaking-change sections |
| CzTemplate.ScopeReplacesBranch | templates/default-cz-config.js:50 | with a truthy scope the message does not depend on the branch |
| CzTemplate.MainBranchHasNoSegment | templates/default-cz-config.js:53 | without a scope, on `main` or `master` the type is followed directly by ` \| #issueId \| subject` |
| CzTemplate.BreakingText | templates/default-cz-config.js:59-61 | a truthy breaking change is appended as `\n\nBREAKING CHANGE: ` followed by its text |
| CzTemplate.BreakingChangeComesLast | templates/default-cz-config.js:55-61 | the breaking-change section always ends the message, after the header and any body |
| Session.FixedNames | src/index.js:100-180 | between four and six fixed questions, with pairwise distinct names |
| Session.ScopeLengthCases | src/index.js:133 | `scopes.length > 0` holds for a non-empty array or string, a function declaring a parameter, and an object whose `length` is a positive number; never for a number or a boolean |
| Session.ArrayLikeScopesThrow | src/index.js:133-140 | an object with a positive `length` or a function declaring a parameter passes the length test and has no `.map`, so the builder throws |
| Session.BuildQuestions | src/index.js:100-187 | the list is built exactly when the scopes and additional questions have shapes the code can iterate, and then it is the expected question list (otherwise a TypeError is thrown before prompting) |
| Session.QuestionOrder | src/index.js:100-187 | the questions are type, taskId, [scope], subject, body, [issues] in that order; scope is there iff scopes are non-empty and issues iff issuePrefix is truthy; the additional questions follow verbatim, in order |
| Session.QuestionChoices | src/index.js:104-143 | the type question offers `config.types` when truthy and the eight built-in types otherwise; the scope question offers "no scope" then one choice per scope with name equal to value |
| Session.LoadedTypesAreUsed | src/index.js:108 | a loaded configuration always has truthy types, so the type question offers exactly the loaded types |
| Session.PlainConfigBuilds | src/index.js:133-185 | every configuration loaded from a plain object whose scopes and additional questions are arrays (or falsy) builds its questions |
| Session.CheckTaskId | src/index.js:125-129 | a task id is accepted iff the trimmed input is a non-empty run of decimal digits; blank input gets the "required" message, anything else the "digits only" message |
| Session.NumeralsAreTaskIds | src/index.js:125-129 | every numeral is accepted, also with spaces around it |
| Session.TrimPadded | src/index.js:125-129 | one space on each side of a word that neither starts nor ends with whitespace is trimmed away, and the word itself is left as it is |
| Session.CheckSubject | src/index.js:150-158 | a subject is accepted iff it is not blank and its raw length is at most 50; blank gets the "required" message, longer than 50 the "too long" message |
| Session.FilterBody | src/index.js:166 | the body filter gives undefined iff the input is blank, and otherwise the trimmed input |
| Session.FilterBodyIdempotent | src/index.js:166 | filtering a filtered body changes nothing |
| Session.FilterIssues | src/index.js:175-178 | the issues filter gives undefined iff the input is blank, and otherwise the comma-separated pieces, each trimmed, joined by `", "` |
| Session.IssuePiecesRecovered | src/index.js:177 | splitting a formatted issue list on `,` and trimming gives back the trimmed pieces |
| Session.FilterIssuesIdempotent | src/index.js:175-178 | filtering a filtered issue list changes nothing |
| Session.StagedFiles | src/index.js:37-39 | exactly the entries whose index letter is M, A, D or R are kept, and there are none iff no entry is staged |
| Session.StagedFilesAppend | src/index.js:37-39 | the filter keeps the entries in their order: the staged entries of two lists joined are those of the first, then those of the second |
| Session.FirstAccepted | src/index.js:64-79 | the confirmation answer taken is one of `''`, `y`, `yes`, `n`, `no` |
| Session.FirstAcceptedIsFirst | src/index.js:64-79 | there is an answer iff some attempt normalises to an accepted word, and it is the normalised first such attempt |
| Session.NormalizePadded | src/index.js:70 | the confirmation filter drops one space on either side of a word and lower-cases its letters |
| Session.NormalizeSpacedYes | src/index.js:70 | the answer is trimmed and lower-cased: `" YES "` becomes `yes` |
| Session.UpperCaseYesConfirms | src/index.js:70-81 | `" YES "` is accepted and confirms the commit |
| Session.NormalizeWords | src/index.js:70 | `maybe` stays `maybe` and `N` becomes `n` |
| Session.RetryThenNoCancels | src/index.js:71-85 | an unacceptable answer is asked again, and a following `N` cancels the commit |
| Session.RunCommit | src/index.js:13-95 | fails iff not a repository; stops without committing iff nothing is staged; fails iff the questions cannot be built; once prompted, cancels iff the first accepted answer is `n` or `no`, and finishes unconfirmed iff no answer is accepted; commits iff everything succeeded and the answer is `''`, `y` or `yes`; the commit message is exactly the formatter's output |
| TemplateGen.FieldEntries | lib/template.js:282-295 | a field has three to five property lines |
| TemplateGen.FieldEntriesShape | lib/template.js:282-295 | name, message and type are always emitted; `required: true` is emitted iff the field is required; a choices line is emitted iff the field has choices, and it is then the last entry |
| TemplateGen.GenerateFieldConfig | lib/template.js:281-301 | the text accumulated with `+=` is the field's braced text: `    {`, the entries separated by `",\n"`, `    }` |
| TemplateGen.FieldTextIsLines | lib/template.js:281-301 | a field's text is its lines joined by line breaks: the opening brace, each entry but the last with a trailing comma, the closing brace |
| TemplateGen.FieldReadsBack | lib/template.js:281-301 | when the field's texts have no line breaks, splitting its text into lines gives back exactly those lines |
| TemplateGen.TypeBlockIsLines | lib/template.js:224 | the types joined by `",\n"` are the type lines, each but the last with a trailing comma |
| TemplateGen.FieldsBlockIsLines | lib/template.js:257 | the field texts joined by `",\n"` are every field's lines in order, each closing brace but the last followed by a comma |
| TemplateGen.FieldsBlockReadsBack | lib/template.js:257 | with fields free of line breaks, splitting the joined field texts gives back exactly those lines |
| TemplateGen.CustomBlockIsLines | lib/template.js:256-258 | the customFields segment is empty without fields, and otherwise `  customFields: [`, the field lines, `  ],` |
| TemplateGen.CzConfigIsLines | lib/template.js:221-279 | the generated module is the join of its lines |
| TemplateGen.TypeBlockShape | lib/template.js:224 | without types the block is one empty line; otherwise its lines are the type lines in input order, with a comma on all but the last |
| TemplateGen.FixedSizes | lib/template.js:221-279 | the fixed runs of the module have 2, 22, 2 and 5 lines |
| TemplateGen.AssembledTypes | lib/template.js:222-224 | for any fixed runs, the module starts with the opening run, then one line per type in input order (comma on all but the last), or one empty line without types |
| TemplateGen.AssembledLimits | lib/template.js:247-250 | for any fixed runs, the lines at the limit and pattern positions are the `subjectLimit` and `subjectPattern` lines of the `maxSubjectLength` text |
| TemplateGen.AssembledEnd | lib/template.js:256-279 | for any fixed runs, the `customFields` opening line is present iff there are custom fields, and the module ends with the closing run |
| TemplateGen.CzConfigTypes | lib/template.js:222-225 | the generated module opens with `module.exports = {` and `  types: [`, then one `{ value, name }` line per type in input order, a comma on all but the last; with no types, one empty line |
| TemplateGen.CzConfigLimits | lib/template.js:246-250 | `subjectLimit` comes after the opening lines, the type lines and the 22 settings lines, and holds the `maxSubjectLength` text verbatim; `subjectPattern` holds the same text inside `^(.{1,…})$` |
| TemplateGen.CzConfigCustom | lib/template.js:256-258 | the `customFields: [` line is there exactly when there are custom fields |
| TemplateGen.CheckMaxSubjectLength | lib/template.js:15-18 | accepted iff `parseInt` gives a number between 1 and 200; otherwise the "number from 1 to 200" message |
| TemplateGen.ParseNumeral | lib/template.js:16 | `parseInt` reads a plain numeral as its value |
| TemplateGen.NumeralLimits | lib/template.js:15-18 | a plain numeral passes iff it is between 1 and 200 |
| TemplateGen.NumeralThenText | lib/template.js:16 | `parseInt` reads a numeral of a positive number followed by a non-digit, or by nothing, as that number; the rest of the text is ignored |
| TemplateGen.DecimalThenText | lib/template.js:16 | digits without a leading `0` followed by a non-digit, or by nothing, read as their decimal value |
| TemplateGen.UnsignedParse | lib/template.js:16 | text starting with a digit has no blanks or sign to skip, so it is read as an unsigned number |
| TemplateGen.TrailingTextPasses | lib/template.js:15-18 | a numeral from 1 to 200 followed by any text that does not go on with a digit (such as `"50abc"`) passes the validator |
| TemplateGen.HexLimitPasses | lib/template.js:16 | leading spaces are skipped and `0x` reads hexadecimal: `" 0x20"` is 32 |
| TemplateGen.NonNumbersRejected | lib/template.js:15-18 | the empty text, `abc` and `0` are rejected |
| TemplateGen.NoNumeralIsNaN | lib/template.js:16 | text that starts with neither whitespace, a sign nor a digit, and the empty text, parse as `NaN` |
| Setup.ReadPackage | lib/setup.js:46-51 | without package.json the document is `{}`; a package.json that is not JSON throws; otherwise its content |
| Setup.Dependencies | lib/setup.js:64-68 | the devDependencies section is untouched without installing, and when installing the assignment succeeds iff the section can take properties |
| Setup.CommitizenEntries | lib/setup.js:44-72 | on an object: success iff the sections (after `\|\| {}`) can take properties; then `config.commitizen` is `{path: './cz-config.js'}` and `scripts.commit` is `'cz'`, overwriting; the two packages are added iff installing; every other key of the document and of the sections is kept; nothing else is added |
| Setup.PrimitivePackageRefused | lib/setup.js:54 | a document that is not an object, array or function refuses the update |
| Setup.CommitizenIdempotent | lib/setup.js:44-72 | applying the update to its own result changes nothing |
| Setup.SetupCommitizenConfig | lib/setup.js:44-72 | the step-by-step in-place update writes exactly the updated document back to package.json, or reports why it failed and writes nothing |
| Setup.WithHook | lib/setup.js:74-97 | the hook file holds the hook script; `.git` and `.git/hooks` are created only if missing; every other path is unchanged |
| Setup.SetupGitHooks | lib/setup.js:74-97 | the files become those with the hook, and the hook becomes executable |
| Setup.InstallCommands | lib/setup.js:99-121 | `npm init -y` runs only without package.json; `npm install` runs unless that init failed |
| Setup.InstallCommitizen | lib/setup.js:99-121 | exactly those commands are run, and a failure is swallowed |
| Setup.TemplateFiles | lib/setup.js:123-145 | `'custom'` copies nothing; any other type writes the default template to `cz-config.js` |
| Setup.CreateCommitTemplate | lib/setup.js:123-145 | the files become the template files for the chosen type |
| Setup.SetupCommitTemplate | lib/setup.js:10-33 | outside a repository it fails before any write; a refused package.json fails with nothing changed; otherwise the files are package.json updated, then the hook iff asked, then the template; the hook becomes executable iff asked; `npm install` runs iff asked and `npm init` never does |
| Setup.SetupFilesShape | lib/setup.js:10-33 | a successful run changes no path but package.json, the hook and `cz-config.js`; the hook is written iff asked; `cz-config.js` is the default template unless the type is `'custom'` (a missing type counts as `'default'`) |
| Setup.IssueTailIff | lib/setup.js:83 | the recogniser of ` \| #[0-9]+ \| .+` agrees with the pattern read as its parts |
| Setup.HookLineSound | lib/setup.js:83 | every line the recogniser accepts matches the hook pattern |
| Setup.HookLineComplete | lib/setup.js:83 | every line of the pattern's form (type, optional `/` plus at least one character, issue part, non-empty description) is accepted by the recogniser |
| Setup.HookLineIff | lib/setup.js:83 | the hook recogniser accepts a line exactly when the pattern matches it |
| Setup.SingleLineMessage | lib/setup.js:85 | a message without line breaks passes `grep` exactly when its one line matches |
| Setup.HookTypeHeads | lib/setup.js:83 | the hook's seven types are told apart by their first two characters |
| Setup.OtherTypesRejected | lib/setup.js:83 | a line starting with `perf`, `ci` or `build` never matches |
| Setup.IssueTypeFollowedBy | lib/setup.js:83 | a hook type followed by ` \| #` and a non-digit never matches |
| Setup.DefaultFormatAccepted | lib/setup.js:83 | a default-format message with a hook type, a digit task id and a non-empty subject passes the hook, whatever the branch |
| Setup.NonDigitIssueRejected | lib/setup.js:83 | a one-line message of a hook type, ` \| #` and an id that does not start with a digit fails the hook |
| Setup.IssueTailBars | lib/setup.js:83 | an issue part has a bar as its second character, a digit as its fifth, and another bar later |
| Setup.NoIssuePartIn | lib/setup.js:83 | in text whose only bars are two, with no digit two places after the first, no issue part starts anywhere |
| Setup.NoIssuePartAfter | lib/setup.js:83 | a hook type followed by text in which no issue part starts does not match, with or without a `/` segment |
| Setup.TwoBarsRejected | lib/setup.js:83 | a one-line message of a hook type and such text fails the hook |
| Setup.PaddedTaskIdRejected | lib/setup.js:83 | a task id of any numeral with a space on each side passes the prompt, yet the default-format message with that id fails the hook, for any hook type, and any branch and subject without `\|` or line breaks |
| Setup.FallbackMessage | templates/default-cz-config.js:50-53 | without scope, footer, body or breaking change on `main`/`master`, the template writes `type \| #TBD \| subject` |
| Setup.TemplateFallbackRejected | templates/default-cz-config.js:51-53 | that `TBD` fallback message fails the hook, even with a hook type |
| Setup.TypesOutsideTheHook | lib/setup.js:83 | the template's types 8 to 10 are perf, ci and build, the sixth built-in prompt type is perf, and none of these is a hook type |
| Init.InitPackage | scripts/init.js:35-44 | the update succeeds exactly on a document that can take properties; on null or undefined reading `scripts` throws, and on a number, string or boolean the assignment to `scripts` is dropped, so reading its `commit` throws |
| Init.InitPackageOnObject | scripts/init.js:35-47 | on an object only `scripts` changes and it is always present; a falsy `scripts` becomes `{commit: 'commit-template'}`; in a scripts object a falsy `commit` is set and a truthy one kept, with every other script; any other truthy `scripts` is kept |
| Init.InitPackageIdempotent | scripts/init.js:35-44 | filling the script in again changes nothing |
| Init.InitRun | scripts/init.js:17-44 | the run has no result exactly when `.git` or package.json is missing, package.json is not JSON, or its value cannot take a property |
| Init.RunInit | scripts/init.js:10-77 | the exit status is 1 exactly when the run fails, and then nothing is written; otherwise the files are the run's result |
| Init.InitRunShape | scripts/init.js:32-64 | a successful run rewrites package.json and writes `commit.config.js` (the example) and `.gitignore` (exactly `node_modules/\n.DS_Store\n`) only where nothing was; every other path is unchanged |
| Init.InitRunIdempotent | scripts/init.js:17-64 | running the script a second time changes nothing |

## Left out

- Git, npm, inquirer, the filesystem, `require`, chalk and console output are not modelled; they become parameters.
  - Session: a `Repository` value, the answers map and the confirmation attempts.
  - Config: a `ConfigFile` value.
  - Setup: the repository check as a boolean and the failing npm commands as a set.
- What npm writes (package.json after `npm init -y`, node_modules) is not modelled; only which commands run is recorded.
- Setup.SetupCommitTemplate: an I/O error from `ensureDir`, `writeFile`, `chmod` or `copy` is not modelled; such a call always succeeds.
- Init.RunInit: the three `writeFileSync` calls (scripts/init.js:47, 53 and 62) always succeed. In the program a failing later write exits with status 1 after package.json has already been rewritten; the model does not represent that partial state.
- The text of `templates/default-cz-config.js` that `setup` copies is a parameter. So is the text `createExampleConfig()` returns for `init`, because it is a constant string literal.
- The prompt loops of lib/template.js (`createCustomTemplate`, `configureCommitTypes`, `configureCustomFields`) are represented only by their result, a `CustomTemplate` value.
- TemplateGen.CheckMaxSubjectLength: inquirer's default answer `100` is a number, not text. Pressing Enter therefore passes the number, which the model does not represent.
- TemplateGen.CzConfigTypes, TemplateGen.CzConfigLimits, TemplateGen.CzConfigCustom: the fixed lines of the module are stated as constants joined with the interpolated parts. There is no lemma that splitting the whole text returns exactly those lines; there is one for a field and for the block of fields.
- JsValues.Value: numbers are integers. Fractions (a JSON `1.5`), `NaN` and the infinities cannot be represented. JsValues.ToJsString therefore writes every number in full decimal, where JavaScript switches to exponent form from `1e21` on.
- Session.BuildQuestions: `v > 0` on text reads only an optional `+` and decimal digits. Exponents, fractions, `0x` numerals and `Infinity` are read as not positive. An array, object or function is compared by its default text: its own `valueOf` or `toString` would be user code. Scopes that are an object whose own `map` property is a function would have that function called; the model throws a TypeError for every non-array scopes value with a positive `length`.
- Setup.PaddedTaskIdRejected: stated for branches and subjects without `|`. With a subject such as `x | #5 | y` the hook's `(/.+)?` reaches that second issue part and the message passes.
- Key order of JavaScript objects and the layout `JSON.stringify` writes are not modelled; objects are maps.
- Named properties on arrays and functions: an assignment on them is modelled as no change, because JSON serialisation drops them. Within one run, the in-memory value is not tracked.
- `toLowerCase` is modelled for ASCII letters only, and `.length` counts characters, not UTF-16 code units.
- A `messageFormat` or `branchFormat` hook, and a `messageFormat` that throws, are represented by an opaque `HookRunner` function. A hook can never throw.
- The `formatCommitMessage` source that `generateCzConfig` writes as text (lib/template.js:265-277) and the example configuration text (src/config.js:55-139) are data, not executed logic.
- bin/cli.js and bin/commit-template.js (argument parsing, `process.exit`, the unimplemented remove command) are not part of this model.
- The cz template's `scopes`, `messages`, `allowCustomScopes`, `allowBreakingChanges`, `skipQuestions` (`['body', 'breaking']`), `subjectLimit` (100) and `askForBreakingChangeFirst` are constants in `CzTemplate`. No lemma is stated about them.
