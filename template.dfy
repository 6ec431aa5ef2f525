/**
 * The cz-customizable configuration writer of lib/template.js: `generateCzConfig`
 * turns the answers of the custom-template dialogue into the text of a
 * `cz-config.js` module, `generateFieldConfig` writes one custom field, and the
 * `maxSubjectLength` prompt validates its input with `parseInt`.
 *
 * The dialogue itself is not modelled; its result is a `CustomTemplate` value.
 * The fixed parts of the generated text are kept as lists of lines, and the
 * generated text is their join with the interpolated parts.
 */
module TemplateGen {
  import opened JsStrings
  import opened JsValues

  /** A `{ value, name }` commit type entered in the dialogue. */
  datatype TypeOption = TypeOption(value: string, name: string)

  /** A custom field: name, question text, prompt type, whether required, and the choices of a list field. */
  datatype CustomField = CustomField(name: string, message: string, kind: string, required: bool, choices: Option<seq<string>>)

  /**
   * What `generateCzConfig` reads: the subject length limit exactly as it is
   * interpolated, the types, and the custom fields.
   */
  datatype CustomTemplate = CustomTemplate(maxSubjectLength: string, types: seq<TypeOption>, customFields: seq<CustomField>)

  // ---------------------------------------------------------------------------
  // Custom fields

  /** `'${s}'`: single-quoted, nothing escaped. */
  function Quote(s: string): string
  {
    "'" + s + "'"
  }

  /** `choices.map(choice => `'${choice}'`)`. */
  function QuotedChoices(choices: seq<string>): (r: seq<string>)
    ensures |r| == |choices| && forall i :: 0 <= i < |choices| ==> r[i] == Quote(choices[i])
  {
    seq(|choices|, i requires 0 <= i < |choices| => Quote(choices[i]))
  }

  /**
   * The property lines of a field, without their separating commas: name,
   * message and type always and in this order, `required: true` exactly when
   * the field is required, the choices exactly when the field has them.
   */
  function FieldEntries(field: CustomField): (entries: seq<string>)
    ensures 3 <= |entries| <= 5
  {
    ["      name: " + Quote(field.name), "      message: " + Quote(field.message), "      type: " + Quote(field.kind)]
    + (if field.required then ["      required: true"] else [])
    + (if field.choices.Some? then ["      choices: [" + Join(QuotedChoices(field.choices.value), ", ") + "]"] else [])
  }

  /**
   * `required: true` is an entry exactly when the field is required, a choices
   * entry exactly when the field has choices, and then it is the last one.
   */
  lemma FieldEntriesShape(field: CustomField)
    ensures var entries := FieldEntries(field);
            && |entries| == 3 + (if field.required then 1 else 0) + (if field.choices.Some? then 1 else 0)
            && (field.required <==> "      required: true" in entries)
            && (field.choices.Some? ==>
                  entries[|entries| - 1] == "      choices: [" + Join(QuotedChoices(field.choices.value), ", ") + "]")
  {
    var entries := FieldEntries(field);
    forall i | 0 <= i < |entries| && entries[i] != "      required: true" ensures entries[i][6] != 'r' {
    }
    assert !field.required ==> forall i :: 0 <= i < |entries| ==> entries[i][6] != 'r';
  }

  /** An opening line, the entries separated by `",\n"`, a closing line. */
  function Braced(open: string, entries: seq<string>, close: string): string
  {
    open + ("\n" + (Join(entries, ",\n") + ("\n" + close)))
  }

  /** A field's text: `    {`, the entries, `    }`. */
  function FieldText(field: CustomField): string
  {
    Braced("    {", FieldEntries(field), "    }")
  }

  /** `generateFieldConfig`: the text is accumulated with `+=` under the two conditions. */
  method GenerateFieldConfig(field: CustomField) returns (config: string)
    ensures config == FieldText(field)
  {
    var nameLine, messageLine, typeLine :=
      "      name: " + Quote(field.name), "      message: " + Quote(field.message), "      type: " + Quote(field.kind);
    config := "    {" + ("\n" + (nameLine + (",\n" + (messageLine + (",\n" + typeLine)))));
    ghost var entries := [nameLine, messageLine, typeLine];
    JoinThree(nameLine, messageLine, typeLine, ",\n");
    if field.required {
      AppendEntry("    {", entries, "      required: true", ",\n");
      config := config + (",\n" + "      required: true");
      entries := entries + ["      required: true"];
    }
    if field.choices.Some? {
      var choicesLine := "      choices: [" + Join(QuotedChoices(field.choices.value), ", ") + "]";
      AppendEntry("    {", entries, choicesLine, ",\n");
      config := config + (",\n" + choicesLine);
      entries := entries + [choicesLine];
    }
    assert entries == FieldEntries(field);
    Closing("    {", entries, "    }");
    config := config + ("\n" + "    }");
  }

  lemma JoinThree(a: string, b: string, c: string, sep: string)
    ensures Join([a, b, c], sep) == a + (sep + (b + (sep + c)))
  {
    assert [a, b, c][1..] == [b, c];
    assert [b, c][1..] == [c];
    assert Join([b, c], sep) == b + sep + c;
    assert Join([a, b, c], sep) == a + sep + (b + sep + c);
  }

  lemma AppendEntry(open: string, entries: seq<string>, entry: string, sep: string)
    requires |entries| >= 1
    ensures (open + ("\n" + Join(entries, sep))) + (sep + entry) == open + ("\n" + Join(entries + [entry], sep))
  {
    JoinConcat(entries, [entry], sep);
  }

  lemma Closing(open: string, entries: seq<string>, close: string)
    ensures (open + ("\n" + Join(entries, ",\n"))) + ("\n" + close) == Braced(open, entries, close)
  {
  }

  /** The lines of a field's text: `{`, every entry but the last with a trailing comma, `}`. */
  function FieldLines(field: CustomField): seq<string>
  {
    ["    {"] + SuffixAllButLast(FieldEntries(field), ",") + ["    }"]
  }

  /** No line break in a text the dialogue supplies. */
  predicate SingleLine(s: string)
  {
    '\n' !in s
  }

  predicate FieldSingleLine(field: CustomField)
  {
    && SingleLine(field.name) && SingleLine(field.message) && SingleLine(field.kind)
    && (field.choices.Some? ==> forall i :: 0 <= i < |field.choices.value| ==> SingleLine(field.choices.value[i]))
  }

  /** A braced text is the join of its lines: the opening line, every entry but the last with a comma, the closing line. */
  lemma BracedIsLines(open: string, entries: seq<string>, close: string)
    requires |entries| >= 1
    ensures Braced(open, entries, close) == Join([open] + SuffixAllButLast(entries, ",") + [close], "\n")
  {
    var suffixed := SuffixAllButLast(entries, ",");
    assert ",\n" == "," + "\n";
    JoinRegroupSuffix(entries, ",", "\n");
    FramedLines(open, suffixed, close);
  }

  /** An opening line, lines, and a closing line, joined by line breaks. */
  lemma FramedLines(open: string, lines: seq<string>, close: string)
    requires |lines| >= 1
    ensures open + ("\n" + (Join(lines, "\n") + ("\n" + close))) == Join([open] + lines + [close], "\n")
  {
    JoinConcat([open], lines, "\n");
    JoinConcat([open] + lines, [close], "\n");
    Nest(open, Join(lines, "\n"), close);
  }

  lemma Nest(open: string, x: string, close: string)
    ensures (open + ("\n" + x)) + ("\n" + Join([close], "\n")) == open + ("\n" + (x + ("\n" + close)))
  {
  }

  lemma FieldTextIsLines(field: CustomField)
    ensures FieldText(field) == Join(FieldLines(field), "\n")
  {
    BracedIsLines("    {", FieldEntries(field), "    }");
  }

  lemma {:induction false} JoinKeepsSingleLine(parts: seq<string>, sep: string)
    requires SingleLine(sep) && forall i :: 0 <= i < |parts| ==> SingleLine(parts[i])
    ensures SingleLine(Join(parts, sep))
  {
    if |parts| > 1 {
      JoinKeepsSingleLine(parts[1..], sep);
    }
  }

  // ---------------------------------------------------------------------------
  // The configuration module

  const HeadLines: seq<string> := [
    "module.exports = {",
    "  types: ["
  ]

  const SettingsLines: seq<string> := [
    "  ],",
    "",
    "  scopes: [],",
    "",
    "  // Шаблон сообщения коммита",
    "  // {Тип задачи}/{название ветки} | #{ID задачи} | {Описание}",
    "  messages: {",
    "    type: 'Выберите тип изменений:',",
    "    scope: 'Выберите область изменений (опционально):',",
    "    customScope: 'Укажите область изменений:',",
    "    subject: 'Краткое описание изменений:',",
    "    body: 'Подробное описание изменений (опционально):',",
    "    breaking: 'Описание breaking changes (опционально):',",
    "    footer: 'Связанные задачи/issues (опционально):',",
    "    confirmCommit: 'Вы уверены, что хотите создать коммит с таким сообщением?'",
    "  },",
    "",
    "  allowCustomScopes: true,",
    "  allowBreakingChanges: ['feat', 'fix'],",
    "  skipQuestions: [],",
    "",
    "  // Максимальная длина заголовка"
  ]

  const PatternHeadLines: seq<string> := [
    "",
    "  // Формат сообщения коммита"
  ]

  const FieldsHeadLines: seq<string> := [
    "  ",
    "  // Добавляем ID задачи в формат",
    "  footerPrefix: '',",
    "  ",
    "  // Кастомные поля"
  ]

  /** The end of the module, including the `formatCommitMessage` source it carries as text. */
  const TailLines: seq<string> := [
    "",
    "  // Автоматическое форматирование сообщения",
    "  subjectSeparator: ' | ',",
    "  typePrefix: '',",
    "  ",
    "  // Функция форматирования финального сообщения",
    "  formatCommitMessage: function(answers) {",
    "    const type = answers.type;",
    "    const scope = answers.scope ? '/' + answers.scope : '';",
    "    const subject = answers.subject;",
    "    const body = answers.body ? '\\n\\n' + answers.body : '';",
    "    const breaking = answers.breaking ? '\\n\\nBREAKING CHANGE: ' + answers.breaking : '';",
    "    const footer = answers.footer ? '\\n\\n' + answers.footer : '';",
    "    ",
    "    // Формат: {Тип задачи}/{область} | #{ID} | {Описание}",
    "    let commitMessage = `${type}${scope} | #${answers.issueId || 'TBD'} | ${subject}`;",
    "    ",
    "    return commitMessage + body + breaking + footer;",
    "  }",
    "};"
  ]

  /** `    { value: '${type.value}', name: '${type.name}' }`. */
  function TypeLine(t: TypeOption): string
  {
    "    { value: " + Quote(t.value) + ", name: " + Quote(t.name) + " }"
  }

  function TypeLines(types: seq<TypeOption>): (lines: seq<string>)
    ensures |lines| == |types| && forall i :: 0 <= i < |types| ==> lines[i] == TypeLine(types[i])
  {
    seq(|types|, i requires 0 <= i < |types| => TypeLine(types[i]))
  }

  function LimitLine(maxSubjectLength: string): string
  {
    "  subjectLimit: " + maxSubjectLength + ","
  }

  function PatternLine(maxSubjectLength: string): string
  {
    "  subjectPattern: '^(.{1," + maxSubjectLength + "})$',"
  }

  /** `customFields.map(field => generateFieldConfig(field))`. */
  function FieldTexts(fields: seq<CustomField>): (texts: seq<string>)
    ensures |texts| == |fields| && forall i :: 0 <= i < |fields| ==> texts[i] == FieldText(fields[i])
  {
    seq(|fields|, i requires 0 <= i < |fields| => FieldText(fields[i]))
  }

  /** The conditional `customFields` segment: empty when there are no custom fields. */
  function CustomBlock(fields: seq<CustomField>): string
  {
    if |fields| > 0 then Braced("  customFields: [", FieldTexts(fields), "  ],") else ""
  }

  /** `generateCzConfig`: the fixed text with the types, the two limits and the custom fields interpolated. */
  function GenerateCzConfig(c: CustomTemplate): string
  {
    Join(HeadLines, "\n")
    + ("\n" + (Join(TypeLines(c.types), ",\n")
    + ("\n" + (Join(SettingsLines, "\n")
    + ("\n" + (LimitLine(c.maxSubjectLength)
    + ("\n" + (Join(PatternHeadLines, "\n")
    + ("\n" + (PatternLine(c.maxSubjectLength)
    + ("\n" + (Join(FieldsHeadLines, "\n")
    + ("\n" + (CustomBlock(c.customFields)
    + ("\n" + Join(TailLines, "\n"))))))))))))))))
  }

  // ---------------------------------------------------------------------------
  // The generated text, line by line

  /** `lines` with `x` glued to the end of its last line. */
  function AppendToLast(lines: seq<string>, x: string): (r: seq<string>)
    requires |lines| >= 1
    ensures |r| == |lines| && r[..|r| - 1] == lines[..|lines| - 1] && r[|r| - 1] == lines[|lines| - 1] + x
  {
    lines[..|lines| - 1] + [lines[|lines| - 1] + x]
  }

  lemma {:induction false} JoinAppendToLast(lines: seq<string>, x: string, sep: string)
    requires |lines| >= 1
    ensures Join(AppendToLast(lines, x), sep) == Join(lines, sep) + x
  {
    if |lines| > 1 {
      JoinAppendToLast(lines[1..], x, sep);
      assert AppendToLast(lines, x)[1..] == AppendToLast(lines[1..], x);
    }
  }

  /** The lines of the joined field texts: each field's lines, the closing brace of all but the last followed by a comma. */
  function FieldsBlockLines(fields: seq<CustomField>): (lines: seq<string>)
    requires |fields| >= 1
    ensures |lines| >= 1
  {
    if |fields| == 1 then FieldLines(fields[0])
    else AppendToLast(FieldLines(fields[0]), ",") + FieldsBlockLines(fields[1..])
  }

  lemma {:induction false} FieldsBlockIsLines(fields: seq<CustomField>)
    requires |fields| >= 1
    ensures Join(FieldTexts(fields), ",\n") == Join(FieldsBlockLines(fields), "\n")
  {
    FieldTextIsLines(fields[0]);
    if |fields| > 1 {
      var texts := FieldTexts(fields);
      FieldsBlockIsLines(fields[1..]);
      assert texts[1..] == FieldTexts(fields[1..]);
      assert Join(texts, ",\n") == texts[0] + ",\n" + Join(texts[1..], ",\n");
      assert ",\n" == "," + "\n";
      BlockStep(texts[0], FieldLines(fields[0]), Join(texts[1..], ",\n"), FieldsBlockLines(fields[1..]), ",", "\n");
    }
  }

  /** Two texts made of lines, joined by `mark + sep`: the lines of both, `mark` glued to the first text's last line. */
  lemma BlockStep(first: string, firstLines: seq<string>, rest: string, restLines: seq<string>, mark: string, sep: string)
    requires |firstLines| >= 1 && |restLines| >= 1
    requires first == Join(firstLines, sep) && rest == Join(restLines, sep)
    ensures first + (mark + sep) + rest == Join(AppendToLast(firstLines, mark) + restLines, sep)
  {
    var marked := AppendToLast(firstLines, mark);
    JoinAppendToLast(firstLines, mark, sep);
    JoinConcat(marked, restLines, sep);
    Reassociate(first, mark, sep, rest);
  }

  lemma Reassociate(a: string, b: string, c: string, d: string)
    ensures a + (b + c) + d == (a + b) + (c + d)
  {
  }

  function TypeBlockLines(types: seq<TypeOption>): (lines: seq<string>)
    ensures |lines| == if |types| == 0 then 1 else |types|
  {
    if |types| == 0 then [""] else SuffixAllButLast(TypeLines(types), ",")
  }

  function CustomLines(fields: seq<CustomField>): (lines: seq<string>)
    ensures |lines| >= 1
  {
    if |fields| == 0 then [""] else ["  customFields: ["] + FieldsBlockLines(fields) + ["  ],"]
  }

  /** The fixed runs of lines of the generated module, between the interpolated parts. */
  datatype FixedParts = FixedParts(head: seq<string>, settings: seq<string>, patternHead: seq<string>,
                                   fieldsHead: seq<string>, tail: seq<string>)

  const Fixed := FixedParts(HeadLines, SettingsLines, PatternHeadLines, FieldsHeadLines, TailLines)

  /** Where the `subjectLimit` line, the `subjectPattern` line and the custom-field lines start. */
  function LimitAt(f: FixedParts, c: CustomTemplate): nat
  {
    |f.head| + |TypeBlockLines(c.types)| + |f.settings|
  }

  function PatternAt(f: FixedParts, c: CustomTemplate): nat
  {
    LimitAt(f, c) + 1 + |f.patternHead|
  }

  function CustomAt(f: FixedParts, c: CustomTemplate): nat
  {
    PatternAt(f, c) + 1 + |f.fieldsHead|
  }

  /** The fixed runs with the type block, the two limit lines and the custom-field lines between them. */
  function AssembledLines(f: FixedParts, c: CustomTemplate): (lines: seq<string>)
    ensures |lines| == CustomAt(f, c) + |CustomLines(c.customFields)| + |f.tail|
  {
    f.head + (TypeBlockLines(c.types) + (f.settings + ([LimitLine(c.maxSubjectLength)]
    + (f.patternHead + ([PatternLine(c.maxSubjectLength)] + (f.fieldsHead
    + (CustomLines(c.customFields) + f.tail)))))))
  }

  /** Every line of the generated module, in order. */
  function CzConfigLines(c: CustomTemplate): seq<string>
  {
    AssembledLines(Fixed, c)
  }

  lemma TypeBlockIsLines(types: seq<TypeOption>)
    ensures Join(TypeLines(types), ",\n") == Join(TypeBlockLines(types), "\n")
  {
    if |types| > 0 {
      JoinRegroupSuffix(TypeLines(types), ",", "\n");
      assert ",\n" == "," + "\n";
    }
  }

  lemma CustomBlockIsLines(fields: seq<CustomField>)
    ensures CustomBlock(fields) == Join(CustomLines(fields), "\n")
  {
    if |fields| > 0 {
      FieldsBlockIsLines(fields);
      FramedLines("  customFields: [", FieldsBlockLines(fields), "  ],");
    }
  }

  /** The generated text is the join of its lines. */
  lemma CzConfigIsLines(c: CustomTemplate)
    ensures GenerateCzConfig(c) == Join(CzConfigLines(c), "\n")
  {
    TypeBlockIsLines(c.types);
    CustomBlockIsLines(c.customFields);
    var r8 := CustomLines(c.customFields) + TailLines;
    var r7 := FieldsHeadLines + r8;
    var r6 := [PatternLine(c.maxSubjectLength)] + r7;
    var r5 := PatternHeadLines + r6;
    var r4 := [LimitLine(c.maxSubjectLength)] + r5;
    var r3 := SettingsLines + r4;
    var r2 := TypeBlockLines(c.types) + r3;
    JoinConcat(CustomLines(c.customFields), TailLines, "\n");
    JoinConcat(FieldsHeadLines, r8, "\n");
    JoinConcat([PatternLine(c.maxSubjectLength)], r7, "\n");
    JoinConcat(PatternHeadLines, r6, "\n");
    JoinConcat([LimitLine(c.maxSubjectLength)], r5, "\n");
    JoinConcat(SettingsLines, r4, "\n");
    JoinConcat(TypeBlockLines(c.types), r3, "\n");
    JoinConcat(HeadLines, r2, "\n");
  }

  /**
   * The generated module opens with its two fixed lines, then one line per type
   * in input order, each but the last ending in a comma; with no types there is
   * one empty line instead.
   */
  lemma CzConfigTypes(c: CustomTemplate)
    ensures var lines, head := CzConfigLines(c), |Fixed.head|;
            && lines[..head] == Fixed.head
            && (|c.types| == 0 ==> lines[head] == "")
            && (forall i :: 0 <= i < |c.types| ==>
                  lines[head + i] == TypeLine(c.types[i]) + (if i < |c.types| - 1 then "," else ""))
  {
    AssembledTypes(Fixed, c);
  }

  /**
   * After the type block come the fixed settings, then `subjectLimit` and,
   * after the pattern comment, `subjectPattern`, both carrying the same
   * `maxSubjectLength` text.
   */
  lemma CzConfigLimits(c: CustomTemplate)
    ensures LimitAt(Fixed, c) == |Fixed.head| + (if |c.types| == 0 then 1 else |c.types|) + |Fixed.settings|
    ensures CzConfigLines(c)[LimitAt(Fixed, c)] == "  subjectLimit: " + c.maxSubjectLength + ","
    ensures CzConfigLines(c)[PatternAt(Fixed, c)] == "  subjectPattern: '^(.{1," + c.maxSubjectLength + "})$',"
  {
    AssembledLimits(Fixed, c);
  }

  /** The `customFields` block is there exactly when there are custom fields. */
  lemma CzConfigCustom(c: CustomTemplate)
    ensures |c.customFields| > 0 <==> CzConfigLines(c)[CustomAt(Fixed, c)] == "  customFields: ["
  {
    AssembledEnd(Fixed, c);
  }

  /** The layout for any fixed runs of lines: the opening run and the types. */
  lemma AssembledTypes(f: FixedParts, c: CustomTemplate)
    ensures var lines := AssembledLines(f, c);
            && lines[..|f.head|] == f.head
            && (|c.types| == 0 ==> lines[|f.head|] == "")
            && (forall i :: 0 <= i < |c.types| ==>
                  lines[|f.head| + i] == TypeLine(c.types[i]) + (if i < |c.types| - 1 then "," else ""))
  {
    NineParts(f.head, TypeBlockLines(c.types), f.settings, [LimitLine(c.maxSubjectLength)],
              f.patternHead, [PatternLine(c.maxSubjectLength)], f.fieldsHead, CustomLines(c.customFields), f.tail);
    TypeBlockShape(c.types);
  }

  /** The two limit lines. */
  lemma AssembledLimits(f: FixedParts, c: CustomTemplate)
    ensures AssembledLines(f, c)[LimitAt(f, c)] == LimitLine(c.maxSubjectLength)
    ensures AssembledLines(f, c)[PatternAt(f, c)] == PatternLine(c.maxSubjectLength)
  {
    NineParts(f.head, TypeBlockLines(c.types), f.settings, [LimitLine(c.maxSubjectLength)],
              f.patternHead, [PatternLine(c.maxSubjectLength)], f.fieldsHead, CustomLines(c.customFields), f.tail);
  }

  /** The custom-field block and the closing run. */
  lemma AssembledEnd(f: FixedParts, c: CustomTemplate)
    ensures var lines := AssembledLines(f, c);
            && (|c.customFields| > 0 <==> lines[CustomAt(f, c)] == "  customFields: [")
            && lines[|lines| - |f.tail|..] == f.tail
  {
    NineParts(f.head, TypeBlockLines(c.types), f.settings, [LimitLine(c.maxSubjectLength)],
              f.patternHead, [PatternLine(c.maxSubjectLength)], f.fieldsHead, CustomLines(c.customFields), f.tail);
    if |c.customFields| == 0 {
      assert CustomLines(c.customFields)[0] == "";
    }
  }

  /** The fixed parts have 2, 22, 2 and 5 lines: `subjectLimit` follows the 22 settings lines, `subjectPattern` comes three lines later. */
  lemma FixedSizes()
    ensures |Fixed.head| == 2 && |Fixed.settings| == 22 && |Fixed.patternHead| == 2 && |Fixed.fieldsHead| == 5
  {
  }

  /** The type block: one empty line without types, else one line per type with a comma on all but the last. */
  lemma TypeBlockShape(types: seq<TypeOption>)
    ensures |types| == 0 ==> TypeBlockLines(types)[0] == ""
    ensures forall i :: 0 <= i < |types| ==>
              TypeBlockLines(types)[i] == TypeLine(types[i]) + (if i < |types| - 1 then "," else "")
  {
    if |types| > 0 {
      var lines := TypeLines(types);
      assert TypeBlockLines(types) == SuffixAllButLast(lines, ",");
      forall i | 0 <= i < |types|
        ensures TypeBlockLines(types)[i] == TypeLine(types[i]) + (if i < |types| - 1 then "," else "")
      {
        assert lines[i] == TypeLine(types[i]);
        if i == |types| - 1 {
          assert lines[i] + "" == lines[i];
        }
      }
    }
  }

  /** Where each of nine concatenated parts sits. */
  lemma NineParts<T>(a: seq<T>, b: seq<T>, c: seq<T>, d: seq<T>, e: seq<T>, f: seq<T>, g: seq<T>, h: seq<T>, i: seq<T>)
    requires |d| == 1 && |f| == 1 && |h| >= 1
    ensures var s := a + (b + (c + (d + (e + (f + (g + (h + i)))))));
            && |s| == |a| + |b| + |c| + 1 + |e| + 1 + |g| + |h| + |i|
            && s[..|a|] == a
            && (forall k :: 0 <= k < |b| ==> s[|a| + k] == b[k])
            && s[|a| + |b| + |c|] == d[0]
            && s[|a| + |b| + |c| + 1 + |e|] == f[0]
            && s[|a| + |b| + |c| + 1 + |e| + 1 + |g|] == h[0]
            && s[|s| - |i|..] == i
  {
    var s := a + (b + (c + (d + (e + (f + (g + (h + i)))))));
    assert s[|s| - |i|..] == i by {
      var front := a + b + c + d + e + f + g + h;
      assert s == front + i;
    }
  }

  predicate AllSingleLine(lines: seq<string>)
  {
    forall i :: 0 <= i < |lines| ==> SingleLine(lines[i])
  }

  lemma FieldLinesSingle(field: CustomField)
    requires FieldSingleLine(field)
    ensures AllSingleLine(FieldLines(field))
  {
    var entries := FieldEntries(field);
    var fixed := ["      name: ", "      message: ", "      type: "];
    var values := [field.name, field.message, field.kind];
    forall i | 0 <= i < 3 ensures SingleLine(entries[i]) {
      assert entries[i] == fixed[i] + ("'" + values[i] + "'");
      assert SingleLine(fixed[i]);
    }
    forall i | 3 <= i < |entries| ensures SingleLine(entries[i]) {
      if field.choices.Some? {
        JoinKeepsSingleLine(QuotedChoices(field.choices.value), ", ");
      }
    }
    SuffixKeepsSingleLine(entries, ",");
    var lines := FieldLines(field);
    forall i | 0 <= i < |lines| ensures SingleLine(lines[i]) {
      if 0 < i < |lines| - 1 {
        assert lines[i] == SuffixAllButLast(entries, ",")[i - 1];
      }
    }
  }

  /** A comma on the end of some lines adds no line break. */
  lemma SuffixKeepsSingleLine(lines: seq<string>, suffix: string)
    requires SingleLine(suffix) && AllSingleLine(lines)
    ensures AllSingleLine(SuffixAllButLast(lines, suffix))
  {
    var r := SuffixAllButLast(lines, suffix);
    forall i | 0 <= i < |r| ensures SingleLine(r[i]) {
      if i < |lines| - 1 {
        assert r[i] == lines[i] + suffix;
      }
    }
  }

  lemma {:induction false} FieldsBlockSingle(fields: seq<CustomField>)
    requires |fields| >= 1 && forall i :: 0 <= i < |fields| ==> FieldSingleLine(fields[i])
    ensures AllSingleLine(FieldsBlockLines(fields))
  {
    FieldLinesSingle(fields[0]);
    if |fields| > 1 {
      FieldsBlockSingle(fields[1..]);
    }
  }

  /**
   * Read line by line, a field whose texts have no line breaks is its opening
   * brace, its entries in order (name, message, type, then `required: true`
   * and the choices as `FieldEntriesShape` says), each but the last ending in
   * a comma, then its closing brace.
   */
  lemma FieldReadsBack(field: CustomField)
    requires FieldSingleLine(field)
    ensures Split(FieldText(field), '\n') == FieldLines(field)
  {
    FieldTextIsLines(field);
    FieldLinesSingle(field);
    SplitJoin(FieldLines(field), '\n');
  }

  /** The joined custom fields, read line by line: each field's lines in order, a comma after every closing brace but the last. */
  lemma FieldsBlockReadsBack(fields: seq<CustomField>)
    requires |fields| >= 1 && forall i :: 0 <= i < |fields| ==> FieldSingleLine(fields[i])
    ensures Split(Join(FieldTexts(fields), ",\n"), '\n') == FieldsBlockLines(fields)
  {
    FieldsBlockIsLines(fields);
    FieldsBlockSingle(fields);
    SplitJoin(FieldsBlockLines(fields), '\n');
  }

  // ---------------------------------------------------------------------------
  // The subject length prompt

  predicate IsHexDigit(c: char)
  {
    IsDigit(c) || 'a' <= c <= 'f' || 'A' <= c <= 'F'
  }

  function HexDigitValue(c: char): (d: nat)
    requires IsHexDigit(c)
    ensures d < 16
  {
    if IsDigit(c) then c as int - '0' as int
    else if 'a' <= c <= 'f' then c as int - 'a' as int + 10
    else c as int - 'A' as int + 10
  }

  /** The longest prefix of hexadecimal digits. */
  function HexRun(s: string): (r: string)
    ensures (forall i :: 0 <= i < |r| ==> IsHexDigit(r[i])) && |r| <= |s| && r == s[..|r|]
    ensures |r| == |s| || !IsHexDigit(s[|r|])
  {
    if s == [] || !IsHexDigit(s[0]) then [] else [s[0]] + HexRun(s[1..])
  }

  function HexValue(s: string): nat
    requires forall i :: 0 <= i < |s| ==> IsHexDigit(s[i])
  {
    if s == [] then 0 else HexValue(s[..|s| - 1]) * 16 + HexDigitValue(s[|s| - 1])
  }

  /**
   * `parseInt(input)` without a radix: leading whitespace skipped, an optional
   * sign, a `0x`/`0X` prefix switching to hexadecimal, then the longest digit
   * prefix; `None` stands for `NaN`, when that prefix is empty.
   */
  function ParseInt(input: string): Option<int>
  {
    var t := TrimStart(input);
    var u := if t != [] && (t[0] == '-' || t[0] == '+') then t[1..] else t;
    match ParseMagnitude(u)
    case None => None
    case Some(m) => Some(if t != [] && t[0] == '-' then -m else m)
  }

  /** The unsigned part of `parseInt`: hexadecimal after `0x`/`0X`, decimal otherwise. */
  function ParseMagnitude(u: string): Option<int>
  {
    if |u| >= 2 && u[0] == '0' && (u[1] == 'x' || u[1] == 'X') then
      var h := HexRun(u[2..]);
      if h == [] then None else Some(HexValue(h))
    else
      var d := DigitRun(u);
      if d == [] then None else Some(DigitsValue(d))
  }

  const SubjectLengthMessage := "Введите число от 1 до 200"

  /** The `maxSubjectLength` prompt's validator: `(num > 0 && num <= 200) || message`, where `NaN` fails both comparisons. */
  function CheckMaxSubjectLength(input: string): (v: Verdict)
    ensures v == Accept <==> exists n :: ParseInt(input) == Some(n) && 1 <= n <= 200
    ensures v == Accept || v == Reject(SubjectLengthMessage)
  {
    match ParseInt(input)
    case Some(n) => if n > 0 && n <= 200 then Accept else Reject(SubjectLengthMessage)
    case None => Reject(SubjectLengthMessage)
  }

  /** `parseInt` reads a plain numeral as its value. */
  lemma ParseNumeral(n: nat)
    ensures ParseInt(NatToString(n)) == Some(n)
  {
    if n == 0 {
      ParseZero();
    } else {
      NumeralThenText(n, []);
      assert NatToString(n) + [] == NatToString(n);
    }
  }

  lemma ParseZero()
    ensures ParseInt("0") == Some(0)
  {
    var u := "0";
    assert TrimStart(u) == u && |u| == 1;
    assert DigitRun(u) == u by { assert DigitRun(u[1..]) == []; }
  }

  /** A plain numeral passes the prompt exactly when it is between 1 and 200. */
  lemma NumeralLimits(n: nat)
    ensures CheckMaxSubjectLength(NatToString(n)) == Accept <==> 1 <= n <= 200
  {
    ParseNumeral(n);
  }

  /**
   * The answer is not the parsed number but the text typed: a numeral from 1 to
   * 200 followed by any text that does not go on with a digit (`"50abc"`)
   * passes the prompt, and that whole text is what the `subjectLimit` line gets.
   */
  lemma TrailingTextPasses(n: nat, rest: string)
    requires 1 <= n <= 200 && (rest == [] || !IsDigit(rest[0]))
    ensures CheckMaxSubjectLength(NatToString(n) + rest) == Accept
  {
    NumeralThenText(n, rest);
  }

  /** `parseInt` stops at the first character that is not a digit. */
  lemma NumeralThenText(n: nat, rest: string)
    requires n >= 1 && (rest == [] || !IsDigit(rest[0]))
    ensures ParseInt(NatToString(n) + rest) == Some(n)
  {
    var d := NatToString(n);
    LeadingDigitNonZero(n);
    DecimalThenText(d, rest);
    NatToStringRoundTrip(n);
  }

  /** Digits without a leading `0`, then a non-digit or nothing, read as decimal. */
  lemma DecimalThenText(d: string, rest: string)
    requires AllDigits(d) && d != [] && d[0] != '0' && (rest == [] || !IsDigit(rest[0]))
    ensures ParseInt(d + rest) == Some(DigitsValue(d))
  {
    var s := d + rest;
    assert s[0] == d[0];
    UnsignedParse(s);
    DigitRunStops(d, rest);
  }

  /** Text that starts with a digit has neither blanks nor a sign to skip. */
  lemma UnsignedParse(s: string)
    requires s != [] && IsDigit(s[0])
    ensures ParseInt(s) == ParseMagnitude(s)
  {
    TrimStartNoop(s);
  }

  lemma HexTwenty()
    ensures HexRun("20") == "20" && HexValue("20") == 32
  {
    var h := "20";
    assert HexRun(h[1..]) == "0" by { assert HexRun(h[2..]) == []; }
    assert h[..1] == "2";
  }

  lemma SpaceSkipped()
    ensures TrimStart(" 0x20") == "0x20"
  {
    var t := " 0x20";
    assert IsWhitespace(t[0]) && t[1..] == "0x20";
    assert !IsWhitespace('0');
  }

  /** Leading blanks are skipped, and a `0x` prefix reads hexadecimal: `" 0x20"` is 32. */
  lemma HexLimitPasses()
    ensures ParseInt(" 0x20") == Some(32)
  {
    SpaceSkipped();
    var u := "0x20";
    assert |u| >= 2 && u[0] == '0' && u[1] == 'x' && u[2..] == "20";
    HexTwenty();
  }

  /** Text without a leading digit, and zero, are rejected. */
  lemma NonNumbersRejected()
    ensures CheckMaxSubjectLength("") == Reject(SubjectLengthMessage)
    ensures CheckMaxSubjectLength("abc") == Reject(SubjectLengthMessage)
    ensures CheckMaxSubjectLength("0") == Reject(SubjectLengthMessage)
  {
    NoNumeralIsNaN("");
    assert !IsWhitespace('a') && !IsDigit('a');
    NoNumeralIsNaN("abc");
    ParseZero();
  }

  /** Text that starts with neither whitespace, a sign nor a digit parses as `NaN`. */
  lemma NoNumeralIsNaN(s: string)
    requires s == [] || (!IsWhitespace(s[0]) && s[0] != '-' && s[0] != '+' && !IsDigit(s[0]))
    ensures ParseInt(s) == None
  {
    TrimStartNoop(s);
    if s != [] {
      assert DigitRun(s) == [];
    }
    assert ParseMagnitude(s) == None;
  }
}
