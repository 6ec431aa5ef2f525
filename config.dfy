/**
 * The configuration loader of src/config.js: the user's `commit.config.js`
 * object spread over fixed defaults, the three array fields with an `||`
 * fallback to their default.
 *
 * Locating and evaluating the file is abstracted into a `ConfigFile` value: no
 * file, a file whose evaluation throws, or the value the file exports.
 */
module Config {
  import opened JsStrings
  import opened JsValues

  /** A `{ name, value }` choice object. */
  function Choice(name: string, value: string): Value
  {
    Obj(map["name" := Str(name), "value" := Str(value)])
  }

  /** The eight built-in commit types, in their order. */
  const DefaultTypes: seq<Value> := [
    Choice("✨ feat: новая функция", "feat"),
    Choice("🐛 fix: исправление бага", "fix"),
    Choice("📝 docs: документация", "docs"),
    Choice("💄 style: форматирование кода", "style"),
    Choice("♻️ refactor: рефакторинг", "refactor"),
    Choice("⚡ perf: улучшение производительности", "perf"),
    Choice("✅ test: тесты", "test"),
    Choice("🔧 chore: настройки", "chore")
  ]

  /** The fields whose user value replaces the default only when it is truthy. */
  const ArrayFields: set<string> := {"types", "scopes", "additionalQuestions"}

  /** The keys every effective configuration has. */
  const DefaultKeys: set<string> := {"types", "scopes", "issuePrefix", "additionalQuestions", "messageFormat", "branchFormat"}

  /** `defaultConfig`. */
  function DefaultConfig(): (config: map<string, Value>)
    ensures config.Keys == DefaultKeys
  {
    map[
      "types" := Arr(DefaultTypes),
      "scopes" := Arr([]),
      "issuePrefix" := Null,
      "additionalQuestions" := Arr([]),
      "messageFormat" := Null,
      "branchFormat" := Null
    ]
  }

  /** The `value` of every choice, in order. */
  function ChoiceValues(choices: seq<Value>): seq<Value>
  {
    seq(|choices|, i requires 0 <= i < |choices| =>
      if choices[i].Obj? then Get(choices[i].props, "value") else Undefined)
  }

  /**
   * Without a user file the configuration has eight types, no scopes, no issue
   * prefix, no additional questions and no formatting hooks.
   */
  lemma DefaultConfigShape()
    ensures DefaultConfig()["types"] == Arr(DefaultTypes) && |DefaultTypes| == 8
    ensures DefaultConfig()["scopes"] == Arr([]) && DefaultConfig()["additionalQuestions"] == Arr([])
    ensures DefaultConfig()["issuePrefix"] == Null
    ensures DefaultConfig()["messageFormat"] == Null && DefaultConfig()["branchFormat"] == Null
  {
  }

  /** The built-in types are feat, fix, docs, style, refactor, perf, test and chore, in this order. */
  lemma DefaultTypeValues()
    ensures ChoiceValues(DefaultTypes)
            == [Str("feat"), Str("fix"), Str("docs"), Str("style"), Str("refactor"), Str("perf"), Str("test"), Str("chore")]
  {
    var values := ChoiceValues(DefaultTypes);
    ChoiceValueIs("✨ feat: новая функция", "feat");
    ChoiceValueIs("🐛 fix: исправление бага", "fix");
    ChoiceValueIs("📝 docs: документация", "docs");
    ChoiceValueIs("💄 style: форматирование кода", "style");
    ChoiceValueIs("♻️ refactor: рефакторинг", "refactor");
    ChoiceValueIs("⚡ perf: улучшение производительности", "perf");
    ChoiceValueIs("✅ test: тесты", "test");
    ChoiceValueIs("🔧 chore: настройки", "chore");
  }

  lemma ChoiceValueIs(name: string, value: string)
    ensures Choice(name, value).Obj? && Get(Choice(name, value).props, "value") == Str(value)
  {
    assert "value" in Choice(name, value).props;
  }

  /** Every numeral names one index only. */
  lemma NumeralsDistinct()
    ensures forall i: nat, j: nat :: NatToString(i) == NatToString(j) ==> i == j
  {
    forall i: nat, j: nat | NatToString(i) == NatToString(j) ensures i == j {
      NatToStringRoundTrip(i);
      NatToStringRoundTrip(j);
    }
  }

  /**
   * The own enumerable properties that `...v` copies: an object's properties,
   * the indices of an array or of a string, nothing for any other value.
   */
  function OwnProperties(v: Value): map<string, Value>
  {
    NumeralsDistinct();
    match v
    case Obj(props) => props
    case Arr(items) => map i: nat | i < |items| :: NatToString(i) := items[i]
    case Str(s) => map i: nat | i < |s| :: NatToString(i) := Str([s[i]])
    case _ => map[]
  }

  /**
   * `{ ...defaultConfig, ...userConfig, types: userConfig.types || defaultConfig.types, … }`.
   * An array field takes the user value when it is truthy and the default
   * otherwise, never a concatenation; every other user key overrides the default
   * or passes through; default keys the user leaves out keep their default.
   */
  function MergeOverDefaults(user: map<string, Value>): (config: map<string, Value>)
    ensures config.Keys == DefaultKeys + user.Keys
    ensures forall key :: key in ArrayFields ==>
              config[key] == if Truthy(Get(user, key)) then user[key] else DefaultConfig()[key]
    ensures forall key :: key in user && key !in ArrayFields ==> config[key] == user[key]
    ensures forall key :: key in DefaultKeys && key !in user ==> config[key] == DefaultConfig()[key]
  {
    MergeWith(DefaultConfig(), user)
  }

  /** The key-by-key merge of `user` over some defaults that have the array fields. */
  function MergeWith(defaults: map<string, Value>, user: map<string, Value>): (config: map<string, Value>)
    requires ArrayFields <= defaults.Keys
    ensures config.Keys == defaults.Keys + user.Keys
  {
    map key | key in defaults.Keys + user.Keys ::
      if key in ArrayFields then Or(Get(user, key), defaults[key])
      else if key in user then user[key] else defaults[key]
  }

  /** The object-spread expression of `loadConfig`, written as JavaScript evaluates it. */
  function SpreadExpression(user: map<string, Value>): map<string, Value>
  {
    SpreadWith(DefaultConfig(), user)
  }

  function SpreadWith(defaults: map<string, Value>, user: map<string, Value>): map<string, Value>
    requires ArrayFields <= defaults.Keys
  {
    defaults + user + map[
      "types" := Or(Get(user, "types"), defaults["types"]),
      "scopes" := Or(Get(user, "scopes"), defaults["scopes"]),
      "additionalQuestions" := Or(Get(user, "additionalQuestions"), defaults["additionalQuestions"])
    ]
  }

  /** The key-by-key merge is the spread expression. */
  lemma MergeIsSpread(user: map<string, Value>)
    ensures MergeOverDefaults(user) == SpreadExpression(user)
  {
    MergeWithIsSpread(DefaultConfig(), user);
  }

  lemma MergeWithIsSpread(defaults: map<string, Value>, user: map<string, Value>)
    requires ArrayFields <= defaults.Keys
    ensures MergeWith(defaults, user) == SpreadWith(defaults, user)
  {
    var m, s := MergeWith(defaults, user), SpreadWith(defaults, user);
    assert m.Keys == s.Keys;
    forall key | key in m ensures m[key] == s[key] {
      if key in ArrayFields {
        assert key == "types" || key == "scopes" || key == "additionalQuestions";
      } else {
        assert key != "types" && key != "scopes" && key != "additionalQuestions";
      }
    }
  }

  /** What looking for and evaluating `commit.config.js` in the working directory gives. */
  datatype ConfigFile =
    | Missing
    | Throws(message: string)
    | Exports(value: Value)

  /**
   * `loadConfig()`. No file, or a file that throws, gives the defaults; so does
   * an export of `null` or `undefined`, because reading `userConfig.types` then
   * throws inside the same `try`. Any other export is merged over the defaults.
   * No error reaches the caller.
   */
  function LoadConfig(file: ConfigFile): (config: map<string, Value>)
    ensures file.Missing? || file.Throws? ==> config == DefaultConfig()
    ensures file.Exports? && (file.value.Undefined? || file.value.Null?) ==> config == DefaultConfig()
    ensures file.Exports? && !file.value.Undefined? && !file.value.Null? ==>
              config == MergeOverDefaults(OwnProperties(file.value))
    ensures DefaultKeys <= config.Keys
  {
    match file
    case Missing => DefaultConfig()
    case Throws(_) => DefaultConfig()
    case Exports(v) =>
      if v.Undefined? || v.Null? then DefaultConfig() else MergeOverDefaults(OwnProperties(v))
  }

  /** A user `types` array becomes the effective `types` exactly, whatever it holds. */
  lemma UserTypesReplaceDefaults(user: map<string, Value>, types: seq<Value>)
    requires Get(user, "types") == Arr(types)
    ensures LoadConfig(Exports(Obj(user)))["types"] == Arr(types)
  {
    assert "types" in ArrayFields;
  }

  /** An object with the properties of `commit.config.js` at the repository root: nine types and a message format. */
  lemma ExampleFileKeepsItsTypes(types: seq<Value>, format: Value)
    requires |types| == 9 && format.Func?
    ensures var config := LoadConfig(Exports(Obj(map["types" := Arr(types), "messageFormat" := format])));
            && config["types"] == Arr(types)
            && config["messageFormat"] == format
            && config["scopes"] == Arr([]) && config["issuePrefix"] == Null
  {
    assert "types" in ArrayFields && "scopes" in ArrayFields && "messageFormat" !in ArrayFields;
  }
}
