/**
 * The interactive option collection of lib/utils/prompts.js with the
 * interaction abstracted away. The exported function hands a table of six
 * questions to inquirer's `prompt`, which asks them in order, skipping a
 * question whose `when` predicate is false of the answers collected so far,
 * and then returns `{...answers, projectName: defaultOptions.projectName}`.
 * The user is an oracle: given the question being asked (with its default)
 * and the answers so far, it supplies the answer.
 */
module Prompts {
  import opened Common
  import Config

  /** The JavaScript values that flow through the options: a missing property
      reads as `Undefined`. */
  datatype JsValue = Undefined | Bool(b: bool) | Str(s: string)

  /** JavaScript truthiness of these values. */
  predicate Truthy(v: JsValue)
  {
    match v
    case Undefined => false
    case Bool(b) => b
    case Str(s) => s != ""
  }

  /** `a || b`. */
  function Or(a: JsValue, b: JsValue): JsValue
  {
    if Truthy(a) then a else b
  }

  /** The falsy values are exactly `undefined`, `false` and `""`, and `a || b`
      is one of its operands whose truthiness is that of the disjunction. */
  lemma OrIsJsOr(a: JsValue, b: JsValue)
    ensures !Truthy(a) <==> a in {Undefined, Bool(false), Str("")}
    ensures Or(a, b) == a || Or(a, b) == b
    ensures Truthy(Or(a, b)) <==> Truthy(a) || Truthy(b)
    ensures Truthy(a) ==> Or(a, b) == a
  {
  }

  /** An entry `{ name, value }` of a list question's `choices`. */
  datatype Choice = Choice(name: string, value: string)

  /** `frameworkChoices`. */
  const FrameworkChoices: seq<Choice> := [
    Choice("Vanilla JavaScript", "vanilla"),
    Choice("React (Vite)", "react"),
    Choice("Next.js", "nextjs"),
    Choice("Node.js + Express", "express")
  ]

  /** `cssChoices`. */
  const CssChoices: seq<Choice> := [
    Choice("Tailwind CSS", "tailwind"),
    Choice("Styled Components", "styled"),
    Choice("CSS Modules", "modules"),
    Choice("Обычный CSS", "css")
  ]

  /** The values a list question can return, in display order. The ensures
      only spell out the comprehension for the solver's benefit. */
  function Values(cs: seq<Choice>): (vs: seq<string>)
    ensures |vs| == |cs|
    ensures forall i :: 0 <= i < |cs| ==> vs[i] == cs[i].value
  {
    seq(|cs|, i requires 0 <= i < |cs| => cs[i].value)
  }

  /** The properties of `defaultOptions` that the function reads; `{}` (the
      default parameter) has all three `Undefined`. `projectType` is the
      `type` property. */
  datatype DefaultOptions = DefaultOptions(projectType: JsValue, typescript: JsValue, projectName: JsValue)

  const NoDefaults: DefaultOptions := DefaultOptions(Undefined, Undefined, Undefined)

  /** The answers collected so far, by question name. */
  type Answers = map<string, JsValue>

  /** A property read on the answers object. */
  function Get(a: Answers, key: string): JsValue
  {
    if key in a then a[key] else Undefined
  }

  /** A question's `when` predicate; a question without one is always asked. */
  datatype Gate =
    | Always
    | FrameworkIn(frameworks: seq<string>)   // `[...].includes(answers.framework)`
    | FrameworkIsNot(framework: string)      // `answers.framework !== ...`

  predicate Holds(g: Gate, a: Answers)
  {
    match g
    case Always => true
    case FrameworkIn(fs) => Get(a, "framework").Str? && Get(a, "framework").s in fs
    case FrameworkIsNot(f) => Get(a, "framework") != Str(f)
  }

  /** `type: 'list'` with its choices, or `type: 'confirm'`. */
  datatype Kind = List(choices: seq<Choice>) | Confirm

  datatype Question = Question(name: string, kind: Kind, defaultValue: JsValue, when: Gate)

  /** The question table passed to `prompt`, in order. */
  function Questions(d: DefaultOptions): seq<Question>
  {
    [ Question("framework", List(FrameworkChoices), Or(d.projectType, Str("react")), Always),
      Question("typescript", Confirm, Or(d.typescript, Bool(false)), Always),
      Question("css", List(CssChoices), Str("tailwind"), FrameworkIn(["react", "nextjs"])),
      Question("jest", Confirm, Bool(true), FrameworkIsNot("express")),
      Question("eslintPrettier", Confirm, Bool(true), Always),
      Question("gitInit", Confirm, Bool(true), Always) ]
  }

  /** The user: the answer given to a question shown after the answers so far. */
  type Oracle = (Question, Answers) -> JsValue

  /** The names of a question list. */
  function Names(qs: seq<Question>): set<string>
  {
    set i | 0 <= i < |qs| :: qs[i].name
  }

  /** One question: asked and recorded when its gate holds, skipped otherwise. */
  function Step(q: Question, a: Answers, oracle: Oracle): Answers
  {
    if Holds(q.when, a) then a[q.name := oracle(q, a)] else a
  }

  /** inquirer's `prompt` over a question list: questions are taken in order,
      each gate seeing the answers recorded before it. No answer is dropped, and
      a key is added only under the name of a question of the list. */
  function Ask(qs: seq<Question>, a: Answers, oracle: Oracle): (r: Answers)
    ensures a.Keys <= r.Keys
    ensures r.Keys <= a.Keys + Names(qs)
    decreases |qs|
  {
    if qs == [] then a
    else
      assert Names(qs) == {qs[0].name} + Names(qs[1..]) by {
        forall n | n in Names(qs) ensures n in {qs[0].name} + Names(qs[1..]) {
          var i :| 0 <= i < |qs| && qs[i].name == n;
          if i > 0 { assert qs[1..][i - 1].name == n; }
        }
      }
      Ask(qs[1..], Step(qs[0], a, oracle), oracle)
  }

  /** The answers object returned by `prompt`. */
  function Prompt(d: DefaultOptions, oracle: Oracle): Answers
  {
    Ask(Questions(d), map[], oracle)
  }

  /** `{...answers, projectName: defaultOptions.projectName}`: the name from the
      defaults replaces any answer of that name, every other answer is kept as
      it is, and nothing else is added. */
  function Merge(answers: Answers, d: DefaultOptions): (r: Answers)
    ensures r.Keys == answers.Keys + {"projectName"}
    ensures r["projectName"] == d.projectName
    ensures forall k :: k in answers && k != "projectName" ==> r[k] == answers[k]
  {
    answers["projectName" := d.projectName]
  }

  /** The default-exported function's result. */
  function Resolve(d: DefaultOptions, oracle: Oracle): Answers
  {
    Merge(Prompt(d, oracle), d)
  }

  /** The answer given to the first question, which every gate reads. */
  function FrameworkAnswer(d: DefaultOptions, oracle: Oracle): JsValue
  {
    oracle(Questions(d)[0], map[])
  }

  /** `prompt` runs the six questions one after the other. */
  lemma PromptSteps(d: DefaultOptions, oracle: Oracle)
    ensures var qs := Questions(d);
            Prompt(d, oracle) ==
              Step(qs[5], Step(qs[4], Step(qs[3], Step(qs[2], Step(qs[1], Step(qs[0], map[], oracle),
                oracle), oracle), oracle), oracle), oracle)
  {
    var qs := Questions(d);
    var a0: Answers := map[];
    var a1 := Step(qs[0], a0, oracle);
    var a2 := Step(qs[1], a1, oracle);
    var a3 := Step(qs[2], a2, oracle);
    var a4 := Step(qs[3], a3, oracle);
    var a5 := Step(qs[4], a4, oracle);
    var a6 := Step(qs[5], a5, oracle);
    assert Ask(qs[5..], a5, oracle) == a6 by { assert qs[5..][1..] == []; }
    assert Ask(qs[4..], a4, oracle) == a6 by { assert qs[4..][1..] == qs[5..]; }
    assert Ask(qs[3..], a3, oracle) == a6 by { assert qs[3..][1..] == qs[4..]; }
    assert Ask(qs[2..], a2, oracle) == a6 by { assert qs[2..][1..] == qs[3..]; }
    assert Ask(qs[1..], a1, oracle) == a6 by { assert qs[1..][1..] == qs[2..]; }
  }

  /** One step records the question's answer exactly when its gate holds, and
      leaves every other answer as it was. */
  lemma StepEffect(q: Question, a: Answers, oracle: Oracle)
    ensures q.name in Step(q, a, oracle) <==> q.name in a || Holds(q.when, a)
    ensures forall k :: k != q.name ==> (k in Step(q, a, oracle) <==> k in a)
    ensures forall k :: k != q.name ==> Get(Step(q, a, oracle), k) == Get(a, k)
  {
  }

  /** The question table's names are the six answer keys. */
  lemma QuestionNames(d: DefaultOptions)
    ensures Names(Questions(d)) == {"framework", "typescript", "css", "jest", "eslintPrettier", "gitInit"}
  {
    var qs := Questions(d);
    assert qs[0].name == "framework" && qs[1].name == "typescript" && qs[2].name == "css";
    assert qs[3].name == "jest" && qs[4].name == "eslintPrettier" && qs[5].name == "gitInit";
  }

  /** Which keys the result has: framework, typescript, eslintPrettier,
      gitInit and projectName always; css exactly when the framework answer is
      react or nextjs; jest exactly when it is not express; nothing else. */
  lemma ResolveKeys(d: DefaultOptions, oracle: Oracle)
    ensures var r := Resolve(d, oracle);
            var fw := FrameworkAnswer(d, oracle);
            && "framework" in r && "typescript" in r && "eslintPrettier" in r
            && "gitInit" in r && "projectName" in r
            && ("css" in r <==> fw == Str("react") || fw == Str("nextjs"))
            && ("jest" in r <==> fw != Str("express"))
            && r.Keys <= {"framework", "typescript", "css", "jest", "eslintPrettier", "gitInit", "projectName"}
  {
    PromptSteps(d, oracle);
    QuestionNames(d);
    var qs := Questions(d);
    var fw := FrameworkAnswer(d, oracle);
    var a1 := Step(qs[0], map[], oracle);
    var a2 := Step(qs[1], a1, oracle);
    var a3 := Step(qs[2], a2, oracle);
    var a4 := Step(qs[3], a3, oracle);
    var a5 := Step(qs[4], a4, oracle);
    StepEffect(qs[1], a1, oracle);
    StepEffect(qs[2], a2, oracle);
    StepEffect(qs[3], a3, oracle);
    StepEffect(qs[4], a4, oracle);
    StepEffect(qs[5], a5, oracle);
    assert Get(a1, "framework") == fw;
    assert "css" !in a2 && "jest" !in a3;
    assert "css" in a3 <==> fw == Str("react") || fw == Str("nextjs");
    assert "jest" in a4 <==> fw != Str("express");
  }

  /** The result's framework is the answer given to the first question. */
  lemma ResolveFramework(d: DefaultOptions, oracle: Oracle)
    ensures Resolve(d, oracle)["framework"] == FrameworkAnswer(d, oracle)
  {
    PromptSteps(d, oracle);
    var qs := Questions(d);
    var a1 := Step(qs[0], map[], oracle);
    var a2 := Step(qs[1], a1, oracle);
    var a3 := Step(qs[2], a2, oracle);
    var a4 := Step(qs[3], a3, oracle);
    var a5 := Step(qs[4], a4, oracle);
    StepEffect(qs[1], a1, oracle);
    StepEffect(qs[2], a2, oracle);
    StepEffect(qs[3], a3, oracle);
    StepEffect(qs[4], a4, oracle);
    StepEffect(qs[5], a5, oracle);
    assert Get(a1, "framework") == FrameworkAnswer(d, oracle);
  }

  /** For express the result has neither a jest key nor a css key. */
  lemma ExpressHasNoJest(d: DefaultOptions, oracle: Oracle)
    requires FrameworkAnswer(d, oracle) == Str("express")
    ensures "jest" !in Resolve(d, oracle) && "css" !in Resolve(d, oracle)
  {
    ResolveKeys(d, oracle);
  }

  /** The project name always comes from the defaults, whatever was answered,
      and every answer that `prompt` returned passes through unchanged. */
  lemma ResolveProjectName(d: DefaultOptions, oracle: Oracle)
    ensures Resolve(d, oracle)["projectName"] == d.projectName
    ensures "projectName" !in Prompt(d, oracle)
    ensures forall k :: k in Prompt(d, oracle) ==> Resolve(d, oracle)[k] == Prompt(d, oracle)[k]
  {
  }

  /** The defaults of the six questions: the framework is `defaultOptions.type`
      when truthy and react otherwise; TypeScript is `defaultOptions.typescript`
      when truthy and false otherwise; css is tailwind; jest, eslintPrettier and
      gitInit are true. */
  lemma QuestionDefaults(d: DefaultOptions)
    ensures var qs := Questions(d);
            && (Truthy(d.projectType) ==> qs[0].defaultValue == d.projectType)
            && (!Truthy(d.projectType) ==> qs[0].defaultValue == Str("react"))
            && (Truthy(d.typescript) ==> qs[1].defaultValue == d.typescript)
            && (!Truthy(d.typescript) ==> qs[1].defaultValue == Bool(false))
            && qs[2].defaultValue == Str("tailwind")
            && qs[3].defaultValue == Bool(true)
            && qs[4].defaultValue == Bool(true)
            && qs[5].defaultValue == Bool(true)
  {
  }

  /** With no defaults (`{}`, the default parameter), an empty `type` or a `false` flag, the framework
      defaults to react and TypeScript to false. */
  lemma EmptyDefaults(d: DefaultOptions)
    requires d.projectType in {Undefined, Str(""), Bool(false)}
    requires d.typescript in {Undefined, Bool(false)}
    ensures Questions(d)[0].defaultValue == Str("react")
    ensures Questions(d)[1].defaultValue == Bool(false)
    ensures Questions(NoDefaults)[0].defaultValue == Str("react")
    ensures Questions(NoDefaults)[1].defaultValue == Bool(false)
  {
  }

  /** The framework values offered are exactly vanilla, react, nextjs and
      express, and they are exactly the keys of the template table; the css
      values are tailwind, styled, modules and css. */
  lemma ChoiceValues()
    ensures Values(FrameworkChoices) == ["vanilla", "react", "nextjs", "express"]
    ensures Values(CssChoices) == ["tailwind", "styled", "modules", "css"]
    ensures (set v | v in Values(FrameworkChoices)) == Config.TemplateConfigs.Keys
  {
  }

  // A typed view of the resolved options.

  datatype Framework = Vanilla | React | NextJs | Express
  datatype Css = Tailwind | Styled | Modules | PlainCss

  function FrameworkId(f: Framework): string
  {
    match f
    case Vanilla => "vanilla"
    case React => "react"
    case NextJs => "nextjs"
    case Express => "express"
  }

  function ParseFramework(v: JsValue): (r: Option<Framework>)
    ensures r.Some? ==> v == Str(FrameworkId(r.value))
    ensures forall f :: v == Str(FrameworkId(f)) ==> r == Some(f)
  {
    match v
    case Str("vanilla") => Some(Vanilla)
    case Str("react") => Some(React)
    case Str("nextjs") => Some(NextJs)
    case Str("express") => Some(Express)
    case _ => None
  }

  function CssId(c: Css): string
  {
    match c
    case Tailwind => "tailwind"
    case Styled => "styled"
    case Modules => "modules"
    case PlainCss => "css"
  }

  function ParseCss(v: JsValue): (r: Option<Css>)
    ensures r.Some? ==> v == Str(CssId(r.value))
    ensures forall c :: v == Str(CssId(c)) ==> r == Some(c)
  {
    match v
    case Str("tailwind") => Some(Tailwind)
    case Str("styled") => Some(Styled)
    case Str("modules") => Some(Modules)
    case Str("css") => Some(PlainCss)
    case _ => None
  }

  /** The resolved options as a record: css and jest are absent when their
      questions were skipped. */
  datatype Options = Options(
    projectName: JsValue, framework: Framework, typescript: bool,
    css: Option<Css>, jest: Option<bool>, eslintPrettier: bool, gitInit: bool)

  /** Reads a resolved answers object as `Options`, when every present answer
      has the type of its question. */
  function ToOptions(r: Answers): Option<Options>
  {
    var fw := ParseFramework(Get(r, "framework"));
    var css := if "css" in r then ParseCss(r["css"]) else None;
    if fw.Some? && Get(r, "typescript").Bool? && Get(r, "eslintPrettier").Bool?
       && Get(r, "gitInit").Bool? && ("css" in r ==> css.Some?)
       && ("jest" in r ==> r["jest"].Bool?)
    then
      Some(Options(Get(r, "projectName"), fw.value, Get(r, "typescript").b,
                   css, if "jest" in r then Some(r["jest"].b) else None,
                   Get(r, "eslintPrettier").b, Get(r, "gitInit").b))
    else None
  }

  /** An answer inquirer can hand back for a question of this kind: one of the
      choices' values for a list, a boolean for a confirmation. */
  predicate Fits(k: Kind, v: JsValue)
  {
    match k
    case List(cs) => v.Str? && v.s in Values(cs)
    case Confirm => v.Bool?
  }

  /** A question inquirer can ask: a list question needs at least one choice. */
  predicate Askable(q: Question)
  {
    q.kind.List? ==> q.kind.choices != []
  }

  /** A user whose every answer to an askable question fits that question. */
  ghost predicate Honest(oracle: Oracle)
  {
    forall q: Question, a: Answers :: Askable(q) ==> Fits(q.kind, oracle(q, a))
  }

  /** Honest users exist: one who always takes the first choice of a list and
      confirms every confirmation is one. */
  lemma HonestExists()
    ensures exists oracle: Oracle :: Honest(oracle)
  {
    var first: Oracle := (q: Question, a: Answers) =>
      if q.kind.List? && q.kind.choices != [] then Str(q.kind.choices[0].value) else Bool(true);
    forall q: Question, a: Answers | Askable(q) ensures Fits(q.kind, first(q, a)) {
      if q.kind.List? {
        assert Values(q.kind.choices)[0] == q.kind.choices[0].value;
      }
    }
    assert Honest(first);
  }

  /** The conditions under which an answers object reads as `Options`. */
  predicate WellTyped(r: Answers)
  {
    && Fits(List(FrameworkChoices), Get(r, "framework"))
    && Get(r, "typescript").Bool? && Get(r, "eslintPrettier").Bool? && Get(r, "gitInit").Bool?
    && ("css" in r ==> Fits(List(CssChoices), r["css"]))
    && ("jest" in r ==> r["jest"].Bool?)
  }

  /** A well-typed answers object reads as `Options` whose every field is the
      corresponding answer. */
  lemma ToOptionsOfWellTyped(r: Answers)
    requires WellTyped(r)
    ensures ToOptions(r).Some?
    ensures var o := ToOptions(r).value;
            && Get(r, "framework") == Str(FrameworkId(o.framework))
            && o.projectName == Get(r, "projectName")
            && (o.css.Some? <==> "css" in r)
            && (o.css.Some? ==> r["css"] == Str(CssId(o.css.value)))
            && (o.jest.Some? <==> "jest" in r)
            && (o.jest.Some? ==> r["jest"] == Bool(o.jest.value))
            && Get(r, "typescript") == Bool(o.typescript)
            && Get(r, "eslintPrettier") == Bool(o.eslintPrettier)
            && Get(r, "gitInit") == Bool(o.gitInit)
  {
  }

  /** Only a well-typed answers object reads as `Options`: with the lemma above,
      `ToOptions` succeeds exactly on well-typed records. */
  lemma ToOptionsOnlyIfWellTyped(r: Answers)
    requires ToOptions(r).Some?
    ensures WellTyped(r)
  {
    ChoiceValues();
  }

  /** Every answer recorded so far under the name of one of the six questions
      has the type of that question. */
  predicate AnswersFit(a: Answers)
  {
    && ("framework" in a ==> Fits(List(FrameworkChoices), a["framework"]))
    && ("typescript" in a ==> a["typescript"].Bool?)
    && ("css" in a ==> Fits(List(CssChoices), a["css"]))
    && ("jest" in a ==> a["jest"].Bool?)
    && ("eslintPrettier" in a ==> a["eslintPrettier"].Bool?)
    && ("gitInit" in a ==> a["gitInit"].Bool?)
  }

  /** Asking the questions of the table from position `i` on keeps every
      recorded answer fitting its question. */
  lemma {:induction false} AskKeepsFit(d: DefaultOptions, i: nat, a: Answers, oracle: Oracle)
    requires Honest(oracle) && i <= 6 && AnswersFit(a)
    ensures AnswersFit(Ask(Questions(d)[i..], a, oracle))
    decreases 6 - i
  {
    var qs := Questions(d);
    if i < 6 {
      var q := qs[i];
      assert Fits(q.kind, oracle(q, a));
      assert AnswersFit(Step(q, a, oracle));
      assert qs[i..][1..] == qs[i + 1..];
      AskKeepsFit(d, i + 1, Step(q, a, oracle), oracle);
    }
  }

  /** Under a user whose answers fit their questions, every answer in the
      result has the type of its question. */
  lemma ResolveWellTyped(d: DefaultOptions, oracle: Oracle)
    requires Honest(oracle)
    ensures WellTyped(Resolve(d, oracle))
  {
    AskKeepsFit(d, 0, map[], oracle);
    assert Questions(d)[0..] == Questions(d);
    ResolveKeys(d, oracle);
  }

  /** Under a user whose answers fit their questions, the result reads as
      `Options`: the name comes from the defaults, css is present exactly for
      react and nextjs, and jest exactly for every framework but express. */
  lemma ResolveTyped(d: DefaultOptions, oracle: Oracle)
    requires Honest(oracle)
    ensures ToOptions(Resolve(d, oracle)).Some?
    ensures var o := ToOptions(Resolve(d, oracle)).value;
            && Str(FrameworkId(o.framework)) == FrameworkAnswer(d, oracle)
            && o.projectName == d.projectName
            && (o.css.Some? <==> o.framework in {React, NextJs})
            && (o.jest.Some? <==> o.framework != Express)
  {
    ResolveWellTyped(d, oracle);
    ToOptionsOfWellTyped(Resolve(d, oracle));
    ResolveKeys(d, oracle);
    ResolveFramework(d, oracle);
    ResolveProjectName(d, oracle);
  }

  /** Every framework the prompt can return names an entry of the template
      table, so looking its configuration up succeeds. */
  lemma ChosenFrameworkHasTemplate(d: DefaultOptions, oracle: Oracle, root: Config.Path)
    requires Honest(oracle)
    ensures ToOptions(Resolve(d, oracle)).Some?
    ensures Config.GetTemplateConfig(root, FrameworkId(ToOptions(Resolve(d, oracle)).value.framework)).Success?
  {
    ResolveTyped(d, oracle);
    ChoiceValues();
  }
}
