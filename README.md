# project-generator: a verified model of its pure core

project-generator is a command-line scaffolder for JavaScript projects. Its
logic that is not I/O sits in four small, deterministic pieces, and this
project models each of them in Dafny and proves what they promise:

- **Project-name validation** (`Validators`, lib/utils/validators.js). A name
  is rejected as empty first, then rejected if any character falls outside
  `[a-z0-9-]`. The regular expression is written as a matcher that consumes
  one class character at a time and succeeds only at the true end of the
  input, as `$` does without the `m` flag. It is proved equal to the
  per-character reading. The thrown errors become `Err(EmptyName)` and
  `Err(BadChars)`, each with the source's message.
- **Template configuration table** (`Config`, lib/utils/config.js). The
  constant map from framework id to directory and dependency lists, the
  lookup `getTemplateConfig`, `defaultFiles`, and the exported copy of the
  react entry. A name that is not an own key of the table makes the source
  throw. For an unknown name `config` is undefined and reading `config.dir`
  throws. For an inherited property such as `toString`, `config.dir` is
  undefined and `path.join` throws. The model returns
  `Failure(UnknownTemplate(name))` in both cases.
- **Option collection** (`Prompts`, lib/utils/prompts.js). The six-question
  table handed to inquirer, with its defaults (`x || fallback`, using
  JavaScript truthiness) and its `when` gates. inquirer's behaviour is
  modelled as a fold (`Ask`): questions go in order, and each gate sees the
  answers recorded before it. The user is an oracle that answers the
  question shown, given the answers so far. The final
  `{...answers, projectName}` merge is `Merge`. A typed view (`ToOptions`,
  with `css` and `jest` as options) is proved to exist for every user whose
  answers fit their questions, and such users are proved to exist.
- **React package manifest** (`ReactManifest`,
  lib/templates/react/vite.config.js). Despite its file name, this is an EJS
  template for `package.json`. It is modelled as the record it denotes: the
  name (escaped as `<%= %>` escapes), the private flag, the version, and the
  scripts, dependencies and devDependencies as ordered key/value lists.

`Common` holds the `Option`, `Outcome` and `Result` datatypes.

Everything is modelled as functions and lemmas because the source is pure
here. It has no loops and no mutated state. Both `validateProjectName` and
`getTemplateConfig` are Dafny functions, so purity holds by construction. So
does the fact that `getTemplateConfig` leaves `templateConfigs` unchanged.

Three facts about the code shape the model:

- `type` and `typescript` of `defaultOptions` only set question defaults, so
  the user's answer wins over them.
- The `gitInit` question's default is always `true`; it reads no option.
- Neither lib/core.js nor bin/cli.js calls `validateProjectName` or
  `getTemplateConfig`: lib/core.js only creates the project directory.

## Model

| member | source | states |
|---|---|---|
| Validators.Message | lib/utils/validators.js:4-10 | the message of the Error thrown for each rejection; `MessagesDistinct` states that the two are non-empty and differ |
| Validators.MessagesDistinct | lib/utils/validators.js:5-9 | the empty-name and character-set messages are non-empty and distinct, so the two rejections are told apart |
| Validators.ValidateProjectName | lib/utils/validators.js:3-11 | the empty name gets exactly `Err(EmptyName)`; a non-empty name with some character outside `[a-z0-9-]` gets exactly `Err(BadChars)`; `Ok` exactly when the name is non-empty and every character is in the class |
| Validators.IsNameChar | lib/utils/validators.js:8 | membership in the class `[a-z0-9-]`, case-sensitive; `ValidateProjectName` and `OnlyNameCharsIff` state its use |
| Validators.OnlyNameChars | lib/utils/validators.js:8 | the class repeated up to the true end of the input; `OnlyNameCharsIff` states it holds exactly when every character is in the class |
| Validators.MatchesNamePattern | lib/utils/validators.js:8 | `/^[a-z0-9-]+$/.test`: non-empty and only class characters; `ValidateProjectName` states the outcome it leads to |
| Validators.OnlyNameCharsIff | lib/utils/validators.js:8 | matching the anchored character class one character at a time up to the end of the input is the same as every character being in the class |
| Validators.UppercaseRejected | lib/utils/validators.js:8 | an uppercase ASCII letter anywhere makes the name rejected with the character-set error |
| Validators.ForeignCharRejected | lib/utils/validators.js:8-10 | any character outside the class at any position gives the character-set error |
| Validators.TrailingNewlineRejected | lib/utils/validators.js:8 | `$` without the `m` flag does not match before a final newline, so `name + "\n"` is always rejected |
| Validators.TestExamples | __tests__/validators.test.js:4-14 | `my-project` is accepted; `""` gets the empty-name error; `MyProject` and `Bad_Name` get the character-set error |
| Validators.AcceptedNameIsAscii | lib/utils/validators.js:8 | every character of an accepted name is ASCII and is none of `& < > " ' / \ .` or space |
| Config.TemplateConfigs | lib/utils/config.js:3-24 | the four-entry table with each entry's dir and its dependency and devDependency lists exactly as written (react: react, react-dom / vite, @vitejs/plugin-react; nextjs: next / none; express: express / nodemon; vanilla: none / none); `TableKeysAndDirs` states its keys and dirs |
| Config.DefaultFiles | lib/utils/config.js:35 | the `defaultFiles` export: `.gitignore` then `README.md` |
| Config.ExportedReact | lib/utils/config.js:36-41 | the react entry as written again in the `templateConfig` export; `ExportedReactMatchesTable` relates it to the table |
| Config.GetTemplateConfig | lib/utils/config.js:26-32 | succeeds exactly for keys of the table, otherwise fails naming the key; on success the dir and both dependency lists are the entry's, unchanged, and `templatePath` is the templates root followed by the key |
| Config.TableKeysAndDirs | lib/utils/config.js:3-24 | the keys are exactly react, nextjs, express and vanilla, and each entry's `dir` is its key |
| Config.TemplatePathsDistinct | lib/utils/config.js:30 | two different known names never share a template path |
| Config.ExportedReactMatchesTable | lib/utils/config.js:36-41 | the exported `templateConfig.react` has the same dir and dependency lists as `templateConfigs.react` |
| Prompts.Truthy | lib/utils/prompts.js:27-33 | JavaScript truthiness of undefined, booleans and strings; `OrIsJsOr` states which values are falsy |
| Prompts.Or | lib/utils/prompts.js:27-33 | JavaScript's or operator; `OrIsJsOr` states that it returns one operand and is truthy exactly when either operand is |
| Prompts.OrIsJsOr | lib/utils/prompts.js:27-33 | the falsy values are exactly undefined, false and the empty string; the or of `a` and `b` is `a` when `a` is truthy and otherwise `b`, and is truthy exactly when one operand is |
| Prompts.FrameworkChoices | lib/utils/prompts.js:4-9 | `frameworkChoices` with its display names and values; `ChoiceValues` states the values |
| Prompts.CssChoices | lib/utils/prompts.js:11-16 | `cssChoices` with its display names and values; `ChoiceValues` states the values |
| Prompts.Holds | lib/utils/prompts.js:40-48 | the `when` predicates: css for a framework answer of react or nextjs (`includes`), jest for one that is not express (`!==`); `ResolveKeys` states the keys they produce |
| Prompts.Step | lib/utils/prompts.js:21-62 | inquirer asking one question, or skipping it when its gate fails; `StepEffect` states its effect on the keys |
| Prompts.Questions | lib/utils/prompts.js:21-62 | the question table in order, with its defaults and gates; `QuestionNames`, `QuestionDefaults` and `PromptSteps` state its content |
| Prompts.Prompt | lib/utils/prompts.js:21-62 | the answers object `prompt` returns; `PromptSteps` states it is the six steps in order |
| Prompts.Resolve | lib/utils/prompts.js:18-68 | the default export's result; `ResolveKeys`, `ResolveFramework`, `ResolveProjectName` and `ResolveTyped` state its keys and values |
| Prompts.Ask | lib/utils/prompts.js:21-62 | asking a question list never drops a recorded answer, and adds keys only under the names of the list's questions |
| Prompts.Merge | lib/utils/prompts.js:64-67 | the merged record has every answer's key plus `projectName`; `projectName` is the defaults' value, replacing any answer with that key; every other answer is kept unchanged |
| Prompts.StepEffect | lib/utils/prompts.js:40-48 | a question's key is recorded exactly when its `when` gate holds of the answers so far (or the key was already there); no other key is added or changed |
| Prompts.QuestionNames | lib/utils/prompts.js:21-62 | the question names are exactly framework, typescript, css, jest, eslintPrettier and gitInit |
| Prompts.PromptSteps | lib/utils/prompts.js:21-62 | the six questions are asked one after the other, in table order, each gate seeing the answers before it |
| Prompts.ResolveKeys | lib/utils/prompts.js:35-61 | framework, typescript, eslintPrettier, gitInit and projectName are always present; css exactly when the framework answer is react or nextjs; jest exactly when it is not express; no other key |
| Prompts.ResolveFramework | lib/utils/prompts.js:22-28 | the result's framework is the answer to the first question |
| Prompts.ExpressHasNoJest | lib/utils/prompts.js:40-48 | for express the result has neither a jest nor a css key |
| Prompts.ResolveProjectName | lib/utils/prompts.js:64-67 | `projectName` always equals `defaultOptions.projectName`; the prompt's answers hold no such key; every answer passes through unchanged |
| Prompts.QuestionDefaults | lib/utils/prompts.js:27-60 | the framework default is `defaultOptions.type` when truthy and `react` otherwise; the TypeScript default is `defaultOptions.typescript` when truthy and `false` otherwise; css defaults to tailwind; jest, eslintPrettier and gitInit default to true |
| Prompts.EmptyDefaults | lib/utils/prompts.js:18-33 | with `{}` (the default parameter), an absent or empty `type` or false flags, the defaults are react and false |
| Prompts.ChoiceValues | lib/utils/prompts.js:4-16 | the framework values are exactly vanilla, react, nextjs, express, and as a set they are the template table's keys; the css values are exactly tailwind, styled, modules, css |
| Prompts.ToOptions | lib/utils/prompts.js:64-67 | the resolved record read with typed fields, css and jest optional; `ToOptionsOfWellTyped` and `ToOptionsOnlyIfWellTyped` state that it exists exactly for well-typed records and what each of the seven fields is |
| Prompts.ToOptionsOfWellTyped | lib/utils/prompts.js:64-67 | a record whose answers have their questions' types reads as typed options whose every field (projectName, framework, typescript, css, jest, eslintPrettier, gitInit) is the corresponding answer, css and jest present exactly when their keys are |
| Prompts.ToOptionsOnlyIfWellTyped | lib/utils/prompts.js:64-67 | a record reads as typed options only if it is well-typed, so `ToOptions` succeeds exactly on well-typed records |
| Prompts.HonestExists | lib/utils/prompts.js:21-62 | some user answers every askable question with a value that fits it (the first choice of a list, yes to a confirmation), so the lemmas assuming such a user are not vacuous |
| Prompts.AskKeepsFit | lib/utils/prompts.js:21-62 | asking the table's questions keeps every recorded answer of the type of its question, when every answer to an askable question fits it |
| Prompts.ResolveWellTyped | lib/utils/prompts.js:21-67 | when every answer fits its question, the result has a framework choice, boolean typescript, eslintPrettier and gitInit, and a css choice and boolean jest where present |
| Prompts.ResolveTyped | lib/utils/prompts.js:35-67 | when every answer fits its question, the result reads as typed options whose css is present exactly for react and nextjs, whose jest is present exactly for every framework but express, and whose name is the defaults' |
| Prompts.ChosenFrameworkHasTemplate | lib/utils/prompts.js:4-9 | every framework the prompt can return is a key of the template table, so its configuration lookup succeeds |
| ReactManifest.Render | lib/templates/react/vite.config.js:1-27 | the manifest the template denotes for a name and the two flags; the lemmas below state its fields |
| ReactManifest.Escape | lib/templates/react/vite.config.js:2 | `<%= %>` escaping of `& < > " '`; `EscapeIdentity` states it leaves strings without those characters unchanged |
| ReactManifest.EscapeIdentity | lib/templates/react/vite.config.js:2 | a string with none of `& < > " '` is rendered verbatim |
| ReactManifest.PrivateAndVersion | lib/templates/react/vite.config.js:3-4 | `private` is true and `version` is 1.0.0 for every name and flags |
| ReactManifest.ManifestHeader | lib/templates/react/vite.config.js:2 | for every name the validator accepts, the manifest name is the project name itself |
| ReactManifest.EscapedName | lib/templates/react/vite.config.js:2 | `<%= %>` escapes the name: `a&b` is written as `a&amp;b` |
| ReactManifest.Scripts | lib/templates/react/vite.config.js:5-12 | the script keys are dev, build, preview, then test exactly when jest is on, with no key twice; dev, build and preview map to vite, vite build and vite preview; test maps to jest |
| ReactManifest.ScriptsIgnoreTypescript | lib/templates/react/vite.config.js:5-12 | the typescript flag never changes the scripts |
| ReactManifest.Dependencies | lib/templates/react/vite.config.js:13-16 | the dependencies are react and react-dom at ^18.2.0 whatever the flags, the same names in the same order as the react table entry |
| ReactManifest.DevDependencyKeys | lib/templates/react/vite.config.js:17-26 | the devDependency keys are @vitejs/plugin-react, vite, then typescript exactly when the typescript flag is on, then jest exactly when the jest flag is on, with no key twice |
| ReactManifest.DevDependencyVersions | lib/templates/react/vite.config.js:17-26 | plugin-react ^4.2.1 and vite ^5.0.8 are always present; typescript ^5.3.0 is present exactly when the typescript flag is on; jest ^29.7.0 exactly when the jest flag is on |
| ReactManifest.DevDependenciesMatchTable | lib/templates/react/vite.config.js:17-19 | without the optional entries, the devDependencies are the react table entry's names, in the other order |

## Left out

- Validators.ValidateProjectName: takes a string. The source also rejects every falsy value (`undefined`, `null`, `false`, `0`, `-0`, `NaN`, `0n`) as empty. It coerces any other non-string value to a string before matching. Those arguments are not representable here.
- Validators.IsNameChar: Dafny characters are Unicode scalar values, while the regex, lacking the `u` flag, sees UTF-16 code units. Every character outside ASCII is rejected either way.
- Config.GetTemplateConfig: `path.join(__dirname, '../templates', dir)` is modelled as appending `dir` to a root path given as a parameter. Normalisation of `..` is not modelled.
- Config.GetTemplateConfig: `{...config, templatePath}` is a shallow copy, so the returned `dependencies` and `devDependencies` arrays are the table's own arrays. A caller that mutates them changes `templateConfigs` and every later lookup. The model has value semantics and returns copies, so this aliasing is not captured.
- Config: JavaScript object key order is not modelled. The table is a map. The `getTemplateConfig` and `templateConfigs` references that the `templateConfig` export also holds are not modelled as data.
- Prompts: the inquirer interaction itself is an oracle. Not modelled: the terminal, validation of list defaults that are not among the choices, async/await, and the chalk-coloured banner.
- Prompts: `defaultOptions` values are limited to undefined, booleans and strings. Other JavaScript values and their truthiness are not modelled.
- Prompts.ChosenFrameworkHasTemplate: neither lib/core.js nor bin/cli.js passes the prompt's framework to `getTemplateConfig`. The lemma states that such a lookup would succeed.
- ReactManifest: EJS text rendering is not modelled: whitespace, `<%_ _%>` trimming and JSON syntax. With jest off, the rendered scripts object keeps a trailing comma after `"preview"`, so the text is not valid JSON. The model holds the intended record and makes no claim about the text.
- ReactManifest: `jest` and `typescript` are booleans here. EJS tests their truthiness, and a variable missing from the template's data would raise an error.
- lib/core.js (directory creation under the working directory) and bin/cli.js (argument parsing, console output, the exit code) are I/O and are not part of this model. Dependency installation, lint fixing and git initialisation are not performed by any file of this model's sources and are not modelled.
- __tests__/templates.test.js only checks that template files exist on disk. It has no counterpart here.
