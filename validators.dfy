/**
 * Project-name validation: `validateProjectName` in lib/utils/validators.js.
 * The source first rejects a falsy (empty) name, then tests the name against
 * the regular expression `/^[a-z0-9-]+$/`; each rejection throws an Error
 * with its own message, which is modelled here as an `Err` outcome.
 */
module Validators {
  import opened Common

  /** The two rejections, in the order the source checks them. */
  datatype NameError = EmptyName | BadChars

  /** The message of the Error thrown for each rejection. */
  function Message(e: NameError): string
  {
    match e
    case EmptyName => "Имя проекта не может быть пустым"
    case BadChars => "Имя проекта может содержать только строчные буквы, цифры и дефисы"
  }

  /** The two rejections are told apart by their messages, neither of which
      is empty. */
  lemma MessagesDistinct()
    ensures Message(EmptyName) != Message(BadChars)
    ensures Message(EmptyName) != [] && Message(BadChars) != []
  {
  }

  /** Membership in the character class `[a-z0-9-]`: two code-point ranges and
      the hyphen; the class is case-sensitive, since the regex has no `i` flag. */
  predicate IsNameChar(c: char)
  {
    ('a' <= c <= 'z') || ('0' <= c <= '9') || c == '-'
  }

  /** Matches `[a-z0-9-]*$` from the start of `s`: consumes class characters one
      at a time and succeeds only at the true end of the input, which is where
      `$` anchors when the regex has no `m` flag. */
  predicate OnlyNameChars(s: string)
    decreases |s|
  {
    s == [] || (IsNameChar(s[0]) && OnlyNameChars(s[1..]))
  }

  /** `/^[a-z0-9-]+$/.test(s)`: at least one class character and nothing else. */
  predicate MatchesNamePattern(s: string)
  {
    |s| > 0 && OnlyNameChars(s)
  }

  /** The matcher agrees with the per-character reading of the class. */
  lemma {:induction false} OnlyNameCharsIff(s: string)
    ensures OnlyNameChars(s) <==> forall i :: 0 <= i < |s| ==> IsNameChar(s[i])
  {
    if s != [] {
      OnlyNameCharsIff(s[1..]);
      assert forall i :: 1 <= i < |s| ==> s[i] == s[1..][i - 1];
    }
  }

  /** `validateProjectName(name)`: `Ok` where the source returns, `Err(e)` where
      it throws. */
  function ValidateProjectName(name: string): (r: Outcome<NameError>)
    ensures r == Err(EmptyName) <==> name == []
    ensures r == Err(BadChars) <==>
              (name != [] && exists i :: 0 <= i < |name| && !IsNameChar(name[i]))
    ensures r == Ok <==>
              (name != [] && forall i :: 0 <= i < |name| ==> IsNameChar(name[i]))
  {
    OnlyNameCharsIff(name);
    if name == [] then Err(EmptyName)
    else if !MatchesNamePattern(name) then Err(BadChars)
    else Ok
  }

  /** Any uppercase letter anywhere in the name makes it rejected, and with the
      character-set error, never the empty-name one. */
  lemma UppercaseRejected(name: string, i: nat)
    requires i < |name| && 'A' <= name[i] <= 'Z'
    ensures ValidateProjectName(name) == Err(BadChars)
  {
  }

  /** Any character outside the class (an underscore, a space, a dot, a letter
      outside ASCII) rejects the name with the character-set error. */
  lemma ForeignCharRejected(name: string, i: nat)
    requires i < |name| && !IsNameChar(name[i])
    ensures ValidateProjectName(name) == Err(BadChars)
  {
  }

  /** `$` does not match before a final line break: appending `\n` to any name,
      valid or not, gives a rejected name. */
  lemma TrailingNewlineRejected(name: string)
    ensures ValidateProjectName(name + "\n") == Err(BadChars)
  {
    var s := name + "\n";
    assert !IsNameChar(s[|s| - 1]);
  }

  /** The examples the source's tests use, and a name with an underscore. */
  lemma TestExamples()
    ensures ValidateProjectName("my-project") == Ok
    ensures ValidateProjectName("") == Err(EmptyName)
    ensures ValidateProjectName("MyProject") == Err(BadChars)
    ensures ValidateProjectName("Bad_Name") == Err(BadChars)
  {
  }

  /** An accepted name is built from ASCII only, so it is free of every
      character that has a special meaning in HTML or in a path. */
  lemma AcceptedNameIsAscii(name: string, i: nat)
    requires ValidateProjectName(name) == Ok
    requires i < |name|
    ensures name[i] < 128 as char
    ensures name[i] !in "&<>\"'/\\. "
  {
  }
}
