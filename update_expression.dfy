/**
 * The update expressions the handler sends to the store, `set <updateKey> =
 * :value`, and a recogniser for the one form the model applies itself: a
 * single plain assignment `set <name> = :<name>`. Every other expression
 * (nested paths, several clauses, other actions such as REMOVE or ADD) is
 * left to the store's own reading, `Store.UpdateRules.otherwise`.
 */
module UpdateExpression {
  import opened Wrappers

  /** The placeholder the handler binds to the new value. */
  const ValuePlaceholder := ":value"

  /** What a well-formed expression asks for: set `attribute` to the value bound to `placeholder`. */
  datatype Assignment = Assignment(attribute: string, placeholder: string)

  predicate IsNameStart(c: char) {
    ('a' <= c <= 'z') || ('A' <= c <= 'Z') || c == '_'
  }

  predicate IsNameChar(c: char) {
    IsNameStart(c) || ('0' <= c <= '9')
  }

  /** A plain attribute name: a letter or underscore, then letters, digits or underscores. */
  predicate IsName(s: string) {
    |s| > 0 && IsNameStart(s[0]) && forall i :: 0 <= i < |s| ==> IsNameChar(s[i])
  }

  /** An expression attribute value placeholder such as `:value`. */
  predicate IsPlaceholder(s: string) {
    |s| > 1 && s[0] == ':' && IsName(s[1..])
  }

  /** The length of the longest prefix of `s` made of name characters. */
  function NameLength(s: string): (n: nat)
    ensures n <= |s|
    ensures forall i :: 0 <= i < n ==> IsNameChar(s[i])
    ensures n < |s| ==> !IsNameChar(s[n])
  {
    if |s| == 0 || !IsNameChar(s[0]) then 0 else 1 + NameLength(s[1..])
  }

  /** The expression `modifyProduct` builds from the caller's `updateKey`. */
  function SetExpression(updateKey: string): string {
    "set " + updateKey + " = " + ValuePlaceholder
  }

  /**
   * Recognises one plain assignment `set <name> = :<name>`. `None` means the
   * expression has some other form; the store then reads it by its own rules
   * (`Store.UpdateRules.otherwise`), which may accept it.
   */
  function ParseSet(expression: string): Option<Assignment> {
    if |expression| < 4 || expression[..4] != "set " then None
    else ParseAssignment(expression[4..])
  }

  /** Reads `<name> = <placeholder>`, the text after the `set` keyword. */
  function ParseAssignment(rest: string): Option<Assignment> {
    var n := NameLength(rest);
    if n + 3 <= |rest| && rest[n..n + 3] == " = " && IsName(rest[..n]) && IsPlaceholder(rest[n + 3..])
    then Some(Assignment(rest[..n], rest[n + 3..]))
    else None
  }

  /** `NameLength` is determined by where the first non-name character is. */
  lemma NameLengthAt(s: string, m: nat)
    requires m <= |s|
    requires forall i :: 0 <= i < m ==> IsNameChar(s[i])
    requires m < |s| ==> !IsNameChar(s[m])
    ensures NameLength(s) == m
  {
  }

  /** A key made only of name characters is read back whole. */
  lemma ParseAssignmentOfNameChars(updateKey: string)
    requires forall i :: 0 <= i < |updateKey| ==> IsNameChar(updateKey[i])
    ensures ParseAssignment(updateKey + " = :value")
         == if IsName(updateKey) then Some(Assignment(updateKey, ValuePlaceholder)) else None
  {
    var rest := updateKey + " = :value";
    var k := |updateKey|;
    assert forall i :: 0 <= i < k ==> rest[i] == updateKey[i];
    assert rest[k] == ' ';
    NameLengthAt(rest, k);
    assert rest[..k] == updateKey;
    assert rest[k..k + 3] == " = ";
    assert rest[k + 3..] == ValuePlaceholder;
    assert ValuePlaceholder[1..] == "value";
    assert IsName("value");
  }

  /** A key holding any other character is not read as one plain assignment. */
  lemma ParseAssignmentOfOtherChars(updateKey: string, bad: nat)
    requires bad < |updateKey| && !IsNameChar(updateKey[bad])
    ensures ParseAssignment(updateKey + " = :value") == None
  {
    var rest := updateKey + " = :value";
    var k := |updateKey|;
    var m := NameLength(rest);
    assert rest[bad] == updateKey[bad];
    assert m <= bad < k;
    if m + 3 <= |rest| && rest[m..m + 3] == " = " {
      var ph := rest[m + 3..];
      var j := k + 2 - (m + 3);
      assert 0 <= j < |ph|;
      assert ph[j] == rest[k + 2] == ' ';
      if j > 0 {
        assert ph[1..][j - 1] == ' ';
      }
      assert !IsPlaceholder(ph);
    }
  }

  /**
   * The expression built from `updateKey` is recognised as one plain
   * assignment exactly when the key is a plain attribute name, and then it
   * assigns that attribute from `:value`. A key carrying expression syntax
   * (spaces, `=`, commas, dots) is left to the store's own reading.
   */
  lemma ParseSetExpression(updateKey: string)
    ensures ParseSet(SetExpression(updateKey))
         == if IsName(updateKey) then Some(Assignment(updateKey, ValuePlaceholder)) else None
  {
    var e := SetExpression(updateKey);
    assert e[..4] == "set ";
    assert e[4..] == updateKey + " = :value";
    if forall i :: 0 <= i < |updateKey| ==> IsNameChar(updateKey[i]) {
      ParseAssignmentOfNameChars(updateKey);
    } else {
      var bad :| 0 <= bad < |updateKey| && !IsNameChar(updateKey[bad]);
      ParseAssignmentOfOtherChars(updateKey, bad);
    }
  }
}
