/**
 * Argument validators (ObjectExtensions.ThrowIfNull and
 * StringExtensions.ThrowIfNullOrWhiteSpace).  A validator either returns
 * normally (`Pass`) or throws (`Fail(exception)`).
 */
module Guards {
  import opened Wrappers
  import opened Exceptions

  /** `ThrowIfNull`: an ArgumentNullException naming the argument iff it is null. */
  function ThrowIfNull<T>(value: Option<T>, objectName: string): (r: Outcome<Exception>)
    ensures r.Fail? <==> value.None?
    ensures r.Fail? ==> r.error.ArgumentNullException? && r.error.paramName == objectName
  {
    if value.None? then Fail(ArgumentNullException(objectName)) else Pass
  }

  /** `char.IsWhiteSpace`: the Unicode space separators plus the control characters
      U+0009..U+000D and U+0085. */
  predicate IsWhiteSpace(c: char) {
    var n := c as int;
    || 0x09 <= n <= 0x0D || n == 0x20 || n == 0x85 || n == 0xA0 || n == 0x1680
    || 0x2000 <= n <= 0x200A || n == 0x2028 || n == 0x2029 || n == 0x202F
    || n == 0x205F || n == 0x3000
  }

  /** True iff every character of `s` is white space (vacuously for ""). */
  predicate AllWhiteSpace(s: string) {
    if s == [] then true else IsWhiteSpace(s[0]) && AllWhiteSpace(s[1..])
  }

  lemma {:induction false} AllWhiteSpaceMeans(s: string)
    ensures AllWhiteSpace(s) <==> forall i :: 0 <= i < |s| ==> IsWhiteSpace(s[i])
  {
    if s != [] {
      AllWhiteSpaceMeans(s[1..]);
      assert forall i :: 1 <= i < |s| ==> s[i] == s[1..][i - 1];
    }
  }

  /** `string.IsNullOrWhiteSpace`. */
  predicate IsNullOrWhiteSpace(value: Option<string>): (r: bool)
    ensures r <==> value.None? || forall i :: 0 <= i < |value.value| ==> IsWhiteSpace(value.value[i])
  {
    if value.None? then true
    else
      AllWhiteSpaceMeans(value.value);
      AllWhiteSpace(value.value)
  }

  /** The message the validator throws with. */
  function WhiteSpaceMessage(stringName: string): string {
    stringName + " cannot be null, empty, or only whitespace."
  }

  /** `ThrowIfNullOrWhiteSpace`: returns normally iff the string is non-null and has a
      character that is not white space; otherwise an ArgumentException whose message
      starts with the argument's name. */
  function ThrowIfNullOrWhiteSpace(value: Option<string>, stringName: string): (r: Outcome<Exception>)
    ensures r.Pass? <==> value.Some? && exists i :: 0 <= i < |value.value| && !IsWhiteSpace(value.value[i])
    ensures r.Fail? <==> IsNullOrWhiteSpace(value)
    ensures r.Fail? ==> r.error.ArgumentException? && |r.error.message| >= |stringName|
                        && r.error.message[..|stringName|] == stringName
  {
    if value.None? then Fail(ArgumentException(WhiteSpaceMessage(stringName)))
    else
      AllWhiteSpaceMeans(value.value);
      if AllWhiteSpace(value.value) then Fail(ArgumentException(WhiteSpaceMessage(stringName))) else Pass
  }

  /** Guards run one after another: the first one that throws decides. */
  function FirstFailure(checks: seq<Outcome<Exception>>): (r: Outcome<Exception>)
    ensures r.Pass? <==> forall i :: 0 <= i < |checks| ==> checks[i].Pass?
    ensures r.Fail? ==> exists i :: 0 <= i < |checks| && checks[i] == r
                          && forall j :: 0 <= j < i ==> checks[j].Pass?
  {
    if checks == [] then Pass
    else if checks[0].Fail? then checks[0]
    else
      var rest := FirstFailure(checks[1..]);
      assert forall i :: 1 <= i < |checks| ==> checks[i] == checks[1..][i - 1];
      rest
  }
}
