/** The native helpers the script evaluator exposes: `format_string`, which
    fills `{}` placeholders one argument at a time, and `to_int`. */
module EvalUtils {
  import opened Wrappers
  import Text

  /** A script value as far as these helpers look at it: a string, an
      integer, or any other value with the text its `to_string` gives. */
  datatype Value = Str(s: string) | Int(i: int) | Other(text: string)

  /** `Value::to_string`. */
  function ValueText(v: Value): string {
    match v
    case Str(s) => s
    case Int(i) => Text.IntToString(i)
    case Other(t) => t
  }

  /** What `scope.param::<T>(n)?` reports: no parameter `n`, or one of
      another type; and what `to_int` reports for text that is not an `i32`. */
  datatype EvalError = BadParam(index: nat) | NotAnInteger(text: string)

  predicate PlaceholderAt(s: string, i: int) {
    0 <= i && i + 1 < |s| && s[i] == '{' && s[i + 1] == '}'
  }

  /** The first position at which `{}` starts. */
  function FirstPlaceholder(s: string): (r: Option<nat>)
    ensures r.Some? ==> PlaceholderAt(s, r.value) && forall j :: 0 <= j < r.value ==> !PlaceholderAt(s, j)
    ensures r.None? ==> forall j :: 0 <= j < |s| ==> !PlaceholderAt(s, j)
  {
    if |s| < 2 then None
    else if s[0] == '{' && s[1] == '}' then Some(0)
    else
      assert forall j :: 1 <= j < |s| ==> (PlaceholderAt(s, j) <==> PlaceholderAt(s[1..], j - 1));
      match FirstPlaceholder(s[1..])
      case None => None
      case Some(k) => Some(k + 1)
  }

  /** `s.replacen("{}", arg, 1)`: only the leftmost `{}` is replaced, and a
      text without one is returned as it is. */
  function ReplaceFirst(s: string, arg: string): (r: string)
    ensures FirstPlaceholder(s).None? ==> r == s
    ensures FirstPlaceholder(s).Some? ==>
      var i := FirstPlaceholder(s).value;
      r == s[..i] + arg + s[i + 2..] && |r| == |s| - 2 + |arg|
  {
    match FirstPlaceholder(s)
    case None => s
    case Some(i) => s[..i] + arg + s[i + 2..]
  }

  /** The string arguments `format_string` consumes: those from index 1 up to
      the first parameter that is not a string. */
  function LeadingStrings(params: seq<Value>): (r: seq<string>)
    ensures |r| <= |params|
    ensures forall k :: 0 <= k < |r| ==> params[k] == Str(r[k])
    ensures |r| < |params| ==> !params[|r|].Str?
  {
    if params == [] || !params[0].Str? then [] else [params[0].s] + LeadingStrings(params[1..])
  }

  /** Fill placeholders left to right, each time from the start of the text. */
  function Fill(s: string, args: seq<string>): string
    decreases |args|
  {
    if args == [] then s else Fill(ReplaceFirst(s, args[0]), args[1..])
  }

  /** What `format_string` computes. */
  function Format(params: seq<Value>): Result<string, EvalError> {
    if params == [] || !params[0].Str? then Err(BadParam(0))
    else Ok(Fill(params[0].s, LeadingStrings(params[1..])))
  }

  /** `format_string`: the template is parameter 0, and each following string
      parameter is put in place of the leftmost `{}` left. */
  method FormatString(params: seq<Value>) returns (r: Result<string, EvalError>)
    ensures r == Format(params)
  {
    if params == [] || !params[0].Str? {
      return Err(BadParam(0));
    }
    var input := params[0].s;
    var i := 1;
    while i < |params| && params[i].Str?
      invariant 1 <= i <= |params|
      invariant Fill(input, LeadingStrings(params[i..])) == Fill(params[0].s, LeadingStrings(params[1..]))
      decreases |params| - i
    {
      assert params[i..][1..] == params[i + 1..];
      input := ReplaceFirst(input, params[i].s);
      i := i + 1;
    }
    if i < |params| {
      assert LeadingStrings(params[i..]) == [];
    } else {
      assert params[i..] == [];
    }
    r := Ok(input);
  }

  /** With no parameter after the template the template comes back unchanged. */
  lemma FormatTemplateOnly(template: string)
    ensures Format([Str(template)]) == Ok(template)
  {
    assert [Str(template)][1..] == [];
  }

  /** The first argument lands in the leftmost `{}`. */
  lemma FormatOneArgument(template: string, arg: string, i: nat)
    requires PlaceholderAt(template, i) && forall j :: 0 <= j < i ==> !PlaceholderAt(template, j)
    ensures Format([Str(template), Str(arg)]) == Ok(template[..i] + arg + template[i + 2..])
  {
    var params := [Str(template), Str(arg)];
    assert params[1..][1..] == [];
    assert LeadingStrings(params[1..]) == [arg];
    assert FirstPlaceholder(template) == Some(i) by {
      var f := FirstPlaceholder(template);
      assert f.Some?;
      assert !(f.value < i) && !(i < f.value);
    }
    assert [arg][1..] == [];
    assert Fill(template, [arg]) == Fill(ReplaceFirst(template, arg), []);
  }

  /** The first parameter that is not a string ends the arguments: nothing
      after it is used. */
  lemma {:induction false} FormatStopsAtNonString(params: seq<Value>, k: nat)
    requires 1 <= k < |params| && !params[k].Str?
    ensures Format(params) == Format(params[..k])
  {
    if params[0].Str? {
      LeadingStopsAt(params[1..], k - 1);
      assert params[..k][1..] == params[1..][..k - 1];
    }
  }

  lemma {:induction false} LeadingStopsAt(params: seq<Value>, k: nat)
    requires k < |params| && !params[k].Str?
    ensures LeadingStrings(params) == LeadingStrings(params[..k])
  {
    if k > 0 && params[0].Str? {
      assert params[..k][1..] == params[1..][..k - 1];
      LeadingStopsAt(params[1..], k - 1);
    }
  }

  /** A text without placeholders is left as it is by any arguments. */
  lemma {:induction false} FillWithoutPlaceholders(s: string, args: seq<string>)
    requires FirstPlaceholder(s).None?
    ensures Fill(s, args) == s
    decreases |args|
  {
    if args != [] {
      FillWithoutPlaceholders(ReplaceFirst(s, args[0]), args[1..]);
    }
  }

  /** The leftmost placeholder is the one no other placeholder precedes. */
  lemma FirstPlaceholderAt(s: string, i: nat)
    requires PlaceholderAt(s, i) && forall k :: 0 <= k < i ==> !PlaceholderAt(s, k)
    ensures FirstPlaceholder(s) == Some(i)
  {
    var f := FirstPlaceholder(s);
    assert f.Some?;
    assert !(f.value < i) && !(i < f.value);
  }

  /** After the leftmost `{}` is filled with `a`, the leftmost `{}` is `a`'s
      own first one, unless the template's `{` just before the filled
      placeholder meets a `}` that `a` starts with. */
  lemma {:induction false} ReplacedFindsArgumentPlaceholder(s: string, a: string, i: nat, j: nat)
    requires FirstPlaceholder(s) == Some(i) && FirstPlaceholder(a) == Some(j)
    requires i == 0 || s[i - 1] != '{' || a[0] != '}'
    ensures FirstPlaceholder(ReplaceFirst(s, a)) == Some(i + j)
  {
    var r := ReplaceFirst(s, a);
    assert r == s[..i] + a + s[i + 2..];
    forall k | 0 <= k < i + j
      ensures !PlaceholderAt(r, k)
    {
      if k + 1 < i {
        assert r[k] == s[k] && r[k + 1] == s[k + 1];
        assert !PlaceholderAt(s, k);
      } else if k + 1 == i {
        assert r[k] == s[i - 1] && r[k + 1] == a[0];
      } else {
        assert r[k] == a[k - i] && r[k + 1] == a[k - i + 1];
        assert !PlaceholderAt(a, k - i);
      }
    }
    assert r[i + j] == a[j] && r[i + j + 1] == a[j + 1];
    FirstPlaceholderAt(r, i + j);
  }

  /** An argument that itself contains `{}` is searched again: the next
      argument goes into the argument's own first `{}` (under the condition of
      `ReplacedFindsArgumentPlaceholder`). */
  lemma InsertedPlaceholderFilledNext(s: string, a: string, b: string, i: nat, j: nat)
    requires FirstPlaceholder(s) == Some(i) && FirstPlaceholder(a) == Some(j)
    requires i == 0 || s[i - 1] != '{' || a[0] != '}'
    ensures Format([Str(s), Str(a), Str(b)]) == Ok(s[..i] + ReplaceFirst(a, b) + s[i + 2..])
  {
    ReplacedFindsArgumentPlaceholder(s, a, i, j);
    FillInsideArgument(s, a, b, i, j);
    FormatTwoArguments(s, a, b);
  }

  /** The second replacement, once it is known to hit `a`'s own placeholder. */
  lemma FillInsideArgument(s: string, a: string, b: string, i: nat, j: nat)
    requires FirstPlaceholder(s) == Some(i) && FirstPlaceholder(a) == Some(j)
    requires FirstPlaceholder(ReplaceFirst(s, a)) == Some(i + j)
    ensures ReplaceFirst(ReplaceFirst(s, a), b) == s[..i] + ReplaceFirst(a, b) + s[i + 2..]
  {
    var x, y := s[..i], s[i + 2..];
    var r := ReplaceFirst(s, a);
    ReplaceAt(s, i, a);
    ReplaceAt(r, i + j, b);
    ReplaceAt(a, j, b);
    SpliceInside(x, a, y, j, b);
  }

  lemma ReplaceAt(s: string, i: nat, arg: string)
    requires FirstPlaceholder(s) == Some(i)
    ensures ReplaceFirst(s, arg) == s[..i] + arg + s[i + 2..] && |s[..i]| == i
  {
  }

  lemma FormatTwoArguments(s: string, a: string, b: string)
    ensures Format([Str(s), Str(a), Str(b)]) == Ok(ReplaceFirst(ReplaceFirst(s, a), b))
  {
    var params := [Str(s), Str(a), Str(b)];
    assert params[1..][1..][1..] == [];
    assert LeadingStrings(params[1..]) == [a, b];
    assert [a, b][1..] == [b] && [b][1..] == [];
    assert Fill(s, [a, b]) == Fill(ReplaceFirst(s, a), [b]);
    assert Fill(ReplaceFirst(s, a), [b]) == Fill(ReplaceFirst(ReplaceFirst(s, a), b), []);
  }

  /** Replacing two characters inside the middle piece of a concatenation. */
  lemma SpliceInside(x: string, a: string, y: string, j: nat, b: string)
    requires j + 2 <= |a|
    ensures (x + a + y)[..|x| + j] + b + (x + a + y)[|x| + j + 2..] == x + (a[..j] + b + a[j + 2..]) + y
  {
    var r := x + a + y;
    assert r[..|x| + j] == x + a[..j];
    assert r[|x| + j + 2..] == a[j + 2..] + y;
  }

  /** `to_int`: the parameter's text parsed as an `i32`. */
  function ToInt(params: seq<Value>): (r: Result<int, EvalError>)
    ensures params == [] ==> r == Err(BadParam(0))
    ensures r.Ok? ==> Text.I32Min <= r.value <= Text.I32Max
    ensures params != [] ==>
      (r.Ok? <==> Text.ParseI32(ValueText(params[0])).Some?) &&
      (r.Ok? ==> Some(r.value) == Text.ParseI32(ValueText(params[0]))) &&
      (r.Err? ==> r.error == NotAnInteger(ValueText(params[0])))
  {
    if params == [] then Err(BadParam(0))
    else
      var text := ValueText(params[0]);
      match Text.ParseI32(text)
      case Some(v) => Ok(v)
      case None => Err(NotAnInteger(text))
  }

  /** An integer converts to itself exactly when it fits in 32 signed bits. */
  lemma ToIntOfInt(i: int)
    ensures ToInt([Int(i)]).Ok? <==> Text.I32Min <= i <= Text.I32Max
    ensures ToInt([Int(i)]).Ok? ==> ToInt([Int(i)]).value == i
  {
    Text.ParseIntText(i);
  }
}
