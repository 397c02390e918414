/** Pre-flight argument checks: each endpoint tests its arguments with `isinstance`, one after the other, and
    raises a TypeError for the first one that fails. An optional argument is only tested when it is truthy. */
module Validation {
  import opened Wrappers
  import opened Errors
  import opened PyValues

  /** One `if [value and] not isinstance(value, kind): raise TypeError(...)` line.
      `optional` is true for the `if value and ...` form; `name` is the argument's name as the message spells it. */
  datatype Check = Check(value: Value, kind: Kind, optional: bool, name: string)

  /** What the message says the argument must be, for each type tested. */
  function Requirement(kind: Kind): (s: string)
  {
    match kind
    case IntKind => "an integer"
    case BoolKind => "True or False"
    case StrKind => "a string"
    case ListKind => "a list of strings"
  }

  /** `<name> parameter must be <requirement>`. */
  function Message(c: Check): (s: string)
  {
    c.name + " parameter must be " + Requirement(c.kind)
  }

  /** The check raises: the value is tested (always, or because it is truthy) and has the wrong type. */
  predicate Fails(c: Check)
  {
    (!c.optional || Truthy(c.value)) && !IsInstance(c.value, c.kind)
  }

  /** The TypeError a failing check raises. */
  function ErrorOf(c: Check): (e: Exc)
    ensures e.cls == TypeError
  {
    Raise(TypeError, ModuleName + ": " + Message(c))
  }

  /** The error raised by running the checks in order, or None when every check passes. */
  function FirstFailure(cs: seq<Check>): (r: Option<Exc>)
    ensures r.None? <==> forall k :: 0 <= k < |cs| ==> !Fails(cs[k])
    ensures r.Some? ==> exists k :: 0 <= k < |cs| && Fails(cs[k]) && r.value == ErrorOf(cs[k])
                                    && forall j :: 0 <= j < k ==> !Fails(cs[j])
  {
    if cs == [] then None
    else if Fails(cs[0]) then Some(ErrorOf(cs[0]))
    else
      var r := FirstFailure(cs[1..]);
      assert forall k :: 1 <= k < |cs| ==> cs[k] == cs[1..][k - 1];
      r
  }

  /** Two checks that raise alike: the same test and message on the same value, or an optional test on two
      falsy values (which Python does not test at all). */
  predicate Alike(x: Check, y: Check)
  {
    && x.kind == y.kind && x.optional == y.optional && x.name == y.name
    && (x.value == y.value || (x.optional && !Truthy(x.value) && !Truthy(y.value)))
  }

  /** Check lists that agree up to falsy optional values raise the same error. */
  lemma {:induction false} FirstFailureAlike(cs: seq<Check>, ds: seq<Check>)
    requires |cs| == |ds| && forall k :: 0 <= k < |cs| ==> Alike(cs[k], ds[k])
    ensures FirstFailure(cs) == FirstFailure(ds)
    decreases |cs|
  {
    if cs != [] {
      assert Alike(cs[0], ds[0]);
      FirstFailureAlike(cs[1..], ds[1..]);
    }
  }
}
