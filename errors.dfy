/** Python exceptions: the triagelib classes, the built-ins the library raises, and the class hierarchy. */
module Errors {
  /** The exception classes that occur in triagelib. `PyException` is Python's `Exception`. */
  datatype ExcClass =
    | PyException
    | TypeError
    | ValueError
    | TriageError
    | TriageStateError
    | TriageClientError
    | TriageAuthError
    | TriageServerError
    | TriageFailureError

  /** `__name__` of the library module, the prefix of its own messages. */
  const ModuleName: string := "triagelib"

  /** An exception instance: its class and its message. */
  datatype Exc = Raise(cls: ExcClass, msg: string)

  /** Distance from `PyException` in the class tree. */
  function Depth(c: ExcClass): (n: nat)
  {
    match c
    case PyException => 0
    case TypeError | ValueError | TriageError => 1
    case TriageStateError | TriageClientError | TriageServerError | TriageFailureError => 2
    case TriageAuthError => 3
  }

  /** The direct base class, as declared in the class statements. */
  function Parent(c: ExcClass): (p: ExcClass)
    requires c != PyException
    ensures Depth(p) + 1 == Depth(c)
  {
    match c
    case TypeError | ValueError | TriageError => PyException
    case TriageStateError | TriageClientError | TriageServerError | TriageFailureError => TriageError
    case TriageAuthError => TriageClientError
  }

  /** Python's `issubclass(c, d)`: reflexive-transitive closure of `Parent`. */
  predicate IsSubclass(c: ExcClass, d: ExcClass)
    decreases Depth(c)
  {
    c == d || (c != PyException && IsSubclass(Parent(c), d))
  }

  /** An `except d:` clause catches an exception of class `c` iff `c` is a subclass of `d`. */
  predicate Catches(handler: ExcClass, e: Exc)
  {
    IsSubclass(e.cls, handler)
  }

  /** Every triagelib class derives from `TriageError`; the built-ins do not. */
  lemma TriageClassesDeriveFromTriageError(c: ExcClass)
    ensures IsSubclass(c, TriageError) <==> c !in {PyException, TypeError, ValueError}
  {
  }

  /** `TriageAuthError` is a `TriageClientError`, and exactly it and `TriageClientError` are. */
  lemma ClientErrorSubclasses(c: ExcClass)
    ensures IsSubclass(c, TriageClientError) <==> (c == TriageClientError || c == TriageAuthError)
  {
  }

  /** The hierarchy is a tree: a class derives from two classes only when one derives from the other. */
  lemma {:induction false} SubclassChain(c: ExcClass, d: ExcClass, e: ExcClass)
    requires IsSubclass(c, d) && IsSubclass(c, e)
    ensures IsSubclass(d, e) || IsSubclass(e, d)
    decreases Depth(c)
  {
    if c != d && c != e {
      SubclassChain(Parent(c), d, e);
    }
  }
}
