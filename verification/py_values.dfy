/**
 The slice of Python's object model that the validating setters inspect:
 dynamically typed argument values, the two exception kinds they raise,
 and the built-in `isinstance` check with CPython's handling of a tuple
 as its second argument.
 */
module PyValues {

  /** A Python argument value. `bool` is a subclass of `int` in Python. */
  datatype PyValue =
    | PyNone
    | PyBool(b: bool)
    | PyInt(i: int)
    | PyFloat(f: real)
    | PyStr(s: string)

  /** The exception kinds raised by the setters. */
  datatype PyError = TypeError | ValueError

  /** Outcome of a call that either returns a value or raises. */
  datatype Result<+T> = Ok(value: T) | Err(error: PyError)

  /** The object a caller holds after a setter call whose exception it
      catches: every setter raises before it assigns, so a raising call
      leaves the object as it was. */
  function Settle<T>(s: T, r: Result<T>): T {
    if r.Ok? then r.value else s
  }

  /** An entry of the second argument of `isinstance`: one of the classes
      the setters name, or the `None` object written where a class belongs. */
  datatype ClassRef = IntClass | FloatClass | StrClass | NoneTypeClass | NoneObject {

    predicate IsClass() {
      !NoneObject?
    }
  }

  /** Whether `v` is an instance of the class `c` (never, for a non-class). */
  predicate InstanceOf(v: PyValue, c: ClassRef) {
    match c
    case IntClass => v.PyInt? || v.PyBool?
    case FloatClass => v.PyFloat?
    case StrClass => v.PyStr?
    case NoneTypeClass => v.PyNone?
    case NoneObject => false
  }

  /** Some entry of `classinfo` is a class that `v` is an instance of. */
  ghost predicate AnyInstance(v: PyValue, classinfo: seq<ClassRef>) {
    exists k | 0 <= k < |classinfo| :: InstanceOf(v, classinfo[k])
  }

  /** Every entry of `classinfo` is a class. */
  ghost predicate AllClasses(classinfo: seq<ClassRef>) {
    forall k | 0 <= k < |classinfo| :: classinfo[k].IsClass()
  }

  /** Entry `j` of `classinfo` is not a class and no entry before it is a
      class `v` is an instance of: the walk reaches `j` and raises there. */
  ghost predicate RaisesAt(v: PyValue, classinfo: seq<ClassRef>, j: int) {
    && 0 <= j < |classinfo|
    && !classinfo[j].IsClass()
    && forall k | 0 <= k < j :: !InstanceOf(v, classinfo[k])
  }

  /** `isinstance(v, classinfo)` where `classinfo` is a tuple (a single class
      behaves as a one-element tuple). CPython walks the entries from left to
      right, answers True at the first class that matches, and raises
      TypeError at the first entry that is not a class. */
  function IsInstance(v: PyValue, classinfo: seq<ClassRef>): (r: Result<bool>)
    ensures r.Err? ==> r.error == TypeError
    ensures r == Ok(true) ==> AnyInstance(v, classinfo)
    ensures AllClasses(classinfo) ==> r == Ok(AnyInstance(v, classinfo))
    ensures |classinfo| > 0 && InstanceOf(v, classinfo[0]) ==> r == Ok(true)
    ensures !AnyInstance(v, classinfo) && !AllClasses(classinfo) ==> r == Err(TypeError)
    ensures r.Err? <==> exists j | 0 <= j < |classinfo| :: RaisesAt(v, classinfo, j)
  {
    if |classinfo| == 0 then Ok(false)
    else if !classinfo[0].IsClass() then
      assert RaisesAt(v, classinfo, 0);
      Err(TypeError)
    else if InstanceOf(v, classinfo[0]) then Ok(true)
    else
      var rest := IsInstance(v, classinfo[1..]);
      assert AnyInstance(v, classinfo) <==> AnyInstance(v, classinfo[1..]) by {
        if AnyInstance(v, classinfo) {
          var k :| 0 <= k < |classinfo| && InstanceOf(v, classinfo[k]);
          assert classinfo[1..][k - 1] == classinfo[k];
        }
      }
      assert AllClasses(classinfo) <==> AllClasses(classinfo[1..]) by {
        if !AllClasses(classinfo) {
          var k :| 0 <= k < |classinfo| && !classinfo[k].IsClass();
          assert classinfo[1..][k - 1] == classinfo[k];
        }
      }
      assert (exists j :: RaisesAt(v, classinfo, j)) <==> (exists j :: RaisesAt(v, classinfo[1..], j)) by {
        if j :| RaisesAt(v, classinfo, j) {
          assert RaisesAt(v, classinfo[1..], j - 1);
        }
        if j :| RaisesAt(v, classinfo[1..], j) {
          assert RaisesAt(v, classinfo, j + 1);
        }
      }
      rest
  }

  /** `isinstance(v, int)`: true for ints and for bools. */
  predicate IsInt(v: PyValue) {
    InstanceOf(v, IntClass)
  }

  /** `isinstance(v, (int, float))`. */
  predicate IsNumber(v: PyValue) {
    IsInt(v) || v.PyFloat?
  }

  /** The integer an int (or bool) stands for in comparisons. */
  function IntOf(v: PyValue): int
    requires IsInt(v)
  {
    if v.PyBool? then (if v.b then 1 else 0) else v.i
  }

  /** The number a numeric value stands for in comparisons. */
  function RealOf(v: PyValue): real
    requires IsNumber(v)
  {
    if v.PyFloat? then v.f else IntOf(v) as real
  }
}
