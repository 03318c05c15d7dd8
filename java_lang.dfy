/** The two pieces of the Java runtime that the take-offer request relies on for its
    metadata: the simple name of a class, and the conversion of days to milliseconds. */
module JavaLang {

  /** Milliseconds in one day, the factor TimeUnit.DAYS.toMillis multiplies by. */
  const MillisPerDay: int := 24 * 60 * 60 * 1000

  /** Long.MAX_VALUE. */
  const LongMax: int := 0x7fff_ffff_ffff_ffff

  /** TimeUnit.DAYS.toMillis: multiplies by a day's milliseconds and saturates at
      Long.MAX_VALUE / Long.MIN_VALUE instead of wrapping around. */
  function DaysToMillis(days: int): (millis: int)
    requires -LongMax - 1 <= days <= LongMax
    ensures -LongMax - 1 <= millis <= LongMax
    ensures -LongMax - 1 <= days * MillisPerDay <= LongMax ==> millis == days * MillisPerDay
    ensures days > LongMax / MillisPerDay ==> millis == LongMax
    ensures days < -(LongMax / MillisPerDay) ==> millis == -LongMax - 1
    ensures days > 0 ==> millis > 0
  {
    var over := LongMax / MillisPerDay;
    if days > over then LongMax
    else if days < -over then -LongMax - 1
    else days * MillisPerDay
  }

  /** Class.getSimpleName of a top-level class: its binary name with the package prefix,
      everything up to and including the last '.', removed. */
  function SimpleName(qualifiedName: string): (simple: string)
    ensures '.' !in simple
    ensures |simple| <= |qualifiedName|
    ensures simple == qualifiedName[|qualifiedName| - |simple|..]
    ensures |simple| < |qualifiedName| ==> qualifiedName[|qualifiedName| - |simple| - 1] == '.'
  {
    if |qualifiedName| == 0 || qualifiedName[|qualifiedName| - 1] == '.' then []
    else SimpleName(qualifiedName[..|qualifiedName| - 1]) + [qualifiedName[|qualifiedName| - 1]]
  }

  /** The simple name is everything after the last dot. */
  lemma SimpleNameAfterLastDot(qualifiedName: string, dot: nat)
    requires dot < |qualifiedName| && qualifiedName[dot] == '.'
    requires forall k :: dot < k < |qualifiedName| ==> qualifiedName[k] != '.'
    ensures SimpleName(qualifiedName) == qualifiedName[dot + 1..]
  {
  }

  /** The simple name of a class declared as `name` in package `pkg` is `name` itself,
      however many dots the package has. */
  lemma SimpleNameOfClassInPackage(pkg: string, name: string)
    requires '.' !in name
    ensures SimpleName(pkg + "." + name) == name
  {
    var q := pkg + "." + name;
    forall k | |pkg| < k < |q|
      ensures q[k] != '.'
    {
      assert q[k] == name[k - |pkg| - 1];
    }
    SimpleNameAfterLastDot(q, |pkg|);
    assert q[|pkg| + 1..] == name;
  }
}
