/** Value types the whole model shares: .NET's Guid and DateTime, optional values,
    and the exceptions the core throws, carried as values. */
module Base {

  /** A 128-bit identifier. Only equality is ever used on it. */
  newtype Guid = x: int | 0 <= x < 0x1_0000_0000_0000_0000_0000_0000_0000_0000

  /** Guid.Empty, the all-zero identifier. */
  const EmptyGuid: Guid := 0

  /** DateTime.MinValue and DateTime.MaxValue, in ticks of 100 ns since 0001-01-01. */
  const MinTicks: int := 0
  const MaxTicks: int := 3155378975999999999

  /** A DateTime as its tick count; the order on DateTime is the order on ticks. */
  type DateTime = t: int | MinTicks <= t <= MaxTicks

  const MinValue: DateTime := MinTicks

  /** DateTime.ToUniversalTime on an unspecified-kind value: it is read as local time,
      the local offset (in ticks, positive east of UTC) is subtracted, and a result
      outside the representable range is clamped to MinValue or MaxValue. */
  function ToUniversalTime(t: DateTime, localOffset: int): (u: DateTime)
    ensures MinTicks < t - localOffset < MaxTicks ==> u == t - localOffset
    ensures t - localOffset <= MinTicks ==> u == MinValue
    ensures t - localOffset >= MaxTicks ==> u == MaxTicks
  {
    var ticks := t - localOffset;
    if ticks < MinTicks then MinTicks
    else if ticks > MaxTicks then MaxTicks
    else ticks
  }

  /** `sub` occurs in `s` starting at index `i`. */
  predicate OccursAt(s: string, sub: string, i: int)
  {
    0 <= i <= |s| - |sub| && s[i..i + |sub|] == sub
  }

  /** `sub` occurs in `s` as a contiguous substring (ordinal String.Contains). The empty
      string occurs everywhere, nothing longer than `s` occurs in it, and every string
      contains itself. */
  predicate Contains(s: string, sub: string)
    ensures sub == [] ==> Contains(s, sub)
    ensures Contains(s, sub) ==> |sub| <= |s|
    ensures sub == s ==> Contains(s, sub)
  {
    assert OccursAt(s, [], 0) && (sub == s ==> OccursAt(s, sub, 0));
    exists i :: 0 <= i <= |s| - |sub| && OccursAt(s, sub, i)
  }

  /** `s` ends with `suffix` (ordinal String.EndsWith). */
  predicate EndsWith(s: string, suffix: string)
  {
    |suffix| <= |s| && s[|s| - |suffix|..] == suffix
  }

  /** `s` starts with `prefix` (ordinal String.StartsWith). */
  predicate StartsWith(s: string, prefix: string)
  {
    |prefix| <= |s| && s[..|prefix|] == prefix
  }

  /** Whatever surrounds it, a string contains itself. */
  lemma ContainsMiddle(a: string, b: string, c: string)
    ensures Contains(a + b + c, b)
  {
    var s := a + b + c;
    assert OccursAt(s, b, |a|);
  }

  /** An absent value: the source's null. */
  datatype Option<+T> = None | Some(value: T)

  /** What the core throws. */
  datatype Exception =
    | ApplicationException(message: string)
    /** Raised by EF Core when a commit violates the primary key of a table. */
    | DbUpdateException
    /** System.Exception raised while reading the database configuration. */
    | ConfigurationException(message: string)

  /** The outcome of an operation that may throw. */
  datatype Result<+T> = Success(value: T) | Failure(error: Exception)
}
