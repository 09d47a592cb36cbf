/**
 * Looking up a live JVM thread by name.
 *
 * The JVM's introspection is abstracted: a thread group is a value that
 * carries its parent (None at the root), what activeCount() reports for it and
 * the threads enumerate() would copy out of it, in enumeration order. Names
 * are compared ignoring case with an ASCII case fold.
 */
module ThreadUtils {
  import opened Wrappers

  datatype JavaThread = JavaThread(threadId: nat, name: string)

  /**
   * A thread group as seen at the moment of the lookup. `activeCount` is the
   * JVM's estimate; `threads` are the live threads of the group and its
   * subgroups that enumerate() would copy, and the two may disagree when
   * threads start or end in between.
   */
  datatype ThreadGroup = ThreadGroup(parent: Option<ThreadGroup>, activeCount: nat, threads: seq<JavaThread>)

  datatype JavaException = IllegalArgumentException(message: string) | NullPointerException

  const ILLEGAL_THREAD_NAME: string := "Illegal threadName"
  const INVALID_CONSUMER: string := "Invalid consumer"

  // ---------------------------------------------------------------
  // Names
  // ---------------------------------------------------------------

  function ToLowerAscii(c: char): char {
    if 'A' <= c <= 'Z' then (c as int + 32) as char else c
  }

  /** String.equalsIgnoreCase, over ASCII. */
  predicate EqualsIgnoreCase(a: string, b: string) {
    |a| == |b| && forall i :: 0 <= i < |a| ==> ToLowerAscii(a[i]) == ToLowerAscii(b[i])
  }

  /** Comparing names ignoring case is an equivalence. */
  lemma EqualsIgnoreCaseIsEquivalence(a: string, b: string, c: string)
    ensures EqualsIgnoreCase(a, a)
    ensures EqualsIgnoreCase(a, b) ==> EqualsIgnoreCase(b, a)
    ensures EqualsIgnoreCase(a, b) && EqualsIgnoreCase(b, c) ==> EqualsIgnoreCase(a, c)
  {
  }

  /** The lookup rejects a null or empty name. */
  predicate ValidName(threadName: Option<string>) {
    threadName.Some? && |threadName.value| > 0
  }

  // ---------------------------------------------------------------
  // The thread-group chain and the snapshot
  // ---------------------------------------------------------------

  /** a is g or one of g's ancestors. */
  predicate IsAncestorOrSelf(a: ThreadGroup, g: ThreadGroup)
    decreases g
  {
    a == g || (g.parent.Some? && IsAncestorOrSelf(a, g.parent.value))
  }

  /** The group reached by following parents from g until there is none. */
  function Root(g: ThreadGroup): (r: ThreadGroup)
    ensures r.parent.None?
    ensures IsAncestorOrSelf(r, g)
    decreases g
  {
    match g.parent
    case None => g
    case Some(p) => Root(p)
  }

  /**
   * The array of length activeCount after enumerate(): the first entries hold
   * the enumerated threads, the rest stay null.
   */
  function Enumerated(g: ThreadGroup): (slots: seq<Option<JavaThread>>)
    ensures |slots| == g.activeCount
  {
    seq(g.activeCount, i requires 0 <= i < g.activeCount => if i < |g.threads| then Some(g.threads[i]) else None)
  }

  /** The threads enumerate() copies into an array of length activeCount. */
  function EnumeratedThreads(g: ThreadGroup): (ts: seq<JavaThread>)
    ensures |ts| <= g.activeCount && |ts| <= |g.threads|
  {
    if g.activeCount < |g.threads| then g.threads[..g.activeCount] else g.threads
  }

  // ---------------------------------------------------------------
  // The search, as written and as intended
  // ---------------------------------------------------------------

  /** The for-each loop as written: it stops at a match, and at a null entry throws. */
  function ScanAsWritten(slots: seq<Option<JavaThread>>, threadName: string): Result<Option<JavaThread>, JavaException>
    decreases |slots|
  {
    if slots == [] then Success(None)
    else match slots[0]
      case None => Failure(NullPointerException)
      case Some(t) => if EqualsIgnoreCase(t.name, threadName) then Success(Some(t)) else ScanAsWritten(slots[1..], threadName)
  }

  /** getNamedThread as written. */
  function NamedThreadAsWritten(threadName: Option<string>, current: ThreadGroup): Result<Option<JavaThread>, JavaException> {
    if !ValidName(threadName) then Failure(IllegalArgumentException(ILLEGAL_THREAD_NAME))
    else ScanAsWritten(Enumerated(Root(current)), threadName.value)
  }

  /** The first thread of ts whose name matches, ignoring case. */
  function FindFirst(ts: seq<JavaThread>, threadName: string): Option<JavaThread>
    decreases |ts|
  {
    if ts == [] then None
    else if EqualsIgnoreCase(ts[0].name, threadName) then Some(ts[0])
    else FindFirst(ts[1..], threadName)
  }

  /** i is the index of the first thread of ts whose name matches. */
  predicate IsFirstMatch(ts: seq<JavaThread>, threadName: string, i: int) {
    && 0 <= i < |ts|
    && EqualsIgnoreCase(ts[i].name, threadName)
    && forall j :: 0 <= j < i ==> !EqualsIgnoreCase(ts[j].name, threadName)
  }

  /** FindFirst returns the first match in enumeration order, and None exactly when nothing matches. */
  lemma {:induction false} FindFirstIsFirstMatch(ts: seq<JavaThread>, threadName: string)
    ensures FindFirst(ts, threadName).Some? ==>
      exists i :: IsFirstMatch(ts, threadName, i) && FindFirst(ts, threadName) == Some(ts[i])
    ensures FindFirst(ts, threadName).None? <==> forall t :: t in ts ==> !EqualsIgnoreCase(t.name, threadName)
  {
    if ts != [] {
      FindFirstIsFirstMatch(ts[1..], threadName);
      if EqualsIgnoreCase(ts[0].name, threadName) {
        assert IsFirstMatch(ts, threadName, 0);
      } else if FindFirst(ts[1..], threadName).Some? {
        var i :| IsFirstMatch(ts[1..], threadName, i) && FindFirst(ts[1..], threadName) == Some(ts[1..][i]);
        assert IsFirstMatch(ts, threadName, i + 1);
      }
      assert forall t :: t in ts ==> t == ts[0] || t in ts[1..];
    }
  }

  /** The lookup as intended: the first match among the threads enumerate() copied. */
  function NamedThread(threadName: Option<string>, current: ThreadGroup): Result<Option<JavaThread>, JavaException> {
    if !ValidName(threadName) then Failure(IllegalArgumentException(ILLEGAL_THREAD_NAME))
    else Success(FindFirst(EnumeratedThreads(Root(current)), threadName.value))
  }

  /** When every array slot was filled, the loop as written finds what FindFirst finds. */
  lemma {:induction false} ScanFilledSlots(slots: seq<Option<JavaThread>>, ts: seq<JavaThread>, threadName: string)
    requires |slots| == |ts| && forall i :: 0 <= i < |ts| ==> slots[i] == Some(ts[i])
    ensures ScanAsWritten(slots, threadName) == Success(FindFirst(ts, threadName))
  {
    if ts != [] {
      ScanFilledSlots(slots[1..], ts[1..], threadName);
    }
  }

  /**
   * As long as no thread ended between activeCount() and enumerate(), the
   * code as written agrees with the intended lookup.
   */
  lemma AsWrittenAgreesWithoutShrink(threadName: Option<string>, current: ThreadGroup)
    requires Root(current).activeCount <= |Root(current).threads|
    ensures NamedThreadAsWritten(threadName, current) == NamedThread(threadName, current)
  {
    var root := Root(current);
    ScanFilledSlots(Enumerated(root), EnumeratedThreads(root), if threadName.Some? then threadName.value else "");
  }

  /**
   * The discrepancy: a root group reporting two active threads of which only
   * one is still there to enumerate leaves a null in the array, and a lookup
   * for any other name throws NullPointerException instead of returning null.
   */
  lemma ShrunkSnapshotThrows()
    ensures var current := ThreadGroup(None, 2, [JavaThread(1, "main")]);
      NamedThreadAsWritten(Some("theThread"), current) == Failure(NullPointerException)
      && NamedThread(Some("theThread"), current) == Success(None)
  {
    var current := ThreadGroup(None, 2, [JavaThread(1, "main")]);
    var slots := Enumerated(current);
    assert slots == [Some(JavaThread(1, "main")), None];
    assert !EqualsIgnoreCase("main", "theThread");
    assert slots[1..] == [None];
    assert ScanAsWritten(slots[1..], "theThread") == Failure(NullPointerException);
  }

  // ---------------------------------------------------------------
  // The two operations
  // ---------------------------------------------------------------

  /** getNamedThread exactly as written, including the null entries of the array. */
  method GetNamedThreadAsWritten(threadName: Option<string>, current: ThreadGroup) returns (r: Result<Option<JavaThread>, JavaException>)
    ensures r == NamedThreadAsWritten(threadName, current)
  {
    if threadName.None? || |threadName.value| == 0 {
      return Failure(IllegalArgumentException(ILLEGAL_THREAD_NAME));
    }
    var name := threadName.value;

    var threadGroup := current;
    while threadGroup.parent.Some?
      invariant Root(threadGroup) == Root(current)
      decreases threadGroup
    {
      threadGroup := threadGroup.parent.value;
    }

    var threads := new Option<JavaThread>[threadGroup.activeCount](
      i requires 0 <= i < threadGroup.activeCount => if i < |threadGroup.threads| then Some(threadGroup.threads[i]) else None);
    assert threads[..] == Enumerated(threadGroup);

    var i := 0;
    while i < threads.Length
      invariant 0 <= i <= threads.Length
      invariant ScanAsWritten(threads[..], name) == ScanAsWritten(threads[i..], name)
    {
      assert threads[i..][1..] == threads[i + 1..];
      match threads[i]
      case None =>
        return Failure(NullPointerException);
      case Some(thread) =>
        if EqualsIgnoreCase(thread.name, name) {
          return Success(Some(thread));
        }
      i := i + 1;
    }
    return Success(None);
  }

  /**
   * getNamedThread, searching only the entries enumerate() filled: rejects a
   * null or empty name, then returns the first enumerated thread of the root
   * group whose name matches ignoring case, or None.
   */
  method GetNamedThread(threadName: Option<string>, current: ThreadGroup) returns (r: Result<Option<JavaThread>, JavaException>)
    ensures !ValidName(threadName) <==> r == Failure(IllegalArgumentException(ILLEGAL_THREAD_NAME))
    ensures ValidName(threadName) ==> r == Success(FindFirst(EnumeratedThreads(Root(current)), threadName.value))
  {
    if threadName.None? || |threadName.value| == 0 {
      return Failure(IllegalArgumentException(ILLEGAL_THREAD_NAME));
    }
    var name := threadName.value;

    var threadGroup := current;
    while threadGroup.parent.Some?
      invariant Root(threadGroup) == Root(current)
      decreases threadGroup
    {
      threadGroup := threadGroup.parent.value;
    }

    var threads := new Option<JavaThread>[threadGroup.activeCount](
      i requires 0 <= i < threadGroup.activeCount => if i < |threadGroup.threads| then Some(threadGroup.threads[i]) else None);
    var count := if threadGroup.activeCount < |threadGroup.threads| then threadGroup.activeCount else |threadGroup.threads|;
    ghost var ts := EnumeratedThreads(threadGroup);

    var i := 0;
    while i < count
      invariant 0 <= i <= count == |ts|
      invariant FindFirst(ts, name) == FindFirst(ts[i..], name)
    {
      assert threads[i] == Some(ts[i]);
      assert ts[i..][1..] == ts[i + 1..];
      var thread := threads[i].value;
      if EqualsIgnoreCase(thread.name, name) {
        return Success(Some(thread));
      }
      i := i + 1;
    }
    return Success(None);
  }

  /**
   * consumeNamedThread: rejects a null consumer before anything else, then
   * looks the thread up and hands a found thread to the consumer. `accepted`
   * lists the threads the consumer received, in order.
   */
  method ConsumeNamedThread<C>(threadName: Option<string>, consumer: Option<C>, current: ThreadGroup)
    returns (r: Result<(), JavaException>, accepted: seq<JavaThread>)
    ensures consumer.None? ==> r == Failure(IllegalArgumentException(INVALID_CONSUMER)) && accepted == []
    ensures consumer.Some? && !ValidName(threadName) ==> r == Failure(IllegalArgumentException(ILLEGAL_THREAD_NAME)) && accepted == []
    ensures consumer.Some? && ValidName(threadName) ==> r == Success(())
    ensures consumer.Some? && ValidName(threadName) ==>
      match FindFirst(EnumeratedThreads(Root(current)), threadName.value)
      case Some(t) => accepted == [t]
      case None => accepted == []
  {
    accepted := [];
    if consumer.None? {
      return Failure(IllegalArgumentException(INVALID_CONSUMER)), accepted;
    }
    var thread := GetNamedThread(threadName, current);
    if thread.Failure? {
      return Failure(thread.error), accepted;
    }
    if thread.value.Some? {
      accepted := accepted + [thread.value.value];
    }
    return Success(()), accepted;
  }
}
