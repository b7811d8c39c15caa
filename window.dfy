/** The context window: `trimMessages`, which keeps every system message and
    the most recent non-system messages, system messages first. */
module Window {

  import opened Chat

  /** The system messages of `ms`, in order (`filter(m => m.role === "system")`). */
  function SystemMessages(ms: seq<Message>): seq<Message> {
    if ms == [] then []
    else if IsSystem(ms[0]) then [ms[0]] + SystemMessages(ms[1..])
    else SystemMessages(ms[1..])
  }

  /** The non-system messages of `ms`, in order. */
  function OtherMessages(ms: seq<Message>): seq<Message> {
    if ms == [] then []
    else if IsSystem(ms[0]) then OtherMessages(ms[1..])
    else [ms[0]] + OtherMessages(ms[1..])
  }

  /** JavaScript's `s.slice(start)`: a negative start counts from the end and
      is clamped at 0, a non-negative one is clamped at the length. */
  function SliceFrom<T>(s: seq<T>, start: int): seq<T> {
    if start < 0 then s[if |s| + start < 0 then 0 else |s| + start..]
    else s[if start < |s| then start else |s|..]
  }

  const DefaultMaxMessages := 10

  /** `trimMessages(messages, maxMessages)`. */
  function TrimMessages(ms: seq<Message>, maxMessages: int): seq<Message> {
    SystemMessages(ms) + SliceFrom(OtherMessages(ms), -maxMessages)
  }

  function Min(a: int, b: int): int {
    if a < b then a else b
  }

  /** No system message comes after a non-system one. */
  predicate SystemFirst(ms: seq<Message>) {
    forall i, j :: 0 <= i < j < |ms| && IsSystem(ms[j]) ==> IsSystem(ms[i])
  }

  predicate AllSystem(ms: seq<Message>) {
    forall i :: 0 <= i < |ms| ==> IsSystem(ms[i])
  }

  predicate NoSystem(ms: seq<Message>) {
    forall i :: 0 <= i < |ms| ==> !IsSystem(ms[i])
  }

  lemma {:induction false} FiltersClassify(ms: seq<Message>)
    ensures AllSystem(SystemMessages(ms)) && NoSystem(OtherMessages(ms))
    ensures |SystemMessages(ms)| + |OtherMessages(ms)| == |ms|
    ensures multiset(SystemMessages(ms)) + multiset(OtherMessages(ms)) == multiset(ms)
  {
    if ms != [] {
      var tail := ms[1..];
      FiltersClassify(tail);
      assert ms == [ms[0]] + tail;
      assert multiset(ms) == multiset{ms[0]} + multiset(tail);
      if IsSystem(ms[0]) {
        assert SystemMessages(ms) == [ms[0]] + SystemMessages(tail);
        assert OtherMessages(ms) == OtherMessages(tail);
      } else {
        assert SystemMessages(ms) == SystemMessages(tail);
        assert OtherMessages(ms) == [ms[0]] + OtherMessages(tail);
      }
    }
  }

  lemma {:induction false} FiltersOfAllSystem(ms: seq<Message>)
    requires AllSystem(ms)
    ensures SystemMessages(ms) == ms && OtherMessages(ms) == []
  {
    if ms != [] {
      FiltersOfAllSystem(ms[1..]);
    }
  }

  lemma {:induction false} FiltersOfNoSystem(ms: seq<Message>)
    requires NoSystem(ms)
    ensures SystemMessages(ms) == [] && OtherMessages(ms) == ms
  {
    if ms != [] {
      FiltersOfNoSystem(ms[1..]);
    }
  }

  lemma {:induction false} FiltersOfConcat(a: seq<Message>, b: seq<Message>)
    ensures SystemMessages(a + b) == SystemMessages(a) + SystemMessages(b)
    ensures OtherMessages(a + b) == OtherMessages(a) + OtherMessages(b)
  {
    if a != [] {
      assert (a + b)[1..] == a[1..] + b;
      FiltersOfConcat(a[1..], b);
    } else {
      assert a + b == b;
    }
  }

  /** A system-first list is its system messages followed by the others. */
  lemma {:induction false} SystemFirstSplits(ms: seq<Message>)
    requires SystemFirst(ms)
    ensures ms == SystemMessages(ms) + OtherMessages(ms)
  {
    if ms != [] {
      if IsSystem(ms[0]) {
        SystemFirstSplits(ms[1..]);
      } else {
        assert NoSystem(ms);
        FiltersOfNoSystem(ms);
      }
    }
  }

  lemma ConcatSystemFirst(a: seq<Message>, b: seq<Message>)
    requires AllSystem(a) && NoSystem(b)
    ensures SystemFirst(a + b)
  {
  }

  lemma {:induction false} SliceFromFacts<T>(s: seq<T>, start: int)
    ensures multiset(SliceFrom(s, start)) <= multiset(s)
    ensures start < 0 ==> SliceFrom(s, start) == s[|s| - Min(-start, |s|)..]
    ensures start == 0 ==> SliceFrom(s, start) == s
    ensures start > 0 ==> SliceFrom(s, start) == s[Min(start, |s|)..]
  {
    var k := |s| - |SliceFrom(s, start)|;
    assert s == s[..k] + SliceFrom(s, start);
    assert multiset(s) == multiset(s[..k]) + multiset(SliceFrom(s, start));
  }

  /** Every system message is kept, in its original order, and all of them
      come before every non-system message; nothing is invented. */
  lemma TrimKeepsSystemMessages(ms: seq<Message>, maxMessages: int)
    ensures SystemMessages(TrimMessages(ms, maxMessages)) == SystemMessages(ms)
    ensures SystemFirst(TrimMessages(ms, maxMessages))
    ensures multiset(TrimMessages(ms, maxMessages)) <= multiset(ms)
  {
    var sys, rest := SystemMessages(ms), SliceFrom(OtherMessages(ms), -maxMessages);
    FiltersClassify(ms);
    SliceFromFacts(OtherMessages(ms), -maxMessages);
    assert NoSystem(rest) by {
      forall i | 0 <= i < |rest|
        ensures !IsSystem(rest[i])
      {
        assert rest[i] in multiset(OtherMessages(ms));
      }
    }
    FiltersOfConcat(sys, rest);
    FiltersOfAllSystem(sys);
    FiltersOfNoSystem(rest);
    ConcatSystemFirst(sys, rest);
  }

  /** The non-system messages of a trimmed list are the slice that was kept. */
  lemma TrimOthers(ms: seq<Message>, maxMessages: int)
    ensures OtherMessages(TrimMessages(ms, maxMessages)) == SliceFrom(OtherMessages(ms), -maxMessages)
  {
    var others := OtherMessages(ms);
    var sys, rest := SystemMessages(ms), SliceFrom(others, -maxMessages);
    FiltersClassify(ms);
    assert NoSystem(rest) by {
      var k := |others| - |rest|;
      forall i | 0 <= i < |rest|
        ensures !IsSystem(rest[i])
      {
        assert rest[i] == others[k + i];
      }
    }
    FiltersOfConcat(sys, rest);
    FiltersOfAllSystem(sys);
    FiltersOfNoSystem(rest);
  }

  /** With a positive bound, exactly the last min(n, maxMessages) of the n
      non-system messages are kept, in their original order. */
  lemma TrimKeepsRecent(ms: seq<Message>, maxMessages: int)
    requires maxMessages > 0
    ensures var others := OtherMessages(ms);
      && OtherMessages(TrimMessages(ms, maxMessages)) == others[|others| - Min(maxMessages, |others|)..]
      && |TrimMessages(ms, maxMessages)| == |SystemMessages(ms)| + Min(maxMessages, |others|)
  {
    var others := OtherMessages(ms);
    TrimOthers(ms, maxMessages);
    SliceFromFacts(others, -maxMessages);
    assert OtherMessages(TrimMessages(ms, maxMessages)) == SliceFrom(others, -maxMessages);
    assert |TrimMessages(ms, maxMessages)| == |SystemMessages(ms)| + |SliceFrom(others, -maxMessages)|;
  }

  /** `slice(-0)` is `slice(0)`: a bound of 0 keeps every message, system messages moved first. */
  lemma TrimZeroKeepsAll(ms: seq<Message>)
    ensures TrimMessages(ms, 0) == SystemMessages(ms) + OtherMessages(ms)
    ensures |TrimMessages(ms, 0)| == |ms|
  {
    SliceFromFacts(OtherMessages(ms), 0);
    FiltersClassify(ms);
  }

  /** A negative bound `-k` drops the oldest k non-system messages instead. */
  lemma TrimNegativeDropsOldest(ms: seq<Message>, maxMessages: int)
    requires maxMessages < 0
    ensures var others := OtherMessages(ms);
      TrimMessages(ms, maxMessages) == SystemMessages(ms) + others[Min(-maxMessages, |others|)..]
  {
    SliceFromFacts(OtherMessages(ms), -maxMessages);
  }

  /** A list is left unchanged by trimming exactly when its system messages
      already come first and it holds no more than the bound of others. */
  lemma TrimFixpoint(ms: seq<Message>, maxMessages: int)
    requires maxMessages > 0
    ensures TrimMessages(ms, maxMessages) == ms <==> SystemFirst(ms) && |OtherMessages(ms)| <= maxMessages
  {
    var others := OtherMessages(ms);
    TrimKeepsSystemMessages(ms, maxMessages);
    TrimKeepsRecent(ms, maxMessages);
    SliceFromFacts(others, -maxMessages);
    if SystemFirst(ms) && |others| <= maxMessages {
      SystemFirstSplits(ms);
      assert SliceFrom(others, -maxMessages) == others;
    }
  }

  /** Trimming twice is trimming once. */
  lemma TrimIdempotent(ms: seq<Message>, maxMessages: int)
    requires maxMessages >= 0
    ensures TrimMessages(TrimMessages(ms, maxMessages), maxMessages) == TrimMessages(ms, maxMessages)
  {
    var t := TrimMessages(ms, maxMessages);
    TrimKeepsSystemMessages(ms, maxMessages);
    if maxMessages == 0 {
      TrimZeroKeepsAll(t);
      SystemFirstSplits(t);
    } else {
      TrimKeepsRecent(ms, maxMessages);
      TrimFixpoint(t, maxMessages);
    }
  }

  /** Without system messages, trimming keeps the last min(|ms|, maxMessages) messages. */
  lemma TrimNoSystem(ms: seq<Message>, maxMessages: int)
    requires NoSystem(ms) && maxMessages > 0
    ensures TrimMessages(ms, maxMessages) == ms[|ms| - Min(maxMessages, |ms|)..]
  {
    FiltersOfNoSystem(ms);
    SliceFromFacts(ms, -maxMessages);
  }
}
