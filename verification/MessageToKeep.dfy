/** `MessageToKeep`: which messages survive the clear markers of a conversation. */
module MessageToKeep {
  import opened Wrappers
  import opened Orchestration

  /** `List.FindLastIndex(start, count, match)`: looks at `count` elements, from `start` downwards. */
  function FindLastIndex<T>(s: seq<T>, start: int, count: nat, match': T -> bool): (i: int)
    requires start < |s| && count <= start + 1
    ensures i == -1 || (start - count < i <= start && match'(s[i]))
    ensures forall j :: start - count < j <= start && i < j ==> !match'(s[j])
    decreases count
  {
    if count == 0 then -1
    else if match'(s[start]) then start
    else FindLastIndex(s, start - 1, count - 1, match')
  }

  function Count<T>(s: seq<T>, match': T -> bool): nat {
    if s == [] then 0 else Count(s[..|s| - 1], match') + if match'(s[|s| - 1]) then 1 else 0
  }

  /** The position of the last marker, or -1. */
  function LastMarker<T>(s: seq<T>, clear: T -> bool): (i: int)
    ensures -1 <= i < |s|
  {
    if s == [] then -1
    else if clear(s[|s| - 1]) then |s| - 1
    else LastMarker(s[..|s| - 1], clear)
  }

  /** Where the kept suffix starts: at the last marker if a message follows it, else at the second-last, else at 0. */
  function KeepFrom<T>(s: seq<T>, clear: T -> bool): nat {
    var last := LastMarker(s, clear);
    if last == -1 then 0
    else if last < |s| - 1 then last
    else
      var second := LastMarker(s[..last], clear);
      if second == -1 then 0 else second
  }

  function Keep<T>(s: seq<T>, clear: T -> bool): seq<T> {
    s[KeepFrom(s, clear)..]
  }

  lemma {:induction false} LastMarkerFacts<T>(s: seq<T>, clear: T -> bool)
    ensures var i := LastMarker(s, clear);
      && (i >= 0 ==> clear(s[i]))
      && forall j :: i < j < |s| ==> !clear(s[j])
  {
    if s == [] || clear(s[|s| - 1]) {
    } else {
      LastMarkerFacts(s[..|s| - 1], clear);
    }
  }

  /** The last marker is the only position with these two properties. */
  lemma LastMarkerIs<T>(s: seq<T>, clear: T -> bool, i: int)
    requires -1 <= i < |s| && (i >= 0 ==> clear(s[i])) && forall j :: i < j < |s| ==> !clear(s[j])
    ensures LastMarker(s, clear) == i
  {
    LastMarkerFacts(s, clear);
  }

  lemma {:induction false} CountAboveOne<T>(s: seq<T>, clear: T -> bool)
    ensures Count(s, clear) > 0 <==> LastMarker(s, clear) >= 0
    ensures Count(s, clear) > 1 <==> LastMarker(s, clear) > 0 && LastMarker(s[..LastMarker(s, clear)], clear) >= 0
  {
    if s == [] {
    } else {
      var front := s[..|s| - 1];
      CountAboveOne(front, clear);
      var i := LastMarker(s, clear);
      if 0 <= i < |s| - 1 {
        assert front[..i] == s[..i];
      }
    }
  }

  lemma FindsLastMarker<T>(s: seq<T>, clear: T -> bool)
    ensures FindLastIndex(s, |s| - 1, |s|, clear) == LastMarker(s, clear)
  {
    LastMarkerIs(s, clear, FindLastIndex(s, |s| - 1, |s|, clear));
  }

  /** The second search looks at positions 1 to last - 1 only, yet skipping to its result is right. */
  lemma SecondSearch<T>(s: seq<T>, clear: T -> bool)
    requires Count(s, clear) > 1
    ensures var last := LastMarker(s, clear);
      && last > 0
      && var found := FindLastIndex(s, last - 1, last - 1, clear);
         (if found < 0 then 0 else found) == LastMarker(s[..last], clear)
  {
    CountAboveOne(s, clear);
    var last := LastMarker(s, clear);
    LastMarkerFacts(s[..last], clear);
  }

  lemma {:induction false} LastMarkerSuffix<T>(s: seq<T>, clear: T -> bool, k: nat)
    requires k <= LastMarker(s, clear)
    ensures LastMarker(s[k..], clear) == LastMarker(s, clear) - k
  {
    if !clear(s[|s| - 1]) {
      LastMarkerSuffix(s[..|s| - 1], clear, k);
      assert s[k..][..|s| - k - 1] == s[..|s| - 1][k..];
    }
  }

  /** The second phase: cut before the last marker, unless it is the very last message. */
  function CutLast<T>(s: seq<T>, clear: T -> bool): seq<T> {
    var last := LastMarker(s, clear);
    if last != -1 && |s| - last >= 2 then s[last..] else s
  }

  /** With at most one marker the second phase alone keeps what is declared. */
  lemma CutOnce<T>(s: seq<T>, clear: T -> bool)
    requires Count(s, clear) <= 1
    ensures CutLast(s, clear) == Keep(s, clear)
  {
    CountAboveOne(s, clear);
    assert s[0..] == s;
  }

  /** With more, the first phase cuts before the second-last marker, and the second phase finds the last one. */
  lemma CutTwice<T>(s: seq<T>, clear: T -> bool, found: int)
    requires Count(s, clear) > 1 && LastMarker(s, clear) > 0
    requires (if found < 0 then 0 else found) == LastMarker(s[..LastMarker(s, clear)], clear)
    ensures CutLast(if found < 0 then s else s[found..], clear) == Keep(s, clear)
  {
    var last := LastMarker(s, clear);
    var second := LastMarker(s[..last], clear);
    LastMarkerSuffix(s, clear, second);
    assert s[0..] == s;
    assert s[second..][last - second..] == s[last..];
  }

  method RetainBy<T>(messages: seq<T>, clear: T -> bool) returns (kept: seq<T>)
    ensures kept == Keep(messages, clear)
  {
    kept := messages;
    FindsLastMarker(kept, clear);
    var last := FindLastIndex(kept, |kept| - 1, |kept|, clear);
    if Count(kept, clear) > 1 {
      SecondSearch(kept, clear);
      last := FindLastIndex(kept, last - 1, last - 1, clear);
      CutTwice(kept, clear, last);
      kept := if last < 0 then kept else kept[last..];
    } else {
      CutOnce(kept, clear);
    }
    FindsLastMarker(kept, clear);
    last := FindLastIndex(kept, |kept| - 1, |kept|, clear);
    if last != -1 && |kept| - last >= 2 {
      kept := kept[last..];
    }
  }

  /** Position `k` holds the last marker before the final message; or there is none, and `k` is 0. */
  ghost predicate StartsAt(messages: History, k: nat) {
    && k <= |messages|
    && (k > 0 ==> k < |messages| - 1 && Marked(messages[k], "[GROUPCHAT_CLEAR_MESSAGES]"))
    && forall i :: k < i < |messages| - 1 ==> !Marked(messages[i], "[GROUPCHAT_CLEAR_MESSAGES]")
  }

  /** What is kept starts at the last marker before the final message, or at the beginning. */
  lemma KeepFromIs<T>(s: seq<T>, clear: T -> bool)
    ensures var k := KeepFrom(s, clear);
      && k <= |s| && (k > 0 ==> k < |s| - 1 && clear(s[k]))
      && forall i :: k < i < |s| - 1 ==> !clear(s[i])
  {
    LastMarkerFacts(s, clear);
    var last := LastMarker(s, clear);
    if last >= 0 {
      LastMarkerFacts(s[..last], clear);
      assert forall i :: 0 <= i < last ==> s[..last][i] == s[i];
    }
  }

  method Retain(messages: History) returns (kept: History)
    ensures kept == Keep(messages, IsClear)
    ensures exists k: nat :: StartsAt(messages, k) && kept == messages[k..]
  {
    kept := RetainBy(messages, IsClear);
    KeepFromIs(messages, IsClear);
    forall m: Message ensures IsClear(m) <==> Marked(m, "[GROUPCHAT_CLEAR_MESSAGES]") {
      MarkersAre(m);
    }
    assert StartsAt(messages, KeepFrom(messages, IsClear));
  }

  lemma SliceSlice<T>(s: seq<T>, k: nat, i: nat)
    requires k <= i <= |s|
    ensures s[k..][i - k..] == s[i..]
  {
  }

  /** Every marker is at or before the last one. */
  lemma MarkerBefore<T>(s: seq<T>, clear: T -> bool, k: nat)
    requires k < |s| && clear(s[k])
    ensures k <= LastMarker(s, clear)
  {
    LastMarkerFacts(s, clear);
  }

  /** Dropping what precedes a marker that is not the very last message moves the start by as much. */
  lemma KeepFromSuffix<T>(s: seq<T>, clear: T -> bool, k: nat)
    requires k < |s| - 1 && clear(s[k])
    ensures k <= KeepFrom(s, clear) && KeepFrom(s[k..], clear) == KeepFrom(s, clear) - k
  {
    var last := LastMarker(s, clear);
    MarkerBefore(s, clear, k);
    LastMarkerSuffix(s, clear, k);
    if last == |s| - 1 {
      var before := s[..last];
      MarkerBefore(before, clear, k);
      LastMarkerSuffix(before, clear, k);
      assert s[k..][..last - k] == before[k..];
    }
  }

  lemma KeepOfSuffix<T>(s: seq<T>, clear: T -> bool, k: nat)
    requires k < |s| - 1 && clear(s[k])
    ensures Keep(s[k..], clear) == Keep(s, clear)
  {
    KeepFromSuffix(s, clear, k);
    SliceSlice(s, k, KeepFrom(s, clear));
  }

  /** The kept suffix is everything, or starts at a marker that is not the last message. */
  lemma KeepFromMarker<T>(s: seq<T>, clear: T -> bool)
    ensures var k := KeepFrom(s, clear); k > 0 ==> k < |s| - 1 && clear(s[k])
  {
    LastMarkerFacts(s, clear);
    if LastMarker(s, clear) >= 0 {
      LastMarkerFacts(s[..LastMarker(s, clear)], clear);
    }
  }

  /** Keeping twice keeps the same. */
  lemma Idempotent<T>(s: seq<T>, clear: T -> bool)
    ensures Keep(Keep(s, clear), clear) == Keep(s, clear)
  {
    var k := KeepFrom(s, clear);
    KeepFromMarker(s, clear);
    if k > 0 {
      KeepOfSuffix(s, clear, k);
    } else {
      assert s[0..] == s;
    }
  }

  /** A conversation can be trimmed as it grows: trimming first does not change what is kept later. */
  lemma Incremental<T>(s: seq<T>, m: T, clear: T -> bool)
    ensures Keep(s + [m], clear) == Keep(Keep(s, clear) + [m], clear)
  {
    var k := KeepFrom(s, clear);
    KeepFromMarker(s, clear);
    if k > 0 {
      assert (s + [m])[k..] == s[k..] + [m];
      KeepOfSuffix(s + [m], clear, k);
    } else {
      assert s[0..] == s;
    }
  }
}
