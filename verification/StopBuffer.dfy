/** Stop strings in a stream of text chunks (src/light_vllm/serving/openai.py:185-239). */
module StopBuffer {
  import opened Collections

  type Text = string

  predicate Occurs(text: Text, stop: Text, i: nat) {
    i + |stop| <= |text| && text[i..i + |stop|] == stop
  }

  /** Stop strings are not empty. */
  predicate StopsOk(stops: seq<Text>) {
    forall k | 0 <= k < |stops| :: stops[k] != ""
  }

  predicate StopAt(text: Text, stops: seq<Text>, i: nat) {
    exists k | 0 <= k < |stops| :: Occurs(text, stops[k], i)
  }

  /** The first place from `start` on where some stop string occurs. */
  function FirstFrom(text: Text, stops: seq<Text>, start: nat): (at: Option<nat>)
    requires start <= |text|
    ensures at.Some? ==> start <= at.value <= |text| && StopAt(text, stops, at.value)
    ensures at.Some? ==> forall i | start <= i < at.value :: !StopAt(text, stops, i)
    ensures at.None? ==> forall i | start <= i <= |text| :: !StopAt(text, stops, i)
    decreases |text| - start
  {
    if StopAt(text, stops, start) then Some(start)
    else if start == |text| then None
    else FirstFrom(text, stops, start + 1)
  }

  function FirstStop(text: Text, stops: seq<Text>): (at: Option<nat>)
    ensures at.Some? ==> at.value <= |text| && StopAt(text, stops, at.value) && forall i | 0 <= i < at.value ::
            !StopAt(text, stops, i)
    ensures at.None? ==> forall i | 0 <= i <= |text| :: !StopAt(text, stops, i)
  {
    FirstFrom(text, stops, 0)
  }

  /** str.find. */
  method Find(text: Text, stop: Text) returns (at: Option<nat>)
    ensures at.Some? ==> Occurs(text, stop, at.value) && forall i | 0 <= i < at.value :: !Occurs(text, stop, i)
    ensures at.None? ==> forall i: nat :: !Occurs(text, stop, i)
  {
    var i := 0;
    while i + |stop| <= |text|
      invariant forall j: nat | j < i :: !Occurs(text, stop, j)
    {
      if text[i..i + |stop|] == stop { return Some(i); }
      i := i + 1;
    }
    at := None;
  }

  function Longest(stops: seq<Text>): (n: nat)
    ensures forall k | 0 <= k < |stops| :: |stops[k]| <= n
    ensures stops == [] ==> n == 0
  {
    if stops == [] then 0 else
      var last := |stops| - 1;
      Max(Longest(stops[..last]), |stops[last]|)
  }

  function Holdback(stops: seq<Text>): nat {
    Max(0, Longest(stops) - 1)
  }

  // ---- the buffer --------------------------------------------------------------------------

  /** What one push does to the text held back, and what it lets out. */
  datatype Pushed = Pushed(pending: Text, visible: Text, stopped: bool)

  function AfterPush(stops: seq<Text>, pending: Text, text: Text, final: bool): Pushed {
    var all := pending + text;
    var at := FirstStop(all, stops);
    if at.Some? then Pushed("", all[..at.value], true)
    else if final then Pushed("", all, false)
    else
      var n := Max(0, |all| - Holdback(stops));
      Pushed(all[n..], all[..n], false)
  }

  class StopBuffer {
    const stops: seq<Text>
    const holdback: nat
    var pending: Text

    ghost predicate Valid()
      reads this
    {
      StopsOk(stops) && holdback == Holdback(stops)
    }

    constructor (stops: seq<Text>)
      requires StopsOk(stops)
      ensures Valid() && this.stops == stops && pending == ""
    {
      this.stops := stops;
      pending := "";
      var longest := 0;
      for k := 0 to |stops|
        invariant longest == Longest(stops[..k])
      {
        assert stops[..k + 1][..k] == stops[..k];
        longest := Max(longest, |stops[k]|);
      }
      assert stops[..|stops|] == stops;
      holdback := Max(0, longest - 1);
    }

    method Push(text: Text, final: bool) returns (visible: Text, stopped: bool)
      requires Valid()
      modifies this
      ensures Valid() && Pushed(pending, visible, stopped) == AfterPush(stops, old(pending), text, final)
    {
      pending := pending + text;
      var first: Option<nat> := None;
      for k := 0 to |stops|
        invariant pending == old(pending) + text
        invariant first.Some? ==> StopAt(pending, stops, first.value)
        invariant forall j, i: nat | 0 <= j < k && Occurs(pending, stops[j], i) :: first.Some? && first.value <= i
      {
        var at := Find(pending, stops[k]);
        if at.Some? && (first.None? || at.value < first.value) {
          first := at;
        }
      }
      FirstIsSmallest(pending, stops, first);
      if first.Some? {
        visible := pending[..first.value];
        pending := "";
        return visible, true;
      }
      if final {
        visible, pending := pending, "";
        return visible, false;
      }
      var visibleLength := Max(0, |pending| - holdback);
      visible := pending[..visibleLength];
      pending := pending[visibleLength..];
      stopped := false;
    }
  }

  lemma FirstIsSmallest(text: Text, stops: seq<Text>, first: Option<nat>)
    requires first.Some? ==> StopAt(text, stops, first.value)
    requires forall j, i: nat | 0 <= j < |stops| && Occurs(text, stops[j], i) :: first.Some? && first.value <= i
    ensures FirstStop(text, stops) == first
  {
  }

  // ---- a whole stream ----------------------------------------------------------------------

  /** The text let out for some chunks and a final one, and whether a stop string ended it. */
  function Feed(stops: seq<Text>, pending: Text, chunks: seq<Text>, last: Text): (Text, bool)
    decreases |chunks|
  {
    if chunks == [] then
      var p := AfterPush(stops, pending, last, true);
      (p.visible, p.stopped)
    else
      var p := AfterPush(stops, pending, chunks[0], false);
      if p.stopped then (p.visible, true) else
        var (rest, stopped) := Feed(stops, p.pending, chunks[1..], last);
        (p.visible + rest, stopped)
  }

  /** Offline search: the text up to its first stop string, or all of it. */
  function Offline(stops: seq<Text>, text: Text): (Text, bool) {
    var at := FirstStop(text, stops);
    if at.Some? then (text[..at.value], true) else (text, false)
  }

  /** The text consumed when the stream ends. */
  function Consumed(stops: seq<Text>, seen: Text, chunks: seq<Text>, last: Text): Text
    decreases |chunks|
  {
    if chunks == [] then seen + last
    else if FirstStop(seen + chunks[0], stops).Some? then seen + chunks[0]
    else Consumed(stops, seen + chunks[0], chunks[1..], last)
  }

  /** What is held back is enough: a stop string completed later starts in it. */
  lemma HeldBack(stops: seq<Text>, seen: Text, text: Text, k: nat)
    requires FirstStop(seen, stops).None? && k == Min(|seen|, Holdback(stops)) && k <= |seen|
    ensures var (whole, tail) := (FirstStop(seen + text, stops), FirstStop(seen[|seen| - k..] + text, stops));
            && (whole.Some? <==> tail.Some?)
            && (whole.Some? ==> whole.value == |seen| - k + tail.value)
  {
    hide FirstStop, Holdback, StopAt;
    var from := |seen| - k;
    var (all, tail) := (seen + text, seen[from..] + text);
    assert all[from..] == tail;
    forall i: nat | i < from && i <= |all| ensures !StopAt(all, stops, i) { EarlierIsOld(stops, seen, text, i); }
    forall i: nat | i <= |tail| ensures StopAt(tail, stops, i) <==> StopAt(all, stops, from + i) {
      ShiftedStop(all, stops, from, i);
    }
    FirstShifts(stops, all, tail, from);
  }

  /** If the tail holds all stop strings, its first one is the first one. */
  lemma FirstShifts(stops: seq<Text>, all: Text, tail: Text, from: nat)
    requires |all| == from + |tail|
    requires forall i: nat | i < from && i <= |all| :: !StopAt(all, stops, i)
    requires forall i: nat | i <= |tail| :: StopAt(tail, stops, i) <==> StopAt(all, stops, from + i)
    ensures var (whole, rest) := (FirstStop(all, stops), FirstStop(tail, stops));
            && (whole.Some? <==> rest.Some?) && (whole.Some? ==> whole.value == from + rest.value)
  {
    hide StopAt;
    var (whole, rest) := (FirstStop(all, stops), FirstStop(tail, stops));
    if whole.Some? {
      var i := whole.value - from;
      assert StopAt(tail, stops, i) <==> StopAt(all, stops, from + i);
    }
    if rest.Some? { assert StopAt(all, stops, from + rest.value); }
  }

  lemma SplitText(seen: Text, k: nat, text: Text)
    requires k <= |seen|
    ensures seen + text == seen[..|seen| - k] + (seen[|seen| - k..] + text)
  {
    assert seen == seen[..|seen| - k] + seen[|seen| - k..];
  }

  /** Text in front of a tail, cut inside the tail. */
  lemma OutAndHeld(stops: seq<Text>, out: Text, tail: Text, all: Text)
    requires all == out + tail
    ensures forall at | 0 <= at <= |tail| :: out + tail[..at] == all[..|out| + at] && tail[at..] == all[|out| + at..]
  {
  }

  lemma ShiftedStop(all: Text, stops: seq<Text>, from: nat, i: nat)
    requires from + i <= |all|
    ensures StopAt(all[from..], stops, i) <==> StopAt(all, stops, from + i)
  {
    forall k | 0 <= k < |stops| ensures Occurs(all[from..], stops[k], i) <==> Occurs(all, stops[k], from + i) {
      if from + i + |stops[k]| <= |all| {
        assert all[from..][i..i + |stops[k]|] == all[from + i..from + i + |stops[k]|];
      }
    }
  }

  lemma OccursInPrefix(seen: Text, more: Text, stop: Text, i: nat)
    ensures i + |stop| <= |seen| ==> (Occurs(seen + more, stop, i) <==> Occurs(seen, stop, i))
  {
    if i + |stop| <= |seen| {
      assert (seen + more)[i..i + |stop|] == seen[i..i + |stop|];
    }
  }

  /** A stop string that starts in the text already let out would have been found before. */
  lemma EarlierIsOld(stops: seq<Text>, seen: Text, text: Text, i: nat)
    requires FirstStop(seen, stops).None? && i + Holdback(stops) < |seen|
    ensures !StopAt(seen + text, stops, i)
  {
    forall k | 0 <= k < |stops| ensures Occurs(seen + text, stops[k], i) <==> Occurs(seen, stops[k], i) {
      assert |stops[k]| <= Longest(stops);
      OccursInPrefix(seen, text, stops[k], i);
    }
    assert !StopAt(seen, stops, i);
  }

  /** One push against the whole text: what is out and what is pending make up the text, or
      the text up to its first stop string is out. */
  lemma PushSearches(stops: seq<Text>, seen: Text, k: nat, text: Text, final: bool)
    requires FirstStop(seen, stops).None? && k == Min(|seen|, Holdback(stops)) && k <= |seen|
    ensures var p := AfterPush(stops, seen[|seen| - k..], text, final);
            var (all, out) := (seen + text, seen[..|seen| - k] + p.visible);
            && (p.stopped <==> FirstStop(all, stops).Some?)
            && (p.stopped ==> out == all[..FirstStop(all, stops).value])
            && (!p.stopped && final ==> out == all)
            && (!p.stopped && !final ==> var n := Min(|all|, Holdback(stops));
                                         n <= |all| && out == all[..|all| - n] && p.pending == all[|all| - n..])
  {
    hide FirstStop, Longest, Holdback;
    HeldBack(stops, seen, text, k);
    SplitText(seen, k, text);
    OutAndHeld(stops, seen[..|seen| - k], seen[|seen| - k..] + text, seen + text);
  }

  /** The buffer lets out exactly what a search of the text consumed so far lets out. */
  lemma {:induction false} FeedSearches(stops: seq<Text>, seen: Text, k: nat, chunks: seq<Text>, last: Text)
    requires FirstStop(seen, stops).None? && k == Min(|seen|, Holdback(stops)) && k <= |seen|
    ensures var (text, stopped) := Feed(stops, seen[|seen| - k..], chunks, last);
            (seen[..|seen| - k] + text, stopped) == Offline(stops, Consumed(stops, seen, chunks, last))
    decreases |chunks|
  {
    hide FirstStop, Longest, AfterPush;
    var (out, pending) := (seen[..|seen| - k], seen[|seen| - k..]);
    if chunks == [] {
      PushSearches(stops, seen, k, last, true);
    } else {
      PushSearches(stops, seen, k, chunks[0], false);
      var (next, p) := (seen + chunks[0], AfterPush(stops, pending, chunks[0], false));
      if !p.stopped {
        FeedSearches(stops, next, Min(|next|, Holdback(stops)), chunks[1..], last);
        var rest := Feed(stops, p.pending, chunks[1..], last).0;
        assert out + (p.visible + rest) == out + p.visible + rest;
      }
    }
  }

  lemma EmptyHasNoStop(stops: seq<Text>)
    requires StopsOk(stops)
    ensures FirstStop("", stops).None?
  {
  }

  lemma {:induction false} ConsumedIsPrefix(stops: seq<Text>, seen: Text, chunks: seq<Text>, last: Text)
    ensures Consumed(stops, seen, chunks, last) <= seen + (Concat(chunks) + last)
    ensures FirstStop(Consumed(stops, seen, chunks, last), stops).None? ==>
              Consumed(stops, seen, chunks, last) == seen + (Concat(chunks) + last)
    decreases |chunks|
  {
    if chunks != [] {
      ConsumedIsPrefix(stops, seen + chunks[0], chunks[1..], last);
      assert seen + chunks[0] + (Concat(chunks[1..]) + last) == seen + (Concat(chunks) + last);
    } else {
      assert Concat(chunks) + last == last;
    }
  }

  /** Online equals offline, for every chunking: the text let out is a prefix of the consumed
      text with no stop string starting inside it; on a stop it ends at the earliest occurrence in
      the consumed text; without one everything comes out. */
  lemma StreamIsSearch(stops: seq<Text>, chunks: seq<Text>, last: Text)
    requires StopsOk(stops)
    ensures var (text, stopped) := Feed(stops, "", chunks, last);
            var consumed := Consumed(stops, "", chunks, last);
            && (text, stopped) == Offline(stops, consumed)
            && text <= consumed <= Concat(chunks) + last
            && (forall i | 0 <= i < |text| :: !StopAt(consumed, stops, i))
            && (stopped ==> StopAt(consumed, stops, |text|))
            && (!stopped ==> text == Concat(chunks) + last)
  {
    EmptyHasNoStop(stops);
    FeedSearches(stops, "", 0, chunks, last);
    ConsumedIsPrefix(stops, "", chunks, last);
    assert "" + (Concat(chunks) + last) == Concat(chunks) + last;
    var text := Feed(stops, "", chunks, last).0;
    assert "" + text == text;
  }

  // ---- when the chunks do not matter -------------------------------------------------------

  /** Where a stop string hides strictly inside another, some stop string is a beginning of the
      outer one that is complete no later. */
  predicate Exposed(stops: seq<Text>) {
    forall a, b, p | && 0 <= a < |stops| && 0 <= b < |stops| && 0 < p < |stops[a]|
                     && p + |stops[b]| < |stops[a]| && Occurs(stops[a], stops[b], p) ::
      exists c | 0 <= c < |stops| :: |stops[c]| <= p + |stops[b]| && Occurs(stops[a], stops[c], 0)
  }

  /** Two ways of cutting one text into chunks. */
  ghost predicate ChunkingInvisible(stops: seq<Text>) {
    forall a: seq<Text>, x: Text, b: seq<Text>, y: Text | Concat(a) + x == Concat(b) + y ::
      Feed(stops, "", a, x) == Feed(stops, "", b, y)
  }

  /** A stop string of the longer text that starts earlier would cover the one found, and so
      begin with a shorter one that was complete already. */
  lemma NoEarlierCover(stops: seq<Text>, seen: Text, more: Text, b: nat, a: nat, j: nat, i: nat)
    requires Exposed(stops) && a < |stops| && b < |stops| && j < i
    requires forall h | 0 <= h < i && h <= |seen| :: !StopAt(seen, stops, h)
    requires Occurs(seen, stops[b], i)
    ensures !Occurs(seen + more, stops[a], j)
  {
    assert !StopAt(seen, stops, j);
    OccursInPrefix(seen, more, stops[a], j);
    OccursInPrefix(seen, more, stops[b], i);
    if Occurs(seen + more, stops[a], j) {
      InsideOuter(seen + more, stops[a], stops[b], j, i);
      var c :| 0 <= c < |stops| && |stops[c]| <= i - j + |stops[b]| && Occurs(stops[a], stops[c], 0);
      BeginningOccurs(seen, more, stops[a], stops[c], j);
    }
  }

  /** With exposed stop strings, more text does not move the cut. */
  lemma LaterTextSameCut(stops: seq<Text>, seen: Text, more: Text)
    requires Exposed(stops) && FirstStop(seen, stops).Some?
    ensures FirstStop(seen + more, stops) == FirstStop(seen, stops)
  {
    hide FirstStop, Exposed;
    var (all, i) := (seen + more, FirstStop(seen, stops).value);
    var b :| 0 <= b < |stops| && Occurs(seen, stops[b], i);
    OccursInPrefix(seen, more, stops[b], i);
    assert StopAt(all, stops, i);
    forall j: nat, a | j < i && 0 <= a < |stops| ensures !Occurs(all, stops[a], j) {
      NoEarlierCover(stops, seen, more, b, a, j, i);
    }
    assert forall j: nat | j < i :: !StopAt(all, stops, j);
  }

  lemma InsideOuter(all: Text, outer: Text, inner: Text, j: nat, i: nat)
    requires Occurs(all, outer, j) && Occurs(all, inner, i) && j < i && i + |inner| < j + |outer|
    ensures Occurs(outer, inner, i - j)
  {
    forall k | 0 <= k < |inner| ensures outer[i - j..i - j + |inner|][k] == inner[k] {
      assert all[j..j + |outer|][i - j + k] == all[i + k] == all[i..i + |inner|][k];
    }
  }

  lemma BeginningOccurs(seen: Text, more: Text, outer: Text, begin: Text, j: nat)
    requires Occurs(seen + more, outer, j) && Occurs(outer, begin, 0) && j + |begin| <= |seen|
    ensures Occurs(seen, begin, j)
  {
    assert seen[j..j + |begin|] == (seen + more)[j..j + |outer|][0..|begin|];
  }

  lemma {:induction false} ConsumedCut(stops: seq<Text>, seen: Text, chunks: seq<Text>, last: Text)
    requires Exposed(stops)
    ensures Offline(stops, Consumed(stops, seen, chunks, last)) == Offline(stops, seen + (Concat(chunks) + last))
    decreases |chunks|
  {
    if chunks == [] {
      assert Concat(chunks) + last == last;
    } else {
      var (next, more) := (seen + chunks[0], Concat(chunks[1..]) + last);
      assert next + more == seen + (Concat(chunks) + last);
      if FirstStop(next, stops).Some? {
        LaterTextSameCut(stops, next, more);
        var at := FirstStop(next, stops).value;
        assert next[..at] == (next + more)[..at];
      } else {
        ConsumedCut(stops, next, chunks[1..], last);
      }
    }
  }

  lemma ExposedSuffices(stops: seq<Text>, chunks: seq<Text>, last: Text)
    requires StopsOk(stops) && Exposed(stops)
    ensures Feed(stops, "", chunks, last) == Offline(stops, Concat(chunks) + last)
  {
    StreamIsSearch(stops, chunks, last);
    ConsumedCut(stops, "", chunks, last);
    assert "" + (Concat(chunks) + last) == Concat(chunks) + last;
  }

  /** A hidden stop string shows: the outer one, cut behind the inner one, gives another text. */
  lemma HiddenShows(stops: seq<Text>, a: nat, b: nat, p: nat)
    requires StopsOk(stops) && a < |stops| && b < |stops| && 0 < p && p + |stops[b]| < |stops[a]|
    requires Occurs(stops[a], stops[b], p)
    requires forall c | 0 <= c < |stops| && Occurs(stops[a], stops[c], 0) :: |stops[c]| > p + |stops[b]|
    ensures var outer := stops[a];
            var (head, tail) := (outer[..p + |stops[b]|], outer[p + |stops[b]|..]);
            && Concat([head]) + tail == Concat([]) + outer
            && Feed(stops, "", [head], tail) != Feed(stops, "", [], outer)
  {
    var outer := stops[a];
    var (head, tail) := (outer[..p + |stops[b]|], outer[p + |stops[b]|..]);
    assert outer == head + tail;
    assert Concat([head]) == head by { assert [head][1..] == []; }
    StreamIsSearch(stops, [head], tail);
    StreamIsSearch(stops, [], outer);
    OccursInPrefix(head, tail, stops[b], p);
    assert StopAt(head, stops, p);
    forall c | 0 <= c < |stops| ensures !Occurs(head, stops[c], 0) { OccursInPrefix(head, tail, stops[c], 0); }
    assert !StopAt(head, stops, 0);
    assert "" + head == head;
    assert Consumed(stops, "", [head], tail) == head;
    assert Occurs(outer, outer, 0);
    assert StopAt(outer, stops, 0);
    assert Consumed(stops, "", [], outer) == outer;
  }

  /** The chunks of a stream never show exactly when no stop string hides inside another. */
  lemma ChunkingInvisibleExactly(stops: seq<Text>)
    requires StopsOk(stops)
    ensures ChunkingInvisible(stops) <==> Exposed(stops)
  {
    hide Feed;
    if Exposed(stops) {
      forall a: seq<Text>, x: Text, b: seq<Text>, y: Text | Concat(a) + x == Concat(b) + y
        ensures Feed(stops, "", a, x) == Feed(stops, "", b, y)
      {
        ExposedSuffices(stops, a, x);
        ExposedSuffices(stops, b, y);
      }
    } else {
      var a, b, p :| && 0 <= a < |stops| && 0 <= b < |stops| && 0 < p < |stops[a]|
                     && p + |stops[b]| < |stops[a]| && Occurs(stops[a], stops[b], p)
                     && !exists c | 0 <= c < |stops| :: |stops[c]| <= p + |stops[b]| && Occurs(stops[a], stops[c], 0);
      HiddenShows(stops, a, b, p);
    }
  }

  /** Stop strings of one length, so also a single one, never hide. */
  lemma EqualLengthsAreExposed(stops: seq<Text>)
    requires forall a, b | 0 <= a < |stops| && 0 <= b < |stops| :: |stops[a]| == |stops[b]|
    ensures Exposed(stops)
  {
  }

  /** Two stop strings of different lengths for which the chunks do show. */
  lemma ChunkingCanShow()
    ensures !Exposed(["abc", "b"]) && !ChunkingInvisible(["abc", "b"])
  {
    var stops := ["abc", "b"];
    assert stops[0][1..2] == stops[1] && stops[0][0..1] == "a";
    assert Occurs(stops[0], stops[1], 1) && !Occurs(stops[0], stops[1], 0);
    ChunkingInvisibleExactly(stops);
  }

  // ---- when text comes out -----------------------------------------------------------------

  /** Of text without a stop string the last k characters are held: all of it, or one character
      fewer than the longest stop string has. */
  ghost predicate HoldsBack(stops: seq<Text>, length: nat, k: nat) {
    && k <= length
    && (k > 0 ==> exists j :: 0 <= j < |stops| && |stops[j]| > k)
    && (k < length ==> forall j | 0 <= j < |stops| :: |stops[j]| <= k + 1)
  }

  lemma {:induction false} LongestIsOne(stops: seq<Text>)
    ensures stops != [] ==> exists j :: 0 <= j < |stops| && |stops[j]| == Longest(stops)
  {
    if stops != [] {
      var last := |stops| - 1;
      LongestIsOne(stops[..last]);
      if |stops[last]| < Longest(stops[..last]) {
        var j :| 0 <= j < last && |stops[..last][j]| == Longest(stops[..last]);
        assert |stops[j]| == Longest(stops);
      } else {
        assert |stops[last]| == Longest(stops);
      }
    }
  }

  lemma HoldbackExactly(stops: seq<Text>, length: nat, k: nat)
    ensures HoldsBack(stops, length, k) <==> k == Min(length, Holdback(stops))
  {
    LongestIsOne(stops);
    if stops != [] {
      var j :| 0 <= j < |stops| && |stops[j]| == Longest(stops);
    }
  }

  /** A push that neither stops nor ends lets out everything but what is held back. */
  lemma PushHoldsBack(stops: seq<Text>, seen: Text, held: Text, text: Text)
    requires Held(stops, seen, held) && FirstStop(seen + text, stops).None?
    ensures var p := AfterPush(stops, held, text, false);
            && !p.stopped && HoldsBack(stops, |seen + text|, |p.pending|)
            && seen[..|seen| - |held|] + p.visible + p.pending == seen + text
  {
    hide FirstStop, Longest;
    PushSearches(stops, seen, |held|, text, false);
    HoldbackExactly(stops, |seen + text|, |AfterPush(stops, held, text, false).pending|);
  }

  /** Once a stop string was found or the text has ended, nothing is held any more. */
  lemma EndReleases(stops: seq<Text>, held: Text, text: Text, final: bool)
    ensures var p := AfterPush(stops, held, text, final); p.stopped || final ==> p.pending == ""
  {
    hide FirstStop;
  }

  /** What each push lets out, up to the one that stops. */
  function Visibles(stops: seq<Text>, pending: Text, chunks: seq<Text>, last: Text): (texts: seq<Text>)
    ensures texts != []
    decreases |chunks|
  {
    if chunks == [] then [AfterPush(stops, pending, last, true).visible] else
      var p := AfterPush(stops, pending, chunks[0], false);
      if p.stopped then [p.visible] else [p.visible] + Visibles(stops, p.pending, chunks[1..], last)
  }

  lemma {:induction false} VisiblesFeed(stops: seq<Text>, pending: Text, chunks: seq<Text>, last: Text)
    ensures Concat(Visibles(stops, pending, chunks, last)) == Feed(stops, pending, chunks, last).0
    decreases |chunks|
  {
    hide AfterPush;
    if chunks != [] {
      var p := AfterPush(stops, pending, chunks[0], false);
      if !p.stopped { VisiblesFeed(stops, p.pending, chunks[1..], last); }
    }
  }

  /** A beginning of text without a stop string has none. */
  lemma NoStopInPrefix(stops: seq<Text>, a: Text, b: Text)
    requires FirstStop(a + b, stops).None?
    ensures FirstStop(a, stops).None?
  {
    forall i: nat | i <= |a| ensures !StopAt(a, stops, i) {
      assert !StopAt(a + b, stops, i);
      forall k | 0 <= k < |stops| ensures !Occurs(a, stops[k], i) { OccursInPrefix(a, b, stops[k], i); }
    }
  }

  /** While no stop string has come, the pushes so far have let out all but what is held back. */
  lemma {:induction false} LetOutSoFar(stops: seq<Text>, seen: Text, held: Text, chunks: seq<Text>, last: Text, n: nat)
    requires Held(stops, seen, held) && n <= |chunks|
    requires FirstStop(seen + Concat(chunks[..n]), stops).None?
    ensures n < |Visibles(stops, held, chunks, last)|
    ensures var (all, out) := (seen + Concat(chunks[..n]),
                               seen[..|seen| - |held|] + Concat(Visibles(stops, held, chunks, last)[..n]));
            out <= all && HoldsBack(stops, |all|, |all| - |out|)
    decreases n
  {
    hide FirstStop, Longest, Holdback, AfterPush;
    if n == 0 {
      assert chunks[..0] == [] && Visibles(stops, held, chunks, last)[..0] == [];
      HeldIsTight(stops, seen, held);
    } else {
      var rest := Concat(chunks[1..][..n - 1]);
      assert chunks[..n] == [chunks[0]] + chunks[1..][..n - 1];
      assert seen + Concat(chunks[..n]) == seen + chunks[0] + rest;
      NoStopInPrefix(stops, seen + chunks[0], rest);
      HeldStep(stops, seen, held, chunks[0]);
      PushHoldsBack(stops, seen, held, chunks[0]);
      var p := AfterPush(stops, held, chunks[0], false);
      LetOutSoFar(stops, seen + chunks[0], p.pending, chunks[1..], last, n - 1);
      var later := Visibles(stops, p.pending, chunks[1..], last);
      assert Visibles(stops, held, chunks, last)[..n] == [p.visible] + later[..n - 1];
      OutMoves(seen, held, chunks[0], p.visible, p.pending, Concat(later[..n - 1]));
    }
  }

  lemma HeldIsTight(stops: seq<Text>, seen: Text, held: Text)
    requires Held(stops, seen, held)
    ensures seen[..|seen| - |held|] + Concat([]) <= seen + Concat([])
    ensures HoldsBack(stops, |seen|, |held|) && seen + Concat([]) == seen
  {
    HoldbackExactly(stops, |seen|, |held|);
  }

  lemma OutMoves(seen: Text, held: Text, text: Text, visible: Text, pending: Text, more: Text)
    requires |held| <= |seen| && |pending| <= |seen + text|
    requires seen[..|seen| - |held|] + visible + pending == seen + text
    ensures (seen + text)[..|seen + text| - |pending|] + more == seen[..|seen| - |held|] + (visible + more)
  {
    assert (seen + text)[..|seen + text| - |pending|] == seen[..|seen| - |held|] + visible;
  }

  /** After each piece of text, for every chunking: as long as no stop string has come, what has been
      let out is all of the text but its end, and the end is no longer than it has to be. With no
      stop strings nothing is ever held. */
  lemma TextComesOutEarly(stops: seq<Text>, chunks: seq<Text>, last: Text, n: nat)
    requires StopsOk(stops) && n <= |chunks| && FirstStop(Concat(chunks[..n]), stops).None?
    ensures n < |Visibles(stops, "", chunks, last)|
    ensures var (all, out) := (Concat(chunks[..n]), Concat(Visibles(stops, "", chunks, last)[..n]));
            && out <= all && HoldsBack(stops, |all|, |all| - |out|)
            && (stops == [] ==> out == all)
  {
    hide FirstStop, Longest, Visibles, Concat;
    NothingHeld(stops, chunks, last);
    assert "" + Concat(chunks[..n]) == Concat(chunks[..n]);
    LetOutSoFar(stops, "", "", chunks, last, n);
    assert ""[..0] + Concat(Visibles(stops, "", chunks, last)[..n]) == Concat(Visibles(stops, "", chunks, last)[..n]);
  }

  // ---- consuming a generation --------------------------------------------------------------

  datatype TextEnd = Stop | Length

  lemma FeedStep(stops: seq<Text>, seen: Text, held: Text, pieces: seq<Text>, n: nat, finish: Text)
    requires n < |pieces| && seen == Concat(pieces[..n])
    ensures seen + pieces[n] == Concat(pieces[..n + 1])
    ensures var p := AfterPush(stops, held, pieces[n], false);
            var rest := Feed(stops, p.pending, pieces[n + 1..], finish);
            Feed(stops, held, pieces[n..], finish) == if p.stopped then (p.visible, true)
                else (p.visible + rest.0, rest.1)
    ensures Consumed(stops, seen, pieces[n..], finish)
            == if FirstStop(seen + pieces[n], stops).Some? then seen + pieces[n]
               else Consumed(stops, seen + pieces[n], pieces[n + 1..], finish)
  {
    hide AfterPush, FirstStop;
    assert pieces[..n + 1] == pieces[..n] + [pieces[n]];
    assert pieces[n..][0] == pieces[n] && pieces[n..][1..] == pieces[n + 1..];
    ConcatAppend(pieces[..n], pieces[n]);
  }

  lemma FeedEnd(stops: seq<Text>, seen: Text, held: Text, finish: Text)
    ensures var p := AfterPush(stops, held, finish, true);
            Feed(stops, held, [], finish) == (p.visible, p.stopped)
    ensures Consumed(stops, seen, [], finish) == seen + finish
  {
  }

  /** The first n beginnings of the text hold no stop string. */
  ghost predicate NoStopBefore(stops: seq<Text>, pieces: seq<Text>, n: nat) {
    n <= |pieces| && forall k | 0 <= k < n :: FirstStop(Concat(pieces[..k]), stops).None?
  }

  /** The texts that are sent. */
  function NonEmpty(texts: seq<Text>): (sent: seq<Text>)
    ensures "" !in sent
  {
    if texts == [] then [] else
      var rest := NonEmpty(texts[1..]);
      if texts[0] == "" then rest else [texts[0]] + rest
  }

  lemma {:induction false} ConcatNonEmpty(texts: seq<Text>)
    ensures Concat(NonEmpty(texts)) == Concat(texts)
  {
    if texts != [] {
      ConcatNonEmpty(texts[1..]);
      var rest := NonEmpty(texts[1..]);
      if texts[0] != "" { assert ([texts[0]] + rest)[1..] == rest; }
    }
  }

  lemma VisiblesStep(stops: seq<Text>, held: Text, pieces: seq<Text>, n: nat, finish: Text)
    requires n < |pieces|
    ensures var p := AfterPush(stops, held, pieces[n], false);
            NonEmpty(Visibles(stops, held, pieces[n..], finish))
            == (if p.visible == "" then [] else [p.visible])
               + if p.stopped then [] else NonEmpty(Visibles(stops, p.pending, pieces[n + 1..], finish))
  {
    hide AfterPush;
    assert pieces[n..][0] == pieces[n] && pieces[n..][1..] == pieces[n + 1..];
    var p := AfterPush(stops, held, pieces[n], false);
    if p.stopped { assert NonEmpty([p.visible][1..]) == []; }
  }

  /** _consume_text: one piece of text per generated token, and one when the generation ends.
      A delta is sent for each push that lets text out, as it comes; the tokens counted are
      all up to the first one whose text completes a stop string, or all. */
  method ConsumeText(stops: seq<Text>, pieces: seq<Text>, finish: Text, endedByEos: bool)
    returns (deltas: seq<Text>, end: TextEnd, tokens: nat)
    requires StopsOk(stops)
    ensures Concat(deltas) == Feed(stops, "", pieces, finish).0 && "" !in deltas
    ensures deltas == NonEmpty(Visibles(stops, "", pieces, finish))
    ensures end == if Feed(stops, "", pieces, finish).1 || endedByEos then Stop else Length
    ensures tokens <= |pieces|
    ensures NoStopBefore(stops, pieces, tokens)
    ensures tokens < |pieces| ==> FirstStop(Concat(pieces[..tokens]), stops).Some?
    ensures Consumed(stops, "", pieces, finish) == Concat(pieces[..tokens]) ||
            (tokens == |pieces| && Consumed(stops, "", pieces, finish) == Concat(pieces) + finish)
  {
    hide FirstStop, AfterPush, Feed, Consumed, Holdback, Held, Concat, Visibles, NonEmpty;
    var buffer := new StopBuffer(stops);
    deltas, tokens := [], 0;
    NothingHeld(stops, pieces, finish);
    VisiblesFeed(stops, "", pieces, finish);
    ConcatNonEmpty(Visibles(stops, "", pieces, finish));
    while tokens < |pieces|
      invariant tokens <= |pieces| && NoStopBefore(stops, pieces, tokens)
      invariant buffer.Valid() && buffer.stops == stops && fresh(buffer)
      invariant Held(stops, Concat(pieces[..tokens]), buffer.pending)
      invariant NonEmpty(Visibles(stops, "", pieces, finish))
                == deltas + NonEmpty(Visibles(stops, buffer.pending, pieces[tokens..], finish))
      invariant Feed(stops, "", pieces, finish).1 == Feed(stops, buffer.pending, pieces[tokens..], finish).1
      invariant Consumed(stops, "", pieces, finish)
                == Consumed(stops, Concat(pieces[..tokens]), pieces[tokens..], finish)
    {
      ghost var (seen, held, before) := (Concat(pieces[..tokens]), buffer.pending, deltas);
      HeldHasNone(stops, seen, held);
      HeldStep(stops, seen, held, pieces[tokens]);
      FeedStep(stops, seen, held, pieces, tokens, finish);
      VisiblesStep(stops, held, pieces, tokens, finish);
      var text, stopped := buffer.Push(pieces[tokens], false);
      tokens := tokens + 1;
      deltas := Send(deltas, text);
      SentOne(before, text, if stopped then []
              else NonEmpty(Visibles(stops, buffer.pending, pieces[tokens..], finish)));
      if stopped { return deltas, Stop, tokens; }
    }
    assert pieces[..tokens] == pieces && pieces[tokens..] == [];
    FeedEnd(stops, Concat(pieces), buffer.pending, finish);
    VisiblesEnd(stops, buffer.pending, finish);
    var text, stopped := buffer.Push(finish, true);
    deltas := Send(deltas, text);
    end := if stopped || endedByEos then Stop else Length;
  }

  /** Empty texts are not sent. */
  method Send(deltas: seq<Text>, text: Text) returns (sent: seq<Text>)
    ensures sent == deltas + if text == "" then [] else [text]
  {
    if text == "" { return deltas; }
    sent := deltas + [text];
  }

  lemma NothingHeld(stops: seq<Text>, pieces: seq<Text>, finish: Text)
    requires StopsOk(stops)
    ensures Concat(pieces[..0]) == "" && Held(stops, "", "") && pieces[0..] == pieces
    ensures [] + NonEmpty(Visibles(stops, "", pieces, finish)) == NonEmpty(Visibles(stops, "", pieces, finish))
  {
    EmptyHasNoStop(stops);
  }

  lemma SentOne(deltas: seq<Text>, text: Text, rest: seq<Text>)
    ensures deltas + ((if text == "" then [] else [text]) + rest)
            == deltas + (if text == "" then [] else [text]) + rest
    ensures deltas + (if text == "" then [] else [text]) + [] == deltas + if text == "" then [] else [text]
  {
  }

  lemma VisiblesEnd(stops: seq<Text>, held: Text, finish: Text)
    ensures var text := AfterPush(stops, held, finish, true).visible;
            NonEmpty(Visibles(stops, held, [], finish)) == if text == "" then [] else [text]
  {
    hide AfterPush;
    var text := AfterPush(stops, held, finish, true).visible;
    assert NonEmpty([text][1..]) == [];
  }

  lemma HeldHasNone(stops: seq<Text>, seen: Text, held: Text)
    requires Held(stops, seen, held)
    ensures FirstStop(seen, stops).None?
  {
    hide FirstStop;
  }

  lemma HeldStep(stops: seq<Text>, seen: Text, held: Text, text: Text)
    requires Held(stops, seen, held)
    ensures var p := AfterPush(stops, held, text, false);
            && (p.stopped <==> FirstStop(seen + text, stops).Some?)
            && (!p.stopped ==> Held(stops, seen + text, p.pending))
  {
    hide FirstStop, Longest;
    PushSearches(stops, seen, |held|, text, false);
  }

  /** The text seen has no stop string, and the longest possible beginning of one is held. */
  ghost predicate Held(stops: seq<Text>, seen: Text, pending: Text) {
    && FirstStop(seen, stops).None? && |pending| == Min(|seen|, Holdback(stops)) <= |seen|
    && pending == seen[|seen| - |pending|..]
  }
}
