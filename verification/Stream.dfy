/** What a consumer sees of one request: the tokens of each step, cut at the end of the
    generation (core.py:449-501). */
module Stream {
  import opened Collections

  type Token = int

  datatype FinishReason = Eos | Length

  datatype Event = TokenGenerated(token: Token, position: nat) | Finished(reason: FinishReason) | Failed

  /** The end token a request asks for, if any, and how many tokens it wants. */
  datatype Ask = Ask(eos: Option<Token>, maxNewTokens: nat)

  /** A stream so far. Once it has a reason, the request has left the engine. */
  datatype Progress = Progress(generated: seq<Token>, events: seq<Event>, reason: Option<FinishReason>)

  // ---- one step ---------------------------------------------------------------------------

  /** Does the stream end with this token, the generated-th of the request? */
  function EndsWith(ask: Ask, token: Token, generated: nat): Option<FinishReason> {
    if ask.eos == Some(token) then Some(Eos)
    else if generated == ask.maxNewTokens then Some(Length)
    else None
  }

  /** The first n tokens are what the consumer sees: none before the last of them ends the
      stream, and the rest are dropped only behind an end. */
  predicate IsCut(ask: Ask, generated: nat, tokens: seq<Token>, n: nat) {
    && n <= |tokens|
    && (forall k | 0 <= k < n - 1 :: EndsWith(ask, tokens[k], generated + k + 1).None?)
    && (n < |tokens| ==> n > 0 && EndsWith(ask, tokens[n - 1], generated + n).Some?)
  }

  function Cut(ask: Ask, generated: nat, tokens: seq<Token>): (n: nat)
    ensures IsCut(ask, generated, tokens, n)
    decreases |tokens|
  {
    if tokens == [] then 0
    else if EndsWith(ask, tokens[0], generated + 1).Some? then 1
    else 1 + Cut(ask, generated + 1, tokens[1..])
  }

  lemma CutIsUnique(ask: Ask, generated: nat, tokens: seq<Token>, m: nat, n: nat)
    requires IsCut(ask, generated, tokens, m) && IsCut(ask, generated, tokens, n)
    ensures m == n
  {
  }

  /** Why the stream ended with its last visible token, if it did. */
  function EndOf(ask: Ask, generated: nat, visible: seq<Token>): Option<FinishReason> {
    if visible == [] then None else EndsWith(ask, visible[|visible| - 1], generated + |visible|)
  }

  /** EngineCore._visible_tokens. */
  method VisibleTokens(ask: Ask, generated: nat, tokens: seq<Token>)
      returns (visible: seq<Token>, reason: Option<FinishReason>)
    ensures visible == tokens[..Cut(ask, generated, tokens)] && reason == EndOf(ask, generated, visible)
  {
    visible := [];
    for i := 0 to |tokens|
      invariant visible == tokens[..i]
      invariant forall k | 0 <= k < i :: EndsWith(ask, tokens[k], generated + k + 1).None?
    {
      visible := visible + [tokens[i]];
      if ask.eos == Some(tokens[i]) {
        CutIsUnique(ask, generated, tokens, i + 1, Cut(ask, generated, tokens));
        return visible, Some(Eos);
      }
      if generated + |visible| == ask.maxNewTokens {
        CutIsUnique(ask, generated, tokens, i + 1, Cut(ask, generated, tokens));
        return visible, Some(Length);
      }
    }
    CutIsUnique(ask, generated, tokens, |tokens|, Cut(ask, generated, tokens));
    reason := None;
  }

  function TokenEvents(tokens: seq<Token>, start: nat): (events: seq<Event>)
    ensures |events| == |tokens|
  {
    seq(|tokens|, i requires 0 <= i < |tokens| => TokenGenerated(tokens[i], start + i))
  }

  function Terminal(reason: Option<FinishReason>): seq<Event> {
    if reason.Some? then [Finished(reason.value)] else []
  }

  /** One step's tokens enter the stream; a request that has left ignores them. */
  function ApplyStep(ask: Ask, p: Progress, tokens: seq<Token>): Progress {
    if p.reason.Some? then p else
      var visible := tokens[..Cut(ask, |p.generated|, tokens)];
      var reason := EndOf(ask, |p.generated|, visible);
      Progress(p.generated + visible, p.events + TokenEvents(visible, |p.generated|) + Terminal(reason), reason)
  }

  // ---- all steps --------------------------------------------------------------------------

  function ApplySteps(ask: Ask, p: Progress, steps: seq<seq<Token>>): Progress
    decreases |steps|
  {
    if steps == [] then p else ApplySteps(ask, ApplyStep(ask, p, steps[0]), steps[1..])
  }

  function Start(): Progress { Progress([], [], None) }

  lemma CutSplit(ask: Ask, generated: nat, a: seq<Token>, b: seq<Token>)
    ensures var visible := a[..Cut(ask, generated, a)];
            Cut(ask, generated, a + b) ==
            if EndOf(ask, generated, visible).Some? then |visible| else |a| + Cut(ask, generated + |a|, b)
    ensures EndOf(ask, generated, a[..Cut(ask, generated, a)]).None? ==> Cut(ask, generated, a) == |a|
  {
    var m, n := Cut(ask, generated, a), Cut(ask, generated + |a|, b);
    if EndOf(ask, generated, a[..m]).Some? {
      CutIsUnique(ask, generated, a + b, m, Cut(ask, generated, a + b));
    } else {
      forall k | |a| <= k < |a| + n - 1 ensures EndsWith(ask, (a + b)[k], generated + k + 1).None? {
        assert (a + b)[k] == b[k - |a|];
      }
      CutIsUnique(ask, generated, a + b, |a| + n, Cut(ask, generated, a + b));
    }
  }

  lemma EventsJoin(a: seq<Token>, b: seq<Token>, n: nat)
    ensures TokenEvents(a + b, n) == TokenEvents(a, n) + TokenEvents(b, n + |a|)
  {
  }

  lemma EndJoin(ask: Ask, n: nat, a: seq<Token>, b: seq<Token>)
    requires EndOf(ask, n, a).None?
    ensures EndOf(ask, n, a + b) == EndOf(ask, n + |a|, b)
  {
    if b == [] { assert a + b == a; }
  }

  /** Two steps show what one step with both their tokens shows. */
  /** A step that does not end the stream, and then the next one. */
  lemma StepGoesOn(ask: Ask, p: Progress, a: seq<Token>, b: seq<Token>)
    requires p.reason.None? && Cut(ask, |p.generated|, a) == |a| && EndOf(ask, |p.generated|, a).None?
    requires Cut(ask, |p.generated|, a + b) == |a| + Cut(ask, |p.generated| + |a|, b)
    ensures ApplyStep(ask, ApplyStep(ask, p, a), b) == ApplyStep(ask, p, a + b)
  {
    hide Cut, EndsWith, EndOf, TokenEvents;
    var n := |p.generated|;
    var rest := b[..Cut(ask, n + |a|, b)];
    assert a[..|a|] == a && (a + b)[..|a| + |rest|] == a + rest;
    EventsJoin(a, rest, n);
    EndJoin(ask, n, a, rest);
    Associative(p.generated, a, rest);
    Associative(p.events, TokenEvents(a, n), TokenEvents(rest, n + |a|));
    var events := p.events + TokenEvents(a, n);
    assert events + [] == events;
  }

  lemma StepsMerge(ask: Ask, p: Progress, a: seq<Token>, b: seq<Token>)
    ensures ApplyStep(ask, ApplyStep(ask, p, a), b) == ApplyStep(ask, p, a + b)
  {
    hide Cut, EndsWith, EndOf, TokenEvents;
    if p.reason.None? {
      var n := |p.generated|;
      CutSplit(ask, n, a, b);
      var first := a[..Cut(ask, n, a)];
      if EndOf(ask, n, first).Some? {
        assert (a + b)[..|first|] == first;
      } else {
        assert first == a;
        StepGoesOn(ask, p, a, b);
      }
    }
  }

  /** Nothing is shown behind the end. */
  lemma EndIsFinal(ask: Ask, p: Progress, a: seq<Token>, b: seq<Token>)
    requires ApplyStep(ask, p, a).reason.Some?
    ensures ApplyStep(ask, p, a + b) == ApplyStep(ask, p, a)
  {
    StepsMerge(ask, p, a, b);
  }

  lemma {:induction false} StepsAreOne(ask: Ask, p: Progress, steps: seq<seq<Token>>)
    ensures ApplySteps(ask, p, steps) == ApplyStep(ask, p, Concat(steps))
    decreases |steps|
  {
    if steps == [] {
      assert p.events + TokenEvents([], |p.generated|) + [] == p.events;
      assert p.generated + [] == p.generated;
    } else {
      StepsAreOne(ask, ApplyStep(ask, p, steps[0]), steps[1..]);
      StepsMerge(ask, p, steps[0], Concat(steps[1..]));
    }
  }

  lemma {:induction false} StepsAppend(ask: Ask, p: Progress, steps: seq<seq<Token>>, last: seq<Token>)
    ensures ApplySteps(ask, p, steps + [last]) == ApplyStep(ask, ApplySteps(ask, p, steps), last)
    decreases |steps|
  {
    if steps == [] {
      assert ApplySteps(ask, ApplyStep(ask, p, last), []) == ApplyStep(ask, p, last);
    } else {
      assert (steps + [last])[1..] == steps[1..] + [last];
      StepsAppend(ask, ApplyStep(ask, p, steps[0]), steps[1..], last);
    }
  }

  function Singles<T>(xs: seq<T>): (parts: seq<seq<T>>)
    ensures |parts| == |xs|
  {
    if xs == [] then [] else [[xs[0]]] + Singles(xs[1..])
  }

  lemma {:induction false} ConcatSingles<T>(xs: seq<T>)
    ensures Concat(Singles(xs)) == xs
  {
    if xs != [] { ConcatSingles(xs[1..]); }
  }

  /** Step granularity does not show: for every way of splitting the accepted tokens into
      steps, the stream is that of one token per step. */
  lemma GranularityIndependent(ask: Ask, steps: seq<seq<Token>>)
    ensures ApplySteps(ask, Start(), steps) == ApplySteps(ask, Start(), Singles(Concat(steps)))
  {
    StepsAreOne(ask, Start(), steps);
    StepsAreOne(ask, Start(), Singles(Concat(steps)));
    ConcatSingles(Concat(steps));
  }

  // ---- the stream, offline -----------------------------------------------------------------

  /** The generation stops with its n-th token. */
  predicate StopsAt(ask: Ask, tokens: seq<Token>, n: nat) {
    0 < n <= |tokens| && (ask.eos == Some(tokens[n - 1]) || n == ask.maxNewTokens)
  }

  /** For every split into steps: the events are the tokens up to the first end token or the
      length limit at positions 0, 1, 2, ..., then one terminal event, and nothing after it. */
  lemma StreamIsCut(ask: Ask, steps: seq<seq<Token>>)
    ensures var (all, p) := (Concat(steps), ApplySteps(ask, Start(), steps));
            var n := |p.generated|;
            && p.generated <= all
            && (forall k: nat | k < n :: !StopsAt(ask, all, k))
            && (p.reason.Some? <==> StopsAt(ask, all, n))
            && (p.reason.None? ==> p.generated == all)
            && (p.reason.Some? ==> (p.reason.value == Eos <==> ask.eos == Some(all[n - 1])))
            && p.events == TokenEvents(all[..n], 0) + Terminal(p.reason) && Announces(p.events, all, n, p.reason)
  {
    hide ApplySteps, ApplyStep, Concat, TokenEvents, StopsAt, Cut, EndOf, Announces;
    StepsAreOne(ask, Start(), steps);
    StepIsCut(ask, Concat(steps));
    var p := ApplySteps(ask, Start(), steps);
    EventsAnnounce(Concat(steps), |p.generated|, p.reason);
  }

  /** The first n tokens at positions 0 to n - 1, and then at most one terminal event. */
  predicate Announces(events: seq<Event>, tokens: seq<Token>, n: nat, reason: Option<FinishReason>) {
    && n <= |tokens| && |events| == n + (if reason.Some? then 1 else 0)
    && (forall k | 0 <= k < n :: events[k] == TokenGenerated(tokens[k], k))
    && (reason.Some? ==> events[n] == Finished(reason.value))
  }

  lemma EventsAnnounce(tokens: seq<Token>, n: nat, reason: Option<FinishReason>)
    requires n <= |tokens|
    ensures Announces(TokenEvents(tokens[..n], 0) + Terminal(reason), tokens, n, reason)
  {
  }

  lemma StepIsCut(ask: Ask, all: seq<Token>)
    ensures var p := ApplyStep(ask, Start(), all);
            var n := |p.generated|;
            && p.generated <= all
            && (forall k: nat | k < n :: !StopsAt(ask, all, k))
            && (p.reason.Some? <==> StopsAt(ask, all, n))
            && (p.reason.None? ==> p.generated == all)
            && (p.reason.Some? ==> (p.reason.value == Eos <==> ask.eos == Some(all[n - 1])))
            && p.events == TokenEvents(all[..n], 0) + Terminal(p.reason)
  {
    hide TokenEvents, StopsAt, EndOf, Cut;
    CutMeaning(ask, all);
    var visible := all[..Cut(ask, 0, all)];
    assert [] + visible == visible && [] + TokenEvents(visible, 0) == TokenEvents(visible, 0);
  }

  lemma CutStops(ask: Ask, all: seq<Token>, n: nat)
    requires IsCut(ask, 0, all, n)
    ensures var reason := EndOf(ask, 0, all[..n]);
            && (forall k: nat | k < n :: !StopsAt(ask, all, k))
            && (reason.Some? <==> StopsAt(ask, all, n)) && (reason.None? ==> n == |all|)
            && (reason.Some? ==> (reason.value == Eos <==> ask.eos == Some(all[n - 1])))
  {
    forall k: nat | k < n ensures !StopsAt(ask, all, k) {
      if k > 0 { assert EndsWith(ask, all[k - 1], 0 + (k - 1) + 1).None?; }
    }
  }

  /** The cut of a whole stream: no earlier token ends it, and it is shorter only behind an end. */
  lemma CutMeaning(ask: Ask, all: seq<Token>)
    ensures var n := Cut(ask, 0, all);
            var reason := EndOf(ask, 0, all[..n]);
            && n <= |all| && (forall k: nat | k < n :: !StopsAt(ask, all, k))
            && (reason.Some? <==> StopsAt(ask, all, n)) && (reason.None? ==> n == |all|)
            && (reason.Some? ==> (reason.value == Eos <==> ask.eos == Some(all[n - 1])))
  {
    hide Cut;
    CutStops(ask, all, Cut(ask, 0, all));
  }
}
