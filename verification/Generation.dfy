/** The stream of a whole generation: what a consumer sees does not depend on chunked prefill,
    on the drafts proposed or on how many tokens each step yields. */
module Generation {
  import opened Collections
  import opened Transformer
  import opened Speculative
  import opened Decoding
  import Stream

  /** The tokens each step of a run puts out. */
  ghost function StepOutputs<V>(m: Model<V>, prompt: seq<Token>, st: Session<V>, rounds: seq<Round>): seq<seq<Token>>
    requires Decodes(m, prompt, st) && RoundsOk(m, prompt, st, rounds)
    decreases |rounds|
  {
    if rounds == [] then [] else
      PlayDecodes(m, prompt, st, rounds[0]);
      var next := Play(m, st, rounds[0]);
      [next.known[|st.known|..]] + StepOutputs(m, prompt, next, rounds[1..])
  }

  lemma {:induction false} OutputsAreNew<V>(m: Model<V>, prompt: seq<Token>, st: Session<V>, rounds: seq<Round>)
    requires Decodes(m, prompt, st) && RoundsOk(m, prompt, st, rounds)
    ensures PlayAll(m, prompt, st, rounds).known == st.known + Concat(StepOutputs(m, prompt, st, rounds))
    decreases |rounds|
  {
    hide Play;
    if rounds != [] {
      PlayDecodes(m, prompt, st, rounds[0]);
      var next := Play(m, st, rounds[0]);
      OutputsAreNew(m, prompt, next, rounds[1..]);
      assert next.known == st.known + next.known[|st.known|..];
    }
  }

  /** For every run, whatever its chunks and drafts, the stream is that of plain greedy decoding
      one token at a time. */
  lemma StreamIsGreedy<V>(m: Model<V>, prompt: seq<Token>, rounds: seq<Round>, ask: Stream.Ask)
    requires prompt != [] && RoundsOk(m, prompt, Start(m, prompt), rounds)
    ensures var steps := StepOutputs(m, prompt, Start(m, prompt), rounds);
            && Concat(steps) == Greedy(m, prompt, |Concat(steps)|)
            && Stream.ApplySteps(ask, Stream.Start(), steps)
               == Stream.ApplySteps(ask, Stream.Start(), Stream.Singles(Greedy(m, prompt, |Concat(steps)|)))
  {
    hide Greedy;
    var start := Start(m, prompt);
    var steps := StepOutputs(m, prompt, start, rounds);
    OutputsAreNew(m, prompt, start, rounds);
    RunDecodes(m, prompt, start, rounds);
    var n := |Concat(steps)|;
    assert (prompt + Concat(steps))[|prompt|..] == Concat(steps);
    assert (prompt + Greedy(m, prompt, n))[|prompt|..] == Greedy(m, prompt, n);
    Stream.GranularityIndependent(ask, steps);
  }

  /** Two runs of one prompt that both end show the same events. */
  lemma FinishedStreamsAgree<V>(m: Model<V>, prompt: seq<Token>, a: seq<Round>, b: seq<Round>, ask: Stream.Ask)
    requires prompt != []
    requires RoundsOk(m, prompt, Start(m, prompt), a) && RoundsOk(m, prompt, Start(m, prompt), b)
    requires Stream.ApplySteps(ask, Stream.Start(), StepOutputs(m, prompt, Start(m, prompt), a)).reason.Some?
    requires Stream.ApplySteps(ask, Stream.Start(), StepOutputs(m, prompt, Start(m, prompt), b)).reason.Some?
    ensures Stream.ApplySteps(ask, Stream.Start(), StepOutputs(m, prompt, Start(m, prompt), a))
            == Stream.ApplySteps(ask, Stream.Start(), StepOutputs(m, prompt, Start(m, prompt), b))
  {
    hide Greedy, Decodes, RoundsOk, StepOutputs;
    var start := Start(m, prompt);
    var (x, y) := (StepOutputs(m, prompt, start, a), StepOutputs(m, prompt, start, b));
    StreamIsGreedy(m, prompt, a, ask);
    StreamIsGreedy(m, prompt, b, ask);
    Stream.StepsAreOne(ask, Stream.Start(), x);
    Stream.StepsAreOne(ask, Stream.Start(), y);
    hide Stream.ApplyStep, Stream.ApplySteps;
    if |Concat(x)| <= |Concat(y)| {
      LongerAgrees(m, prompt, ask, |Concat(x)|, |Concat(y)|);
    } else {
      LongerAgrees(m, prompt, ask, |Concat(y)|, |Concat(x)|);
    }
  }

  lemma LongerAgrees<V>(m: Model<V>, prompt: seq<Token>, ask: Stream.Ask, i: nat, j: nat)
    requires prompt != [] && i <= j
    requires Stream.ApplyStep(ask, Stream.Start(), Greedy(m, prompt, i)).reason.Some?
    ensures Stream.ApplyStep(ask, Stream.Start(), Greedy(m, prompt, j))
            == Stream.ApplyStep(ask, Stream.Start(), Greedy(m, prompt, i))
  {
    hide Greedy, Stream.ApplyStep;
    GreedySplit(m, prompt, i, j - i);
    Stream.EndIsFinal(ask, Stream.Start(), Greedy(m, prompt, i), Greedy(m, prompt + Greedy(m, prompt, i), j - i));
  }
}
