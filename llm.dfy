/** The chunk source (app/llm.py): the deterministic mock generator, the
    real-provider path with its bounded retry of stream creation and its
    lenient event filter, and the choice between the two.

    A run of a generator is described by the pulls its consumer observes, in
    order: each pull gives the next chunk or raises an Exception. Sleeps are
    recorded as a list of whole milliseconds. */
module Llm {
  import opened Wrappers
  import opened Text

  /** An exception; the model only needs to tell exceptions apart. */
  datatype Error = Error(message: string)

  /** One pull of a chunk generator: the next chunk, or the Exception the pull raised. */
  datatype Outcome = Chunk(text: string) | Fail(error: Error)

  /** Pulls that can come out of a generator: every chunk is non-empty, and an
      Exception, if there is one, is the last pull. */
  predicate WellFormedPulls(pulls: seq<Outcome>) {
    && (forall i :: 0 <= i < |pulls| && pulls[i].Chunk? ==> pulls[i].text != "")
    && (forall i :: 0 <= i < |pulls| - 1 ==> pulls[i].Chunk?)
  }

  // ---------------------------------------------------------------- mock

  const MockTail := "This is a simulated streaming response."
  /** The mock pauses 0.05 s before each token. */
  const MockDelayMs: nat := 50

  /** The text the mock tokenizes for `prompt`. */
  function MockText(prompt: string): string {
    "Echo: " + prompt + "\n" + MockTail
  }

  /** Each token followed by one space, in order. */
  function Spaced(ws: seq<string>): seq<string> {
    if ws == [] then [] else [ws[0] + " "] + Spaced(ws[1..])
  }

  /** The chunks `mock_stream_response(prompt)` yields. */
  function MockChunks(prompt: string): (cs: seq<string>)
    ensures |cs| == |Words(prompt)| + 1 + |TailWords|
    ensures cs[0] == "Echo: " && cs[|cs| - 1] == "response. "
  {
    var ws := Words(MockText(prompt));
    SpacedAt(ws);
    MockTokens(prompt);
    Spaced(ws)
  }

  lemma {:induction false} SpacedAt(ws: seq<string>)
    ensures |Spaced(ws)| == |ws|
    ensures forall i :: 0 <= i < |ws| ==> Spaced(ws)[i] == ws[i] + " "
  {
    if ws != [] {
      SpacedAt(ws[1..]);
    }
  }

  lemma {:induction false} ConcatSpaced(ws: seq<string>)
    requires ws != []
    ensures Concat(Spaced(ws)) == JoinSpace(ws) + " "
  {
    if |ws| > 1 {
      ConcatSpaced(ws[1..]);
    }
  }

  /** The mock yields exactly the whitespace tokens of its text, each followed
      by one space, in order. */
  lemma MockChunksAreTokens(prompt: string)
    ensures |MockChunks(prompt)| == |Words(MockText(prompt))|
    ensures forall i :: 0 <= i < |MockChunks(prompt)| ==>
      MockChunks(prompt)[i] == Words(MockText(prompt))[i] + " "
  {
    SpacedAt(Words(MockText(prompt)));
  }

  /** Every mock chunk is non-empty, ends in one space and has no other whitespace. */
  lemma MockChunkShape(prompt: string)
    ensures forall i :: 0 <= i < |MockChunks(prompt)| ==>
      var c := MockChunks(prompt)[i];
      |c| >= 2 && c[|c| - 1] == ' ' && NoSpace(c[..|c| - 1])
  {
    var ws := Words(MockText(prompt));
    WordsShape(MockText(prompt));
    SpacedAt(ws);
    forall i | 0 <= i < |ws|
      ensures var c := MockChunks(prompt)[i]; |c| >= 2 && c[|c| - 1] == ' ' && NoSpace(c[..|c| - 1])
    {
      var c := MockChunks(prompt)[i];
      assert c == ws[i] + " ";
      assert c[..|c| - 1] == ws[i];
    }
  }

  /** Splitting a string that starts with a token and a space. */
  lemma WordsLead(w: string, rest: string)
    requires w != "" && NoSpace(w)
    ensures Words(w + " " + rest) == [w] + Words(rest)
  {
    assert w + " " + rest == w + [' '] + rest;
    WordsSplit(w, ' ', rest);
    WordsOfWord(w);
  }

  /** The tokens of the fixed sentence the mock appends. */
  const TailWords: seq<string> := ["This", "is", "a", "simulated", "streaming", "response."]

  lemma TailJoined()
    ensures JoinSpace(TailWords) == MockTail
  {
  }

  lemma TailWordsAreTokens()
    ensures forall i :: 0 <= i < |TailWords| ==> TailWords[i] != "" && NoSpace(TailWords[i])
  {
  }

  lemma TailTokens()
    ensures Words(MockTail) == TailWords
  {
    TailJoined();
    TailWordsAreTokens();
    WordsJoinSpace(TailWords);
  }

  /** How the mock's tokens are laid out: the marker, the prompt's own tokens,
      then the fixed sentence. */
  lemma MockTokens(prompt: string)
    ensures Words(MockText(prompt)) ==
      ["Echo:"] + Words(prompt) + TailWords
  {
    var rest := prompt + ['\n'] + MockTail;
    assert MockText(prompt) == "Echo:" + " " + rest;
    WordsLead("Echo:", rest);
    WordsSplit(prompt, '\n', MockTail);
    TailTokens();
  }

  /** Concatenated, the mock chunks are the tokens joined by one space plus a
      trailing space. */
  lemma MockConcat(prompt: string)
    ensures Concat(MockChunks(prompt)) == JoinSpace(Words(MockText(prompt))) + " "
  {
    MockTokens(prompt);
    ConcatSpaced(Words(MockText(prompt)));
  }

  /** The mock's output does not depend on whitespace around the prompt. */
  lemma MockIgnoresOuterSpace(prompt: string)
    ensures MockChunks(Strip(prompt)) == MockChunks(prompt)
  {
    MockTokens(prompt);
    MockTokens(Strip(prompt));
    WordsOfStrip(prompt);
  }

  /** One mock run: every token is a chunk, each preceded by a 50 ms pause;
      it never raises and makes no stream-creation call. */
  function MockRun(prompt: string): (r: SourceRun)
    ensures r.tries == 0
    ensures |r.pulls| == |r.sleepsMs| == |MockChunks(prompt)|
    ensures forall i :: 0 <= i < |r.pulls| ==> r.pulls[i] == Chunk(MockChunks(prompt)[i])
    ensures forall i :: 0 <= i < |r.sleepsMs| ==> r.sleepsMs[i] == MockDelayMs
    ensures WellFormedPulls(r.pulls)
  {
    var cs := MockChunks(prompt);
    MockChunkShape(prompt);
    SourceRun(seq(|cs|, i requires 0 <= i < |cs| => Chunk(cs[i])),
              seq(|cs|, i => MockDelayMs), 0)
  }

  // ------------------------------------------------------- real provider

  /** `event.choices[i].delta`; `content` is None when the attribute is missing or None. */
  datatype Delta = Delta(content: Option<string>)

  /** A provider event: its `choices`, or an event of some other shape, on
      which reading `choices[0].delta` raises. */
  datatype Event = Event(choices: seq<Delta>) | Malformed

  /** An item of an established stream: an event, or the Exception that the
      stream's own iteration raised. */
  datatype StreamItem = Item(event: Event) | Broken(error: Error)

  /** The result of one stream-creation call. */
  datatype Attempt = Opened(stream: seq<StreamItem>) | Refused(error: Error)

  /** The source tries to create the stream three times. */
  const MaxAttempts: nat := 3

  function Pow2(i: nat): nat {
    if i == 0 then 1 else 2 * Pow2(i - 1)
  }

  /** The pause after failed attempt `i`: 0.5 * 2^i seconds. */
  function BackoffMs(i: nat): nat {
    500 * Pow2(i)
  }

  /** The pauses after the first `n` failed attempts, in order. */
  function Backoffs(n: nat): seq<nat> {
    if n == 0 then [] else Backoffs(n - 1) + [BackoffMs(n - 1)]
  }

  lemma {:induction false} BackoffsAt(n: nat)
    ensures |Backoffs(n)| == n
    ensures forall i :: 0 <= i < n ==> Backoffs(n)[i] == BackoffMs(i)
  {
    if n > 0 {
      BackoffsAt(n - 1);
    }
  }

  /** The index of the first attempt at or after `from` that opened a stream,
      or `|attempts|` when none did. */
  function FirstOpened(attempts: seq<Attempt>, from: nat): (k: nat)
    requires from <= |attempts|
    ensures from <= k <= |attempts|
    ensures forall j :: from <= j < k ==> attempts[j].Refused?
    ensures k < |attempts| ==> attempts[k].Opened?
    decreases |attempts| - from
  {
    if from == |attempts| || attempts[from].Opened? then from
    else FirstOpened(attempts, from + 1)
  }

  /** What stream establishment did: the stream or the error it raised, how
      many creation calls it made, and the pauses it took. */
  datatype Established = Established(stream: Result<seq<StreamItem>, Error>, tries: nat, sleepsMs: seq<nat>)

  /** The retry policy: creation is attempted until the first success, at most
      three times; every failed attempt `i` is followed by a pause of
      `BackoffMs(i)`, the last one included; when all three fail, the last
      error is raised. */
  function Retry(attempts: seq<Attempt>): (r: Established)
    requires |attempts| == MaxAttempts
    ensures 1 <= r.tries <= MaxAttempts
    ensures forall j :: 0 <= j < r.tries - 1 ==> attempts[j].Refused?
    ensures r.stream.Success? <==> exists j :: 0 <= j < MaxAttempts && attempts[j].Opened?
    ensures r.stream.Success? ==>
      attempts[r.tries - 1] == Opened(r.stream.value) && r.sleepsMs == Backoffs(r.tries - 1)
    ensures r.stream.Failure? ==>
      && r.tries == MaxAttempts
      && r.stream.error == attempts[MaxAttempts - 1].error
      && r.sleepsMs == [500, 1000, 2000]
  {
    var k := FirstOpened(attempts, 0);
    if k < MaxAttempts then
      Established(Success(attempts[k].stream), k + 1, Backoffs(k))
    else
      assert Backoffs(3) == [500, 1000, 2000] by {
        assert Pow2(2) == 4;
        assert Backoffs(1) == [500];
      }
      Established(Failure(attempts[MaxAttempts - 1].error), MaxAttempts, Backoffs(MaxAttempts))
  }

  /** The retry loop of `openai_stream_response`. */
  method EstablishStream(attempts: seq<Attempt>) returns (e: Established)
    requires |attempts| == MaxAttempts
    ensures e == Retry(attempts)
  {
    var lastError: Option<Error> := None;
    var stream: Option<seq<StreamItem>> := None;
    var sleeps: seq<nat> := [];
    var attempt := 0;
    while attempt < MaxAttempts
      invariant 0 <= attempt <= MaxAttempts
      invariant forall j :: 0 <= j < attempt ==> attempts[j].Refused?
      invariant sleeps == Backoffs(attempt)
      invariant attempt > 0 ==> lastError == Some(attempts[attempt - 1].error)
      invariant stream == None
    {
      match attempts[attempt]
      case Opened(s) =>
        stream := Some(s);
        break;
      case Refused(err) =>
        lastError := Some(err);
        sleeps := sleeps + [BackoffMs(attempt)];
        attempt := attempt + 1;
    }
    assert stream.None? ==> FirstOpened(attempts, 0) == MaxAttempts;
    if stream.None? {
      e := Established(Failure(lastError.value), MaxAttempts, sleeps);
    } else {
      assert FirstOpened(attempts, 0) == attempt;
      e := Established(Success(stream.value), attempt + 1, sleeps);
    }
  }

  /** The chunk an event contributes: the content, when it is a non-empty
      string; nothing when the event has no choices, has an unexpected shape,
      or its content is missing, None or empty. */
  function ContentOf(e: Event): (c: Option<string>)
    ensures c.Some? ==> c.value != ""
  {
    match e
    case Malformed => None
    case Event(choices) =>
      if |choices| == 0 then None
      else match choices[0].content
        case Some(text) => if text != "" then Some(text) else None
        case None => None
  }

  /** What the consumer pulls from an established stream: the contents of the
      events in order, until the stream's own iteration raises; that error
      ends the pulls and is not caught. */
  function Filtered(items: seq<StreamItem>): (out: seq<Outcome>)
    ensures |out| <= |items|
  {
    if items == [] then []
    else match items[0]
      case Broken(err) => [Fail(err)]
      case Item(ev) =>
        (match ContentOf(ev) case Some(c) => [Chunk(c)] case None => []) + Filtered(items[1..])
  }

  /** The `async for event in stream` loop with its skip-on-exception body. */
  method RelayEvents(items: seq<StreamItem>) returns (out: seq<Outcome>)
    ensures out == Filtered(items)
  {
    out := [];
    var i := 0;
    while i < |items|
      invariant 0 <= i <= |items|
      invariant out + Filtered(items[i..]) == Filtered(items)
    {
      assert items[i..][1..] == items[i + 1..];
      match items[i]
      case Broken(err) =>
        out := out + [Fail(err)];
        return;
      case Item(ev) =>
        var content := ContentOf(ev);
        if content.Some? {
          out := out + [Chunk(content.value)];
        }
        i := i + 1;
    }
    assert items[i..] == [];
  }

  /** Events with content become chunks; an error in the stream's iteration is
      the last pull. */
  lemma {:induction false} FilteredWellFormed(items: seq<StreamItem>)
    ensures WellFormedPulls(Filtered(items))
  {
    if items != [] && items[0].Item? {
      FilteredWellFormed(items[1..]);
    }
  }

  /** The filter works item by item, in order: a prefix free of iteration
      errors contributes its pulls before those of the rest. */
  lemma {:induction false} FilteredAppend(a: seq<StreamItem>, b: seq<StreamItem>)
    requires forall i :: 0 <= i < |a| ==> a[i].Item?
    ensures Filtered(a + b) == Filtered(a) + Filtered(b)
  {
    if a == [] {
      assert a + b == b;
    } else {
      assert (a + b)[1..] == a[1..] + b;
      FilteredAppend(a[1..], b);
    }
  }

  /** An error raised by the stream's iteration after the items `items[..j]`
      ends the pulls with that error; nothing after it is read. */
  lemma FilteredStopsAtBreak(items: seq<StreamItem>, j: nat)
    requires j < |items| && items[j].Broken?
    requires forall i :: 0 <= i < j ==> items[i].Item?
    ensures Filtered(items) == Filtered(items[..j]) + [Fail(items[j].error)]
  {
    assert items == items[..j] + items[j..];
    FilteredAppend(items[..j], items[j..]);
  }

  /** A chunk is pulled iff some event read before any iteration error carries it. */
  lemma {:induction false} FilteredChunks(items: seq<StreamItem>, c: string)
    ensures Chunk(c) in Filtered(items) <==>
      exists j :: 0 <= j < |items| && items[j].Item? && ContentOf(items[j].event) == Some(c)
                  && forall i :: 0 <= i < j ==> items[i].Item?
  {
    if items != [] && items[0].Item? {
      FilteredChunks(items[1..], c);
      if Chunk(c) in Filtered(items) && ContentOf(items[0].event) != Some(c) {
        assert Chunk(c) in Filtered(items[1..]);
        var j :| 0 <= j < |items[1..]| && items[1..][j].Item? && ContentOf(items[1..][j].event) == Some(c)
                 && forall i :: 0 <= i < j ==> items[1..][i].Item?;
        assert items[j + 1] == items[1..][j];
        assert forall i :: 0 <= i < j + 1 ==> items[i].Item? by {
          forall i | 0 <= i < j + 1 ensures items[i].Item? {
            if i > 0 {
              assert items[i] == items[1..][i - 1];
            }
          }
        }
      }
      if exists j :: 0 <= j < |items| && items[j].Item? && ContentOf(items[j].event) == Some(c)
                     && forall i :: 0 <= i < j ==> items[i].Item? {
        var j :| 0 <= j < |items| && items[j].Item? && ContentOf(items[j].event) == Some(c)
                 && forall i :: 0 <= i < j ==> items[i].Item?;
        if j > 0 {
          assert items[1..][j - 1] == items[j];
          assert forall i :: 0 <= i < j - 1 ==> items[1..][i].Item? by {
            forall i | 0 <= i < j - 1 ensures items[1..][i].Item? {
              assert items[1..][i] == items[i + 1];
            }
          }
          assert Chunk(c) in Filtered(items[1..]);
        }
      }
    }
  }

  // ------------------------------------------------------ choosing a source

  /** The configuration the chunk source reads. */
  datatype Config = Config(openaiApiKey: string, sdkAvailable: bool)

  datatype Provider = OpenAIProvider | MockProvider

  /** Everything one run of a chunk generator does that its consumer can
      observe: the pulls, the pauses, and the number of stream-creation calls. */
  datatype SourceRun = SourceRun(pulls: seq<Outcome>, sleepsMs: seq<nat>, tries: nat)

  /** `get_llm_streamer`: the real provider iff an API key is configured and the SDK imported. */
  function SelectStreamer(cfg: Config): (p: Provider)
    ensures p == OpenAIProvider <==> cfg.openaiApiKey != "" && cfg.sdkAvailable
  {
    if cfg.openaiApiKey != "" && cfg.sdkAvailable then OpenAIProvider else MockProvider
  }

  /** One run of `openai_stream_response`, which falls back to the mock on the
      same condition as `get_llm_streamer`. */
  function OpenAIRun(cfg: Config, prompt: string, attempts: seq<Attempt>): (r: SourceRun)
    requires |attempts| == MaxAttempts
    ensures r.tries == 0 <==> !cfg.sdkAvailable || cfg.openaiApiKey == ""
    ensures r.tries <= MaxAttempts
    ensures forall k :: 0 <= k < |r.sleepsMs| ==>
      r.sleepsMs[k] == if r.tries == 0 then MockDelayMs else BackoffMs(k)
  {
    BackoffsAt(MaxAttempts);
    BackoffsAt(Retry(attempts).tries - 1);
    if !cfg.sdkAvailable || cfg.openaiApiKey == "" then MockRun(prompt)
    else
      var r := Retry(attempts);
      match r.stream
      case Failure(err) => SourceRun([Fail(err)], r.sleepsMs, r.tries)
      case Success(items) => SourceRun(Filtered(items), r.sleepsMs, r.tries)
  }

  /** `openai_stream_response`. */
  method OpenAIStreamResponse(cfg: Config, prompt: string, attempts: seq<Attempt>) returns (run: SourceRun)
    requires |attempts| == MaxAttempts
    ensures run == OpenAIRun(cfg, prompt, attempts)
  {
    if !cfg.sdkAvailable || cfg.openaiApiKey == "" {
      run := MockRun(prompt);
      return;
    }
    var est := EstablishStream(attempts);
    match est.stream
    case Failure(err) =>
      run := SourceRun([Fail(err)], est.sleepsMs, est.tries);
    case Success(items) =>
      var pulls := RelayEvents(items);
      run := SourceRun(pulls, est.sleepsMs, est.tries);
  }

  /** A run of the provider `get_llm_streamer` chose. */
  function StreamerRun(p: Provider, cfg: Config, prompt: string, attempts: seq<Attempt>): SourceRun
    requires |attempts| == MaxAttempts
  {
    match p
    case OpenAIProvider => OpenAIRun(cfg, prompt, attempts)
    case MockProvider => MockRun(prompt)
  }

  /** The fallback inside `openai_stream_response` repeats the selection rule,
      so calling it directly behaves exactly like the selected streamer. */
  lemma SelectionAgreesWithFallback(cfg: Config, prompt: string, attempts: seq<Attempt>)
    requires |attempts| == MaxAttempts
    ensures StreamerRun(SelectStreamer(cfg), cfg, prompt, attempts) == OpenAIRun(cfg, prompt, attempts)
  {
  }

  /** Whatever the configuration, the selected source's pulls are well formed:
      non-empty chunks, and an Exception only last. */
  lemma SourceWellFormed(cfg: Config, prompt: string, attempts: seq<Attempt>)
    requires |attempts| == MaxAttempts
    ensures WellFormedPulls(StreamerRun(SelectStreamer(cfg), cfg, prompt, attempts).pulls)
  {
    MockChunkShape(prompt);
    var r := Retry(attempts);
    if r.stream.Success? {
      FilteredWellFormed(r.stream.value);
    }
  }

  /** When every creation attempt fails, the only pull raises the last error,
      no chunk is ever produced, and the source has paused 3.5 s in all. */
  lemma AllAttemptsFail(cfg: Config, prompt: string, attempts: seq<Attempt>)
    requires |attempts| == MaxAttempts
    requires cfg.openaiApiKey != "" && cfg.sdkAvailable
    requires forall j :: 0 <= j < MaxAttempts ==> attempts[j].Refused?
    ensures var run := StreamerRun(SelectStreamer(cfg), cfg, prompt, attempts);
      && run.pulls == [Fail(attempts[MaxAttempts - 1].error)]
      && run.tries == MaxAttempts
      && run.sleepsMs == [500, 1000, 2000]
      && Sum(run.sleepsMs) == 3500
  {
    assert Sum([2000]) == 2000;
    assert Sum([1000, 2000]) == 3000 by {
      assert [1000, 2000][1..] == [2000];
    }
    assert [500, 1000, 2000][1..] == [1000, 2000];
  }

  function Sum(xs: seq<nat>): nat {
    if xs == [] then 0 else xs[0] + Sum(xs[1..])
  }

  /** Once a stream is open no further creation call is made: an error in the
      stream's own iteration is not retried. */
  lemma NoRetryAfterOpen(cfg: Config, prompt: string, attempts: seq<Attempt>, k: nat)
    requires |attempts| == MaxAttempts
    requires cfg.openaiApiKey != "" && cfg.sdkAvailable
    requires k < MaxAttempts && attempts[k].Opened?
    requires forall j :: 0 <= j < k ==> attempts[j].Refused?
    ensures var run := StreamerRun(SelectStreamer(cfg), cfg, prompt, attempts);
      && run.tries == k + 1
      && run.pulls == Filtered(attempts[k].stream)
      && run.sleepsMs == Backoffs(k)
  {
    var r := Retry(attempts);
    assert r.stream.Success?;
  }
}
