/** The streaming endpoint (app/routes.py): the relay `event_stream`, which
    forwards every chunk to the client, accumulates them and saves the
    accumulated text exactly once however the stream ends; the save
    `_persist_conversation` over a database session; and the parameter
    checks of the history endpoint. */
module Routes {
  import opened Wrappers
  import opened Text
  import opened Llm

  /** A stored conversation; `id` stands in for the uuid4 the row receives. */
  datatype Record = Record(id: nat, prompt: string, response: string)

  /** A database session: the committed rows, and the rows added since the
      last commit or rollback. */
  class Session {
    var rows: seq<Record>
    var pending: seq<Record>
    var nextId: nat
    /** How many times `_persist_conversation` has run against this session. */
    ghost var saves: nat

    /** Row ids are issued in increasing order and never reused. */
    ghost predicate Valid()
      reads this
    {
      && (forall i :: 0 <= i < |rows| ==> rows[i].id < nextId)
      && (forall i, j :: 0 <= i < j < |rows| ==> rows[i].id < rows[j].id)
      && (forall i :: 0 <= i < |pending| ==> pending[i].id >= nextId)
    }

    constructor ()
      ensures Valid() && rows == [] && pending == [] && saves == 0
    {
      rows, pending, nextId := [], [], 0;
      saves := 0;
    }

    /** `db.add(conv)`. */
    method Add(r: Record)
      requires Valid() && r.id >= nextId
      modifies this
      ensures Valid()
      ensures pending == old(pending) + [r]
      ensures rows == old(rows) && nextId == old(nextId) && saves == old(saves)
    {
      pending := pending + [r];
    }

    /** `db.commit()`: makes the added rows durable, or raises `failure` and
        changes nothing. */
    method Commit(failure: Option<Error>) returns (raised: Option<Error>)
      requires Valid()
      requires forall i, j :: 0 <= i < j < |pending| ==> pending[i].id < pending[j].id
      modifies this
      ensures Valid()
      ensures raised == failure
      ensures failure.None? ==> rows == old(rows) + old(pending) && pending == []
      ensures failure.None? ==> nextId == NextIdAfter(old(nextId), old(pending))
      ensures failure.Some? ==> rows == old(rows) && pending == old(pending) && nextId == old(nextId)
      ensures saves == old(saves)
    {
      raised := failure;
      if failure.None? {
        rows := rows + pending;
        nextId := NextIdAfter(nextId, pending);
        pending := [];
      }
    }

    /** `db.rollback()`: drops the rows added since the last commit, and
        raises `failure` if it fails; the committed rows stay as they were
        either way. */
    method Rollback(failure: Option<Error>) returns (raised: Option<Error>)
      requires Valid()
      modifies this
      ensures Valid()
      ensures raised == failure
      ensures pending == [] && rows == old(rows) && nextId == old(nextId) && saves == old(saves)
    {
      pending := [];
      raised := failure;
    }

    /** `_persist_conversation`: adds one row and commits; if that fails, rolls
        back, leaving the stored rows as they were, and re-raises. The commit
        raises `commitFailure`, the rollback `rollbackFailure`, if anything. */
    method Persist(prompt: string, response: string, commitFailure: Option<Error>, rollbackFailure: Option<Error>)
      returns (raised: Option<Error>)
      requires Valid() && pending == []
      modifies this
      ensures Valid() && pending == []
      ensures raised == PersistError(commitFailure, rollbackFailure)
      ensures saves == old(saves) + 1
      ensures commitFailure.None? ==>
        rows == old(rows) + [Record(old(nextId), prompt, response)] && nextId == old(nextId) + 1
      ensures commitFailure.Some? ==> rows == old(rows) && nextId == old(nextId)
    {
      saves := saves + 1;
      Add(Record(nextId, prompt, response));
      raised := Commit(commitFailure);
      if raised.Some? {
        var rollbackRaised := Rollback(rollbackFailure);
        if rollbackRaised.Some? {
          raised := rollbackRaised;
        }
      }
    }
  }

  /** What `_persist_conversation` raises: nothing when the commit succeeds;
      otherwise the commit's error, unless the rollback in the handler raises
      its own, which then propagates in its place. */
  function PersistError(commitFailure: Option<Error>, rollbackFailure: Option<Error>): (e: Option<Error>)
    ensures e.None? <==> commitFailure.None?
    ensures e.Some? && rollbackFailure.None? ==> e == commitFailure
    ensures e.Some? && rollbackFailure.Some? ==> e == rollbackFailure
  {
    if commitFailure.None? then None
    else if rollbackFailure.Some? then rollbackFailure
    else commitFailure
  }

  /** The id counter after committing `added`: one past the largest id. */
  function NextIdAfter(nextId: nat, added: seq<Record>): nat {
    if added == [] then nextId
    else
      var last := added[|added| - 1].id;
      if last >= nextId then last + 1 else nextId
  }

  // ------------------------------------------------------------- the relay

  /** What a run of `event_stream` does that the client or the database sees,
      in order: each chunk yielded, and the save it asks for. */
  datatype Effect = Yielded(chunk: string) | Saved(prompt: string, response: string)

  /** How the response generator ends: normally, or by raising. */
  datatype Termination = Completed | Raised(error: Error)

  /** The chunks the relay forwards: those pulled before the first Exception. */
  function Delivered(upstream: seq<Outcome>): seq<string> {
    if upstream == [] then []
    else match upstream[0]
      case Fail(_) => []
      case Chunk(c) => [c] + Delivered(upstream[1..])
  }

  /** The Exception that ends the pulls, if one does. */
  function StreamError(upstream: seq<Outcome>): Option<Error> {
    if upstream == [] then None
    else match upstream[0]
      case Fail(e) => Some(e)
      case Chunk(_) => StreamError(upstream[1..])
  }

  function Yields(chunks: seq<string>): seq<Effect> {
    seq(|chunks|, i requires 0 <= i < |chunks| => Yielded(chunks[i]))
  }

  /** The effects of one relay run: every delivered chunk yielded in order,
      then one save of the prompt with the concatenation of those chunks. */
  function RelayEffects(prompt: string, upstream: seq<Outcome>): (es: seq<Effect>)
    ensures |es| == |Delivered(upstream)| + 1
    ensures forall k :: 0 <= k < |es| - 1 ==> es[k] == Yielded(Delivered(upstream)[k])
    ensures es[|es| - 1].Saved? && es[|es| - 1].prompt == prompt
  {
    Yields(Delivered(upstream)) + [Saved(prompt, Concat(Delivered(upstream)))]
  }

  /** How the run ends, given what the save raised: a streaming error is
      re-raised whatever the save did (`finally: raise e`); otherwise the save's
      error is raised; otherwise the run completes. */
  function RelayEnding(upstream: seq<Outcome>, saveError: Option<Error>): (t: Termination)
    ensures t.Completed? <==> StreamError(upstream).None? && saveError.None?
    ensures StreamError(upstream).Some? ==> t == Raised(StreamError(upstream).value)
    ensures StreamError(upstream).None? && saveError.Some? ==> t == Raised(saveError.value)
  {
    match StreamError(upstream)
    case Some(e) => Raised(e)
    case None => if saveError.Some? then Raised(saveError.value) else Completed
  }

  /** The accumulator `full_text` right after each yield, in order. */
  function Accumulators(upstream: seq<Outcome>): (accs: seq<string>)
    ensures |accs| == |Delivered(upstream)|
  {
    var d := Delivered(upstream);
    seq(|d|, k requires 0 <= k < |d| => Concat(d[..k + 1]))
  }

  /** `event_stream`: pulls chunks from `upstream`, appends each to the
      accumulator before yielding it, and on exhaustion or on an Exception
      saves the accumulated text once. `commitFailure` and `rollbackFailure`
      are what the database raises on commit and on rollback, if anything;
      `accs` records the accumulator right after each yield. */
  method EventStream(session: Session, prompt: string, upstream: seq<Outcome>,
                     commitFailure: Option<Error>, rollbackFailure: Option<Error>)
    returns (effects: seq<Effect>, ending: Termination, ghost accs: seq<string>)
    requires session.Valid() && session.pending == []
    modifies session
    ensures session.Valid() && session.pending == []
    ensures effects == RelayEffects(prompt, upstream)
    ensures ending == RelayEnding(upstream, PersistError(commitFailure, rollbackFailure))
    ensures accs == Accumulators(upstream)
    ensures session.saves == old(session.saves) + 1
    ensures session.rows == old(session.rows) +
      (if commitFailure.None? then [Record(old(session.nextId), prompt, Concat(Delivered(upstream)))] else [])
  {
    var fullText := "";
    ghost var sent: seq<string> := [];
    effects := [];
    accs := [];
    var i := 0;
    while i < |upstream|
      invariant 0 <= i <= |upstream|
      invariant sent + Delivered(upstream[i..]) == Delivered(upstream)
      invariant StreamError(upstream[i..]) == StreamError(upstream)
      invariant effects == Yields(sent)
      invariant fullText == Concat(sent)
      invariant |accs| == |sent| && forall k :: 0 <= k < |sent| ==> accs[k] == Concat(sent[..k + 1])
      invariant session.Valid() && session.pending == []
      invariant unchanged(session)
    {
      assert upstream[i..][1..] == upstream[i + 1..];
      match upstream[i]
      case Fail(e) =>
        // except Exception as e: persist the partial text, then `finally: raise e`
        assert Delivered(upstream[i..]) == [];
        assert sent == Delivered(upstream);
        AccumulatorsOf(upstream, accs);
        var _ := session.Persist(prompt, fullText, commitFailure, rollbackFailure);
        effects := effects + [Saved(prompt, fullText)];
        ending := Raised(e);
        return;
      case Chunk(c) =>
        fullText := fullText + c;
        ConcatSnoc(sent, c);
        assert Yields(sent + [c]) == Yields(sent) + [Yielded(c)];
        assert (sent + [c])[..|sent| + 1] == sent + [c];
        assert forall k :: 0 <= k < |sent| ==> accs[k] == Concat((sent + [c])[..k + 1]) by {
          forall k | 0 <= k < |sent| ensures accs[k] == Concat((sent + [c])[..k + 1]) {
            assert (sent + [c])[..k + 1] == sent[..k + 1];
          }
        }
        sent := sent + [c];
        accs := accs + [fullText];
        effects := effects + [Yielded(c)];
        i := i + 1;
    }
    // else: persist the full text
    assert upstream[i..] == [];
    assert sent == Delivered(upstream);
    AccumulatorsOf(upstream, accs);
    var raised := session.Persist(prompt, fullText, commitFailure, rollbackFailure);
    effects := effects + [Saved(prompt, fullText)];
    ending := if raised.Some? then Raised(raised.value) else Completed;
  }

  lemma AccumulatorsOf(upstream: seq<Outcome>, accs: seq<string>)
    requires |accs| == |Delivered(upstream)|
    requires forall k :: 0 <= k < |accs| ==> accs[k] == Concat(Delivered(upstream)[..k + 1])
    ensures accs == Accumulators(upstream)
  {
  }

  /** The chunk texts of a run of pulls with no Exception. */
  function Texts(pulls: seq<Outcome>): seq<string>
    requires forall k :: 0 <= k < |pulls| ==> pulls[k].Chunk?
  {
    seq(|pulls|, k requires 0 <= k < |pulls| => pulls[k].text)
  }

  /** When the pulls raise at position `n`, after `n` chunks, exactly those
      `n` chunks are delivered and that error is the one that ends the stream. */
  lemma {:induction false} DeliveredUpToFailure(upstream: seq<Outcome>, n: nat)
    requires n <= |upstream|
    requires forall k :: 0 <= k < n ==> upstream[k].Chunk?
    requires n < |upstream| ==> upstream[n].Fail?
    ensures Delivered(upstream) == Texts(upstream[..n])
    ensures StreamError(upstream) == if n < |upstream| then Some(upstream[n].error) else None
    decreases n
  {
    if n == 0 {
      assert upstream[..n] == [];
    } else {
      DeliveredUpToFailure(upstream[1..], n - 1);
      assert Texts(upstream[..n]) == [upstream[0].text] + Texts(upstream[1..][..n - 1]);
    }
  }

  /** Normal exhaustion: every chunk is yielded in order, the save holds their
      concatenation, and the run completes unless the save fails, in which case
      the save's error reaches the caller. */
  lemma CompletedRun(prompt: string, upstream: seq<Outcome>, saveError: Option<Error>)
    requires forall k :: 0 <= k < |upstream| ==> upstream[k].Chunk?
    ensures RelayEffects(prompt, upstream) ==
      Yields(Texts(upstream)) + [Saved(prompt, Concat(Texts(upstream)))]
    ensures RelayEnding(upstream, saveError) ==
      if saveError.Some? then Raised(saveError.value) else Completed
  {
    DeliveredUpToFailure(upstream, |upstream|);
    assert upstream[..|upstream|] == upstream;
  }

  /** Failure after `n` chunks: those `n` chunks are yielded, their
      concatenation is saved, and the original streaming error is raised
      whether or not the save itself fails. */
  lemma FailedRun(prompt: string, upstream: seq<Outcome>, n: nat, saveError: Option<Error>)
    requires n < |upstream| && upstream[n].Fail?
    requires forall k :: 0 <= k < n ==> upstream[k].Chunk?
    ensures RelayEffects(prompt, upstream) ==
      Yields(Texts(upstream[..n])) + [Saved(prompt, Concat(Texts(upstream[..n])))]
    ensures RelayEnding(upstream, saveError) == Raised(upstream[n].error)
  {
    DeliveredUpToFailure(upstream, n);
  }

  /** When the first pull already raises (stream creation failed, say), the
      empty text is saved and the error is raised. */
  lemma FailedBeforeFirstChunk(prompt: string, upstream: seq<Outcome>, saveError: Option<Error>)
    requires upstream != [] && upstream[0].Fail?
    ensures RelayEffects(prompt, upstream) == [Saved(prompt, "")]
    ensures RelayEnding(upstream, saveError) == Raised(upstream[0].error)
  {
    FailedRun(prompt, upstream, 0, saveError);
    assert upstream[..0] == [];
  }

  /** The chunks among a run's effects, in order. */
  function YieldedChunks(effects: seq<Effect>): seq<string> {
    if effects == [] then []
    else (if effects[0].Yielded? then [effects[0].chunk] else []) + YieldedChunks(effects[1..])
  }

  lemma {:induction false} YieldedChunksOfYields(chunks: seq<string>)
    ensures YieldedChunks(Yields(chunks)) == chunks
  {
    if chunks != [] {
      YieldedChunksOfYields(chunks[1..]);
      assert Yields(chunks)[1..] == Yields(chunks[1..]);
    }
  }

  lemma {:induction false} YieldedChunksAppend(a: seq<Effect>, b: seq<Effect>)
    ensures YieldedChunks(a + b) == YieldedChunks(a) + YieldedChunks(b)
  {
    if a == [] {
      assert a + b == b;
    } else {
      assert (a + b)[1..] == a[1..] + b;
      YieldedChunksAppend(a[1..], b);
    }
  }

  /** Exactly once: a run saves exactly one time, as its last effect, and
      what it saves is the prompt with the concatenation of every chunk the
      client was sent before it. */
  lemma SavedOnceAtEnd(prompt: string, upstream: seq<Outcome>)
    ensures var es := RelayEffects(prompt, upstream);
      && |es| >= 1
      && (forall k :: 0 <= k < |es| - 1 ==> es[k].Yielded?)
      && es[|es| - 1] == Saved(prompt, Concat(YieldedChunks(es)))
  {
    var d := Delivered(upstream);
    var es := RelayEffects(prompt, upstream);
    YieldedChunksAppend(Yields(d), [Saved(prompt, Concat(d))]);
    YieldedChunksOfYields(d);
    assert YieldedChunks([Saved(prompt, Concat(d))]) == [];
    assert es == Yields(d) + [Saved(prompt, Concat(d))];
    assert YieldedChunks(es) == d;
  }

  /** The accumulator only grows: each yield appends exactly the chunk it
      yields to the previous value, every value is a prefix of the saved
      response, and the value after the last yield is the saved response. */
  lemma AccumulatorGrows(upstream: seq<Outcome>, k: nat)
    requires k < |Delivered(upstream)|
    ensures var d := Delivered(upstream); var accs := Accumulators(upstream);
      && accs[k] == (if k == 0 then "" else accs[k - 1]) + d[k]
      && accs[k] <= Concat(d)
      && (k == |d| - 1 ==> accs[k] == Concat(d))
  {
    var d := Delivered(upstream);
    assert d[..k + 1] == d[..k] + [d[k]];
    ConcatSnoc(d[..k], d[k]);
    if k == 0 {
      assert d[..0] == [];
    }
    ConcatPrefix(d, k + 1);
    if k == |d| - 1 {
      assert d[..k + 1] == d;
    }
  }

  // ------------------------------------------------------------ the endpoint

  /** The prompt length the request schema admits. */
  const MinPromptLength := 1
  const MaxPromptLength := 10000

  /** `POST /stream`: strips the request's prompt, runs the selected chunk
      source on it and relays the chunks, saving under the stripped prompt. */
  method Stream(session: Session, cfg: Config, requestPrompt: string, attempts: seq<Attempt>,
                commitFailure: Option<Error>, rollbackFailure: Option<Error>)
    returns (prompt: string, source: SourceRun, effects: seq<Effect>, ending: Termination)
    requires MinPromptLength <= |requestPrompt| <= MaxPromptLength
    requires |attempts| == MaxAttempts
    requires session.Valid() && session.pending == []
    modifies session
    ensures session.Valid() && session.pending == []
    ensures prompt == Strip(requestPrompt)
    ensures source == StreamerRun(SelectStreamer(cfg), cfg, prompt, attempts)
    ensures effects == RelayEffects(prompt, source.pulls)
    ensures ending == RelayEnding(source.pulls, PersistError(commitFailure, rollbackFailure))
    ensures session.saves == old(session.saves) + 1
    ensures session.rows == old(session.rows) +
      (if commitFailure.None? then [Record(old(session.nextId), prompt, Concat(Delivered(source.pulls)))] else [])
  {
    prompt := Strip(requestPrompt);
    match SelectStreamer(cfg) {
      case OpenAIProvider =>
        source := OpenAIStreamResponse(cfg, prompt, attempts);
      case MockProvider =>
        source := MockRun(prompt);
    }
    ghost var accs;
    effects, ending, accs := EventStream(session, prompt, source.pulls, commitFailure, rollbackFailure);
  }

  /** With the mock source the whole mock text reaches the client and the
      database: the saved response is its tokens joined by single spaces plus
      a trailing space, and the run completes unless the save fails. */
  lemma MockRunDelivered(prompt: string, saveError: Option<Error>)
    ensures Delivered(MockRun(prompt).pulls) == MockChunks(prompt)
    ensures Concat(Delivered(MockRun(prompt).pulls)) == JoinSpace(Words(MockText(prompt))) + " "
    ensures RelayEnding(MockRun(prompt).pulls, saveError) ==
      if saveError.Some? then Raised(saveError.value) else Completed
  {
    var pulls := MockRun(prompt).pulls;
    CompletedRun(prompt, pulls, saveError);
    DeliveredUpToFailure(pulls, |pulls|);
    assert pulls[..|pulls|] == pulls;
    assert Texts(pulls) == MockChunks(prompt);
    MockConcat(prompt);
  }

  // ------------------------------------------------------ history parameters

  /** Why `GET /history` refuses its parameters. */
  datatype PageError = LimitOutOfRange(maxLimit: int) | NegativeOffset

  /** The checks `get_history` makes before any query: the limit first, then
      the offset. */
  function HistoryParamsError(limit: int, offset: int, maxLimit: int): (e: Option<PageError>)
    ensures e.None? <==> 1 <= limit <= maxLimit && offset >= 0
    ensures e == Some(NegativeOffset) ==> 1 <= limit <= maxLimit
    ensures e.Some? && e.value.LimitOutOfRange? ==> e.value.maxLimit == maxLimit
  {
    if limit < 1 || limit > maxLimit then Some(LimitOutOfRange(maxLimit))
    else if offset < 0 then Some(NegativeOffset)
    else None
  }
}
