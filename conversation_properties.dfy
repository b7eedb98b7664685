/**
 * What a conversation run promises: how retries are accounted for, that each
 * accepted turn adds exactly one message to each history with the roles
 * inverted, that the two histories stay mirror images, how many invocations and
 * blocks an unsupervised run makes and in which order, that the transcript is
 * seeded from participant 1 only and only ever grows, and that an unsupported
 * identifier ends the run.
 */
module ConversationProperties {
  import opened Wrappers
  import opened Escape
  import opened ModelInvoker
  import opened Conversation

  /** The number of consecutive retry keys from cursor `pos` on. */
  function Retries(keys: seq<char>, pos: nat): nat
    decreases |keys| - pos
  {
    if pos < |keys| && IsRetry(KeyAt(keys, pos)) then 1 + Retries(keys, pos + 1) else 0
  }

  /** The number of retries a turn starting at cursor `pos` makes. */
  function RetriesFrom(cfg: Config, pos: nat): nat
  {
    if cfg.supervised then Retries(cfg.keys, pos) else 0
  }

  /** `count` copies of `x`. */
  function Repeat<T>(x: T, count: nat): seq<T>
  {
    if count == 0 then [] else [x] + Repeat(x, count - 1)
  }

  /**
   * The blocks written for `count` drafts by `model` answering request `q`,
   * the first of them being the `first`-th call of the run.
   */
  function Drafts(model: string, q: Request, backend: (Request, nat) -> string, first: nat, count: nat): seq<Block>
    decreases count
  {
    if count == 0 then []
    else [Block(model, EscapeChars(backend(q, first)))] + Drafts(model, q, backend, first + 1, count - 1)
  }

  lemma {:induction false} RepeatAt<T>(x: T, count: nat)
    ensures |Repeat(x, count)| == count
    ensures forall i :: 0 <= i < count ==> Repeat(x, count)[i] == x
  {
    if count > 0 {
      RepeatAt(x, count - 1);
    }
  }

  /** Draft `i` is the normalised answer to the `(first + i)`-th call, headed by the model. */
  lemma {:induction false} DraftsAt(model: string, q: Request, backend: (Request, nat) -> string, first: nat, count: nat)
    ensures |Drafts(model, q, backend, first, count)| == count
    ensures forall i :: 0 <= i < count ==>
              Drafts(model, q, backend, first, count)[i] == Block(model, EscapeChars(backend(q, first + i)))
    decreases count
  {
    if count > 0 {
      DraftsAt(model, q, backend, first + 1, count - 1);
    }
  }

  /**
   * A turn's retry loop with `k` retries invokes the model `k + 1` times with
   * the same request; the accepted reply is the answer to the last of them,
   * and the cursor has moved past the `k` retry keys and the accepting key.
   */
  lemma {:induction false} AttemptRetries(model: string, history: seq<Message>, cfg: Config, log: Log)
    requires log.keyPos <= |cfg.keys|
    requires Supported(model)
    ensures var d := Attempt(model, history, cfg, log);
      var k := RetriesFrom(cfg, log.keyPos);
      var q := BuildRequest(model, history).value;
      && d.Accepted?
      && d.log.sent == log.sent + Repeat(q, k + 1)
      && d.reply == cfg.backend(q, |log.sent| + k)
      && d.log.keyPos == (if cfg.supervised then NextKeyPos(cfg.keys, log.keyPos + k) else log.keyPos)
    decreases |cfg.keys| - log.keyPos
  {
    var q := BuildRequest(model, history).value;
    var x := cfg.backend(q, |log.sent|);
    assert ChatWithModel(model, history, cfg.backend, |log.sent|) == Success(Call(q, x));
    if cfg.supervised && IsRetry(KeyAt(cfg.keys, log.keyPos)) {
      var next := Log(log.transcript + [Block(model, EscapeChars(x))], log.sent + [q], log.keyPos + 1);
      AttemptRetries(model, history, cfg, next);
      assert log.sent + [q] + Repeat(q, Retries(cfg.keys, log.keyPos + 1) + 1)
          == log.sent + Repeat(q, Retries(cfg.keys, log.keyPos) + 1);
    }
  }

  /**
   * Every draft of a turn's retry loop is written to the transcript, rejected
   * ones included, each as the normalised answer to its own invocation.
   */
  lemma {:induction false} AttemptDrafts(model: string, history: seq<Message>, cfg: Config, log: Log)
    requires log.keyPos <= |cfg.keys|
    requires Supported(model)
    ensures var d := Attempt(model, history, cfg, log);
      var k := RetriesFrom(cfg, log.keyPos);
      var q := BuildRequest(model, history).value;
      && d.Accepted?
      && d.log.transcript == log.transcript + Drafts(model, q, cfg.backend, |log.sent|, k + 1)
    decreases |cfg.keys| - log.keyPos
  {
    var q := BuildRequest(model, history).value;
    var x := cfg.backend(q, |log.sent|);
    assert ChatWithModel(model, history, cfg.backend, |log.sent|) == Success(Call(q, x));
    var b := Block(model, EscapeChars(x));
    if cfg.supervised && IsRetry(KeyAt(cfg.keys, log.keyPos)) {
      var next := Log(log.transcript + [b], log.sent + [q], log.keyPos + 1);
      AttemptDrafts(model, history, cfg, next);
      var k := Retries(cfg.keys, log.keyPos + 1);
      assert log.transcript + [b] + Drafts(model, q, cfg.backend, |log.sent| + 1, k + 1)
          == log.transcript + Drafts(model, q, cfg.backend, |log.sent|, k + 2);
    }
  }

  /**
   * A turn whose model is unsupported records the error and changes nothing
   * else: no request, no block, no message.
   */
  lemma TurnRefused(s: State, side: Side, cfg: Config)
    requires s.failure.None? && !Supported(SpeakerModel(side, cfg))
    ensures Turn(s, side, cfg) == s.(failure := Some(UnsupportedModel(SpeakerModel(side, cfg))))
  {
  }

  /**
   * A turn of a supported model, however many retries `k` it takes, adds
   * exactly one message to each history: the accepted reply, as `assistant`
   * to the speaker and as `user` to the other side. Its `k + 1` invocations
   * each send the speaker's request and write a draft headed by the
   * speaker's model; the accepted reply is the answer to the last of them.
   */
  lemma TurnAppendsOnce(s: State, side: Side, cfg: Config)
    requires s.failure.None? && s.log.keyPos <= |cfg.keys|
    requires Supported(SpeakerModel(side, cfg))
    ensures var t := Turn(s, side, cfg);
      var model := SpeakerModel(side, cfg);
      var q := BuildRequest(model, SpeakerHistory(s, side)).value;
      var k := RetriesFrom(cfg, s.log.keyPos);
      var reply := cfg.backend(q, |s.log.sent| + k);
      && t.failure.None?
      && q.model == model
      && t.h1 == s.h1 + [Message(if side == First then Assistant else User, reply)]
      && t.h2 == s.h2 + [Message(if side == First then User else Assistant, reply)]
      && t.log.sent == s.log.sent + Repeat(q, k + 1)
      && t.log.transcript == s.log.transcript + Drafts(model, q, cfg.backend, |s.log.sent|, k + 1)
      && s.log.keyPos <= t.log.keyPos <= |cfg.keys|
  {
    var model, history := SpeakerModel(side, cfg), SpeakerHistory(s, side);
    AttemptRetries(model, history, cfg, s.log);
    AttemptDrafts(model, history, cfg, s.log);
    RequestShape(model, history);
    var d := Attempt(model, history, cfg, s.log);
    TurnAccepted(s, side, cfg, d);
  }

  /** The role a message has in the other participant's history. */
  function FlipRole(r: Role): Role
  {
    match r
    case User => Assistant
    case Assistant => User
    case System => System
  }

  /** A history as the other participant sees it. */
  function Flip(h: seq<Message>): seq<Message>
  {
    seq(|h|, i requires 0 <= i < |h| => Message(FlipRole(h[i].role), h[i].content))
  }

  /**
   * `s` is reachable from `s0`: both histories, the requests and the transcript
   * have only grown; what the two histories gained is the same messages with
   * the roles inverted; one block was written per request; the key cursor has
   * not moved back.
   */
  ghost predicate Follows(s0: State, s: State)
  {
    && s0.h1 <= s.h1 && s0.h2 <= s.h2
    && s.h2[|s0.h2|..] == Flip(s.h1[|s0.h1|..])
    && s0.log.sent <= s.log.sent && s0.log.transcript <= s.log.transcript
    && |s.log.transcript| - |s0.log.transcript| == |s.log.sent| - |s0.log.sent|
    && s0.log.keyPos <= s.log.keyPos
  }

  lemma FlipAppend(h: seq<Message>, m: Message)
    ensures Flip(h + [m]) == Flip(h) + [Message(FlipRole(m.role), m.content)]
  {
  }

  /** Every turn keeps the histories mirrored and the log growing. */
  lemma TurnFollows(s0: State, s: State, side: Side, cfg: Config)
    requires Follows(s0, s) && s.log.keyPos <= |cfg.keys|
    ensures Follows(s0, Turn(s, side, cfg)) && Turn(s, side, cfg).log.keyPos <= |cfg.keys|
  {
    if s.failure.None? && Supported(SpeakerModel(side, cfg)) {
      var t := Turn(s, side, cfg);
      var model := SpeakerModel(side, cfg);
      var q := BuildRequest(model, SpeakerHistory(s, side)).value;
      var k := RetriesFrom(cfg, s.log.keyPos);
      TurnAppendsOnce(s, side, cfg);
      RepeatAt(q, k + 1);
      DraftsAt(model, q, cfg.backend, |s.log.sent|, k + 1);
      var m1, m2 := t.h1[|s.h1|], t.h2[|s.h2|];
      assert t.h1[|s0.h1|..] == s.h1[|s0.h1|..] + [m1];
      assert t.h2[|s0.h2|..] == s.h2[|s0.h2|..] + [m2];
      FlipAppend(s.h1[|s0.h1|..], m1);
    } else if s.failure.None? {
      TurnRefused(s, side, cfg);
    }
  }

  /** The mirror invariant and the growth of the log hold after any number of exchanges. */
  lemma {:induction false} RunFollows(s: State, n: int, cfg: Config)
    requires s.log.keyPos <= |cfg.keys|
    ensures Follows(s, Run(s, n, cfg)) && Run(s, n, cfg).log.keyPos <= |cfg.keys|
    decreases n
  {
    if n <= 0 {
      assert s.h2[|s.h2|..] == [] == Flip(s.h1[|s.h1|..]);
    } else {
      var r := Run(s, n - 1, cfg);
      RunFollows(s, n - 1, cfg);
      TurnFollows(s, r, First, cfg);
      TurnFollows(s, Turn(r, First, cfg), Second, cfg);
    }
  }

  /**
   * A whole run: the transcript opens with participant 1's starting history
   * (participant 2's is never written), holds one further block per
   * invocation, and participant 2's gains mirror participant 1's; when
   * participant 2 starts empty, its history is exactly participant 1's new
   * messages with the roles inverted.
   */
  lemma ConverseFollows(h1: seq<Message>, h2: seq<Message>, n: int, cfg: Config)
    ensures var s := Converse(h1, h2, n, cfg);
      && h1 <= s.h1 && h2 <= s.h2
      && s.h2[|h2|..] == Flip(s.h1[|h1|..])
      && SeedBlocks(h1) <= s.log.transcript
      && |s.log.transcript| == |h1| + |s.log.sent|
      && (h2 == [] ==> s.h2 == Flip(s.h1[|h1|..]))
  {
    RunFollows(Initial(h1, h2), n, cfg);
    var s := Converse(h1, h2, n, cfg);
    if h2 == [] {
      assert s.h2[|h2|..] == s.h2;
    }
  }

  /** A run with no exchange writes participant 1's starting history and nothing else. */
  lemma ConverseSeedOnly(h1: seq<Message>, h2: seq<Message>, n: int, cfg: Config)
    requires n <= 0
    ensures Converse(h1, h2, n, cfg) == State(h1, h2, Log(SeedBlocks(h1), [], 0), None)
    ensures |Converse(h1, h2, n, cfg).log.transcript| == |h1|
  {
  }

  /** Seed blocks are headed by the capitalised role. */
  lemma SeedHeaders(content: string)
    ensures SeedBlock(Message(User, content)) == Block("User", EscapeChars(content))
    ensures SeedBlock(Message(Assistant, content)) == Block("Assistant", EscapeChars(content))
  {
    assert LowerString("ser") == "ser";
    assert LowerString("ssistant") == "ssistant";
  }

  /** One exchange of two supported models: two messages more in each history, at least two requests. */
  lemma SupportedRound(r: State, cfg: Config)
    requires Supported(cfg.model1) && Supported(cfg.model2)
    requires r.failure.None? && r.log.keyPos <= |cfg.keys|
    ensures var t := Round(r, cfg);
      && t.failure.None? && t.log.keyPos <= |cfg.keys|
      && |t.h1| == |r.h1| + 2 && |t.h2| == |r.h2| + 2
      && |t.log.sent| >= |r.log.sent| + 2
  {
    var m := Turn(r, First, cfg);
    TurnAppendsOnce(r, First, cfg);
    TurnAppendsOnce(m, Second, cfg);
    RepeatAt(BuildRequest(cfg.model1, r.h1).value, RetriesFrom(cfg, r.log.keyPos) + 1);
    RepeatAt(BuildRequest(cfg.model2, m.h2).value, RetriesFrom(cfg, m.log.keyPos) + 1);
  }

  /**
   * With both identifiers supported nothing fails, and each exchange adds two
   * messages to each history whatever the operator does; at least two
   * requests are sent per exchange.
   */
  lemma {:induction false} SupportedRun(s: State, n: nat, cfg: Config)
    requires Supported(cfg.model1) && Supported(cfg.model2)
    requires s.failure.None? && s.log.keyPos <= |cfg.keys|
    ensures var t := Run(s, n, cfg);
      && t.failure.None? && t.log.keyPos <= |cfg.keys|
      && |t.h1| == |s.h1| + 2 * n && |t.h2| == |s.h2| + 2 * n
      && |t.log.sent| >= |s.log.sent| + 2 * n
  {
    if n > 0 {
      var r := Run(s, n - 1, cfg);
      SupportedRun(s, n - 1, cfg);
      SupportedRound(r, cfg);
      assert Run(s, n, cfg) == Round(r, cfg);
    }
  }

  /** The model each request was sent to. */
  function Models(sent: seq<Request>): seq<string>
  {
    seq(|sent|, i requires 0 <= i < |sent| => sent[i].model)
  }

  /** The header of each transcript block. */
  function Headers(transcript: seq<Block>): seq<string>
  {
    seq(|transcript|, i requires 0 <= i < |transcript| => transcript[i].header)
  }

  /** `m1, m2` repeated `n` times. */
  function Alternating(n: nat, m1: string, m2: string): seq<string>
  {
    if n == 0 then [] else Alternating(n - 1, m1, m2) + [m1, m2]
  }

  /** Position `j` of the alternation is `m1` when `j` is even and `m2` when it is odd. */
  lemma {:induction false} AlternatingAt(n: nat, m1: string, m2: string)
    ensures |Alternating(n, m1, m2)| == 2 * n
    ensures forall j :: 0 <= j < 2 * n ==> Alternating(n, m1, m2)[j] == if j % 2 == 0 then m1 else m2
  {
    if n > 0 {
      AlternatingAt(n - 1, m1, m2);
      assert (2 * (n - 1)) % 2 == 0 && (2 * (n - 1) + 1) % 2 == 1;
    }
  }

  lemma ExtendAlternation(a: seq<string>, b: seq<string>, c: seq<string>, n: nat, m1: string, m2: string)
    requires n > 0 && b == a + Alternating(n - 1, m1, m2) && c == b + [m1, m2]
    ensures c == a + Alternating(n, m1, m2)
  {
    assert a + Alternating(n - 1, m1, m2) + [m1, m2] == a + (Alternating(n - 1, m1, m2) + [m1, m2]);
  }

  /** Unsupervised, one exchange sends one request and writes one block for each model, in order. */
  lemma UnsupervisedRound(r: State, cfg: Config)
    requires !cfg.supervised && Supported(cfg.model1) && Supported(cfg.model2)
    requires r.failure.None? && r.log.keyPos <= |cfg.keys|
    ensures var t := Round(r, cfg);
      && Models(t.log.sent) == Models(r.log.sent) + [cfg.model1, cfg.model2]
      && Headers(t.log.transcript) == Headers(r.log.transcript) + [cfg.model1, cfg.model2]
  {
    var m := Turn(r, First, cfg);
    TurnAppendsOnce(r, First, cfg);
    TurnAppendsOnce(m, Second, cfg);
    var t := Turn(m, Second, cfg);
    assert |t.log.sent| == |r.log.sent| + 2 && |t.log.transcript| == |r.log.transcript| + 2;
    assert Models(t.log.sent) == Models(r.log.sent) + [cfg.model1, cfg.model2];
    assert Headers(t.log.transcript) == Headers(r.log.transcript) + [cfg.model1, cfg.model2];
  }

  /** The `n`-th unsupervised exchange adds one request and one block for each model, in order. */
  lemma UnsupervisedStep(s: State, n: nat, cfg: Config)
    requires n > 0
    requires !cfg.supervised && Supported(cfg.model1) && Supported(cfg.model2)
    requires s.failure.None? && s.log.keyPos <= |cfg.keys|
    ensures var t, r := Run(s, n, cfg), Run(s, n - 1, cfg);
      && Models(t.log.sent) == Models(r.log.sent) + [cfg.model1, cfg.model2]
      && Headers(t.log.transcript) == Headers(r.log.transcript) + [cfg.model1, cfg.model2]
  {
    var r := Run(s, n - 1, cfg);
    SupportedRun(s, n - 1, cfg);
    UnsupervisedRound(r, cfg);
    assert Run(s, n, cfg) == Round(r, cfg);
  }

  /**
   * Unsupervised, every turn is a single invocation, so the requests go
   * alternately to participant 1's model and participant 2's.
   */
  lemma {:induction false} UnsupervisedModels(s: State, n: nat, cfg: Config)
    requires !cfg.supervised && Supported(cfg.model1) && Supported(cfg.model2)
    requires s.failure.None? && s.log.keyPos <= |cfg.keys|
    ensures Models(Run(s, n, cfg).log.sent) == Models(s.log.sent) + Alternating(n, cfg.model1, cfg.model2)
  {
    if n > 0 {
      UnsupervisedModels(s, n - 1, cfg);
      UnsupervisedStep(s, n, cfg);
      ExtendAlternation(Models(s.log.sent), Models(Run(s, n - 1, cfg).log.sent),
                        Models(Run(s, n, cfg).log.sent), n, cfg.model1, cfg.model2);
    }
  }

  /**
   * Unsupervised, the blocks are written alternately for participant 1's
   * model and participant 2's.
   */
  lemma {:induction false} UnsupervisedHeaders(s: State, n: nat, cfg: Config)
    requires !cfg.supervised && Supported(cfg.model1) && Supported(cfg.model2)
    requires s.failure.None? && s.log.keyPos <= |cfg.keys|
    ensures Headers(Run(s, n, cfg).log.transcript) == Headers(s.log.transcript) + Alternating(n, cfg.model1, cfg.model2)
  {
    if n > 0 {
      UnsupervisedHeaders(s, n - 1, cfg);
      UnsupervisedStep(s, n, cfg);
      ExtendAlternation(Headers(s.log.transcript), Headers(Run(s, n - 1, cfg).log.transcript),
                        Headers(Run(s, n, cfg).log.transcript), n, cfg.model1, cfg.model2);
    }
  }

  /**
   * Unsupervised, `n` exchanges send `2n` requests and write `2n` blocks
   * and add `2n` messages to each history.
   */
  lemma {:induction false} UnsupervisedCounts(s: State, n: nat, cfg: Config)
    requires !cfg.supervised && Supported(cfg.model1) && Supported(cfg.model2)
    requires s.failure.None? && s.log.keyPos <= |cfg.keys|
    ensures var t := Run(s, n, cfg);
      && t.failure.None?
      && |t.h1| == |s.h1| + 2 * n && |t.h2| == |s.h2| + 2 * n
      && |t.log.sent| == |s.log.sent| + 2 * n
      && |t.log.transcript| == |s.log.transcript| + 2 * n
  {
    var t := Run(s, n, cfg);
    SupportedRun(s, n, cfg);
    UnsupervisedModels(s, n, cfg);
    UnsupervisedHeaders(s, n, cfg);
    AlternatingAt(n, cfg.model1, cfg.model2);
    assert |Models(t.log.sent)| == |t.log.sent|;
    assert |Headers(t.log.transcript)| == |t.log.transcript|;
  }

  /**
   * An unsupported identifier for participant 1 ends the run at its first
   * turn: the state is the seeded one, with the error.
   */
  lemma FirstUnsupportedStops(h1: seq<Message>, h2: seq<Message>, n: int, cfg: Config)
    requires n >= 1 && !Supported(cfg.model1)
    ensures Converse(h1, h2, n, cfg) == Initial(h1, h2).(failure := Some(UnsupportedModel(cfg.model1)))
  {
    var s := Initial(h1, h2);
    assert Run(s, 1, cfg) == Round(s, cfg);
    TurnRefused(s, First, cfg);
    RunStopsAtFailure(s, 1, n, cfg);
  }

  /**
   * An unsupported identifier for participant 2 ends the run at its first
   * turn, after participant 1's first reply has reached both histories.
   */
  lemma SecondUnsupportedStops(h1: seq<Message>, h2: seq<Message>, n: int, cfg: Config)
    requires n >= 1 && Supported(cfg.model1) && !Supported(cfg.model2)
    ensures var s := Converse(h1, h2, n, cfg);
      && s == Turn(Initial(h1, h2), First, cfg).(failure := Some(UnsupportedModel(cfg.model2)))
      && |s.h1| == |h1| + 1 && |s.h2| == |h2| + 1
  {
    var s := Initial(h1, h2);
    assert Run(s, 1, cfg) == Round(s, cfg);
    TurnAppendsOnce(s, First, cfg);
    TurnRefused(Turn(s, First, cfg), Second, cfg);
    RunStopsAtFailure(s, 1, n, cfg);
  }

  /** The transcript file only grows: what is written is never rewritten. */
  lemma {:induction false} FileTextGrows(bs: seq<Block>, cs: seq<Block>)
    requires bs <= cs
    ensures FileText(bs) <= FileText(cs)
    decreases |cs|
  {
    if |bs| < |cs| {
      var init := cs[..|cs| - 1];
      assert bs == init[..|bs|];
      FileTextGrows(bs, init);
    } else {
      assert bs == cs;
    }
  }

  /** No exchange rewrites the transcript file written before it. */
  lemma RunFileGrows(s: State, n: int, cfg: Config)
    requires s.log.keyPos <= |cfg.keys|
    ensures FileText(s.log.transcript) <= FileText(Run(s, n, cfg).log.transcript)
  {
    RunFollows(s, n, cfg);
    FileTextGrows(s.log.transcript, Run(s, n, cfg).log.transcript);
  }

  /**
   * One unsupervised exchange between `gpt-4` and `claude-3-opus-20240229`
   * from the seed `[user: "hi"]`: `gpt-4` is asked with the persona first,
   * `claude` with the persona apart and the first reply as its only message;
   * each reply is mirrored into both histories, and the transcript holds the
   * seed and the two replies, in that order.
   */
  lemma Scenario(backend: (Request, nat) -> string, keys: seq<char>)
    ensures var cfg := Config("gpt-4", "claude-3-opus-20240229", false, backend, keys);
      var s := Converse([Message(User, "hi")], [], 1, cfg);
      var q1 := GptRequest("gpt-4", [Message(System, SystemPrompt), Message(User, "hi")], 1024);
      var r1 := backend(q1, 0);
      var q2 := ClaudeRequest("claude-3-opus-20240229", SystemPrompt, 1024, [Message(User, r1)]);
      var r2 := backend(q2, 1);
      && s.failure == None
      && s.h1 == [Message(User, "hi"), Message(Assistant, r1), Message(User, r2)]
      && s.h2 == [Message(User, r1), Message(Assistant, r2)]
      && s.log.sent == [q1, q2]
      && s.log.transcript == [Block("User", "hi"), Block("gpt-4", EscapeChars(r1)),
                              Block("claude-3-opus-20240229", EscapeChars(r2))]
  {
    var cfg := Config("gpt-4", "claude-3-opus-20240229", false, backend, keys);
    var s0 := Initial([Message(User, "hi")], []);
    var q1 := GptRequest("gpt-4", [Message(System, SystemPrompt), Message(User, "hi")], 1024);
    var r1 := backend(q1, 0);
    KnownIdentifiers(s0.h1);
    KnownIdentifiers([Message(User, r1)]);
    assert [Message(System, SystemPrompt)] + s0.h1 == [Message(System, SystemPrompt), Message(User, "hi")];
    SeedHeaders("hi");
    assert EscapeChars("hi") == "hi";
    assert s0.log.transcript == [Block("User", "hi")];
    TurnAppendsOnce(s0, First, cfg);
    var m := Turn(s0, First, cfg);
    assert m.h2 == [Message(User, r1)];
    TurnAppendsOnce(m, Second, cfg);
    assert Run(s0, 1, cfg) == Round(s0, cfg);
  }
}
