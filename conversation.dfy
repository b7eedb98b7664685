/**
 * The conversation orchestrator (`Participant` and `converse_with_models` in
 * run.py). Two participants take turns; each turn asks the speaker's model for
 * a reply inside a retry loop that an operator may supervise, writes every
 * draft to the transcript, and mirrors the accepted reply into both histories
 * with the roles inverted.
 *
 * The back end is a function from a request and the number of calls made so
 * far to the returned text; the operator's key presses are a sequence read in
 * order. The transcript file is the sequence of blocks written to it.
 */
module Conversation {
  import opened Wrappers
  import opened Escape
  import opened ModelInvoker

  /** One transcript block: a header and the normalised text. */
  datatype Block = Block(header: string, text: string)

  /** The characters one block adds to the transcript file. */
  function BlockText(b: Block): (r: string)
    ensures |r| == |b.header| + |b.text| + 5
    ensures r[..|b.header| + 3] == "<" + b.header + ">\n" && r[|r| - 2..] == "\n\n"
    ensures r[|b.header| + 3..|r| - 2] == b.text
  {
    "<" + b.header + ">\n" + b.text + "\n\n"
  }

  /** The transcript file holding `blocks`, written in order. */
  function FileText(blocks: seq<Block>): (r: string)
    ensures |r| >= 5 * |blocks|
  {
    if |blocks| == 0 then ""
    else FileText(blocks[..|blocks| - 1]) + BlockText(blocks[|blocks| - 1])
  }

  /** The role as it is spelled in a message. */
  function RoleName(r: Role): string
  {
    match r
    case User => "user"
    case Assistant => "assistant"
    case System => "system"
  }

  function Upper(c: char): char
  {
    if 'a' <= c <= 'z' then (c as int - 32) as char else c
  }

  function Lower(c: char): char
  {
    if 'A' <= c <= 'Z' then (c as int + 32) as char else c
  }

  function LowerString(s: string): string
  {
    seq(|s|, i requires 0 <= i < |s| => Lower(s[i]))
  }

  /** First character upper case, the rest lower case (ASCII letters only). */
  function Capitalize(s: string): (r: string)
    ensures |r| == |s|
    ensures |s| > 0 ==> r[0] == Upper(s[0])
    ensures forall i :: 1 <= i < |s| ==> r[i] == Lower(s[i])
  {
    if |s| == 0 then "" else [Upper(s[0])] + LowerString(s[1..])
  }

  /** The block a seed message becomes: its capitalised role and its normalised content. */
  function SeedBlock(m: Message): (b: Block)
    ensures b.header == "User" || b.header == "Assistant" || b.header == "System"
    ensures NoPair(b.text) && |b.text| <= |m.content|
  {
    EscapedHasNoPair(m.content);
    Block(Capitalize(RoleName(m.role)), EscapeChars(m.content))
  }

  /** The blocks a starting history becomes: one per message, in order. */
  function SeedBlocks(h: seq<Message>): (r: seq<Block>)
    ensures |r| == |h|
    ensures forall i :: 0 <= i < |h| ==> r[i] == SeedBlock(h[i])
  {
    seq(|h|, i requires 0 <= i < |h| => SeedBlock(h[i]))
  }

  /** The key read at cursor `pos`: one character, or nothing once the input is exhausted. */
  function KeyAt(keys: seq<char>, pos: nat): (key: string)
    ensures |key| <= 1
    ensures |key| == 1 <==> pos < |keys|
    ensures |key| == 1 ==> key[0] == keys[pos]
  {
    if pos < |keys| then [keys[pos]] else ""
  }

  /** The cursor after a read: it moves past exactly the characters read. */
  function NextKeyPos(keys: seq<char>, pos: nat): (next: nat)
    ensures next == pos + |KeyAt(keys, pos)|
    ensures pos <= |keys| ==> next <= |keys|
  {
    if pos < |keys| then pos + 1 else pos
  }

  /** The operator asks for another draft with `r` or `R`. */
  predicate IsRetry(key: string)
    ensures IsRetry(key) ==> |key| == 1 && Lower(key[0]) == 'r'
  {
    key == "r" || key == "R"
  }

  /** For the at most one character a key read yields, that is the key lower-casing to `r`. */
  lemma IsRetryLowerCase(key: string)
    requires |key| <= 1
    ensures IsRetry(key) <==> LowerString(key) == "r"
  {
    if |key| == 1 {
      assert LowerString(key)[0] == Lower(key[0]);
      assert key == [key[0]];
    }
  }

  /** One side of the exchange: a model identifier and its own history. */
  class Participant {
    const model: string
    var conversation: seq<Message>

    constructor (model: string, conversation: seq<Message>)
      ensures this.model == model && this.conversation == conversation
    {
      this.model := model;
      this.conversation := conversation;
    }
  }

  /** The fixed inputs of one run. */
  datatype Config = Config(
    model1: string,
    model2: string,
    supervised: bool,
    backend: (Request, nat) -> string,
    keys: seq<char>)

  /** What the run has written so far: transcript blocks, requests sent, and the key cursor. */
  datatype Log = Log(transcript: seq<Block>, sent: seq<Request>, keyPos: nat)

  /** Everything a run changes: both histories, the log, and the error that ended the run, if any. */
  datatype State = State(h1: seq<Message>, h2: seq<Message>, log: Log, failure: Option<Error>)

  /** The outcome of one turn's retry loop. */
  datatype Draft = Accepted(reply: string, log: Log) | Refused(error: Error)

  datatype Side = First | Second

  /** The model that speaks on `side`'s turn. */
  function SpeakerModel(side: Side, cfg: Config): string
  {
    if side == First then cfg.model1 else cfg.model2
  }

  /** The history the speaker on `side`'s turn is invoked with. */
  function SpeakerHistory(s: State, side: Side): seq<Message>
  {
    if side == First then s.h1 else s.h2
  }

  /**
   * The retry loop of one turn: invoke the model on `history`, write the draft
   * to the transcript, and, when supervised, read a key and go round again on
   * a retry. Yields the accepted raw reply and the extended log.
   */
  function Attempt(model: string, history: seq<Message>, cfg: Config, log: Log): (d: Draft)
    ensures d.Refused? <==> !Supported(model)
    ensures d.Refused? ==> d.error == UnsupportedModel(model)
    ensures log.keyPos <= |cfg.keys| && d.Accepted? ==> d.log.keyPos <= |cfg.keys|
    decreases |cfg.keys| - log.keyPos
  {
    match ChatWithModel(model, history, cfg.backend, |log.sent|)
    case Failure(e) => Refused(e)
    case Success(x) =>
      var written := Log(log.transcript + [Block(model, EscapeChars(x.text))], log.sent + [x.request], log.keyPos);
      if !cfg.supervised then Accepted(x.text, written)
      else
        var key := KeyAt(cfg.keys, log.keyPos);
        var next := written.(keyPos := NextKeyPos(cfg.keys, log.keyPos));
        if IsRetry(key) then Attempt(model, history, cfg, next) else Accepted(x.text, next)
  }

  /** One turn: the accepted reply goes to the speaker as `assistant` and to the other side as `user`. */
  function Turn(s: State, side: Side, cfg: Config): (r: State)
    ensures r.failure.None? <==> s.failure.None? && Supported(SpeakerModel(side, cfg))
    ensures s.failure.None? && r.failure.Some? ==> r.failure.value == UnsupportedModel(SpeakerModel(side, cfg))
    ensures r.failure.Some? ==> r.h1 == s.h1 && r.h2 == s.h2 && r.log == s.log
    ensures r.failure.None? ==> |r.h1| == |s.h1| + 1 && |r.h2| == |s.h2| + 1
  {
    if s.failure.Some? then s
    else
      match Attempt(SpeakerModel(side, cfg), SpeakerHistory(s, side), cfg, s.log)
      case Refused(e) => s.(failure := Some(e))
      case Accepted(r, log) =>
        if side == First then State(s.h1 + [Message(Assistant, r)], s.h2 + [Message(User, r)], log, None)
        else State(s.h1 + [Message(User, r)], s.h2 + [Message(Assistant, r)], log, None)
  }

  /** One exchange: participant 1 speaks, then participant 2. */
  function Round(s: State, cfg: Config): (r: State)
    ensures r.failure.None? <==> s.failure.None? && Supported(cfg.model1) && Supported(cfg.model2)
    ensures s.failure.None? && r.failure.Some? ==> r.failure.value == FirstUnsupported(cfg)
    ensures r.failure.None? ==> |r.h1| == |s.h1| + 2 && |r.h2| == |s.h2| + 2
  {
    Turn(Turn(s, First, cfg), Second, cfg)
  }

  /** The error a run stops with: participant 1's model is invoked first. */
  function FirstUnsupported(cfg: Config): Error
  {
    UnsupportedModel(if Supported(cfg.model1) then cfg.model2 else cfg.model1)
  }

  /** The messages `n` completed exchanges add to each history. */
  function Messages(n: int): nat
  {
    if n <= 0 then 0 else 2 * n
  }

  /** `n` exchanges; a non-positive count performs none. */
  function Run(s: State, n: int, cfg: Config): (r: State)
    ensures s.failure.Some? ==> r == s
    ensures r.failure.None? <==> s.failure.None? && (n <= 0 || (Supported(cfg.model1) && Supported(cfg.model2)))
    ensures s.failure.None? && r.failure.Some? ==> r.failure.value == FirstUnsupported(cfg)
    ensures r.failure.None? ==> |r.h1| == |s.h1| + Messages(n) && |r.h2| == |s.h2| + Messages(n)
    decreases n
  {
    if n <= 0 then s else Round(Run(s, n - 1, cfg), cfg)
  }

  /** The state after seeding: participant 1's starting history is in the transcript. */
  function Initial(h1: seq<Message>, h2: seq<Message>): (r: State)
    ensures r.h1 == h1 && r.h2 == h2 && r.failure.None?
    ensures r.log.sent == [] && r.log.keyPos == 0 && |r.log.transcript| == |h1|
  {
    State(h1, h2, Log(SeedBlocks(h1), [], 0), None)
  }

  /** The whole run from the two starting histories. */
  function Converse(h1: seq<Message>, h2: seq<Message>, numExchanges: int, cfg: Config): (r: State)
    ensures r.failure.None? <==> numExchanges <= 0 || (Supported(cfg.model1) && Supported(cfg.model2))
    ensures r.failure.Some? ==> r.failure.value == FirstUnsupported(cfg)
    ensures r.failure.None? ==> |r.h1| == |h1| + Messages(numExchanges) && |r.h2| == |h2| + Messages(numExchanges)
  {
    Run(Initial(h1, h2), numExchanges, cfg)
  }

  /** An error ends the run: no later exchange changes anything. */
  lemma {:induction false} RunStopsAtFailure(s: State, m: int, n: int, cfg: Config)
    requires m <= n
    requires Run(s, m, cfg).failure.Some?
    ensures Run(s, n, cfg) == Run(s, m, cfg)
    decreases n - m
  {
    if m < n {
      RunStopsAtFailure(s, m, n - 1, cfg);
      if n - 1 >= 0 {
        assert Run(s, n, cfg) == Round(Run(s, n - 1, cfg), cfg);
      }
    }
  }

  /** An accepted draft is mirrored into both histories with the roles inverted. */
  lemma TurnAccepted(s: State, side: Side, cfg: Config, d: Draft)
    requires s.failure.None? && d.Accepted?
    requires d == Attempt(SpeakerModel(side, cfg), SpeakerHistory(s, side), cfg, s.log)
    ensures side == First ==>
      Turn(s, side, cfg) == State(s.h1 + [Message(Assistant, d.reply)], s.h2 + [Message(User, d.reply)], d.log, None)
    ensures side == Second ==>
      Turn(s, side, cfg) == State(s.h1 + [Message(User, d.reply)], s.h2 + [Message(Assistant, d.reply)], d.log, None)
  {
  }

  /**
   * The retry loop of one turn (`while True` in run.py): each pass invokes the
   * model on the unchanged history and writes the normalised draft; the loop
   * ends unsupervised, or when the key read is not a retry.
   */
  method Generate(model: string, history: seq<Message>, cfg: Config, log0: Log) returns (d: Draft)
    requires log0.keyPos <= |cfg.keys|
    ensures d == Attempt(model, history, cfg, log0)
  {
    var transcript, sent, keyPos := log0.transcript, log0.sent, log0.keyPos;
    var response := "";
    while true
      invariant keyPos <= |cfg.keys|
      invariant Attempt(model, history, cfg, Log(transcript, sent, keyPos)) == Attempt(model, history, cfg, log0)
      decreases |cfg.keys| - keyPos
    {
      var reply := ChatWithModel(model, history, cfg.backend, |sent|);
      if reply.Failure? {
        return Refused(reply.error);
      }
      response := reply.value.text;
      var formatted := EscapeChars(response);
      transcript := transcript + [Block(model, formatted)];
      sent := sent + [reply.value.request];
      if cfg.supervised {
        var key := KeyAt(cfg.keys, keyPos);
        keyPos := NextKeyPos(cfg.keys, keyPos);
        if !IsRetry(key) {
          break;
        }
      } else {
        break;
      }
    }
    d := Accepted(response, Log(transcript, sent, keyPos));
  }

  /** Writes one block per message of a starting history, in order. */
  method WriteSeed(conversation: seq<Message>) returns (transcript: seq<Block>)
    ensures transcript == SeedBlocks(conversation)
  {
    transcript := [];
    for i := 0 to |conversation|
      invariant transcript == SeedBlocks(conversation[..i])
    {
      var message := conversation[i];
      transcript := transcript + [Block(Capitalize(RoleName(message.role)), EscapeChars(message.content))];
    }
    assert conversation[..|conversation|] == conversation;
  }

  /**
   * One exchange (the body of the `for` loop in run.py): participant 1 answers,
   * its reply is mirrored into both histories, then participant 2 does the same.
   * An unsupported model identifier stops the exchange where it is met.
   */
  method Exchange(p1: Participant, p2: Participant, cfg: Config, log0: Log) returns (log: Log, failure: Option<Error>)
    requires p1 != p2 && cfg.model1 == p1.model && cfg.model2 == p2.model
    requires log0.keyPos <= |cfg.keys|
    modifies p1, p2
    ensures log.keyPos <= |cfg.keys|
    ensures State(p1.conversation, p2.conversation, log, failure)
            == Round(State(old(p1.conversation), old(p2.conversation), log0, None), cfg)
  {
    ghost var before := State(p1.conversation, p2.conversation, log0, None);
    log := log0;

    // Participant 1 responds to participant 2.
    var draft1 := Generate(p1.model, p1.conversation, cfg, log);
    if draft1.Refused? {
      return log, Some(draft1.error);
    }
    log := draft1.log;
    p1.conversation := p1.conversation + [Message(Assistant, draft1.reply)];
    p2.conversation := p2.conversation + [Message(User, draft1.reply)];
    ghost var middle := State(p1.conversation, p2.conversation, log, None);
    TurnAccepted(before, First, cfg, draft1);

    // Participant 2 responds to participant 1.
    var draft2 := Generate(p2.model, p2.conversation, cfg, log);
    if draft2.Refused? {
      return log, Some(draft2.error);
    }
    log := draft2.log;
    p1.conversation := p1.conversation + [Message(User, draft2.reply)];
    p2.conversation := p2.conversation + [Message(Assistant, draft2.reply)];
    TurnAccepted(middle, Second, cfg, draft2);
    failure := None;
  }

  /**
   * The `for` loop of run.py: `numExchanges` exchanges, or fewer when an
   * unsupported model identifier stops the run.
   */
  method RunExchanges(p1: Participant, p2: Participant, cfg: Config, log0: Log, numExchanges: int)
    returns (log: Log, failure: Option<Error>)
    requires p1 != p2 && cfg.model1 == p1.model && cfg.model2 == p2.model
    requires log0.keyPos <= |cfg.keys|
    modifies p1, p2
    ensures State(p1.conversation, p2.conversation, log, failure)
            == Run(State(old(p1.conversation), old(p2.conversation), log0, None), numExchanges, cfg)
  {
    ghost var start := State(p1.conversation, p2.conversation, log0, None);
    log, failure := log0, None;
    var round := 0;
    while round < numExchanges
      invariant 0 <= round <= if numExchanges < 0 then 0 else numExchanges
      invariant log.keyPos <= |cfg.keys| && failure.None?
      invariant State(p1.conversation, p2.conversation, log, None) == Run(start, round, cfg)
    {
      log, failure := Exchange(p1, p2, cfg, log);
      if failure.Some? {
        RunStopsAtFailure(start, round + 1, numExchanges, cfg);
        return;
      }
      round := round + 1;
    }
    // `range` of a negative count is empty: no exchange happens.
    if numExchanges < 0 {
      assert Run(start, numExchanges, cfg) == start;
    } else {
      assert round == numExchanges;
    }
  }

  /**
   * The orchestration (`converse_with_models`). Participant 1's starting
   * history is written to the transcript, then `numExchanges` rounds run; an
   * unsupported model identifier stops the run at the invocation that names
   * it, with the state reached so far.
   */
  method ConverseWithModels(p1: Participant, p2: Participant, numExchanges: int, supervisedMode: bool,
                            backend: (Request, nat) -> string, keys: seq<char>)
    returns (transcript: seq<Block>, sent: seq<Request>, failure: Option<Error>)
    requires p1 != p2
    modifies p1, p2
    ensures var s := Converse(old(p1.conversation), old(p2.conversation), numExchanges,
                              Config(p1.model, p2.model, supervisedMode, backend, keys));
      && p1.conversation == s.h1 && p2.conversation == s.h2
      && transcript == s.log.transcript && sent == s.log.sent && failure == s.failure
  {
    var cfg := Config(p1.model, p2.model, supervisedMode, backend, keys);
    transcript := WriteSeed(p1.conversation);
    assert Initial(p1.conversation, p2.conversation) == State(p1.conversation, p2.conversation, Log(transcript, [], 0), None);
    var log;
    log, failure := RunExchanges(p1, p2, cfg, Log(transcript, [], 0), numExchanges);
    transcript, sent := log.transcript, log.sent;
  }
}
