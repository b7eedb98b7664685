# mm-infinite-backrooms: the conversation core, modelled in Dafny

`run.py` lets two language models talk to each other. Each side of the exchange
is a `Participant`: a model identifier and that participant's own message
history. `converse_with_models` does the following:

- It writes participant 1's seed history to a transcript file.
- It runs a number of exchanges. In each exchange participant 1 answers first,
  then participant 2.
- In each turn, `chat_with_model` sends the speaker's history to the back end
  that the identifier's prefix selects (`claude…` or `gpt…`), together with a
  fixed persona prompt and a 1024-token ceiling.
- `escape_chars` normalises the reply: every literal backslash-`n` becomes a
  line break. The normalised draft is written to the transcript.
- In supervised mode an operator key press decides whether to retry. The key
  `r` or `R` asks for another draft; any other key accepts.
- The accepted raw reply goes into the speaker's history as `assistant` and
  into the other history as `user`.

The project models that core:

- `wrappers.dfy`: `Option` and `Result`.
- `escape.dfy` (module `Escape`): the normaliser, its inverse on the text it
  produces, and its properties.
- `model_invoker.dfy` (module `ModelInvoker`): dispatch by prefix, request
  shaping for the two back-end families, and the unsupported-model error.
- `conversation.dfy` (module `Conversation`):
  - the `Participant` class, whose `conversation` field the methods update in
    place;
  - the imperative orchestration. The `while True` retry loop is `Generate`,
    the seed loop is `WriteSeed`, one exchange is `Exchange`, the `for` loop is
    `RunExchanges`, and the whole function is `ConverseWithModels`;
  - the functions that specify them: `Attempt` (one retry loop), `Turn`,
    `Round`, `Run` and `Converse`.

  Each method is proved equal to its specification function.
- `conversation_properties.dfy` (module `ConversationProperties`): what those
  functions promise. It covers retry accounting, one history append per turn,
  the mirror invariant, the counts and order of an unsupervised run, seeding,
  an append-only transcript, and the unsupported-model path.

Inputs from outside the program are parameters of the model:

- The back end is a function `backend(request, n)`. It gives the text returned
  for `request` when that request is the `n`-th call of the run.
- The operator's key presses are a sequence of characters, read in order. Once
  the sequence is exhausted, a read yields the empty string, which accepts.
- The transcript file is the sequence of blocks written to it. `FileText` gives
  the characters of the file.

## Model

| member | source | states |
|---|---|---|
| Escape.EscapeChars | run.py:24-25 | Normalising never lengthens the text, and non-empty text stays non-empty. |
| Escape.EscapedHasNoPair | run.py:24-25 | No backslash-`n` pair is left in the output. |
| Escape.NoPairUnchanged | run.py:24-25 | Text without a backslash-`n` pair is returned unchanged. |
| Escape.Idempotent | run.py:24-25 | Normalising twice equals normalising once. |
| Escape.LengthAccounting | run.py:24-25 | The output is shorter than the input by exactly the number of backslash-`n` pairs. |
| Escape.ReescapeEscapeChars | run.py:24-25 | Only the pairs are rewritten and every other character is kept, in order. On text without line breaks, turning each line break back into a pair gives the input back. |
| Escape.EscapeCharsReescape | run.py:24-25 | The other direction of the round trip: normalising re-escaped pair-free text gives it back. |
| Escape.EscapeCharsConcat | run.py:24-25 | Normalising distributes over concatenation at any split point that does not follow a backslash. |
| Escape.Examples | run.py:24-25 | `a\nb` (a literal backslash-n) becomes `a`, line break, `b`. A backslash before the pair does not protect it. A real line break is kept. |
| ModelInvoker.BuildRequest | run.py:46-61 | Shaping a request succeeds exactly for a supported identifier, that is one starting with `claude` or `gpt`. The request names the identifier. Any other identifier gives the error naming it. |
| ModelInvoker.ChatWithModel | run.py:43-61 | An invocation succeeds exactly for a supported identifier. The reply is the back end's answer to a request naming the identifier. Any other identifier gives the error naming it. |
| ModelInvoker.PrefixesDisjoint | run.py:46-54 | No identifier starts with both `claude` and `gpt`, so the order of the two tests does not matter. |
| ModelInvoker.DispatchByPrefix | run.py:46-61 | Dispatch succeeds if and only if the identifier starts with `claude` or `gpt`. A `claude` prefix gives a Claude request and a `gpt` prefix gives a GPT request. Otherwise the error's text is `Unsupported model: ` followed by the identifier. |
| ModelInvoker.RequestShape | run.py:44-58 | The request carries the identifier and a ceiling of 1024 tokens. A Claude request carries the history unchanged and the persona prompt as `system`. A GPT request carries exactly one `system` message with the persona prompt, followed by the history unchanged. |
| ModelInvoker.UnsupportedMakesNoCall | run.py:60-61 | An unsupported identifier fails with the error naming it, whatever the back end would answer: the back end is never reached. |
| ModelInvoker.SupportedCallsBackend | run.py:46-59 | A supported identifier sends exactly the dispatched request and returns the back end's answer to it. |
| ModelInvoker.KnownIdentifiers | run.py:162-163 | `gpt-4` dispatches to GPT and `claude-3-opus-20240229` to Claude. `llama-x` is rejected. |
| Conversation.BlockText | run.py:86-87 | A block is the header line `<header>`, then the text, then a blank line. The text can be read back from between the two, and the block is 5 characters longer than header and text together. |
| Conversation.FileText | run.py:84-88 | The file written so far holds at least 5 characters per block. |
| Conversation.Capitalize | run.py:87 | The result has the input's length. Its first character is upper-cased and every later character is lower-cased. |
| Conversation.SeedBlock | run.py:86-87 | A seed block is headed `User`, `Assistant` or `System`. Its text holds no backslash-`n` pair and is no longer than the message. |
| Conversation.SeedBlocks | run.py:85-88 | A starting history gives exactly one seed block per message, in the same order. |
| Conversation.KeyAt | run.py:105 | A key read yields at most one character. It yields exactly the character under the cursor while keys remain, and nothing once they are exhausted. |
| Conversation.NextKeyPos | run.py:105 | The cursor moves past exactly the characters read, so it never passes the end of the keys. |
| Conversation.IsRetry | run.py:106 | Only a single character that lower-cases to `r` asks for a retry. |
| Conversation.Attempt | run.py:93-109 | The retry loop fails if and only if the identifier is unsupported, and the error then names it. The key cursor never passes the end of the keys. |
| Conversation.Turn | run.py:93-114 | A turn fails if and only if the speaker's identifier is unsupported, or the run had already failed. A new error names the speaker's identifier. A failed turn leaves both histories and the log as they were. A successful turn adds exactly one message to each history. Participant 2's turn, run.py:119-140, is the same with the sides swapped. |
| Conversation.Round | run.py:91-142 | An exchange succeeds if and only if both identifiers are supported. Otherwise the error names participant 1's identifier when that is unsupported, and participant 2's otherwise. A successful exchange adds two messages to each history. |
| Conversation.Run | run.py:90-142 | Once failed, a run stays as it is. A run from a sound state fails if and only if at least one exchange is due and an identifier is unsupported. The error names the first unsupported identifier. `n` successful exchanges add `2n` messages to each history, and none when `n` is not positive. |
| Conversation.Initial | run.py:84-88 | Seeding keeps both histories, sends nothing, reads no key and writes one block per message of participant 1's history. |
| Conversation.Converse | run.py:70-142 | The whole run fails if and only if at least one exchange is due and an identifier is unsupported. The error names the first unsupported identifier. Otherwise each history grows by two messages per exchange. |
| Conversation.Participant.constructor | run.py:64-67 | A participant holds the given identifier and history. |
| Conversation.IsRetryLowerCase | run.py:105-107 | For the at most one character that a key read yields, `r`/`R` is exactly the key that lower-cases to `r`. |
| Conversation.RunStopsAtFailure | run.py:90-142 | Once an invocation has failed, later exchanges change nothing: the exception ends the run. |
| Conversation.Generate | run.py:93-109 | The retry loop method computes exactly `Attempt`. |
| Conversation.WriteSeed | run.py:85-88 | The seed loop writes exactly one block per message of participant 1's history, in order. |
| Conversation.Exchange | run.py:91-142 | One exchange updates both participants' histories and the log exactly as `Round` does. It stops at the first unsupported identifier. |
| Conversation.RunExchanges | run.py:90-142 | The `for` loop updates the histories and the log exactly as `Run` does, negative counts included. |
| Conversation.ConverseWithModels | run.py:70-142 | The whole function leaves both histories, the transcript, the requests sent and the error exactly as `Converse` describes. |
| ConversationProperties.AttemptRetries | run.py:93-109 | A turn with `k` retry keys makes `k + 1` invocations, all with the same request. The accepted reply is the answer to the last one. The key cursor moves past the `k` retries and the accepting key. |
| ConversationProperties.AttemptDrafts | run.py:93-100 | Every draft is written to the transcript, rejected ones included, each as the normalised answer to its own invocation and headed by the model identifier. |
| ConversationProperties.TurnRefused | run.py:94-96 | A turn whose identifier is unsupported records the error and leaves the histories and the log unchanged. |
| ConversationProperties.TurnAppendsOnce | run.py:93-114 | However many retries a turn takes, each history grows by exactly one message: the accepted reply. It is `assistant` for the speaker and `user` for the other side. Requests and blocks grow by `k + 1`. |
| ConversationProperties.TurnFollows | run.py:111-140 | Every turn preserves the mirror relation and the growth of the log. |
| ConversationProperties.RunFollows | run.py:90-142 | After any number of exchanges, the histories, requests and transcript have only grown. Participant 2's new messages are participant 1's with the roles inverted. There is one block per request. |
| ConversationProperties.ConverseFollows | run.py:84-142 | The transcript starts with participant 1's seed blocks and never with participant 2's history. After that it holds one block per invocation. When participant 2 starts empty, its history is participant 1's new messages with the roles inverted. |
| ConversationProperties.ConverseSeedOnly | run.py:85-90 | With no exchange, only participant 1's seed is written. |
| ConversationProperties.SeedHeaders | run.py:86-88 | Seed blocks are headed `User` and `Assistant`, the capitalised roles. |
| ConversationProperties.SupportedRound | run.py:93-140 | With two supported identifiers, one exchange adds two messages to each history and sends at least two requests. |
| ConversationProperties.SupportedRun | run.py:90-142 | With two supported identifiers nothing fails. `n` exchanges add `2n` messages to each history, whatever the operator does. |
| ConversationProperties.UnsupervisedRound | run.py:93-140 | Unsupervised, one exchange sends one request to each model and writes one block for each, participant 1's first. |
| ConversationProperties.UnsupervisedStep | run.py:90-142 | The `n`-th unsupervised exchange adds participant 1's request and block, then participant 2's. |
| ConversationProperties.UnsupervisedModels | run.py:90-142 | Unsupervised, the requests go alternately to participant 1's model and to participant 2's. |
| ConversationProperties.UnsupervisedHeaders | run.py:90-142 | Unsupervised, the transcript blocks alternate between the two model identifiers. |
| ConversationProperties.UnsupervisedCounts | run.py:90-142 | Unsupervised, `n` exchanges make exactly `2n` invocations, write `2n` blocks after the seed, and add `2n` messages to each history. |
| ConversationProperties.AlternatingAt | run.py:90-142 | The alternation has participant 1's model at even positions and participant 2's at odd positions. |
| ConversationProperties.FirstUnsupportedStops | run.py:60-61 | If participant 1's identifier is unsupported, the run ends at its first turn. Only the seed has been written and no request has been sent. |
| ConversationProperties.SecondUnsupportedStops | run.py:119-122 | If participant 2's identifier is unsupported, the run ends at its first turn, after participant 1's first reply has reached both histories. |
| ConversationProperties.FileTextGrows | run.py:84-88 | Appending blocks never changes the text already in the file. |
| ConversationProperties.RunFileGrows | run.py:90-142 | No exchange rewrites what is already in the transcript file. |
| ConversationProperties.Scenario | run.py:70-142 | This is one unsupervised exchange between `gpt-4` and `claude-3-opus-20240229` from the seed `[user: "hi"]`. It gives the exact two requests, final histories `[user hi, assistant r1, user r2]` and `[user r1, assistant r2]`, and three transcript blocks, in that order. |

## Left out

- The network clients and the unpacking of their responses (`response.content[0].text`, `response.choices[0].message.content`) are the `backend` parameter.
- Transport and API errors raised by the back ends are not modelled. Only the unsupported-identifier `ValueError` is, and it ends the run with the state reached so far.
- `read_single_keypress` is a sequence of key characters. The terminal mode switching, its restoration and input-device errors are left out.
- `print`, `time.sleep`, the timestamped file name and the file handle are I/O with no effect on the modelled state. The file is the sequence of blocks written to it, starting empty because it is opened for writing.
- `load_dotenv`, the client construction, the seed conversation text and the `__main__` block are configuration. They are outside the modelled core. `KnownIdentifiers` states the two identifiers the script uses.
- `re.sub` is modelled by a direct left-to-right scan. The two produce the same rewrite because occurrences of the pattern cannot overlap.
- Messages have the roles `user`, `assistant` and `system` only. Other role strings and extra message fields are not modelled.
- `ConverseWithModels` requires two distinct `Participant` objects. Passing the same object twice, or two participants sharing one list, is not modelled.
- Upper- and lower-casing in `capitalize` are ASCII only. This is exact for the role names it is applied to.
- `ConverseWithModels` takes the exchange count and the supervision flag as arguments. The defaults `num_exchanges=5` and `supervised_mode=True` of run.py:71 are not modelled, and every call states both.
- A supervised retry loop in run.py:93-109 and 119-135 runs for as long as the operator keeps pressing `r`, possibly forever. The model reads a finite key sequence and accepts once it is exhausted, so every turn ends. `Attempt` and `Generate` terminate because of this, and an operator who never accepts is not modelled.
- `IsRetry` tests for `r` or `R`. `IsRetryLowerCase` shows this agrees with ASCII lower-casing on the single character a read returns.
