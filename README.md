# ShopBilis support bot: a Dafny model of the agent core

This project models the conversation logic of the ShopBilis courier support
bot (`backend/agent.py`). Customer utterances are handled as plain strings,
and its small state machines are modelled as classes:

- **Tier-1/2 agent** (`Tier12`), "BILIS". It has three pieces of string logic.
  - The escalation classifier looks for escalation terms in the lowered
    utterance, and it counts `!`/`?` marks.
  - Two keyword intent tests recognise tracking questions and refund
    questions.
  - The tracking-number scanner tries `SB-\d+` first and then falls back to
    `\d{8,}`. Both matches are leftmost and greedy.

  Its router depends on one flag, `asked_for_tracking`.
- **Tier-3 agent** (`Tier3`), "Maria".
  - It draws a case number `SB-` + six digits once, at construction.
  - It greets on its first message. The greeting is chosen by cancellation,
    then payment, then the generic apology.
  - After that it answers with a closing or with a request for the wanted
    resolution.
- **Manager** (`Manager`). It hands off one way, from Tier-1/2 to Tier-3. The
  hand-off is triggered by the process-wide `EscalationState.value` flag or
  by the transfer phrase "Ipapasa ko po kayo" in the Tier-1/2 reply. The voice
  session becomes a log of `SessionEvent`s.

`Text` holds the string primitives these are built from. These are
`str.lower`, Python's `t in s` as `IsSubstring`, `any(...)` over a word list,
and decimal numerals.

The main results are these:

- The classifier ignores case.
- Every refund question escalates, so the Tier-1/2 agent never gives its
  refund answer.
- The scanner returns the leftmost code with its whole digit run, or else the
  leftmost maximal run of eight or more digits, or else nothing.
- Every status message contains the tracking number.
- A Tier-1/2 reply contains the transfer phrase exactly when the message
  escalates. No Tier-3 reply contains it.
- Every Tier-3 reply carries `Case #` and the case number.
- The manager hands off at most once. Once the Tier-3 agent is current, it
  stays current, keeps its case number, and the flag stays raised.

### Behaviour of the code worth knowing

- **Greeting message.** The Tier-3 greeting is chosen from the first message
  the specialist itself receives. When the hand-off comes from the Tier-1/2
  transfer announcement, that message is the caller's *next* utterance, not
  the one that escalated. `Manager.AngryCallerConversation` shows this. The
  angry "GAGO CANCEL NA ORDER KO!!!" is followed by "hello po", and the
  greeting is the generic one, not the cancellation one.
- **Refund questions.** A question with a refund keyword is escalated, not
  answered with the refund policy, because every refund keyword is also an
  escalation term (`Tier12.RefundQueryEscalates`). The refund branch can be
  reached only through `_handle_normal_query` directly.
- **Pending tracking flag.** When a number arrives after the prompt, the code
  leaves `asked_for_tracking` set. It does not clear it.
- **Shared flag.** The escalation flag is shared by the whole process and is
  never lowered. A new manager that finds it raised hands off before its first
  answer (`Manager.SharedFlagConversation`).

## Model

| member | source | states |
|---|---|---|
| Text.SubstringSurvivesLower | backend/agent.py:59-68 | a word inside a message is, lowered, inside the lowered message, so a substring test on lowered text sees every casing |
| Text.DecimalRoundTrip | backend/agent.py:111 | the decimal numeral of a number reads back as that number |
| Text.DecimalLength | backend/agent.py:111 | a number between 10^k and 10^(k+1) has a numeral of k+1 digits |
| Tier12.EscalationState.constructor | backend/agent.py:12-13 | the escalation flag starts lowered |
| Tier12.PunctuationCountAppend | backend/agent.py:66 | the `[!?]` count of a concatenation is the sum of the counts of its parts |
| Tier12.PunctuationCountIgnoresCase | backend/agent.py:66 | lowering a message keeps its number of `!`/`?` marks |
| Tier12.EscalationIgnoresCase | backend/agent.py:58-68 | a message and its lowered form are escalated alike |
| Tier12.EscalatesOnAnyCasing | backend/agent.py:58-68 | a message containing any casing of a listed escalation term escalates |
| Tier12.EscalatesOnThreeMarks | backend/agent.py:66-68 | any message with three `!`/`?` marks escalates, whatever its words |
| Tier12.AngryCancellationEscalates | backend/agent.py:58-68 | "GAGO CANCEL NA ORDER KO!!!" contains "gago" and "cancel" once lowered, has three marks, and escalates |
| Tier12.TrackingQueryOnAnyCasing | backend/agent.py:70-72 | a message containing any casing of a tracking keyword is a tracking question |
| Tier12.RefundQueryEscalates | backend/agent.py:92-94 | every message the refund intent test accepts is escalated, because each refund keyword is an escalation term |
| Tier12.DigitRun | backend/agent.py:75 | the greedy `\d+` run at an index: all digits, inside the string, followed by a non-digit or the end |
| Tier12.FindCode | backend/agent.py:75 | the search for `SB-\d` returns the leftmost match at or after the start, and None only when there is no match |
| Tier12.FindLongRun | backend/agent.py:78 | the search for `\d{8,}` returns the leftmost match at or after the start, and None only when there is no match |
| Tier12.ExtractTrackingNumber | backend/agent.py:74-79 | a found tracking number is non-empty, a contiguous substring of the message, and made only of digits, `S`, `B` and `-` |
| Tier12.ExtractFindsLeftmostCode | backend/agent.py:75-77 | with an `SB-` code present, the result is the leftmost code with its whole digit run |
| Tier12.ExtractFallsBackToLongRun | backend/agent.py:78-79 | with no `SB-` code, the result is the leftmost run of eight or more digits, taken whole |
| Tier12.LeftmostLongRunIsMaximal | backend/agent.py:78 | the leftmost eight-digit match starts a maximal run, so no digit precedes it |
| Tier12.ExtractNoneIff | backend/agent.py:74-79 | nothing is extracted exactly when neither an `SB-` code nor eight digits occur anywhere |
| Tier12.ExtractsCodeFromQuestion | backend/agent.py:74-77 | "Nasaan na ang order ko? SB-482913" yields "SB-482913" |
| Tier12.QuestionIsTrackingQuery | backend/agent.py:70-72 | that message is a tracking question (it says "order") |
| Tier12.QuestionDoesNotEscalate | backend/agent.py:58-68 | that message is not escalated: its lowered form holds none of the nineteen terms, and it has a single mark |
| Tier12.OrderStatus | backend/agent.py:81-90 | each of the five status messages contains the tracking number verbatim |
| Tier12.StatusesDistinct | backend/agent.py:83-89 | the five statuses are five different messages for every tracking number |
| Tier12.StatusNotRefundInformation | backend/agent.py:81-98 | no status message is the refund answer |
| Tier12.TransferPhraseInTransferMessage | backend/agent.py:30 | the transfer announcement contains "Ipapasa ko po kayo" |
| Tier12.StatusLacksTransferPhrase | backend/agent.py:83-89 | no status message for a scanned tracking number contains the transfer phrase |
| Tier12.CannedRepliesLackTransferPhrase | backend/agent.py:34-56 | the tracking prompt, the default reply and the refund answer do not contain the transfer phrase |
| Tier12.NormalRoutingIsFunctional | backend/agent.py:34-56 | the routing relation fixes one reply and one final flag value for every message, flag value and status choice |
| Tier12.NormalRoutingNeverTransfers | backend/agent.py:34-56 | no routed (non-escalated) reply contains the transfer phrase |
| Tier12.RefundAnswerNeedsRefundQuery | backend/agent.py:52-53 | the refund answer is given only to a refund question that is no tracking question, and it leaves the flag cleared |
| Tier12.Tier12Agent.constructor | backend/agent.py:16-25 | a new agent has not asked for a tracking number |
| Tier12.Tier12Agent.HandleMessage | backend/agent.py:27-32 | an escalating message raises the flag and gets exactly the transfer announcement with the tracking flag kept; any other message leaves the flag and is routed; the reply holds the transfer phrase iff the message escalates; the reply is never the refund answer |
| Tier12.Tier12Agent.HandleNormalQuery | backend/agent.py:34-56 | the reply and the new `asked_for_tracking` follow the four routing cases: prompt and set, status with flag kept, status for the awaited number, or cleared flag with refund or default reply |
| Tier3.CaseNumber | backend/agent.py:111 | the case number is `SB-` and six digits without a leading zero, and its digits read back as the drawn serial |
| Tier3.GreetingsDistinct | backend/agent.py:123-136 | the cancellation, payment and generic greetings are three different messages |
| Tier3.GreetingChoice | backend/agent.py:123-136 | the cancellation greeting is given iff "cancel"/"kansel" occurs; the payment one iff not that but "bayad"/"payment"; the generic one iff neither |
| Tier3.ClosingIsNotSolution | backend/agent.py:138-146 | the closing and the resolution question differ |
| Tier3.RepliesCarryCaseRef | backend/agent.py:123-146 | every greeting, the closing and the resolution question contain `Case #` and the case number |
| Tier3.ClosingPromisesWindow | backend/agent.py:138-141 | the closing mentions "24 hours" |
| Tier3.RepliesLackTransferPhrase | backend/agent.py:123-146 | no Tier-3 reply contains the transfer phrase |
| Tier3.ThanksIsAffirmation | backend/agent.py:119 | "salamat, ok na" is an affirmation |
| Tier3.Tier3Agent.constructor | backend/agent.py:101-112 | a new specialist holds the case number of the drawn serial and has not greeted yet |
| Tier3.Tier3Agent.HandleMessage | backend/agent.py:114-121 | the first call greets on its message and clears the flag; later calls close on an affirmation and otherwise ask for the resolution; every reply carries the case reference and lacks the transfer phrase |
| Manager.HandoffCountAppend | backend/agent.py:167-194 | the hand-offs in a concatenated log add up |
| Manager.EscalationEvents | backend/agent.py:167-194 | one escalation logs exactly one hand-off, after closing the open session if there was one |
| Manager.AgentManager.constructor | backend/agent.py:149-153 | a new manager has its own Tier-1/2 agent, no specialist, no session and an empty log, over the shared flag |
| Manager.AgentManager.OpenGeneralSession | backend/agent.py:196-219 | the entry point starts the Tier-1/2 session and asks for its welcome, with no hand-off |
| Manager.AgentManager.EscalateToTier3 | backend/agent.py:167-194 | a fresh specialist with the drawn case number becomes current; the log gains the close (if a session was open), the start and the greeting request |
| Manager.AgentManager.HandleMessage | backend/agent.py:155-165 | the hand-off is one way and happens at most once; after a call, Tier-3 is current iff it was before, or the flag was raised, or the message escalates; the flag is raised iff Tier-3 is current; the reply of each of the four cases (Tier-3 turn, hand-off before answering, transfer announcement, routed question); the Tier-1/2 agent's `asked_for_tracking` changes only when it routes the message |
| Manager.PlainGreetingIsGeneric | backend/agent.py:123-136 | "hello po" names neither cancellation nor payment and gets the generic greeting |
| Manager.TrackingCallerConversation | backend/agent.py:155-165 | "Nasaan na ang order ko? SB-482913" to a new manager gets the status message for "SB-482913", with no hand-off and the flag still lowered |
| Manager.AngryCallerConversation | backend/agent.py:155-165 | angry cancellation, "hello po", "salamat, ok na": the transfer announcement, the generic greeting and the closing, all under the case number drawn at the hand-off |
| Manager.SharedFlagConversation | backend/agent.py:155-158 | a second manager that finds the shared flag raised hands off before answering, and its specialist greets the first message |

## Left out

- The voice session (`AgentSession`, `RealtimeModel`, `TurnDetection`, the voice names, the room) is not modelled. Its close, start and greeting request are recorded as `SessionEvent`s, because they are foreign library calls.
- The agents' instruction texts and the greeting-request instructions are not modelled. They are guidance for the language model and nothing in the code acts on them. This includes the ₱25,000 authority.
- `random.choice` and `random.randint` are not modelled. Their results are parameters: the status index and the case serial.
- `asyncio.sleep`, `print`, `load_dotenv`, the `while True` keep-alive loop and the CLI start-up are not modelled, because they carry no behaviour beyond timing and process plumbing.
- Concurrent calls that share `EscalationState.value` are not modelled. Calls are taken one at a time.
- The specialist capabilities (cancellation processing, compensation, finishing the call) are not part of this model. `backend/agent.py` does not define them.
- The React frontend is not part of this model.
- `Text.Lower` folds only ASCII letters. `str.lower` also folds other Unicode letters.
- `Tier12.DigitRun` counts only ASCII digits. Python's `\d` also matches other Unicode decimal digits.
- `Manager.AgentManager` records which agent is current as a `Role` next to the specialist reference. It does not hold one agent object, because the two agent classes share no type.
