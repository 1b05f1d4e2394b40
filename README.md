# Application bot intake, modelled in Dafny

A model of the decision logic of a chat-platform bot that runs job
applications inside a guild. An owner-only `setup` command records where
application logs go and which role a successful applicant gets. It also posts
a panel message with an "Apply Now" button. A `togglepanel` command opens or
closes the panel for new applications. Pressing the button starts a
direct-message session: the bot asks a fixed list of questions one at a time.
Each answer must arrive within the collector's waiting time. When the last
answer arrives, the bot posts a log of all answers to the log channel, grants
the role and thanks the applicant. A resync pass, run at start-up and on a
timer, re-applies each guild's stored embed to its panel message.

Modules, one per concern of `index.js`:

- `Types` (types.dfy): identifiers and the two per-guild records, the config
  entry `{logChannel, role}` and the panel record `{embedChannel, embed, embedId}`.
- `Answers` (answers.dfy): the applicant's answers as an ordered association
  list keyed by question text. Assigning to a known question keeps its place;
  a new question is appended. The module also renders the log description,
  one `**question:** answer` line per entry, joined by newlines.
- `Panel` (panel.dfy): the open/close status, validation of the status
  option, the admission rule of the start button, and the button rendering.
- `Session` (session.dfy): the recursive `askQuestion` closure, made into an
  explicit state machine. It has a pure specification (`Start`, `Next`,
  `Run` over a sequence of `Answered(text)` / `TimedOut` events) and the
  lemmas about it. The class `ApplicationSession` updates its cursor, its
  answers and its sent messages step by step, and its `Valid()` states that
  it is always where `Run` says after the events it has received.
- `Intake` (intake.dfy): the class `Bot`, holding the three stores (config,
  embed records, panel status) as `map` fields. Its methods are the setup,
  togglepanel, start-button and resync handlers.

Platform effects become data. What the session sends is a sequence of
`Output` values. Whether a channel resolves, which messages a fetch finds,
whether an edit throws, whether the welcome DM can be delivered, and whether
the log channel and the member are in the guild's cache at completion are
all parameters.

Assumptions the model states:

- JavaScript object keys of the answers are taken to keep insertion order.
  The runtime actually lists integer-like keys first, in numeric order; the
  model does not follow that.
- A string option, or a stored message id, is "truthy" when present and
  non-empty.
- The source's status map holds strings, but only `"open"` and `"close"` are
  ever written, so the model stores an enumeration.

## Model

| member | source | states |
|---|---|---|
| `Answers.PutSpec` | index.js:275 | An answer is stored under its question. A question already answered keeps its position and gets the new answer, so no second entry appears. A new question is appended at the end. Every other question's answer is unchanged. |
| `Answers.DescribeSpec` | index.js:252-254 | The log description is empty exactly when there are no answers; otherwise it starts with the first entry's `**q:** a` line. |
| `Answers.DescribeAppend` | index.js:252-254 | The description lists the entries in insertion order. A new entry adds its line after a newline, or is the whole description if it is the first entry. |
| `Answers.FirstOccurrencesMembers` | index.js:275 | The key order that repeated assignments produce holds every assigned question, nothing else, and no question twice. |
| `Answers.ZipLookup` | index.js:275 | With distinct questions, answering each one in turn leaves every question looking up its own answer. |
| `Panel.ParseStatus` | index.js:204-208 | The status option is accepted exactly when it is `"open"` or `"close"`. Anything else, including a missing option, is rejected. |
| `Panel.EffectiveStatus` | index.js:235 | A guild counts as closed exactly when its status entry is `"close"`. A guild with no entry is open. |
| `Panel.Admit` | index.js:234-237 | A start is refused exactly when the guild has no config entry or its status is close. An admitted start uses that guild's config. |
| `Panel.AdmitIsPerGuild` | index.js:210 | Setting one guild's status never changes another guild's admission. |
| `Panel.ToggleDecidesAdmission` | index.js:234-237 | For a configured guild, closing refuses every start and opening admits one. |
| `Panel.RenderButton` | index.js:219-225 | Open renders "Apply Now", Primary, enabled. Close renders "Applications are closed", Danger, disabled. The custom id is always `start_application`. |
| `Panel.SetupButtonIsOpenRendering` | index.js:180-183 | The button that setup posts is the open rendering, matching a guild whose status is unset. |
| `Panel.ButtonAgreesWithGate` | index.js:222-224 | For a configured guild, the button `RenderButton` would produce is disabled exactly when the gate refuses a start. |
| `Panel.StaleButtonAfterClose` | index.js:180-183 | The button setup posts stays enabled with "Apply Now" after a close, while the gate refuses every start for that guild, so it differs from the closed rendering. |
| `Session.Start` | index.js:241-247 | A new session starts well formed: the cursor is within the list, and a question is pending unless the empty list completed it at once. |
| `Session.Next` | index.js:268-283 | Every event keeps the state well formed: the cursor stays within the list, a question is pending unless the session completed, and a completed session has asked every question. |
| `Session.NextKeepsInv` | index.js:268-283 | Every event keeps the invariant. Besides being well formed, the answer keys are the answered questions, first occurrences in order, and a completed session carries the description of its answers. |
| `Session.PutKeepsKeys` | index.js:266-275 | Answering the question just asked extends the key order by that question, unless it was already a key. |
| `Session.Run` | index.js:246-286 | Every state reachable from the start by any events is well formed. |
| `Session.RunKeepsInv` | index.js:246-286 | Every state reachable from the start by any events satisfies the invariant. |
| `Session.AnswerStep` | index.js:268-277 | An answer is stored under the question just asked, and every other answer is unchanged. The session completes exactly when the cursor has reached the question count. Otherwise it asks the next question and the cursor moves by exactly one. |
| `Session.AskedInOrder` | index.js:268-269 | After any events, the questions sent are exactly the first `cursor` questions of the list, in order. So no index is asked twice. |
| `Session.NextAsks` | index.js:246-277 | One step sends exactly the questions between the old and the new cursor, and the cursor never moves back. |
| `Session.EffectsOnlyOnCompletion` | index.js:246-283 | The log is published, and the role granted, only by a completed session and then exactly once, subject to the cache lookups. A timeout notice is sent exactly once, and only by an abandoned session. |
| `Session.CompletionEffects` | index.js:248-264 | Completion publishes the log when the log channel resolves. It grants the role and sends the thanks only when the member resolves too. It asks nothing. |
| `Session.FinishedIsFinal` | index.js:272-283 | After completion or a timeout, later events change nothing and send nothing. |
| `Session.CompletesWhenAllAnswered` | index.js:246-247 | When every question is answered, the session completes exactly when as many answers as questions have arrived. Before that, the cursor is one past the number of answers. |
| `Session.AnsweringSoFar` | index.js:246-277 | With distinct questions, after fewer answers than questions the session awaits the next question, and the answers pair each asked question with its reply, in ask order. |
| `Session.RecordStep` | index.js:266-277 | With distinct questions, the reply to the pending question adds exactly one entry at the end of the answers. |
| `Session.DistinctQuestionsRecordAll` | index.js:246-277 | With distinct questions, answering all of them leaves exactly one entry per question, in ask order. The completed state carries their description. |
| `Session.EmptyQuestionListCompletesAtOnce` | index.js:243-247 | An empty question list completes on start: the welcome, then the completion messages, and no question. |
| `Session.TimeoutScenario` | index.js:279-283 | Timing out on the second question sends the notice and publishes and grants nothing. |
| `Session.CompletedScenario` | index.js:246-265 | Two answered questions give the welcome, both questions, one log with both lines in order, the role grant and the thanks. |
| `Session.ApplicationSession.constructor` | index.js:241-286 | A new session object is where `Run` is after no events: welcome sent, first question asked. |
| `Session.ApplicationSession.AskQuestion` | index.js:246-269 | Asks the question at the cursor and advances the cursor, or, past the last question, sends the completion messages. The result is exactly as `AskOrComplete` specifies. |
| `Session.ApplicationSession.Deliver` | index.js:271-283 | A collector event moves the object exactly as `Next` moves the state machine, so `Valid()` is kept. |
| `Intake.ValidateSetup` | index.js:159-166 | Setup options are accepted exactly when the log channel, panel channel and role are present and the colour and footer text are non-empty. The config entry is then exactly `{logChannel, role}`. |
| `Intake.SyncEditsExactly` | index.js:106-119 | A guild's panel message is edited exactly when its channel resolved, its message id is set, the fetch found the message and the edit did not throw. The edit writes the stored embed to that message. A deleted message is skipped. |
| `Intake.Bot.constructor` | index.js:10-13 | The stores start as loaded, and the panel status map starts empty, so every guild is open after a restart. |
| `Intake.Bot.Setup` | index.js:142-200 | A non-owner, or missing options, is refused and both stores stay unchanged. Otherwise exactly this guild's config entry is overwritten. Its panel record is overwritten only when the panel could be posted. |
| `Intake.Bot.TogglePanel` | index.js:203-211 | An invalid status is refused and the status map is unchanged. A valid one sets this guild's entry and no other. |
| `Intake.Bot.StartApplication` | index.js:232-289 | A start is refused exactly when `Admit` refuses, and then no session exists. An undeliverable welcome means no session. Otherwise a fresh session starts on the guild's config with no events. |
| `Intake.Bot.Resync` | index.js:105-135 | Every guild of the embed store gets an outcome, so one guild's failure stops no other. Each outcome is decided by that guild's record alone. The method has no `modifies` clause, so the stores are never changed. |

## Left out

- The discord.js client, intents, command registration and login (index.js:1-8, 22-103, 294): library calls.
- Loading and saving the JSON files (index.js:10-20, 167, 194): I/O. The stores are in-memory maps, given to the `Bot` constructor.
- Embed construction (index.js:169-178): colour parsing and the footer, thumbnail and avatar defaults are library behaviour. The posted embed is an opaque `EmbedSnapshot` parameter of `Setup`. A colour the library rejects throws after the config was written; that is not modelled.
- The re-render branch of `togglepanel` (index.js:213-228). It reads `config[guild].embedChannel`, which setup never writes, so it never runs. `RenderButton` models the rendering it would do, and no toggle effect on the panel message is modelled.
- Resync edits only the embed, never the button components (index.js:113, 129), so a resync does not restore a button state; the model re-applies only the stored embed.
- The 30-second timer and the interleaving of many users' sessions (index.js:105, 120): concurrency. One session is modelled at a time, and a resync pass is one batch step. The source has no guard against a second session for the same user, and the model does not add one.
- A failed question DM (index.js:268-269): `askQuestion` awaits the send before it creates the collector (index.js:271), so a rejected send ends it with no collector. No answer can then be recorded and no timeout notice is sent: the session stalls silently. The rejection is unhandled, because `askQuestion()` is called without await or catch (index.js:276, 286). The model has no such stalled state: every `Ask` is taken as delivered, and `EffectsOnlyOnCompletion` holds for sessions that do not stall.
- Other send failures (the thank-you, the log post, the role add) are not awaited or caught in a way that changes what was already sent. The log post and the role grant are outputs meaning "attempted".
- Collector end reasons other than `"time"` (index.js:279-283): the end that follows a collected answer has no effect. Other reasons, such as a deleted channel, are not modelled; `TimedOut` is the only ending event.
- The 60-second waiting time is not modelled as a duration; `TimedOut` is the event that it produces.
- `Session.Completion` and `Session.EmptyQuestionListCompletesAtOnce` do not model the validation of the log embed built at completion (index.js:248-255). The embed builder of the chat library may reject an empty description or one over its length limit, and throw before the log, the role grant and the thanks. That would happen with an empty question list, whose log description is `""`, or with very long answers. The library is not part of this model, so the model publishes every description as given.
- `Session.Completion` treats the cache lookups at completion (log channel, member) as fixed parameters of the session (`Env`), not as values read at that moment.
- The config captured by a session is the entry at start time (index.js:234). A later setup replaces the entry object, so a running session keeps the old log channel and role. The model states this by giving the session a constant `guildConfig`.
- The guild-only context of commands: a command used outside a guild has no guild id, and that crash is not modelled.
- Reply texts of the handlers are modelled as reply constructors, not as strings.
