/** One applicant's question-and-answer session, as an explicit state machine.
    The cursor is the index of the next question to ask; it is advanced when a
    question is asked, so while an answer is awaited the pending question is
    the one just before the cursor. Each step consumes one event: an answer
    from the applicant or the end of the collector's waiting time. */
module Session {

  import opened Types
  import opened Answers

  datatype Event = Answered(text: string) | TimedOut

  /** What the session sends: direct messages to the applicant, the log
      message to the guild's log channel and the role grant. */
  datatype Output =
    | Welcome
    | Ask(question: string)
    | TimeoutNotice
    | PublishLog(channel: ChannelId, description: string)
    | GrantRole(role: RoleId)
    | Submitted

  datatype Phase = Awaiting | Completed(description: string) | Abandoned

  datatype State = State(cursor: nat, answers: AnswerList, phase: Phase)

  /** What the guild's caches resolve when the session completes: the log
      channel and the applicant as a member. A lookup that resolves nothing
      makes the next call throw, which ends the completion handler there. */
  datatype Env = Env(logChannelCached: bool, memberCached: bool)

  /** The state a step reaches and what it sends, in order. */
  datatype Transition = Transition(state: State, out: seq<Output>)

  /** How many questions have been answered. */
  function AnsweredCount(s: State): int
  {
    if s.phase.Completed? then s.cursor else s.cursor - 1
  }

  /** The shape of every reachable state: the cursor stays within the
      question list, a question is pending unless the session completed, and a
      completed session has asked every question. */
  predicate WellFormed(qs: seq<string>, s: State)
  {
    && s.cursor <= |qs|
    && (!s.phase.Completed? ==> 1 <= s.cursor)
    && (s.phase.Completed? ==> s.cursor == |qs|)
  }

  /** The invariant of every reachable state: it is well formed, a completed
      session carries the description of its answers, and the keys of the
      answers are the questions answered so far, first occurrences in order. */
  predicate Inv(qs: seq<string>, s: State)
  {
    && WellFormed(qs, s)
    && (s.phase.Completed? ==> s.phase.description == Describe(s.answers))
    && Questions(s.answers) == FirstOccurrences(qs[..AnsweredCount(s)])
  }

  /** What completion sends: the log, then the role grant and the
      acknowledgment. An uncached log channel stops the handler before
      anything is sent; an uncached member stops it after the log. */
  function Completion(cfg: GuildConfig, env: Env, description: string): seq<Output>
  {
    if !env.logChannelCached then []
    else [PublishLog(cfg.logChannel, description)] +
         (if env.memberCached then [GrantRole(cfg.role), Submitted] else [])
  }

  /** Asks the question at the cursor, or completes once every question was asked. */
  function AskOrComplete(qs: seq<string>, cfg: GuildConfig, env: Env, cursor: nat, answers: AnswerList): Transition
    requires cursor <= |qs|
  {
    if cursor >= |qs| then
      var d := Describe(answers);
      Transition(State(cursor, answers, Completed(d)), Completion(cfg, env, d))
    else
      Transition(State(cursor + 1, answers, Awaiting), [Ask(qs[cursor])])
  }

  /** A session starts with the welcome message and the first question. */
  function Start(qs: seq<string>, cfg: GuildConfig, env: Env): (t: Transition)
    ensures WellFormed(qs, t.state)
  {
    var first := AskOrComplete(qs, cfg, env, 0, []);
    Transition(first.state, [Welcome] + first.out)
  }

  /** One event. An answer is stored under the pending question and the next
      question is asked; the end of the waiting time abandons the session with
      a notice; a finished session has no collector left, so nothing happens. */
  function Next(qs: seq<string>, cfg: GuildConfig, env: Env, s: State, e: Event): (t: Transition)
    requires WellFormed(qs, s)
    ensures WellFormed(qs, t.state)
  {
    match s.phase
    case Awaiting =>
      (match e
       case Answered(text) =>
         AskOrComplete(qs, cfg, env, s.cursor, Put(s.answers, qs[s.cursor - 1], text))
       case TimedOut =>
         Transition(State(s.cursor, s.answers, Abandoned), [TimeoutNotice]))
    case _ => Transition(s, [])
  }

  /** The state after a sequence of events and everything sent on the way. */
  function Run(qs: seq<string>, cfg: GuildConfig, env: Env, events: seq<Event>): (t: Transition)
    ensures WellFormed(qs, t.state)
    decreases |events|
  {
    if events == [] then Start(qs, cfg, env)
    else
      var before := Run(qs, cfg, env, events[..|events| - 1]);
      var step := Next(qs, cfg, env, before.state, events[|events| - 1]);
      Transition(step.state, before.out + step.out)
  }

  /** Every step keeps the invariant. */
  lemma NextKeepsInv(qs: seq<string>, cfg: GuildConfig, env: Env, s: State, e: Event)
    requires Inv(qs, s)
    ensures Inv(qs, Next(qs, cfg, env, s, e).state)
  {
    if s.phase == Awaiting && e.Answered? {
      var answers := Put(s.answers, qs[s.cursor - 1], e.text);
      PutKeepsKeys(qs, s.cursor, s.answers, e.text);
      var t := AskOrComplete(qs, cfg, env, s.cursor, answers);
      assert t.state.answers == answers && AnsweredCount(t.state) == s.cursor;
    }
  }

  /** Answering the question at position n - 1 extends the key order by it,
      first occurrences in order. */
  lemma PutKeepsKeys(qs: seq<string>, n: nat, a: AnswerList, text: string)
    requires 1 <= n <= |qs| && Questions(a) == FirstOccurrences(qs[..n - 1])
    ensures Questions(Put(a, qs[n - 1], text)) == FirstOccurrences(qs[..n])
  {
    var init, last := qs[..n - 1], qs[n - 1];
    assert qs[..n][..n - 1] == init;
    FirstOccurrencesMembers(init);
    PutSpec(a, last, text);
  }

  /** Every state reachable from the start satisfies the invariant. */
  lemma {:induction false} RunKeepsInv(qs: seq<string>, cfg: GuildConfig, env: Env, events: seq<Event>)
    ensures Inv(qs, Run(qs, cfg, env, events).state)
    decreases |events|
  {
    if events == [] {
      assert qs[..0] == [];
    } else {
      var prefix := events[..|events| - 1];
      RunKeepsInv(qs, cfg, env, prefix);
      NextKeepsInv(qs, cfg, env, Run(qs, cfg, env, prefix).state, events[|events| - 1]);
    }
  }

  /** The questions sent, in order. */
  function Asked(out: seq<Output>): seq<string>
  {
    if out == [] then [] else (if out[0].Ask? then [out[0].question] else []) + Asked(out[1..])
  }

  /** The log descriptions published, in order. */
  function Published(out: seq<Output>): seq<string>
  {
    if out == [] then [] else (if out[0].PublishLog? then [out[0].description] else []) + Published(out[1..])
  }

  /** The roles granted, in order. */
  function Granted(out: seq<Output>): seq<RoleId>
  {
    if out == [] then [] else (if out[0].GrantRole? then [out[0].role] else []) + Granted(out[1..])
  }

  /** The timeout notices sent. */
  function Notices(out: seq<Output>): nat
  {
    if out == [] then 0 else (if out[0] == TimeoutNotice then 1 else 0) + Notices(out[1..])
  }

  /** Each projection of a concatenation is the concatenation of the projections. */
  lemma ProjectionsConcat(a: seq<Output>, b: seq<Output>)
    ensures Asked(a + b) == Asked(a) + Asked(b)
    ensures Published(a + b) == Published(a) + Published(b)
    ensures Granted(a + b) == Granted(a) + Granted(b)
    ensures Notices(a + b) == Notices(a) + Notices(b)
  {
    AskedConcat(a, b);
    PublishedConcat(a, b);
    GrantedConcat(a, b);
    NoticesConcat(a, b);
  }

  lemma {:induction false} AskedConcat(a: seq<Output>, b: seq<Output>)
    ensures Asked(a + b) == Asked(a) + Asked(b)
    decreases |a|
  {
    if a == [] {
      assert a + b == b;
    } else {
      assert (a + b)[0] == a[0];
      assert (a + b)[1..] == a[1..] + b;
      AskedConcat(a[1..], b);
    }
  }

  lemma {:induction false} PublishedConcat(a: seq<Output>, b: seq<Output>)
    ensures Published(a + b) == Published(a) + Published(b)
    decreases |a|
  {
    if a == [] {
      assert a + b == b;
    } else {
      assert (a + b)[0] == a[0];
      assert (a + b)[1..] == a[1..] + b;
      PublishedConcat(a[1..], b);
    }
  }

  lemma {:induction false} GrantedConcat(a: seq<Output>, b: seq<Output>)
    ensures Granted(a + b) == Granted(a) + Granted(b)
    decreases |a|
  {
    if a == [] {
      assert a + b == b;
    } else {
      assert (a + b)[0] == a[0];
      assert (a + b)[1..] == a[1..] + b;
      GrantedConcat(a[1..], b);
    }
  }

  lemma {:induction false} NoticesConcat(a: seq<Output>, b: seq<Output>)
    ensures Notices(a + b) == Notices(a) + Notices(b)
    decreases |a|
  {
    if a == [] {
      assert a + b == b;
    } else {
      assert (a + b)[0] == a[0];
      assert (a + b)[1..] == a[1..] + b;
      NoticesConcat(a[1..], b);
    }
  }

  lemma ProjectionsSingle(o: Output)
    ensures Asked([o]) == if o.Ask? then [o.question] else []
    ensures Published([o]) == if o.PublishLog? then [o.description] else []
    ensures Granted([o]) == if o.GrantRole? then [o.role] else []
    ensures Notices([o]) == if o == TimeoutNotice then 1 else 0
  {
    assert [o][1..] == [];
  }

  /** An answer is stored under the question just asked, and nothing else
      changes in the answers; the session then completes exactly when the
      cursor has reached the question count, and otherwise asks the next
      question and moves the cursor by one. */
  lemma AnswerStep(qs: seq<string>, cfg: GuildConfig, env: Env, s: State, text: string)
    requires WellFormed(qs, s) && s.phase == Awaiting
    ensures var t := Next(qs, cfg, env, s, Answered(text));
      && Lookup(t.state.answers, qs[s.cursor - 1]) == Some(text)
      && (forall k :: k != qs[s.cursor - 1] ==> Lookup(t.state.answers, k) == Lookup(s.answers, k))
      && (t.state.phase.Completed? <==> s.cursor == |qs|)
      && (s.cursor < |qs| ==> t.state.cursor == s.cursor + 1 && t.out == [Ask(qs[s.cursor])])
  {
    PutSpec(s.answers, qs[s.cursor - 1], text);
  }

  /** Questions are sent strictly in list order, one per cursor step: after
      any events, the questions sent are exactly the first `cursor` questions,
      so no index is asked twice. */
  lemma {:induction false} AskedInOrder(qs: seq<string>, cfg: GuildConfig, env: Env, events: seq<Event>)
    ensures var t := Run(qs, cfg, env, events); Asked(t.out) == qs[..t.state.cursor]
    decreases |events|
  {
    if events == [] {
      StartAsks(qs, cfg, env);
    } else {
      var prefix, e := events[..|events| - 1], events[|events| - 1];
      var before := Run(qs, cfg, env, prefix);
      var step := Next(qs, cfg, env, before.state, e);
      assert Run(qs, cfg, env, events) == Transition(step.state, before.out + step.out);
      AskedInOrder(qs, cfg, env, prefix);
      NextAsks(qs, cfg, env, before.state, e);
      AskedConcat(before.out, step.out);
      assert qs[..step.state.cursor] == qs[..before.state.cursor] + qs[before.state.cursor..step.state.cursor];
    }
  }

  lemma StartAsks(qs: seq<string>, cfg: GuildConfig, env: Env)
    ensures var t := Start(qs, cfg, env); Asked(t.out) == qs[..t.state.cursor]
  {
    var t := Start(qs, cfg, env);
    var first := AskOrComplete(qs, cfg, env, 0, []);
    assert t.out == [Welcome] + first.out;
    ProjectionsSingle(Welcome);
    AskedConcat([Welcome], first.out);
    if |qs| > 0 {
      assert first.out == [Ask(qs[0])] && t.state.cursor == 1;
      ProjectionsSingle(Ask(qs[0]));
      assert qs[..1] == [qs[0]];
    } else {
      assert first.out == Completion(cfg, env, Describe([])) && t.state.cursor == 0;
      CompletionEffects(cfg, env, Describe([]));
    }
  }

  /** One step asks exactly the questions between the old and the new cursor. */
  lemma NextAsks(qs: seq<string>, cfg: GuildConfig, env: Env, s: State, e: Event)
    requires WellFormed(qs, s)
    ensures var t := Next(qs, cfg, env, s, e);
      s.cursor <= t.state.cursor <= |qs| && Asked(t.out) == qs[s.cursor..t.state.cursor]
  {
    var t := Next(qs, cfg, env, s, e);
    var c := s.cursor;
    if s.phase != Awaiting {
      assert t.out == [] && t.state.cursor == c;
    } else if e.TimedOut? {
      assert t.out == [TimeoutNotice] && t.state.cursor == c;
      ProjectionsSingle(TimeoutNotice);
    } else if c < |qs| {
      assert t.out == [Ask(qs[c])] && t.state.cursor == c + 1;
      ProjectionsSingle(Ask(qs[c]));
      assert qs[c..c + 1] == [qs[c]];
    } else {
      assert t.out == Completion(cfg, env, t.state.phase.description) && t.state.cursor == c;
      CompletionEffects(cfg, env, t.state.phase.description);
    }
  }


  /** The log is published, and the role granted, only by a completed session
      and then once; an abandoned session, and only an abandoned one, has
      sent a timeout notice, and exactly one. */
  lemma {:induction false} EffectsOnlyOnCompletion(qs: seq<string>, cfg: GuildConfig, env: Env, events: seq<Event>)
    ensures EffectsMatchPhase(cfg, env, Run(qs, cfg, env, events))
    decreases |events|
  {
    if events == [] {
      StartEffects(qs, cfg, env);
    } else {
      var prefix, e := events[..|events| - 1], events[|events| - 1];
      var before := Run(qs, cfg, env, prefix);
      var step := Next(qs, cfg, env, before.state, e);
      assert Run(qs, cfg, env, events) == Transition(step.state, before.out + step.out);
      EffectsOnlyOnCompletion(qs, cfg, env, prefix);
      NextEffects(qs, cfg, env, before.state, e);
      ProjectionsConcat(before.out, step.out);
      if before.state.phase == Awaiting {
        assert Published(before.out) == [] && Granted(before.out) == [] && Notices(before.out) == 0;
      } else {
        assert step.out == [] && step.state == before.state;
      }
    }
  }

  lemma StartEffects(qs: seq<string>, cfg: GuildConfig, env: Env)
    ensures EffectsMatchPhase(cfg, env, Start(qs, cfg, env))
  {
    var first := AskOrComplete(qs, cfg, env, 0, []);
    ProjectionsSingle(Welcome);
    ProjectionsConcat([Welcome], first.out);
    if |qs| > 0 {
      ProjectionsSingle(Ask(qs[0]));
    } else {
      CompletionEffects(cfg, env, Describe([]));
    }
  }

  /** What a transition has sent agrees with the phase it has reached. */
  predicate EffectsMatchPhase(cfg: GuildConfig, env: Env, t: Transition)
  {
    && Published(t.out) == (if t.state.phase.Completed? && env.logChannelCached then [t.state.phase.description] else [])
    && Granted(t.out) == (if t.state.phase.Completed? && env.logChannelCached && env.memberCached then [cfg.role] else [])
    && Notices(t.out) == (if t.state.phase.Abandoned? then 1 else 0)
  }

  /** A step from a pending question sends the effects of the phase it
      reaches; a step from a finished session sends nothing. */
  lemma NextEffects(qs: seq<string>, cfg: GuildConfig, env: Env, s: State, e: Event)
    requires WellFormed(qs, s)
    ensures var t := Next(qs, cfg, env, s, e);
      if s.phase == Awaiting then EffectsMatchPhase(cfg, env, t) else t.out == [] && t.state == s
  {
    var t := Next(qs, cfg, env, s, e);
    if s.phase == Awaiting {
      if e.TimedOut? {
        ProjectionsSingle(TimeoutNotice);
      } else if s.cursor < |qs| {
        ProjectionsSingle(Ask(qs[s.cursor]));
      } else {
        CompletionEffects(cfg, env, t.state.phase.description);
      }
    }
  }

  lemma CompletionEffects(cfg: GuildConfig, env: Env, d: string)
    ensures var out := Completion(cfg, env, d);
      && Asked(out) == []
      && Published(out) == (if env.logChannelCached then [d] else [])
      && Granted(out) == (if env.logChannelCached && env.memberCached then [cfg.role] else [])
      && Notices(out) == 0
      && (Submitted in out <==> env.logChannelCached && env.memberCached)
  {
    if env.logChannelCached {
      ProjectionsSingle(PublishLog(cfg.logChannel, d));
      ProjectionsSingle(GrantRole(cfg.role));
      ProjectionsSingle(Submitted);
      ProjectionsConcat([GrantRole(cfg.role)], [Submitted]);
      assert [GrantRole(cfg.role), Submitted] == [GrantRole(cfg.role)] + [Submitted];
      ProjectionsConcat([PublishLog(cfg.logChannel, d)], [GrantRole(cfg.role), Submitted]);
      ProjectionsConcat([PublishLog(cfg.logChannel, d)], []);
    }
  }

  /** Once a session has completed or been abandoned, later events change
      nothing and send nothing: there is no collector left to receive them. */
  lemma {:induction false} FinishedIsFinal(qs: seq<string>, cfg: GuildConfig, env: Env, events: seq<Event>, more: seq<Event>)
    requires Run(qs, cfg, env, events).state.phase != Awaiting
    ensures Run(qs, cfg, env, events + more) == Run(qs, cfg, env, events)
    decreases |more|
  {
    if more == [] {
      assert events + more == events;
    } else {
      var shorter := more[..|more| - 1];
      assert (events + more)[..|events + more| - 1] == events + shorter;
      FinishedIsFinal(qs, cfg, env, events, shorter);
    }
  }

  /** The events of an applicant who answers every question with the given texts. */
  function Replies(texts: seq<string>): (es: seq<Event>)
    ensures |es| == |texts|
    ensures texts != [] ==> es[|es| - 1] == Answered(texts[|texts| - 1])
    decreases |texts|
  {
    if texts == [] then [] else Replies(texts[..|texts| - 1]) + [Answered(texts[|texts| - 1])]
  }

  /** A session in which every question is answered completes exactly when as
      many answers as questions have arrived; before that the cursor is one
      past the number of answers. An empty question list completes at once. */
  lemma {:induction false} CompletesWhenAllAnswered(qs: seq<string>, cfg: GuildConfig, env: Env, texts: seq<string>)
    ensures var s := Run(qs, cfg, env, Replies(texts)).state;
      && (s.phase.Completed? <==> |texts| >= |qs|)
      && (|texts| < |qs| ==> s.phase == Awaiting && s.cursor == |texts| + 1)
    decreases |texts|
  {
    if texts != [] {
      var shorter := texts[..|texts| - 1];
      assert Replies(texts)[..|texts| - 1] == Replies(shorter);
      CompletesWhenAllAnswered(qs, cfg, env, shorter);
      if |shorter| >= |qs| {
        FinishedIsFinal(qs, cfg, env, Replies(shorter), [Replies(texts)[|texts| - 1]]);
        assert Replies(shorter) + [Replies(texts)[|texts| - 1]] == Replies(texts);
      }
    }
  }

  /** With distinct questions, answering them all records one entry per
      question, in ask order, and the log description lists them so. */
  lemma {:induction false} DistinctQuestionsRecordAll(qs: seq<string>, cfg: GuildConfig, env: Env, texts: seq<string>)
    requires Distinct(qs) && |texts| == |qs|
    ensures Run(qs, cfg, env, Replies(texts)).state == State(|qs|, Zip(qs, texts), Completed(Describe(Zip(qs, texts))))
  {
    if texts == [] {
      assert Zip(qs, texts) == [];
    } else {
      var k := |texts| - 1;
      var shorter, events := texts[..k], Replies(texts);
      assert events[..k] == Replies(shorter);
      AnsweringSoFar(qs, cfg, env, shorter);
      var before := State(k + 1, Zip(qs[..k], shorter), Awaiting);
      RunLast(qs, cfg, env, events);
      assert Run(qs, cfg, env, events).state == Next(qs, cfg, env, before, Answered(texts[k])).state;
      RecordStep(qs, cfg, env, before, shorter, texts[k]);
      assert shorter + [texts[k]] == texts && qs[..k + 1] == qs;
      var answers := Put(before.answers, qs[k], texts[k]);
      assert answers == Zip(qs, texts);
      assert Next(qs, cfg, env, before, Answered(texts[k])).state == AskOrComplete(qs, cfg, env, k + 1, answers).state;
    }
  }

  /** With distinct questions, an applicant who has answered fewer questions
      than there are is awaiting the next one, and the answers so far pair
      each asked question with its answer, in ask order. */
  lemma {:induction false} AnsweringSoFar(qs: seq<string>, cfg: GuildConfig, env: Env, texts: seq<string>)
    requires Distinct(qs) && |texts| < |qs|
    ensures Run(qs, cfg, env, Replies(texts)).state == State(|texts| + 1, Zip(qs[..|texts|], texts), Awaiting)
    decreases |texts|
  {
    if texts == [] {
      assert Zip(qs[..0], []) == [];
    } else {
      var k := |texts| - 1;
      var shorter, events := texts[..k], Replies(texts);
      assert events[..k] == Replies(shorter);
      AnsweringSoFar(qs, cfg, env, shorter);
      RunLast(qs, cfg, env, events);
      RecordStep(qs, cfg, env, State(k + 1, Zip(qs[..k], shorter), Awaiting), shorter, texts[k]);
      assert shorter + [texts[k]] == texts;
    }
  }

  /** The last event is applied to the state the earlier ones reach. */
  lemma RunLast(qs: seq<string>, cfg: GuildConfig, env: Env, events: seq<Event>)
    requires events != []
    ensures Run(qs, cfg, env, events).state
         == Next(qs, cfg, env, Run(qs, cfg, env, events[..|events| - 1]).state, events[|events| - 1]).state
  {
  }

  /** With distinct questions, the answer to the pending question extends the
      zipped answers by one entry. */
  lemma RecordStep(qs: seq<string>, cfg: GuildConfig, env: Env, s: State, earlier: seq<string>, text: string)
    requires Distinct(qs) && WellFormed(qs, s) && s.phase == Awaiting
    requires |earlier| == s.cursor - 1 && s.answers == Zip(qs[..s.cursor - 1], earlier)
    ensures Next(qs, cfg, env, s, Answered(text)).state.answers == Zip(qs[..s.cursor], earlier + [text])
  {
    var k := s.cursor - 1;
    assert qs[k] !in qs[..k];
    ZipQuestions(qs[..k], earlier);
    PutSpec(s.answers, qs[k], text);
    assert qs[..k + 1] == qs[..k] + [qs[k]];
    ZipSnoc(qs[..k], earlier, qs[k], text);
  }

  lemma ZipSnoc(qs: seq<string>, ts: seq<string>, q: string, t: string)
    requires |qs| == |ts|
    ensures Zip(qs + [q], ts + [t]) == Zip(qs, ts) + [Entry(q, t)]
  {
  }

  /** A session whose question list is empty completes on start, sending the
      welcome and then the completion messages and asking nothing. */
  lemma EmptyQuestionListCompletesAtOnce(cfg: GuildConfig, env: Env)
    ensures Run([], cfg, env, []) == Transition(State(0, [], Completed("")), [Welcome] + Completion(cfg, env, ""))
  {
  }

  /** An applicant who answers the first question and lets the second time
      out is told so, and nothing is published or granted. */
  lemma TimeoutScenario(cfg: GuildConfig, env: Env)
    ensures var qs := ["Why do you want to join?", "Experience?"];
      Run(qs, cfg, env, [Answered("Because"), TimedOut]) ==
        Transition(State(2, [Entry("Why do you want to join?", "Because")], Abandoned),
                   [Welcome, Ask("Why do you want to join?"), Ask("Experience?"), TimeoutNotice])
  {
    var qs := ["Why do you want to join?", "Experience?"];
    assert [Answered("Because"), TimedOut][..1] == [Answered("Because")];
    assert [Answered("Because")][..0] == [];
  }

  /** The complete exchange for two questions answered in time. */
  lemma CompletedScenario(env: Env)
    requires env.logChannelCached && env.memberCached
    ensures var qs := ["Why do you want to join?", "Experience?"];
      Run(qs, GuildConfig("L", "R"), env, [Answered("Because"), Answered("5 years")]).out ==
        [Welcome, Ask("Why do you want to join?"), Ask("Experience?"),
         PublishLog("L", Line(Entry("Why do you want to join?", "Because")) + "\n" +
                         Line(Entry("Experience?", "5 years"))),
         GrantRole("R"), Submitted]
  {
    var qs := ["Why do you want to join?", "Experience?"];
    var cfg := GuildConfig("L", "R");
    var events := [Answered("Because"), Answered("5 years")];
    assert events[..1] == [Answered("Because")];
    assert [Answered("Because")][..0] == [];
    var e1, e2 := Entry(qs[0], "Because"), Entry(qs[1], "5 years");
    var first := Run(qs, cfg, env, events[..1]);
    assert first.state == State(2, [e1], Awaiting);
    assert first.out == [Welcome, Ask(qs[0]), Ask(qs[1])];
    assert Put([e1], qs[1], "5 years") == [e1, e2];
    assert Describe([e1, e2]) == Line(e1) + "\n" + Line(e2);
  }

  /** One applicant's session as the bot runs it: the question list and the
      guild config are fixed when the session starts; the cursor, the answers
      and the messages sent change as events arrive. */
  class ApplicationSession {
    const questions: seq<string>
    const guildConfig: GuildConfig
    const env: Env
    var index: nat
    var applicationData: AnswerList
    var phase: Phase
    var sent: seq<Output>
    ghost var received: seq<Event>

    /** The session is where the state machine is after the events received. */
    ghost predicate Valid()
      reads this
    {
      Run(questions, guildConfig, env, received) == Transition(State(index, applicationData, phase), sent)
    }

    function CurrentState(): State
      reads this
    {
      State(index, applicationData, phase)
    }

    /** Sends the welcome, then asks the first question (or completes at once). */
    constructor (questions: seq<string>, guildConfig: GuildConfig, env: Env)
      ensures Valid() && received == []
      ensures this.questions == questions && this.guildConfig == guildConfig && this.env == env
    {
      this.questions := questions;
      this.guildConfig := guildConfig;
      this.env := env;
      index := 0;
      applicationData := [];
      phase := Awaiting;
      sent := [Welcome];
      received := [];
      new;
      AskQuestion();
    }

    /** Asks the question at the cursor and advances it, or, once every
        question was asked, publishes the log and grants the role. Like the
        closure it models, it is internal to the session: only the
        constructor and `Deliver` call it, and a call from anywhere else
        would move the cursor without an event and break `Valid()`. */
    method AskQuestion()
      requires index <= |questions|
      modifies this`index, this`phase, this`sent
      ensures var t := AskOrComplete(questions, guildConfig, env, old(index), applicationData);
        CurrentState() == t.state && sent == old(sent) + t.out
    {
      if index >= |questions| {
        var description := Describe(applicationData);
        phase := Completed(description);
        if env.logChannelCached {
          sent := sent + [PublishLog(guildConfig.logChannel, description)];
          if env.memberCached {
            sent := sent + [GrantRole(guildConfig.role), Submitted];
          }
        }
        return;
      }
      var question := questions[index];
      index := index + 1;
      phase := Awaiting;
      sent := sent + [Ask(question)];
    }

    /** Hands one collector event to the session. */
    method Deliver(e: Event)
      requires Valid()
      modifies this
      ensures Valid() && received == old(received) + [e]
      ensures var t := Next(questions, guildConfig, env, old(CurrentState()), e);
        CurrentState() == t.state && sent == old(sent) + t.out
    {
      ghost var t := Next(questions, guildConfig, env, CurrentState(), e);
      ghost var runBefore := Run(questions, guildConfig, env, received);
      if phase.Awaiting? {
        match e
        case Answered(text) =>
          applicationData := Put(applicationData, questions[index - 1], text);
          AskQuestion();
        case TimedOut =>
          phase := Abandoned;
          sent := sent + [TimeoutNotice];
      }
      assert CurrentState() == t.state && sent == runBefore.out + t.out;
      received := received + [e];
      assert received[..|received| - 1] == old(received);
    }
  }
}
