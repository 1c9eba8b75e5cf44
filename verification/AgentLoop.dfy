/** The agent's loop: one observation, one model call and one tool per step, within fixed budgets. */
module AgentLoop {
  import opened Basics
  import opened Conversation

  datatype Note =
    | Nothing
    | Said(text: string)
    | DeadlineReached
    | Unreadable(attempts: nat)
    | ModelFailed(message: string, attempts: nat)
    | Silent
    | ActionFailed(attempts: nat, message: string)
    | RanOut(steps: nat, filled: nat)

  datatype Report = Report(reachedForm: bool, submitted: bool, filled: seq<string>, blocked: seq<string>, note: Note)

  datatype Stop = Finished | MaxSteps | Failed

  datatype AgentResult = AgentResult(report: Report, steps: nat, stopped: Stop, canSubmit: bool)

  datatype Outcome = Outcome(ok: bool, message: string, finished: Option<Report>)

  datatype Reply = Reply(content: Option<string>, calls: seq<Call>)

  /** A message of the provider: its texts joined, and its tool uses. */
  datatype Use = Use(id: string, name: string, input: string)

  datatype Answered = Answered(text: string, uses: seq<Use>)

  datatype ModelError = Infrastructure(message: string) | Passing(message: string)

  /** What one step meets: the page, the model and the tool. */
  datatype Input = Input(
    late: bool,
    look: Result<Content, string>,
    model: Result<Answered, ModelError>,
    outcome: Outcome,
    field: Option<string>)

  /** JSON and error keys belong to the platform. */
  datatype Platform = Platform(json: Json, key: string -> string)

  /** What the client makes of the provider's message. */
  function ReplyOf(json: Json, a: Answered): Reply {
    Reply(if a.text == "" then None else Some(a.text),
          seq(|a.uses|, i requires 0 <= i < |a.uses| => Call(a.uses[i].id, a.uses[i].name, json.write(a.uses[i].input))))
  }

  // ------------------------------------------------------ repeated failures

  /** One attempt at something; a neutral one is a `done` call that went through. */
  datatype Try = Try(ok: bool, neutral: bool, key: string)

  datatype Tally = Tally(last: string, repeated: nat)

  const CLEAR := Tally("", 0)

  function Fail(t: Tally, key: string): Tally {
    Tally(key, if key == t.last then t.repeated + 1 else 1)
  }

  /** The counters after a series of attempts. */
  function TallyOf(tries: seq<Try>): Tally {
    if tries == [] then CLEAR
    else
      var before, last := TallyOf(tries[..|tries| - 1]), tries[|tries| - 1];
      if !last.ok then Fail(before, last.key)
      else if last.neutral then before
      else CLEAR
  }

  /** The attempts that count: everything but the `done` calls that went through. */
  function Counting(tries: seq<Try>): seq<Try> {
    if tries == [] then []
    else
      var last := tries[|tries| - 1];
      Counting(tries[..|tries| - 1]) + if last.ok && last.neutral then [] else [last]
  }

  /** The counter is the length of the run of identical failures at the end, with accepted `done` calls passed over. */
  ghost predicate EndsInRun(counting: seq<Try>, key: string, n: nat) {
    && n <= |counting|
    && (forall i :: |counting| - n <= i < |counting| ==> !counting[i].ok && counting[i].key == key)
    && (n < |counting| && n > 0 ==> counting[|counting| - n - 1].ok || counting[|counting| - n - 1].key != key)
    && (n == 0 <==> counting == [] || counting[|counting| - 1].ok)
  }

  lemma {:induction false} TallyMeans(tries: seq<Try>)
    ensures EndsInRun(Counting(tries), TallyOf(tries).last, TallyOf(tries).repeated)
  {
    if tries != [] {
      TallyMeans(tries[..|tries| - 1]);
    }
  }

  predicate Below(tries: seq<Try>, n: nat, budget: nat)
    requires n <= |tries|
  {
    TallyOf(tries[..n]).repeated < budget
  }

  ghost predicate Bounded(tries: seq<Try>, budget: nat) {
    forall n: nat | n <= |tries| :: Below(tries, n, budget)
  }

  /** Every series but possibly the last attempt stays below the budget. */
  ghost predicate BoundedUntilLast(tries: seq<Try>, budget: nat) {
    forall n: nat | n < |tries| :: Below(tries, n, budget)
  }

  lemma BoundedMore(tries: seq<Try>, t: Try, budget: nat)
    requires Bounded(tries, budget)
    ensures BoundedUntilLast(tries + [t], budget)
    ensures TallyOf(tries + [t]).repeated < budget ==> Bounded(tries + [t], budget)
    ensures TallyOf(tries + [t]) ==
            if !t.ok then Fail(TallyOf(tries), t.key) else if t.neutral then TallyOf(tries) else CLEAR
    ensures TallyOf(tries).repeated < budget
  {
    var more := tries + [t];
    assert more[..|tries|] == tries && more[..|more|] == more && tries[..|tries|] == tries;
    assert Below(tries, |tries|, budget);
    forall n: nat | n < |more| ensures Below(more, n, budget) {
      assert more[..n] == tries[..n] && Below(tries, n, budget);
    }
    assert TallyOf(more).repeated < budget ==> Below(more, |more|, budget);
  }

  lemma FailMore(t: Tally, tries: seq<Try>, key: string, budget: nat)
    requires t == TallyOf(tries) && Bounded(tries, budget)
    ensures var more := tries + [Try(false, false, key)];
            && Fail(t, key) == TallyOf(more) && BoundedUntilLast(more, budget)
            && (Fail(t, key).repeated < budget ==> Bounded(more, budget))
  {
    BoundedMore(tries, Try(false, false, key), budget);
  }

  lemma BoundedEnds(tries: seq<Try>, budget: nat)
    requires Bounded(tries, budget)
    ensures TallyOf(tries).repeated < budget && BoundedUntilLast(tries, budget)
  {
    assert tries[..|tries|] == tries && Below(tries, |tries|, budget);
  }

  // -------------------------------------------------------------- reporting

  /** The agent's own list, then what was observed and is not on it yet. */
  function Merged(filled: seq<string>, observed: seq<string>): seq<string> {
    if observed == [] then filled
    else
      var before := Merged(filled, observed[..|observed| - 1]);
      if observed[|observed| - 1] in before then before else before + [observed[|observed| - 1]]
  }

  lemma {:induction false} MergedIs(filled: seq<string>, observed: seq<string>)
    ensures filled <= Merged(filled, observed)
    ensures forall x :: x in Merged(filled, observed) <==> x in filled || x in observed
    ensures forall i, j :: 0 <= i < j < |Merged(filled, observed)| && |filled| <= j ==>
              Merged(filled, observed)[i] != Merged(filled, observed)[j]
  {
    if observed != [] {
      MergedIs(filled, observed[..|observed| - 1]);
      assert observed == observed[..|observed| - 1] + [observed[|observed| - 1]];
    }
  }

  /** Work the loop saw is never lost from the report, and only a finished run may submit. */
  method Finalize(report: Report, observed: seq<string>, steps: nat, stopped: Stop) returns (r: AgentResult)
    ensures r.steps == steps && r.stopped == stopped
    ensures r.report.filled == Merged(report.filled, observed)
    ensures r.report.blocked == report.blocked && r.report.submitted == report.submitted
    ensures r.report.reachedForm <==> report.reachedForm || observed != []
    ensures r.report.note == if stopped.MaxSteps? && report.note.Nothing? then RanOut(steps, |observed|) else report.note
    ensures r.canSubmit <==> stopped.Finished? && (report.reachedForm || observed != [])
  {
    var filled := report.filled;
    var i := 0;
    while i < |observed|
      invariant i <= |observed|
      invariant filled == Merged(report.filled, observed[..i])
    {
      assert observed[..i + 1][..i] == observed[..i];
      if observed[i] !in filled {
        filled := filled + [observed[i]];
      }
      i := i + 1;
    }
    assert observed[..i] == observed;
    var reached := report.reachedForm || |observed| > 0;
    var note := if stopped.MaxSteps? && report.note.Nothing? then RanOut(steps, |observed|) else report.note;
    r := AgentResult(report.(reachedForm := reached, note := note, filled := filled), steps, stopped, stopped.Finished? && reached);
  }

  // ---------------------------------------------------------------- history

  function Says(text: Content): Message {
    Message(User, text, None, None)
  }

  function Prose(content: Option<string>): Message {
    Message(Assistant, Text(if content.Some? then content.value else ""), None, None)
  }

  function CallMessage(content: Option<string>, call: Call): Message {
    Message(Assistant, Text(if content.Some? then content.value else ""), None, Some([call]))
  }

  function ReplyMessage(call: Call, outcome: Outcome): Message {
    Message(Tool, Text((if outcome.ok then "OK: " else "REFUSED: ") + outcome.message), Some(call.id), None)
  }

  lemma OpeningIsPaired(system: string, goal: string)
    ensures WellPaired([Message(System, Text(system), None, None), Says(Text("Goal: " + goal))])
  {
    assert ("Goal: " + goal)[0] == 'G';
  }

  /** A message that is neither a call nor a reply may follow. */
  lemma SayingKeepsPairs(h: seq<Message>, m: Message)
    requires WellPaired(h) && !m.role.System? && !m.role.Tool? && !Calls(m)
    ensures WellPaired(h + [m])
  {
    var more := h + [m];
    forall i: nat | 1 <= i < |more|
      ensures PairedAt(more, i)
    {
      if i < |h| {
        assert PairedAt(h, i);
      }
    }
  }

  lemma CallKeepsPairs(h: seq<Message>, content: Option<string>, call: Call, outcome: Outcome)
    requires WellPaired(h)
    ensures WellPaired(h + [CallMessage(content, call), ReplyMessage(call, outcome)])
  {
    var more := h + [CallMessage(content, call), ReplyMessage(call, outcome)];
    assert more[|h|] == CallMessage(content, call) && more[|h| + 1] == ReplyMessage(call, outcome);
    forall i: nat | 1 <= i < |more|
      ensures PairedAt(more, i)
    {
      if i < |h| {
        assert PairedAt(h, i);
      }
    }
  }

  // --------------------------------------------------------------- the loop

  /** What the tools promise: only an accepted `done` carries a report. */
  predicate ToolFits(call: Call, outcome: Outcome) {
    (call.name == "done" && outcome.ok) <==> outcome.finished.Some?
  }

  /**
   * What the page, the provider and the tools promise: an observation is text with perhaps a
   * screenshot's own bytes, and tool uses are named.
   */
  predicate Fits(p: Platform, input: Input) {
    && (input.look.Ok? ==> FineContent(input.look.value) && Spoken(Says(input.look.value)))
    && (input.model.Ok? ==> forall i :: 0 <= i < |input.model.value.uses| ==> input.model.value.uses[i].id != "")
    && (input.model.Ok? && input.model.value.uses != [] ==> ToolFits(ReplyOf(p.json, input.model.value).calls[0], input.outcome))
  }

  /** One step: what it met, and what the history was turned into if the model was asked. */
  datatype Moment = Moment(input: Input, system: string, turns: seq<Turn>)

  function Answer(p: Platform, m: Moment): Result<Reply, ModelError> {
    match m.input.model
    case Err(error) => Err(error)
    case Ok(answered) => Ok(ReplyOf(p.json, answered))
  }

  function LookTry(p: Platform, input: Input): Try {
    if input.look.Ok? then Try(true, false, "") else Try(false, false, p.key(input.look.error))
  }

  /** An unreachable model service is thrown, not counted. */
  function ThinkTries(p: Platform, answer: Result<Reply, ModelError>): seq<Try> {
    match answer
    case Ok(_) => [Try(true, false, "")]
    case Err(Infrastructure(_)) => []
    case Err(Passing(message)) => [Try(false, false, p.key(message))]
  }

  function ActTry(p: Platform, call: Call, outcome: Outcome): Try {
    if !outcome.ok then Try(false, false, p.key(outcome.message)) else Try(true, call.name == "done", "")
  }

  predicate Asked(m: Moment) {
    m.input.look.Ok?
  }

  /** Of the calls in an answer only the first is made. */
  function ActTries(p: Platform, m: Moment): seq<Try> {
    var answer := Answer(p, m);
    if answer.Ok? && answer.value.calls != [] then [ActTry(p, answer.value.calls[0], m.input.outcome)] else []
  }

  /** The attempts of each kind in a run: every reading, every request and every tool call, in order. */
  function Looks(p: Platform, log: seq<Moment>): seq<Try> {
    if log == [] then [] else Looks(p, log[..|log| - 1]) + [LookTry(p, log[|log| - 1].input)]
  }

  function Thoughts(p: Platform, log: seq<Moment>): seq<Try> {
    if log == [] then []
    else
      var m := log[|log| - 1];
      Thoughts(p, log[..|log| - 1]) + if Asked(m) then ThinkTries(p, Answer(p, m)) else []
  }

  function Acts(p: Platform, log: seq<Moment>): seq<Try> {
    if log == [] then []
    else
      var m := log[|log| - 1];
      Acts(p, log[..|log| - 1]) + if Asked(m) then ActTries(p, m) else []
  }

  lemma Longer(p: Platform, log: seq<Moment>, m: Moment)
    ensures Looks(p, log + [m]) == Looks(p, log) + [LookTry(p, m.input)]
    ensures Thoughts(p, log + [m]) == Thoughts(p, log) + if Asked(m) then ThinkTries(p, Answer(p, m)) else []
    ensures Acts(p, log + [m]) ==
            Acts(p, log) + if Asked(m) then ActTries(p, m) else []
  {
    assert (log + [m])[..|log|] == log;
  }

  /** How a part of a step ends: on with the step, on with the next step, out of the loop, or out of the routine. */
  datatype Verdict = Go | NextStep | Break | Throw(message: string)

  function Spent(tries: seq<Try>, budget: nat): Verdict {
    if TallyOf(tries).repeated >= budget then Break else NextStep
  }

  predicate IsSilent(content: Option<string>) {
    content.None? || content.value == ""
  }

  /** How a round ends once the model was asked: the budgets, the rule for prose and the rule for `done`. */
  function Sentence(p: Platform, m: Moment, step: nat, thoughts: seq<Try>, thinking: nat, acts: seq<Try>, acting: nat): Verdict {
    match Answer(p, m)
    case Err(Infrastructure(message)) => Throw(message)
    case Err(Passing(_)) => Spent(thoughts, thinking)
    case Ok(reply) =>
      if reply.calls == [] then if step > 0 && IsSilent(reply.content) then Break else NextStep
      else if m.input.outcome.finished.Some? && TallyOf(acts).repeated == 0 then Break
      else if !m.input.outcome.ok then Spent(acts + ActTries(p, m), acting)
      else NextStep
  }

  /** What the loop does after the rounds `log` and the round `m`. */
  function Ruling(p: Platform, budget: nat, log: seq<Moment>, m: Moment): Verdict {
    if m.input.look.Err? then Spent(Looks(p, log + [m]), budget)
    else Sentence(p, m, |log|, Thoughts(p, log + [m]), budget, Acts(p, log), budget)
  }

  /** A round adds its attempts to those of the run and is ruled by them. */
  lemma RoundIsRuled(p: Platform, budget: nat, log: seq<Moment>, m: Moment, looks: seq<Try>, thoughts: seq<Try>, acts: seq<Try>,
                     v: Verdict)
    requires looks == Looks(p, log) + [LookTry(p, m.input)]
    requires thoughts == Thoughts(p, log) + if Asked(m) then ThinkTries(p, Answer(p, m)) else []
    requires acts == Acts(p, log) + if Asked(m) then ActTries(p, m) else []
    requires v == if Asked(m) then Sentence(p, m, |log|, thoughts, budget, Acts(p, log), budget) else Spent(looks, budget)
    ensures looks == Looks(p, log + [m]) && thoughts == Thoughts(p, log + [m]) && acts == Acts(p, log + [m])
    ensures v == Ruling(p, budget, log, m)
  {
    Longer(p, log, m);
  }

  /** The last error of one kind and how often it came in a row, as the loop keeps them. */
  class Counter {
    const budget: nat
    var last: string
    var repeated: nat
    ghost var tries: seq<Try>

    ghost predicate Alive()
      reads this
    {
      budget > 0 && Tally(last, repeated) == TallyOf(tries) && Bounded(tries, budget)
    }

    /** Nothing but the last attempt may have used up the budget. */
    ghost predicate Ended()
      reads this
    {
      Tally(last, repeated) == TallyOf(tries) && BoundedUntilLast(tries, budget)
    }

    constructor (budget: nat)
      requires budget > 0
      ensures Alive() && tries == [] && this.budget == budget && repeated == 0
    {
      this.budget, last, repeated, tries := budget, "", 0, [];
      new;
      assert forall n: nat | n <= 0 :: Below([], n, budget);
    }

    lemma AliveEnded()
      requires Alive()
      ensures Ended() && repeated < budget
    {
      BoundedEnds(tries, budget);
    }

    method Failure(key: string) returns (spent: bool)
      requires Alive()
      modifies this
      ensures tries == old(tries) + [Try(false, false, key)] && Ended()
      ensures last == key && repeated == if key == old(last) then old(repeated) + 1 else 1
      ensures spent <==> repeated >= budget
      ensures !spent ==> Alive()
    {
      FailMore(Tally(last, repeated), tries, key, budget);
      repeated := if key == last then repeated + 1 else 1;
      last := key;
      tries := tries + [Try(false, false, key)];
      spent := repeated >= budget;
    }

    method Success(ghost key: string)
      requires Alive()
      modifies this
      ensures Alive() && tries == old(tries) + [Try(true, false, key)] && repeated == 0
    {
      BoundedMore(tries, Try(true, false, key), budget);
      last, repeated := "", 0;
      tries := tries + [Try(true, false, key)];
    }

    /** An accepted `done` leaves the counter alone. */
    ghost method PassOver(key: string)
      requires Alive()
      modifies this`tries
      ensures Alive() && tries == old(tries) + [Try(true, true, key)]
    {
      BoundedMore(tries, Try(true, true, key), budget);
      tries := tries + [Try(true, true, key)];
    }
  }

  /** The last act is an accepted `done`, and the last other act, if any, succeeded. */
  ghost predicate DoneLast(acts: seq<Try>) {
    && acts != [] && acts[|acts| - 1].ok && acts[|acts| - 1].neutral
    && (Counting(acts) == [] || Counting(acts)[|Counting(acts)| - 1].ok)
  }

  lemma DoneAccepted(acts: seq<Try>)
    requires acts != [] && acts[|acts| - 1].ok && acts[|acts| - 1].neutral
    ensures DoneLast(acts) <==> TallyOf(acts).repeated == 0
  {
    TallyMeans(acts);
  }

  class Agent {
    const platform: Platform
    const look: Counter
    const thought: Counter
    const act: Counter
    var messages: seq<Message>
    var report: Report
    var stopped: Stop
    var observed: seq<string>
    ghost var sent: seq<seq<Turn>>
    ghost var calls: nat

    ghost predicate Distinct()
      reads this
    {
      look != thought && look != act && thought != act
    }

    /** Between steps: the history is well paired, and every counter is below the budget. */
    ghost predicate Valid()
      reads this, look, thought, act
    {
      Distinct() && Sound() && look.Alive() && thought.Alive() && act.Alive() && WellSent(sent)
    }

    /** The history is well paired and each of its messages can be passed on. */
    ghost predicate Sound()
      reads this
    {
      WellPaired(messages) && Lawful(platform.json) && Converts(platform.json, messages)
    }

    /** After the loop: at most the last attempt of one kind used up its budget, and then the run failed. */
    ghost predicate Over()
      reads this, look, thought, act
    {
      && Distinct() && look.Ended() && thought.Ended() && act.Ended() && WellSent(sent)
      && (look.repeated >= look.budget || thought.repeated >= thought.budget || act.repeated >= act.budget ==> stopped.Failed?)
      && (stopped.Finished? ==> DoneLast(act.tries))
    }

    constructor (platform: Platform, budget: nat, system: string, goal: string)
      requires budget > 0 && Lawful(platform.json)
      ensures Valid() && stopped.MaxSteps? && sent == [] && calls == 0 && this.platform == platform
      ensures look.tries == thought.tries == act.tries == []
      ensures fresh(look) && fresh(thought) && fresh(act)
      ensures look.budget == thought.budget == act.budget == budget
      ensures observed == [] && report.note.Nothing?
    {
      this.platform := platform;
      look := new Counter(budget);
      thought := new Counter(budget);
      act := new Counter(budget);
      messages := [Message(System, Text(system), None, None), Says(Text("Goal: " + goal))];
      report := Report(false, false, [], [], Nothing);
      stopped, observed := MaxSteps, [];
      sent, calls := [], 0;
      new;
      OpeningIsPaired(system, goal);
    }

    method Say(content: Content)
      requires Sound() && FineContent(content)
      modifies this`messages
      ensures Sound() && messages == old(messages) + [Says(content)]
    {
      SayingKeepsPairs(messages, Says(content));
      ConvertsMore(platform.json, messages, [Says(content)]);
      messages := messages + [Says(content)];
    }

    lemma ValidIsOver()
      requires Valid() && (stopped.Finished? ==> DoneLast(act.tries))
      ensures Over()
    {
      look.AliveEnded();
      thought.AliveEnded();
      act.AliveEnded();
    }

    method HitDeadline()
      requires Valid()
      modifies this`stopped, this`report
      ensures Over() && stopped.MaxSteps? && report == old(report).(note := DeadlineReached)
    {
      stopped, report := MaxSteps, report.(note := DeadlineReached);
      ValidIsOver();
    }

    /** Reading the page. */
    method Look(input: Input) returns (v: Verdict)
      requires Valid() && Fits(platform, input)
      modifies this`messages, this`stopped, this`report, look
      ensures look.tries == old(look.tries) + [LookTry(platform, input)]
      ensures v == if input.look.Ok? then Go else Spent(look.tries, look.budget)
      ensures messages == old(messages) +
              if v.Go? then [Says(input.look.value)]
              else if v.Break? then []
              else [Says(Text("The browser could not be read: " + input.look.error))]
      ensures v.Break? ==> Over() && stopped.Failed? && report == old(report).(note := Unreadable(look.repeated))
      ensures !v.Break? ==> Valid() && stopped == old(stopped) && report == old(report)
    {
      if input.look.Ok? {
        look.Success("");
        Say(input.look.value);
        return Go;
      }
      var spent := look.Failure(platform.key(input.look.error));
      if spent {
        stopped, report := Failed, report.(note := Unreadable(look.repeated));
        thought.AliveEnded();
        act.AliveEnded();
        return Break;
      }
      Say(Text("The browser could not be read: " + input.look.error));
      v := NextStep;
    }

    /** Asking the model, with the trimmed and converted history. */
    method Think(input: Input) returns (v: Verdict, reply: Reply, ghost m: Moment)
      requires Valid() && Fits(platform, input)
      modifies this`messages, this`stopped, this`report, this`sent, this`calls, thought
      ensures m.input == input && Presents(platform.json, old(messages), m.system, Ok(m.turns))
      ensures sent == old(sent) + [m.turns] && calls == old(calls) + 1
      ensures thought.tries == old(thought.tries) + ThinkTries(platform, Answer(platform, m))
      ensures match Answer(platform, m)
              case Ok(answer) => v == Go && reply == answer && messages == old(messages)
              case Err(Infrastructure(message)) => v == Throw(message)
              case Err(Passing(message)) =>
                && v == Spent(thought.tries, thought.budget)
                && (v.NextStep? ==> messages == old(messages) + [Says(Text("The model request failed: " + message))])
                && (v.Break? ==> report == old(report).(note := ModelFailed(message, thought.repeated)))
      ensures v.Break? ==> Over() && stopped.Failed?
      ensures !v.Break? ==> Valid() && stopped == old(stopped) && report == old(report)
    {
      reply := Reply(None, []);
      var answer;
      answer, m := Ask(input);
      if answer.Ok? {
        thought.Success("");
        return Go, answer.value, m;
      }
      if answer.error.Infrastructure? {
        return Throw(answer.error.message), reply, m;
      }
      v := Retry(answer.error.message);
    }

    /** A request that failed may be repeated while the budget lasts. */
    method Retry(message: string) returns (v: Verdict)
      requires Valid()
      modifies this`messages, this`stopped, this`report, thought
      ensures thought.tries == old(thought.tries) + [Try(false, false, platform.key(message))]
      ensures v == Spent(thought.tries, thought.budget)
      ensures v.NextStep? ==> messages == old(messages) + [Says(Text("The model request failed: " + message))]
      ensures v.Break? ==> Over() && stopped.Failed? && report == old(report).(note := ModelFailed(message, thought.repeated))
      ensures !v.Break? ==> Valid() && stopped == old(stopped) && report == old(report)
    {
      var spent := thought.Failure(platform.key(message));
      if spent {
        stopped, report := Failed, report.(note := ModelFailed(message, thought.repeated));
        look.AliveEnded();
        act.AliveEnded();
        return Break;
      }
      Say(Text("The model request failed: " + message));
      v := NextStep;
    }

    /** The call itself: the history always converts, so it always goes out. */
    method Ask(input: Input) returns (answer: Result<Reply, ModelError>, ghost m: Moment)
      requires Sound() && WellSent(sent)
      modifies this`sent, this`calls
      ensures WellSent(sent) && calls == old(calls) + 1
      ensures m.input == input && Presents(platform.json, messages, m.system, Ok(m.turns))
      ensures sent == old(sent) + [m.turns]
      ensures answer == Answer(platform, m)
    {
      var system, turns := Prepare(platform.json, messages);
      PreparedConverts(platform.json, messages, system, turns);
      m := Moment(input, system, turns.value);
      calls := calls + 1;
      sent := sent + [turns.value];
      answer := match input.model
        case Err(error) => Err(error)
        case Ok(answered) => Ok(ReplyOf(platform.json, answered));
    }

    /** An answer in prose is pointed out once; silence after the first step ends the run. */
    method Nudge(step: nat, content: Option<string>) returns (v: Verdict)
      requires Valid()
      modifies this`messages, this`stopped, this`report
      ensures v == if step > 0 && IsSilent(content) then Break else NextStep
      ensures messages ==
              old(messages) + [Prose(content), Says(Text("That was not a tool call. Call exactly one tool, or call done."))]
      ensures v.Break? ==> Over() && stopped.Failed? && report == old(report).(note := Silent)
      ensures !v.Break? ==> Valid() && stopped == old(stopped) && report == old(report)
    {
      SayingKeepsPairs(messages, Prose(content));
      ConvertsMore(platform.json, messages, [Prose(content)]);
      messages := messages + [Prose(content)];
      Say(Text("That was not a tool call. Call exactly one tool, or call done."));
      if step > 0 && (content.None? || content.value == "") {
        stopped, report := Failed, report.(note := Silent);
        ValidIsOver();
        return Break;
      }
      v := NextStep;
    }

    /** The counter after a tool call: an accepted `done` neither clears nor raises it. */
    method Count(call: Call, outcome: Outcome) returns (spent: bool)
      requires act.Alive()
      modifies act
      ensures act.tries == old(act.tries) + [ActTry(platform, call, outcome)]
      ensures act.Ended() && (!spent ==> act.Alive()) && (spent <==> act.repeated >= act.budget)
      ensures outcome.ok && call.name == "done" ==> act.repeated == old(act.repeated)
      ensures outcome.ok && call.name != "done" ==> act.repeated == 0
    {
      if !outcome.ok {
        spent := act.Failure(platform.key(outcome.message));
      } else {
        if call.name != "done" {
          act.Success("");
        } else {
          act.PassOver("");
        }
        spent := false;
        act.AliveEnded();
      }
    }

    method Record(content: Option<string>, call: Call, outcome: Outcome, field: Option<string>)
      requires Sound() && call.id != "" && platform.json.parse(call.arguments).Some?
      modifies this`messages, this`observed
      ensures Sound()
      ensures messages == old(messages) + [CallMessage(content, call), ReplyMessage(call, outcome)]
      ensures observed == if outcome.ok && call.name in ["fill", "select", "upload"] && field.Some? && field.value !in old(observed)
                          then old(observed) + [field.value] else old(observed)
    {
      if outcome.ok && call.name in ["fill", "select", "upload"] && field.Some? && field.value !in observed {
        observed := observed + [field.value];
      }
      CallKeepsPairs(messages, content, call, outcome);
      ConvertsMore(platform.json, messages, [CallMessage(content, call), ReplyMessage(call, outcome)]);
      messages := messages + [CallMessage(content, call), ReplyMessage(call, outcome)];
    }

    /** One tool call, its bookkeeping, and the rule for accepting `done`. */
    method Act(content: Option<string>, call: Call, input: Input) returns (v: Verdict)
      requires Valid() && ToolFits(call, input.outcome) && call.id != "" && platform.json.parse(call.arguments).Some?
      modifies this`messages, this`observed, this`stopped, this`report, act
      ensures act.tries == old(act.tries) + [ActTry(platform, call, input.outcome)]
      ensures v == if input.outcome.finished.Some? && old(act.repeated) == 0 then Break
                   else if !input.outcome.ok then Spent(act.tries, act.budget)
                   else NextStep
      ensures messages == old(messages) + [CallMessage(content, call), ReplyMessage(call, input.outcome)] +
              if v.NextStep? && input.outcome.finished.Some?
              then [Says(Text("Do not call done immediately after a recoverable action error."))] else []
      ensures v.Break? ==>
                && Over()
                && (if input.outcome.ok then stopped.Finished? && Some(report) == input.outcome.finished
                    else stopped.Failed? && report == old(report).(note := ActionFailed(act.repeated, input.outcome.message)))
      ensures !v.Break? ==> Valid() && stopped == old(stopped) && report == old(report)
    {
      var hadError, spent := Attempt(content, call, input.outcome, input.field);
      v := Settle(input.outcome, hadError, spent);
    }

    /** Between a tool call and its consequences: only its own counter may be used up. */
    ghost predicate Tried(outcome: Outcome, hadError: bool, spent: bool)
      reads this, look, thought, act
    {
      && Distinct() && Sound() && look.Alive() && thought.Alive() && WellSent(sent)
      && act.Ended() && (!spent ==> act.Alive()) && (spent <==> act.repeated >= act.budget)
      && (outcome.finished.Some? ==>
            && outcome.ok && (hadError <==> act.repeated > 0) && !spent
            && act.tries != [] && act.tries[|act.tries| - 1].ok && act.tries[|act.tries| - 1].neutral)
      && (spent ==> !outcome.ok)
    }

    /** The call and its reply go on record and on the counter. */
    method Attempt(content: Option<string>, call: Call, outcome: Outcome, field: Option<string>) returns (hadError: bool, spent: bool)
      requires Valid() && ToolFits(call, outcome) && call.id != "" && platform.json.parse(call.arguments).Some?
      modifies this`messages, this`observed, act
      ensures Tried(outcome, hadError, spent) && hadError == (old(act.repeated) > 0)
      ensures act.tries == old(act.tries) + [ActTry(platform, call, outcome)]
      ensures messages == old(messages) + [CallMessage(content, call), ReplyMessage(call, outcome)]
    {
      Record(content, call, outcome, field);
      act.AliveEnded();
      hadError := act.repeated > 0;
      spent := Count(call, outcome);
    }

    /** What follows from the outcome and the counter: give up, insist on a correction, accept `done`, or go on. */
    method Settle(outcome: Outcome, hadError: bool, spent: bool) returns (v: Verdict)
      requires Tried(outcome, hadError, spent)
      modifies this`messages, this`stopped, this`report
      ensures v == if spent || (outcome.finished.Some? && !hadError) then Break else NextStep
      ensures messages == old(messages) +
              if v.NextStep? && outcome.finished.Some?
              then [Says(Text("Do not call done immediately after a recoverable action error."))] else []
      ensures v.Break? ==>
                && Over()
                && (if outcome.ok then stopped.Finished? && Some(report) == outcome.finished
                    else stopped.Failed? && report == old(report).(note := ActionFailed(act.repeated, outcome.message)))
      ensures !v.Break? ==> Valid() && stopped == old(stopped) && report == old(report)
    {
      if spent {
        stopped, report := Failed, report.(note := ActionFailed(act.repeated, outcome.message));
        look.AliveEnded();
        thought.AliveEnded();
        return Break;
      }
      if outcome.finished.Some? && hadError && act.repeated > 0 {
        Say(Text("Do not call done immediately after a recoverable action error."));
        return NextStep;
      }
      if outcome.finished.Some? {
        report, stopped := outcome.finished.value, Finished;
        DoneAccepted(act.tries);
        ValidIsOver();
        return Break;
      }
      v := NextStep;
    }

    /** Every attempt of the run is on the counter of its kind. */
    ghost predicate Counted(log: seq<Moment>)
      reads this, look, thought, act
    {
      look.tries == Looks(platform, log) && thought.tries == Thoughts(platform, log) && act.tries == Acts(platform, log)
    }

    /** The second half of a round: the model's answer and what it asks for. */
    method Deliberate(input: Input, step: nat) returns (v: Verdict, ghost m: Moment)
      requires Valid() && Fits(platform, input)
      modifies this, thought, act
      ensures m.input == input && Presents(platform.json, old(messages), m.system, Ok(m.turns))
      ensures calls == old(calls) + 1
      ensures thought.tries == old(thought.tries) + ThinkTries(platform, Answer(platform, m))
      ensures act.tries == old(act.tries) + ActTries(platform, m)
      ensures v == Sentence(platform, m, step, thought.tries, thought.budget, old(act.tries), act.budget)
      ensures v.Break? ==> Over() && (stopped.Failed? || stopped.Finished?)
      ensures !v.Break? ==> Valid() && stopped == old(stopped)
    {
      var reply;
      v, reply, m := Think(input);
      if v.Go? {
        v := Follow(reply, input, step);
      }
    }

    method Follow(reply: Reply, input: Input, step: nat) returns (v: Verdict)
      requires Valid()
      requires reply.calls != [] ==>
                 && ToolFits(reply.calls[0], input.outcome)
                 && reply.calls[0].id != "" && platform.json.parse(reply.calls[0].arguments).Some?
      modifies this`messages, this`observed, this`stopped, this`report, act
      ensures act.tries == old(act.tries) + (if reply.calls == [] then [] else [ActTry(platform, reply.calls[0], input.outcome)])
      ensures v == if reply.calls == [] then if step > 0 && IsSilent(reply.content) then Break else NextStep
                   else if input.outcome.finished.Some? && TallyOf(old(act.tries)).repeated == 0 then Break
                   else if !input.outcome.ok then Spent(act.tries, act.budget)
                   else NextStep
      ensures v.Break? ==> Over() && (stopped.Failed? || stopped.Finished?)
      ensures !v.Break? ==> Valid() && stopped == old(stopped)
    {
      if reply.calls == [] {
        v := Nudge(step, reply.content);
      } else {
        v := Act(reply.content, reply.calls[0], input);
      }
    }

    /** What holds between rounds, or after the last one. */
    ghost predicate Standing(v: Verdict)
      reads this, look, thought, act
    {
      && !v.Go? && WellSent(sent)
      && (if v.Break? then Over() && (stopped.Failed? || stopped.Finished?) else Valid())
    }

    /** A round in which the page cannot be read. */
    method Unread(input: Input, ghost log: seq<Moment>) returns (v: Verdict, ghost m: Moment)
      requires Valid() && Fits(platform, input) && Counted(log) && input.look.Err?
      modifies this`messages, this`stopped, this`report, look
      ensures m.input == input && Counted(log + [m]) && v == Ruling(platform, look.budget, log, m)
      ensures Standing(v) && (!v.Break? ==> stopped == old(stopped))
    {
      m := Moment(input, "", []);
      v := Look(input);
      RoundIsRuled(platform, look.budget, log, m, look.tries, thought.tries, act.tries, v);
    }

    /** A round in which the model is asked. */
    method AskOn(input: Input, step: nat, ghost log: seq<Moment>) returns (v: Verdict, ghost m: Moment)
      requires Valid() && Fits(platform, input) && Counted(log) && input.look.Ok? && step == |log|
      requires look.budget == thought.budget == act.budget
      modifies this, look, thought, act
      ensures m.input == input && Counted(log + [m]) && v == Ruling(platform, look.budget, log, m)
      ensures Presents(platform.json, old(messages) + [Says(input.look.value)], m.system, Ok(m.turns))
      ensures calls == old(calls) + 1
      ensures Standing(v) && (!v.Break? ==> stopped == old(stopped))
    {
      v := Look(input);
      v, m := Deliberate(input, step);
      RoundIsRuled(platform, look.budget, log, m, look.tries, thought.tries, act.tries, v);
    }

    /** One round of the loop; the run so far, and nothing else, decides how it ends. */
    method Step(input: Input, step: nat, ghost log: seq<Moment>) returns (v: Verdict, ghost m: Moment)
      requires Valid() && Fits(platform, input) && Counted(log) && step == |log|
      requires look.budget == thought.budget == act.budget
      modifies this, look, thought, act
      ensures m.input == input && Counted(log + [m]) && v == Ruling(platform, look.budget, log, m)
      ensures Asked(m) ==> Presents(platform.json, old(messages) + [Says(input.look.value)], m.system, Ok(m.turns))
      ensures calls == old(calls) + if Asked(m) then 1 else 0
      ensures Standing(v) && (!v.Break? ==> stopped == old(stopped))
    {
      if input.look.Ok? {
        v, m := AskOn(input, step, log);
      } else {
        v, m := Unread(input, log);
      }
    }
  }

  ghost predicate WellSent(sent: seq<seq<Turn>>) {
    forall k :: 0 <= k < |sent| ==> Acceptable(sent[k])
  }

  /** Every round but the last one led to the next one. */
  ghost predicate Proceeds(p: Platform, budget: nat, log: seq<Moment>, n: nat)
    requires n <= |log|
  {
    forall k :: 0 <= k < n ==> Ruling(p, budget, log[..k], log[k]).NextStep?
  }

  ghost predicate LastRuled(p: Platform, budget: nat, log: seq<Moment>, v: Verdict) {
    log != [] && Ruling(p, budget, log[..|log| - 1], log[|log| - 1]) == v
  }

  lemma ProceedsFurther(p: Platform, budget: nat, log: seq<Moment>, m: Moment)
    requires Proceeds(p, budget, log, |log|)
    ensures Proceeds(p, budget, log + [m], |log|)
    ensures Ruling(p, budget, log, m).NextStep? ==> Proceeds(p, budget, log + [m], |log| + 1)
    ensures LastRuled(p, budget, log + [m], Ruling(p, budget, log, m))
  {
    var more := log + [m];
    assert forall k :: 0 <= k <= |log| ==> more[..k] == log[..k];
    assert log[..|log|] == log;
  }

  /** The rounds took the inputs in order, each of them before the deadline. */
  ghost predicate Feeds(log: seq<Moment>, inputs: seq<Input>) {
    |log| <= |inputs| && forall k :: 0 <= k < |log| ==> log[k].input == inputs[k] && !inputs[k].late
  }

  /** How the run ended: thrown out, broken off or finished by its last round, or out of steps or time. */
  ghost predicate Ends(p: Platform, budget: nat, log: seq<Moment>, inputs: seq<Input>, r: Result<AgentResult, string>) {
    if r.Err? then LastRuled(p, budget, log, Throw(r.error))
    else if r.value.stopped.MaxSteps? then
      Proceeds(p, budget, log, |log|) && (|log| < |inputs| ==> inputs[|log|].late)
    else LastRuled(p, budget, log, Break)
  }

  /** The rounds so far, the last of them ruled v; `late` says that the deadline ended the loop instead. */
  ghost predicate Path(p: Platform, budget: nat, log: seq<Moment>, inputs: seq<Input>, v: Verdict, late: bool) {
    && Feeds(log, inputs)
    && (if v.NextStep? then Proceeds(p, budget, log, |log|)
        else if v.Break? && late then Proceeds(p, budget, log, |log|) && |log| < |inputs| && inputs[|log|].late
        else log != [] && Proceeds(p, budget, log, |log| - 1) && LastRuled(p, budget, log, v))
  }

  lemma PathFurther(p: Platform, budget: nat, log: seq<Moment>, inputs: seq<Input>, m: Moment, v: Verdict)
    requires Path(p, budget, log, inputs, NextStep, false)
    requires |log| < |inputs| && m.input == inputs[|log|] && !m.input.late && v == Ruling(p, budget, log, m)
    ensures Path(p, budget, log + [m], inputs, v, false)
  {
    ProceedsFurther(p, budget, log, m);
  }

  /** The loop between two rounds. */
  ghost predicate Under(agent: Agent, budget: nat, log: seq<Moment>, inputs: seq<Input>, v: Verdict)
    reads agent, agent.look, agent.thought, agent.act
  {
    && agent.look.budget == agent.thought.budget == agent.act.budget == budget
    && agent.Counted(log) && agent.calls <= |log| && WellSent(agent.sent)
    && Path(agent.platform, budget, log, inputs, v, agent.stopped.MaxSteps?)
    && (v.NextStep? ==> agent.Valid() && agent.stopped.MaxSteps?)
    && (v.Break? ==> agent.Over())
  }

  /** The body of the loop: the deadline, or one more round. */
  method Round(agent: Agent, step: nat, input: Input, ghost budget: nat, ghost log: seq<Moment>, ghost inputs: seq<Input>)
    returns (v: Verdict, ghost more: seq<Moment>)
    requires Under(agent, budget, log, inputs, NextStep) && step == |log| < |inputs| && input == inputs[step] && Fits(agent.platform, input)
    modifies agent, agent.look, agent.thought, agent.act
    ensures Under(agent, budget, more, inputs, v) && !v.Go?
    ensures |more| == if input.late then |log| else |log| + 1
    ensures input.late ==> v.Break?
  {
    if input.late {
      agent.HitDeadline();
      return Break, log;
    }
    ghost var m;
    v, m := agent.Step(input, step, log);
    PathFurther(agent.platform, budget, log, inputs, m, v);
    more := log + [m];
  }

  /**
   * The whole run. The model is called at most once a step and never with turns it would refuse;
   * every attempt is counted; a kind of failure repeats identically `budget` times in a row only
   * as the last thing that happens, and then the run has failed; and the run counts as finished,
   * so that a submit may follow, only when the last act is an accepted `done` and the last act
   * before it, if any, succeeded.
   */
  method RunAgent(platform: Platform, budget: nat, maxSteps: nat, system: string, goal: string, inputs: seq<Input>)
    returns (r: Result<AgentResult, string>, agent: Agent, ghost log: seq<Moment>)
    requires budget > 0 && Lawful(platform.json)
    requires |inputs| == maxSteps && forall k :: 0 <= k < |inputs| ==> Fits(platform, inputs[k])
    ensures Feeds(log, inputs) && agent.calls <= |log| && WellSent(agent.sent)
    ensures agent.platform == platform && agent.Counted(log)
    ensures log != [] ==> Proceeds(platform, budget, log, |log| - 1)
    ensures Ends(platform, budget, log, inputs, r)
    ensures r.Ok? ==> r.value.steps == |log| && agent.Over() && agent.stopped == r.value.stopped
    ensures r.Ok? ==> agent.look.budget == agent.thought.budget == agent.act.budget == budget
    ensures r.Ok? && r.value.canSubmit ==> r.value.stopped.Finished? && DoneLast(Acts(platform, log))
    ensures r.Ok? ==> r.value.report.filled == Merged(agent.report.filled, agent.observed)
  {
    agent := new Agent(platform, budget, system, goal);
    log := [];
    var steps := 0;
    var v := NextStep;
    while steps < maxSteps && v.NextStep?
      invariant steps == |log| <= maxSteps && agent.platform == platform
      invariant Under(agent, budget, log, inputs, v) && !v.Go?
      invariant fresh(agent) && fresh(agent.look) && fresh(agent.thought) && fresh(agent.act)
      decreases maxSteps - steps, if v.NextStep? then 1 else 0
    {
      var late := inputs[steps].late;
      v, log := Round(agent, steps, inputs[steps], budget, log, inputs);
      steps := if late then steps else steps + 1;
    }
    if v.Throw? {
      return Err(v.message), agent, log;
    }
    if v.NextStep? {
      agent.ValidIsOver();
    }
    var result := Finalize(agent.report, agent.observed, steps, agent.stopped);
    r := Ok(result);
  }
}
