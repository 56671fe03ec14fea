/** One AI operation on one entity: cached results, the audit row, the bounded dialogue with the
    model, and the patch. What the operation does to the outside is its trace. */
module Enrichment {
  import opened Wrappers
  import opened Retry

  const MAX_SCHEMA_ATTEMPTS := 3

  /** A JSON object's fields, with each field's text, or such an object nested once. */
  datatype Json = Leaf(text: string) | Object(fields: Doc)
  type Doc = map<string, Json>

  datatype Status = Pending | Completed | Failed | Skipped

  datatype Message = User(prompt: string) | JsonOnly | Correction

  /** What the configuration says; `schema` is the registry key when an output schema is set. */
  datatype Operation = Operation(
    name: string, schema: Option<string>, mapping: map<string, string>, onObservation: bool, cacheTtl: int)

  datatype Lookup = Found | NotFound | Unreachable

  /** What the operation meets: the caches, the store, the prompt template and the model.
      `filter` is `None` without a filter; an evaluation error rejects like false. A result in
      the prompt cache that does not parse is no result. `deadline` is whether a context that
      ends does so at a deadline, which counts as transient, and not by cancellation. */
  datatype World = World(
    hasCache: bool, entityCached: bool, entity: Lookup, observation: Option<string>, filter: Option<bool>,
    rendered: Option<string>, promptCached: Option<Doc>, reply: nat -> Reply, done: nat -> bool,
    extract: string -> Option<Doc>, validate: (string, string) -> Option<Doc>, patchWorks: bool, deadline: bool)

  /** One use of the provider: the messages sent, its first call and what came of it. */
  datatype Round = Round(messages: seq<Message>, start: nat, calls: nat, outcome: Outcome)

  datatype Effect =
    | Created(status: Status)
    | Asked(rounds: seq<Round>)
    | Patched(observation: Option<string>, patch: Doc, ok: bool)
    | CachedEntity
    | CachedPrompt(doc: Doc)
    | Updated(status: Status)

  datatype Result = Done | Transient | Terminal

  function StatusOf(e: Effect): seq<Status> {
    if e.Created? || e.Updated? then [e.status] else []
  }

  /** The statuses the audit row went through. */
  function Audit(trace: seq<Effect>): seq<Status> {
    if trace == [] then [] else Audit(trace[..|trace| - 1]) + StatusOf(trace[|trace| - 1])
  }

  function Calls(rounds: seq<Round>): nat {
    if rounds == [] then 0 else Calls(rounds[..|rounds| - 1]) + rounds[|rounds| - 1].calls
  }

  function TraceCalls(trace: seq<Effect>): nat {
    if trace == [] then 0
    else
      var e := trace[|trace| - 1];
      TraceCalls(trace[..|trace| - 1]) + if e.Asked? then Calls(e.rounds) else 0
  }

  /** The messages of the i-th round: the prompt, and a correction for each answer so far. */
  function Messages(op: Operation, prompt: string, i: nat): seq<Message> {
    (if op.schema.Some? then [JsonOnly] else []) + [User(prompt)] + seq(i, _ => Correction)
  }

  /** The result read from an answer; without a schema everything is accepted. */
  function Read(op: Operation, w: World, content: string): Option<Doc> {
    if op.schema.Some? then w.validate(op.schema.value, content)
    else if w.extract(content).Some? then w.extract(content)
    else Some(map["result" := Leaf(content)])
  }

  /** A dialogue in order: every round uses the provider where the one before stopped, and
      every round but the last got an answer that did not fit the schema. */
  ghost predicate Dialogue(op: Operation, w: World, prompt: string, rounds: seq<Round>) {
    && |rounds| <= MAX_SCHEMA_ATTEMPTS
    && (forall i :: 0 <= i < |rounds| ==>
      && rounds[i].messages == Messages(op, prompt, i)
      && rounds[i].start == Calls(rounds[..i])
      && Completes(w.reply, w.done, rounds[i].start, DEFAULT_MAX_RETRIES, rounds[i].calls, rounds[i].outcome))
    && forall i :: 0 <= i < |rounds| - 1 ==> Unreadable(op, w, rounds[i])
  }

  predicate Unreadable(op: Operation, w: World, round: Round) {
    round.outcome.Answered? && Read(op, w, round.outcome.content) == None
  }

  /** What the last round of a dialogue means for the operation. */
  ghost predicate Concludes(op: Operation, w: World, rounds: seq<Round>, doc: Option<Doc>, transient: bool) {
    rounds != [] &&
    var last := rounds[|rounds| - 1].outcome;
    match last
    case Answered(content) =>
      doc == Read(op, w, content) && !transient && (doc.None? ==> |rounds| == MAX_SCHEMA_ATTEMPTS)
    case Rejected(e) => doc == None && transient == IsTransient(e)
    case Exhausted(e) => doc == None && transient == IsTransient(e)
    case Cancelled => doc == None && transient == w.deadline
  }

  lemma {:induction false} CallsBound(rounds: seq<Round>)
    requires forall i :: 0 <= i < |rounds| ==> rounds[i].calls <= 3
    ensures Calls(rounds) <= 3 * |rounds|
  {
    if rounds != [] { CallsBound(rounds[..|rounds| - 1]); }
  }

  /** The schema retries around the provider retries: at most nine calls. */
  lemma {:induction false} NineCalls(op: Operation, w: World, prompt: string, rounds: seq<Round>)
    requires Dialogue(op, w, prompt, rounds)
    ensures Calls(rounds) <= 9
  {
    forall i | 0 <= i < |rounds| ensures rounds[i].calls <= 3 {}
    CallsBound(rounds);
    hide Completes, Calls;
  }

  /** The dialogue with the model. */
  method AskModel(op: Operation, w: World, prompt: string)
    returns (rounds: seq<Round>, doc: Option<Doc>, transient: bool)
    ensures Dialogue(op, w, prompt, rounds) && Concludes(op, w, rounds, doc, transient)
  {
    var messages := [User(prompt)];
    if op.schema.Some? { messages := [JsonOnly] + messages; }
    Opening(op, w, prompt);
    hide Dialogue, Completes, IsTransient, Calls, Messages, Read;
    rounds, doc, transient := [], None, false;
    var start := 0;
    var attempt := 1;
    while true
      invariant 1 <= attempt <= MAX_SCHEMA_ATTEMPTS && |rounds| == attempt - 1
      invariant messages == Messages(op, prompt, |rounds|) && start == Calls(rounds)
      invariant Dialogue(op, w, prompt, rounds)
      invariant forall i :: 0 <= i < |rounds| ==> Unreadable(op, w, rounds[i])
      decreases MAX_SCHEMA_ATTEMPTS - attempt
    {
      var calls, outcome := RetryableComplete(w.reply, w.done, start, DEFAULT_MAX_RETRIES);
      var round := Round(messages, start, calls, outcome);
      Extend(op, w, prompt, rounds, round);
      rounds := rounds + [round];
      match outcome {
        case Rejected(e) => return rounds, None, IsTransient(e);
        case Exhausted(e) => return rounds, None, IsTransient(e);
        case Cancelled => return rounds, None, w.deadline;
        case Answered(content) =>
          doc := Read(op, w, content);
          if doc.Some? || attempt >= MAX_SCHEMA_ATTEMPTS { return; }
      }
      MessagesMore(op, prompt, attempt - 1);
      messages := messages + [Correction];
      start := start + calls;
      attempt := attempt + 1;
    }
  }

  /** A dialogue in full: it opens with the prompt, after a request for JSON alone if there is a
      schema; every round but the last was answered with what the schema rejects, and the next
      repeats all it said and asks for a correction; the last answer is what the schema makes
      of it, and without one the answer as it is read or else its text. Three rejected answers
      end it. */
  lemma DialogueMeaning(op: Operation, w: World, prompt: string, rounds: seq<Round>, doc: Option<Doc>, transient: bool)
    requires Dialogue(op, w, prompt, rounds) && Concludes(op, w, rounds, doc, transient)
    ensures rounds != [] && rounds[0].messages == if op.schema.Some? then [JsonOnly, User(prompt)] else [User(prompt)]
    ensures forall i :: 1 <= i < |rounds| ==> rounds[i].messages == rounds[i - 1].messages + [Correction]
    ensures forall i :: 0 <= i < |rounds| - 1 ==>
      rounds[i].outcome.Answered? && op.schema.Some? && w.validate(op.schema.value, rounds[i].outcome.content) == None
    ensures doc.Some? ==> (
      var answer := rounds[|rounds| - 1].outcome;
      && answer.Answered?
      && doc == (if op.schema.Some? then w.validate(op.schema.value, answer.content)
                 else if w.extract(answer.content).Some? then w.extract(answer.content)
                 else Some(map["result" := Leaf(answer.content)])))
    ensures doc.None? && rounds[|rounds| - 1].outcome.Answered? ==> |rounds| == 3
  {
    Opening(op, w, prompt);
    forall i | 1 <= i < |rounds| ensures rounds[i].messages == rounds[i - 1].messages + [Correction] {
      MessagesMore(op, prompt, i - 1);
    }
    hide Messages, Completes, Calls;
  }

  lemma Opening(op: Operation, w: World, prompt: string)
    ensures Dialogue(op, w, prompt, []) && Calls([]) == 0
    ensures Messages(op, prompt, 0) == if op.schema.Some? then [JsonOnly, User(prompt)] else [User(prompt)]
  {
  }

  lemma MessagesMore(op: Operation, prompt: string, i: nat)
    ensures Messages(op, prompt, i + 1) == Messages(op, prompt, i) + [Correction]
  {
  }

  lemma {:induction false} Extend(op: Operation, w: World, prompt: string, rounds: seq<Round>, round: Round)
    requires Dialogue(op, w, prompt, rounds) && |rounds| < MAX_SCHEMA_ATTEMPTS
    requires forall i :: 0 <= i < |rounds| ==> Unreadable(op, w, rounds[i])
    requires round.messages == Messages(op, prompt, |rounds|) && round.start == Calls(rounds)
    requires Completes(w.reply, w.done, round.start, DEFAULT_MAX_RETRIES, round.calls, round.outcome)
    ensures Dialogue(op, w, prompt, rounds + [round])
    ensures Calls(rounds + [round]) == Calls(rounds) + round.calls
  {
    var all := rounds + [round];
    assert all[..|rounds|] == rounds;
    forall i | 0 <= i < |all|
      ensures all[i].messages == Messages(op, prompt, i) && all[i].start == Calls(all[..i])
    {
      if i < |rounds| { assert all[..i] == rounds[..i]; }
    }
    hide Completes, Calls, Messages;
  }

  /** The allowlist: a target field appears for each source field the result has, and nothing
      else does; without a mapping the whole result goes under the operation's name. When two
      sources share a target either may win. */
  ghost predicate IsPatch(op: Operation, doc: Doc, patch: Doc) {
    if op.mapping == map[] then patch == map[op.name := Object(doc)]
    else
      && (forall source :: source in op.mapping && source in doc ==> op.mapping[source] in patch)
      && forall target :: target in patch ==>
        exists source :: source in op.mapping && source in doc && op.mapping[source] == target && doc[source] == patch[target]
  }

  method ApplyOutputMapping(op: Operation, doc: Doc) returns (patch: Doc)
    ensures IsPatch(op, doc, patch)
  {
    if op.mapping == map[] { return map[op.name := Object(doc)]; }
    patch := map[];
    var rest := op.mapping.Keys;
    while rest != {}
      invariant rest <= op.mapping.Keys
      invariant forall source :: source in op.mapping && source !in rest && source in doc ==> op.mapping[source] in patch
      invariant forall target :: target in patch ==>
        exists source :: source in op.mapping && source in doc && op.mapping[source] == target && doc[source] == patch[target]
    {
      var source :| source in rest;
      rest := rest - {source};
      if source in doc {
        patch := patch[op.mapping[source] := doc[source]];
      }
    }
  }

  /** Where a patch goes: to the stored observation if asked for and there is one. */
  function Target(op: Operation, w: World): Option<string> {
    if op.onObservation && w.observation.Some? && w.observation.value != "" then w.observation else None
  }

  /** The patches that took effect. */
  function Patches(trace: seq<Effect>): seq<(Option<string>, Doc)> {
    if trace == [] then []
    else
      var e := trace[|trace| - 1];
      Patches(trace[..|trace| - 1]) + if e.Patched? && e.ok then [(e.observation, e.patch)] else []
  }

  /** What was written to the caches: the entity's marker (`None`) and results by prompt. */
  function Cached(trace: seq<Effect>): seq<Option<Doc>> {
    if trace == [] then []
    else
      var e := trace[|trace| - 1];
      Cached(trace[..|trace| - 1])
      + if e.CachedEntity? then [None] else if e.CachedPrompt? then [Some(e.doc)] else []
  }

  function Last(trace: seq<Effect>): Effect
    requires trace != []
  {
    trace[|trace| - 1]
  }

  lemma {:induction false} Append(trace: seq<Effect>, e: Effect)
    ensures Audit(trace + [e]) == Audit(trace) + StatusOf(e)
    ensures TraceCalls(trace + [e]) == TraceCalls(trace) + if e.Asked? then Calls(e.rounds) else 0
    ensures Patches(trace + [e]) == Patches(trace) + if e.Patched? && e.ok then [(e.observation, e.patch)] else []
    ensures Cached(trace + [e])
         == Cached(trace) + if e.CachedEntity? then [None] else if e.CachedPrompt? then [Some(e.doc)] else []
  {
    assert (trace + [e])[..|trace|] == trace;
  }

  lemma Empty()
    ensures Audit([]) == [] && TraceCalls([]) == 0 && Patches([]) == [] && Cached([]) == []
  {
  }

  /** The result comes from the prompt cache, and then nobody is asked, or from a dialogue. */
  ghost predicate Obtained(op: Operation, w: World, trace: seq<Effect>, used: Option<Doc>) {
    && w.rendered.Some?
    && (w.hasCache && w.promptCached.Some? ==> used == w.promptCached && TraceCalls(trace) == 0)
    && (!(w.hasCache && w.promptCached.Some?) ==>
      && |trace| > 1 && trace[1].Asked?
      && Dialogue(op, w, w.rendered.value, trace[1].rounds)
      && exists transient: bool :: Concludes(op, w, trace[1].rounds, used, transient))
  }

  /** The patch took effect, once and where it belongs; only then is anything cached, and
      only then, last of all, is the row completed. */
  ghost predicate Succeeded(op: Operation, w: World, trace: seq<Effect>, used: Option<Doc>) {
    && w.patchWorks && Audit(trace) == [Pending, Completed] && trace != [] && Last(trace) == Updated(Completed)
    && used.Some? && Obtained(op, w, trace, used)
    && |Patches(trace)| == 1 && IsPatch(op, used.value, Patches(trace)[0].1)
    && Patches(trace)[0].0
       == (if op.onObservation && w.observation.Some? && w.observation.value != "" then w.observation else None)
    && Cached(trace) == if op.cacheTtl > 0 && w.hasCache then [None, used] else []
  }

  /** No usable answer, or the patch failed: nothing took effect, and last the row failed. A
      failed patch is transient; a failed dialogue is what its last round says. */
  ghost predicate Abandoned(op: Operation, w: World, trace: seq<Effect>, result: Result, used: Option<Doc>) {
    && Audit(trace) == [Pending, Failed] && trace != [] && Last(trace) == Updated(Failed)
    && Obtained(op, w, trace, used) && Patches(trace) == [] && Cached(trace) == []
    && (used.Some? ==> !w.patchWorks && result == Transient)
    && (used.None? ==> FailedDialogue(op, w, trace, result))
  }

  ghost predicate FailedDialogue(op: Operation, w: World, trace: seq<Effect>, result: Result) {
    && |trace| > 1 && trace[1].Asked? && result != Done
    && Concludes(op, w, trace[1].rounds, None, result == Transient)
  }

  /** Every normal return of an operation, by what it met on the way. */
  ghost predicate Finished(op: Operation, w: World, trace: seq<Effect>, result: Result, used: Option<Doc>) {
    if w.hasCache && w.entityCached then trace == [] && result == Done && used == None
    else if !w.entity.Found? then trace == [] && result == (if w.entity.NotFound? then Done else Transient) && used == None
    else if w.filter == Some(false) then trace == [Created(Skipped)] && result == Done && used == None
    else if w.rendered.None? then trace == [Created(Failed)] && result == Terminal && used == None
    else if result == Done then Succeeded(op, w, trace, used) && TraceCalls(trace) <= 9
    else Abandoned(op, w, trace, result, used) && TraceCalls(trace) <= 9
  }

  /** A pending row, and perhaps a dialogue. */
  ghost predicate Started(op: Operation, w: World, trace: seq<Effect>, used: Option<Doc>) {
    && trace != [] && Audit(trace) == [Pending] && Patches(trace) == [] && Cached(trace) == [] && TraceCalls(trace) <= 9
    && Obtained(op, w, trace, used)
  }

  /** Steps 7 to 10: the pending row, then the cached result or the model's. */
  method ObtainResult(op: Operation, w: World)
    returns (trace: seq<Effect>, used: Option<Doc>, transient: bool)
    requires w.rendered.Some?
    ensures Started(op, w, trace, used)
    ensures used.None? ==> FailedDialogue(op, w, trace, if transient then Transient else Terminal)
  {
    hide Audit, TraceCalls, Patches, Cached, Dialogue, Concludes;
    Empty();
    Append([], Created(Pending));
    assert [] + [Created(Pending)] == [Created(Pending)];
    trace, used, transient := [Created(Pending)], if w.hasCache then w.promptCached else None, false;
    if used.None? {
      var rounds;
      rounds, used, transient := AskModel(op, w, w.rendered.value);
      NineCalls(op, w, w.rendered.value, rounds);
      Append(trace, Asked(rounds));
      trace := trace + [Asked(rounds)];
    }
  }

  lemma {:induction false} ObtainedStays(op: Operation, w: World, trace: seq<Effect>, tail: seq<Effect>, used: Option<Doc>)
    requires Obtained(op, w, trace, used) && TraceCalls(trace + tail) == TraceCalls(trace)
    ensures Obtained(op, w, trace + tail, used)
  {
    hide Dialogue, Concludes, TraceCalls;
    assert |trace| > 1 ==> (trace + tail)[1] == trace[1];
  }

  /** The row fails, after a patch that did if there was a result. */
  lemma {:induction false} Fails(
      op: Operation, w: World, trace: seq<Effect>, result: Result, used: Option<Doc>, tail: seq<Effect>)
    requires Started(op, w, trace, used)
    requires if used.None? then FailedDialogue(op, w, trace, result) else result == Transient
    requires if used.None? then tail == [Updated(Failed)]
      else !w.patchWorks && |tail| == 2 && tail[0].Patched? && !tail[0].ok && tail[1] == Updated(Failed)
    ensures Abandoned(op, w, trace + tail, result, used) && TraceCalls(trace + tail) <= 9
  {
    hide Audit, TraceCalls, Patches, Cached, Obtained;
    if |tail| == 2 {
      Append(trace, tail[0]);
      Append(trace + [tail[0]], tail[1]);
      assert trace + tail == trace + [tail[0]] + [tail[1]];
    } else {
      Append(trace, tail[0]);
      assert trace + tail == trace + [tail[0]];
    }
    ObtainedStays(op, w, trace, tail, used);
    assert |trace| > 1 ==> (trace + tail)[1] == trace[1];
    hide Concludes;
  }

  lemma {:induction false} Succeeds(op: Operation, w: World, trace: seq<Effect>, used: Option<Doc>, patch: Doc, caching: seq<Effect>)
    requires w.patchWorks && Started(op, w, trace, used) && used.Some? && IsPatch(op, used.value, patch)
    requires caching == if op.cacheTtl > 0 && w.hasCache then [CachedEntity, CachedPrompt(used.value)] else []
    ensures (
      var all := trace + [Patched(Target(op, w), patch, true)] + caching + [Updated(Completed)];
      Succeeded(op, w, all, used) && TraceCalls(all) <= 9)
  {
    hide Audit, TraceCalls, Patches, Cached, Obtained, IsPatch;
    var patched := trace + [Patched(Target(op, w), patch, true)];
    Append(trace, Patched(Target(op, w), patch, true));
    if caching != [] {
      Append(patched, CachedEntity);
      Append(patched + [CachedEntity], CachedPrompt(used.value));
      assert patched + caching == patched + [CachedEntity] + [CachedPrompt(used.value)];
    } else {
      assert patched + caching == patched;
    }
    Append(patched + caching, Updated(Completed));
    var tail := [Patched(Target(op, w), patch, true)] + caching + [Updated(Completed)];
    assert trace + tail == patched + caching + [Updated(Completed)];
    ObtainedStays(op, w, trace, tail, used);
  }

  /** From the pending row on. */
  method Enrich(op: Operation, w: World)
    returns (trace: seq<Effect>, result: Result, used: Option<Doc>)
    requires w.rendered.Some?
    ensures TraceCalls(trace) <= 9
    ensures if result == Done then Succeeded(op, w, trace, used) else Abandoned(op, w, trace, result, used)
  {
    hide Started, Succeeded, Abandoned, FailedDialogue, IsPatch, TraceCalls;
    var transient;
    trace, used, transient := ObtainResult(op, w);
    if used.None? {
      result := if transient then Transient else Terminal;
      Fails(op, w, trace, result, used, [Updated(Failed)]);
      return trace + [Updated(Failed)], result, None;
    }
    var patch := ApplyOutputMapping(op, used.value);
    var target := if op.onObservation && w.observation.Some? && w.observation.value != "" then w.observation else None;
    if !w.patchWorks {
      Fails(op, w, trace, Transient, used, [Patched(target, patch, false), Updated(Failed)]);
      return trace + [Patched(target, patch, false), Updated(Failed)], Transient, used;
    }
    var caching := if op.cacheTtl > 0 && w.hasCache then [CachedEntity, CachedPrompt(used.value)] else [];
    Succeeds(op, w, trace, used, patch, caching);
    trace, result := trace + [Patched(target, patch, true)] + caching + [Updated(Completed)], Done;
  }

  method ProcessOperation(op: Operation, w: World)
    returns (trace: seq<Effect>, result: Result, used: Option<Doc>)
    ensures Finished(op, w, trace, result, used)
  {
    if w.hasCache && w.entityCached { return [], Done, None; }
    if w.entity.NotFound? { return [], Done, None; }
    if w.entity.Unreachable? { return [], Transient, None; }
    if w.filter == Some(false) { return [Created(Skipped)], Done, None; }
    if w.rendered.None? { return [Created(Failed)], Terminal, None; }
    trace, result, used := Enrich(op, w);
  }

  /** What every operation leaves behind: an audit row, if any, in one terminal status; a patch
      exactly when it says completed; at most nine calls; caches only on completion. */
  lemma {:induction false} TerminalStatus(op: Operation, w: World, trace: seq<Effect>, result: Result, used: Option<Doc>)
    requires Finished(op, w, trace, result, used)
    ensures || Audit(trace) == [] || Audit(trace) == [Skipped] || Audit(trace) == [Failed]
            || Audit(trace) == [Pending, Completed] || Audit(trace) == [Pending, Failed]
    ensures |Patches(trace)| == if Completed in Audit(trace) then 1 else 0
    ensures Cached(trace) != [] ==> Completed in Audit(trace) && Cached(trace) == [None, used] && op.cacheTtl > 0
    ensures TraceCalls(trace) <= 9
    ensures Failed in Audit(trace) ==> result != Done
  {
    hide Audit, TraceCalls, Patches, Cached, Obtained, IsPatch;
    Empty();
    Append([], Created(Skipped));
    Append([], Created(Failed));
    assert [] + [Created(Skipped)] == [Created(Skipped)];
    assert [] + [Created(Failed)] == [Created(Failed)];
  }

  /** All operations of a job run, whatever becomes of the ones before; the job is announced as
      complete exactly when none failed. */
  method ProcessJob(ops: seq<Operation>, worlds: seq<World>)
    returns (traces: seq<seq<Effect>>, results: seq<Result>, used: seq<Option<Doc>>, announced: bool)
    requires |worlds| == |ops|
    ensures |traces| == |results| == |used| == |ops|
    ensures forall i :: 0 <= i < |ops| ==> Finished(ops[i], worlds[i], traces[i], results[i], used[i])
    ensures announced <==> forall i :: 0 <= i < |ops| ==> results[i] == Done
  {
    traces, results, used, announced := [], [], [], true;
    for i := 0 to |ops|
      invariant |traces| == |results| == |used| == i
      invariant forall k :: 0 <= k < i ==> Finished(ops[k], worlds[k], traces[k], results[k], used[k])
      invariant announced <==> forall k :: 0 <= k < i ==> results[k] == Done
    {
      hide Finished;
      var trace, result, doc := ProcessOperation(ops[i], worlds[i]);
      traces, results, used := traces + [trace], results + [result], used + [doc];
      announced := announced && result == Done;
    }
  }
}
