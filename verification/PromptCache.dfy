/** Many operations sharing one prompt cache, whose entries may be forgotten at any time. */
module PromptCache {
  import opened Wrappers
  import opened Retry
  import opened Enrichment

  datatype Event =
    | Ran(op: Operation, w: World, trace: seq<Effect>, result: Result, used: Option<Doc>)
    | Forgotten(prompt: string)

  type Validator = (string, string) -> Option<Doc>

  /** The result an event leaves in the cache under its prompt. */
  function Stores(e: Event): Option<Doc> {
    if e.Ran? && e.w.rendered.Some? && |Cached(e.trace)| == 2 then Cached(e.trace)[1] else None
  }

  function After(cache: map<string, Doc>, e: Event): map<string, Doc> {
    if e.Forgotten? then cache - {e.prompt}
    else if Stores(e).Some? && e.w.rendered.Some? then cache[e.w.rendered.value := Stores(e).value]
    else cache
  }

  function CacheAfter(events: seq<Event>): map<string, Doc> {
    if events == [] then map[] else After(CacheAfter(events[..|events| - 1]), events[|events| - 1])
  }

  /** An operation that runs as it must and meets in the cache what is there. */
  ghost predicate Legal(cache: map<string, Doc>, e: Event, validate: Validator) {
    e.Ran? ==>
      && Finished(e.op, e.w, e.trace, e.result, e.used)
      && e.w.validate == validate
      && (e.w.promptCached.Some? && e.w.rendered.Some? ==>
        e.w.rendered.value in cache && cache[e.w.rendered.value] == e.w.promptCached.value)
  }

  ghost predicate IsRun(events: seq<Event>, validate: Validator) {
    events != [] ==>
      && IsRun(events[..|events| - 1], validate)
      && Legal(CacheAfter(events[..|events| - 1]), events[|events| - 1], validate)
  }

  /** The schema registry extracts this result from some answer. */
  ghost predicate Accepts(validate: Validator, schema: string, doc: Doc) {
    exists content: string :: validate(schema, content) == Some(doc)
  }

  ghost predicate Valid(schema: Option<string>, doc: Doc, validate: Validator) {
    schema.Some? ==> Accepts(validate, schema.value, doc)
  }

  /** If the operation came as far as having a result, the result fits the operation's schema. */
  ghost predicate Checked(e: Event, validate: Validator) {
    e.Ran? && e.used.Some? ==> Valid(e.op.schema, e.used.value, validate)
  }

  /** The second operation can be given a result of the first that its schema rejects: the first
      caches, and the second has a schema and not the same one. */
  predicate Leaks(first: Operation, second: Operation) {
    first.cacheTtl > 0 && second.schema.Some? && first.schema != second.schema
  }

  /** No operation comes after one with the same prompt that leaks into it. */
  ghost predicate NoLeaks(events: seq<Event>) {
    forall i, j :: 0 <= i < j < |events| && events[i].Ran? && events[j].Ran? && events[i].w.rendered.Some?
        && events[i].w.rendered == events[j].w.rendered
      ==> !Leaks(events[i].op, events[j].op)
  }

  /** A cached result fits the schema of a caching operation that has run with its prompt. */
  ghost predicate Justified(events: seq<Event>, prompt: string, doc: Doc, validate: Validator) {
    exists e :: e in events && e.Ran? && e.w.rendered == Some(prompt) && e.op.cacheTtl > 0
      && Valid(e.op.schema, doc, validate)
  }

  lemma DialogueIsValid(op: Operation, w: World, rounds: seq<Round>, doc: Doc, transient: bool)
    requires Concludes(op, w, rounds, Some(doc), transient)
    ensures Valid(op.schema, doc, w.validate)
  {
    var last := rounds[|rounds| - 1].outcome;
    if op.schema.Some? && last.Answered? {
      assert w.validate(op.schema.value, last.content) == Some(doc);
    }
  }

  lemma ObtainedIsValid(before: seq<Event>, e: Event, validate: Validator)
    requires Legal(CacheAfter(before), e, validate) && NoLeaks(before + [e])
    requires forall prompt :: prompt in CacheAfter(before) ==> Justified(before, prompt, CacheAfter(before)[prompt], validate)
    ensures Checked(e, validate)
  {
    if e.Ran? && e.used.Some? {
      UsedIsObtained(e, validate, CacheAfter(before));
      hide CacheAfter, Finished, Valid, Cached;
      var w := e.w;
      if w.hasCache && w.promptCached.Some? {
        var prompt := w.rendered.value;
        var f :| f in before && f.Ran? && f.w.rendered == Some(prompt) && f.op.cacheTtl > 0
          && Valid(f.op.schema, CacheAfter(before)[prompt], validate);
        var i :| 0 <= i < |before| && before[i] == f;
        assert (before + [e])[i] == f && (before + [e])[|before|] == e;
        assert !Leaks(f.op, e.op);
      } else {
        var transient :| Concludes(e.op, w, e.trace[1].rounds, e.used, transient);
        DialogueIsValid(e.op, w, e.trace[1].rounds, e.used.value, transient);
      }
    }
  }

  lemma UsedIsObtained(e: Event, validate: Validator, cache: map<string, Doc>)
    requires Legal(cache, e, validate) && e.Ran?
    ensures e.used.Some? ==> Obtained(e.op, e.w, e.trace, e.used)
    ensures Stores(e).Some? ==> e.used == Stores(e) && e.op.cacheTtl > 0
  {
    TerminalStatus(e.op, e.w, e.trace, e.result, e.used);
    hide Cached, Audit, TraceCalls, Patches, Obtained, IsPatch;
  }

  /** On every run without leaks, every result an operation used fits the operation's schema,
      also when it came from the cache and was not validated again. */
  lemma {:induction false} UsedIsValid(events: seq<Event>, validate: Validator)
    requires IsRun(events, validate) && NoLeaks(events)
    ensures forall e :: e in events ==> Checked(e, validate)
    ensures forall prompt :: prompt in CacheAfter(events) ==> Justified(events, prompt, CacheAfter(events)[prompt], validate)
  {
    if events != [] {
      var before, e := events[..|events| - 1], events[|events| - 1];
      RunMore(events);
      assert IsRun(before, validate) && Legal(CacheAfter(before), e, validate);
      hide CacheAfter, IsRun, Legal, Valid, Stores;
      assert events == before + [e];
      assert NoLeaks(before) by {
        forall i, j | 0 <= i < j < |before| ensures before[i] == events[i] && before[j] == events[j] { }
      }
      UsedIsValid(before, validate);
      ObtainedIsValid(before, e, validate);
      if e.Ran? { UsedIsObtained(e, validate, CacheAfter(before)); }
      forall prompt | prompt in CacheAfter(events)
        ensures Justified(events, prompt, CacheAfter(events)[prompt], validate)
      {
        if e.Ran? && Stores(e).Some? && e.w.rendered == Some(prompt) {
          assert e in events;
        } else {
          assert prompt in CacheAfter(before);
          var f :| f in before && f.Ran? && f.w.rendered == Some(prompt) && f.op.cacheTtl > 0
            && Valid(f.op.schema, CacheAfter(before)[prompt], validate);
          assert f in events;
        }
      }
      hide Checked, Justified;
    }
  }

  lemma {:induction false} RunMore(events: seq<Event>)
    requires events != []
    ensures CacheAfter(events) == After(CacheAfter(events[..|events| - 1]), events[|events| - 1])
  {
  }

  /** A run of one operation and then another with the same prompt, in which the other uses a
      result that its schema rejects. */
  ghost predicate LeakingRun(first: Operation, second: Operation, prompt: string, events: seq<Event>, validate: Validator) {
    OneAfterOther(first, second, prompt, events, validate) && !Checked(events[1], validate)
  }

  ghost predicate OneAfterOther(first: Operation, second: Operation, prompt: string, events: seq<Event>, validate: Validator) {
    && IsRun(events, validate) && |events| == 2
    && events[0].Ran? && events[0].op == first && events[0].w.rendered == Some(prompt)
    && events[1].Ran? && events[1].op == second && events[1].w.rendered == Some(prompt)
  }

  lemma OtherIsChecked(first: Operation, second: Operation, prompt: string, events: seq<Event>, validate: Validator)
    requires !Leaks(first, second) && OneAfterOther(first, second, prompt, events, validate)
    ensures Checked(events[1], validate)
  {
    assert NoLeaks(events);
    UsedIsValid(events, validate);
    assert events[1] in events;
  }

  /** For any two operations and any prompt they share, there is such a run exactly when the
      first leaks into the second. */
  lemma LeaksIff(first: Operation, second: Operation, prompt: string)
    ensures (exists events, validate :: LeakingRun(first, second, prompt, events, validate)) <==> Leaks(first, second)
  {
    if Leaks(first, second) {
      var events, validate := SharedPromptLeaks(first, second, prompt);
    } else {
      forall events, validate ensures !LeakingRun(first, second, prompt, events, validate) {
        if OneAfterOther(first, second, prompt, events, validate) {
          OtherIsChecked(first, second, prompt, events, validate);
        }
      }
    }
  }

  /** The registry in which every answer is read as an empty object under the first operation's
      schema, and none fits any other. */
  function OnlyFirst(schema: Option<string>): Validator {
    (key, content) => if schema == Some(key) then Some(map[]) else None
  }

  lemma SharedPromptLeaks(first: Operation, second: Operation, prompt: string)
    returns (events: seq<Event>, validate: Validator)
    requires Leaks(first, second)
    ensures LeakingRun(first, second, prompt, events, validate)
  {
    hide Finished, Trace, Cached, IsRun, Messages, Dialogue, Concludes, Calls, Read;
    validate := OnlyFirst(first.schema);
    var w := World(true, false, Found, None, None, Some(prompt), None, n => Ok(""), n => false,
                   text => Some(map[]), validate, true, false);
    var round := Round(Messages(first, prompt, 0), 0, 1, Answered(""));
    var e := Ran(first, w, Trace(first, [Asked([round])]), Done, Some(map[]));
    var f := Ran(second, w.(promptCached := Some(map[])), Trace(second, []), Done, Some(map[]));
    EmptyAnswer(first, w);
    OneRound(first, w, prompt, round);
    Runs(first, w, [Asked([round])]);
    Runs(second, f.w, []);
    NoneAccepted(first.schema, second.schema.value);
    events := [e, f];
    TwoEvents(e, f, prompt, validate);
  }

  lemma EmptyAnswer(op: Operation, w: World)
    requires w.validate == OnlyFirst(op.schema) && w.extract("") == Some(map[])
    ensures Read(op, w, "") == Some(map[])
  {
  }

  lemma NoneAccepted(schema: Option<string>, key: string)
    requires schema != Some(key)
    ensures !Accepts(OnlyFirst(schema), key, map[])
  {
  }

  /** What it takes for two events to be a run: the second meets what the first has cached. */
  lemma TwoEvents(e: Event, f: Event, prompt: string, validate: Validator)
    requires e.Ran? && f.Ran? && e.w.rendered == f.w.rendered == Some(prompt)
    requires e.w.validate == f.w.validate == validate
    requires Finished(e.op, e.w, e.trace, e.result, e.used) && Finished(f.op, f.w, f.trace, f.result, f.used)
    requires e.w.promptCached == None && Cached(e.trace) == [None, f.w.promptCached]
    ensures IsRun([e, f], validate)
  {
    hide Finished, Cached;
    assert [e, f][..1] == [e] && [e][..0] == [];
    assert CacheAfter([]) == map[] && IsRun([], validate);
    assert Legal(map[], e, validate);
    assert IsRun([e], validate);
    assert CacheAfter([e]) == After(map[], e);
    assert Legal(After(map[], e), f, validate);
  }

  /** A patch made from an empty result. */
  function EmptyPatch(op: Operation): Doc {
    if op.mapping == map[] then map[op.name := Object(map[])] else map[]
  }

  function Caching(op: Operation): seq<Effect> {
    if op.cacheTtl > 0 then [CachedEntity, CachedPrompt(map[])] else []
  }

  /** The effects of an operation that succeeds with an empty result, after the given dialogue. */
  function Trace(op: Operation, asked: seq<Effect>): seq<Effect> {
    [Created(Pending)] + asked + [Patched(None, EmptyPatch(op), true)] + Caching(op) + [Updated(Completed)]
  }

  lemma OneRound(op: Operation, w: World, prompt: string, round: Round)
    requires w.rendered == Some(prompt) && round == Round(Messages(op, prompt, 0), 0, 1, Answered(""))
    requires w.reply(0) == Ok("") && Read(op, w, "") == Some(map[])
    ensures Dialogue(op, w, prompt, [round]) && Concludes(op, w, [round], Some(map[]), false) && Calls([round]) == 1
  {
    Opening(op, w, prompt);
    Extend(op, w, prompt, [], round);
    assert [] + [round] == [round];
  }

  lemma {:induction false} Runs(op: Operation, w: World, asked: seq<Effect>)
    requires w.hasCache && !w.entityCached && w.entity.Found? && w.filter.None? && w.observation.None?
    requires w.rendered.Some? && w.patchWorks
    requires w.promptCached.Some? ==> w.promptCached.value == map[] && asked == []
    requires w.promptCached.None? ==>
      && |asked| == 1 && asked[0].Asked? && Calls(asked[0].rounds) <= 9
      && Dialogue(op, w, w.rendered.value, asked[0].rounds) && Concludes(op, w, asked[0].rounds, Some(map[]), false)
    ensures Finished(op, w, Trace(op, asked), Done, Some(map[]))
    ensures op.cacheTtl > 0 ==> Cached(Trace(op, asked)) == [None, Some(map[])]
  {
    hide Audit, TraceCalls, Patches, Cached, Dialogue, Concludes;
    var trace := [Created(Pending)] + asked;
    Empty();
    Enrichment.Append([], Created(Pending));
    assert [] + [Created(Pending)] == [Created(Pending)];
    if asked != [] {
      Enrichment.Append([Created(Pending)], asked[0]);
      assert trace == [Created(Pending)] + [asked[0]];
    } else {
      assert trace == [Created(Pending)];
    }
    Succeeds(op, w, trace, Some(map[]), EmptyPatch(op), Caching(op));
  }
}
