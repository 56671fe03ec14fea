/** A read-through cache in front of a geocoding provider. */
module Geocoder {
  import opened Wrappers

  const NEGATIVE_MARKER := "\0nomatch\0"

  datatype Query = Forward(text: string) | Reverse(lat: real, lon: real)

  datatype Place = Place(lat: real, lon: real, name: string)

  /** What a caller or the provider is told. */
  datatype Answer = Match(place: Place) | NoMatch | Failed

  /** The parts that are not the geocoder's own: hashing, number formatting and JSON. */
  datatype Codec = Codec(
    hash: string -> string, format: real -> string, encode: Place -> Option<string>, decode: string -> Option<Place>)
  {
    /** The assumptions on them: the hash does not collide, a formatted number has no comma, and
        JSON text, which is never the marker, decodes to what was encoded. */
    ghost predicate Valid() {
      && (forall a, b :: hash(a) == hash(b) ==> a == b)
      && (forall x :: ',' !in format(x))
      && forall p :: encode(p).Some? ==> encode(p).value != NEGATIVE_MARKER && decode(encode(p).value) == Some(p)
    }
  }

  datatype Config = Config(keyPrefix: string, negativeTtl: int, codec: Codec)

  function KeyOf(cfg: Config, q: Query): string {
    match q
    case Forward(text) => cfg.keyPrefix + "fwd:" + cfg.codec.hash(text)
    case Reverse(lat, lon) => cfg.keyPrefix + "rev:" + cfg.codec.format(lat) + "," + cfg.codec.format(lon)
  }

  lemma SplitAtComma(a: string, b: string, c: string, d: string)
    requires ',' !in a && ',' !in c && a + "," + b == c + "," + d
    ensures a == c && b == d
  {
    var (s, t) := (a + "," + b, c + "," + d);
    assert s[|a|] == ',' && forall i :: 0 <= i < |a| ==> s[i] == a[i];
    assert t[|c|] == ',' && forall i :: 0 <= i < |c| ==> t[i] == c[i];
    assert |a| == |c|;
    assert s[..|a|] == a && t[..|c|] == c && s[|a| + 1..] == b && t[|c| + 1..] == d;
  }

  /** Two queries share an entry exactly when they are the same text, or points that round to
      the same digits. */
  lemma SharedKeyIff(cfg: Config, q: Query, r: Query)
    requires cfg.codec.Valid()
    ensures KeyOf(cfg, q) == KeyOf(cfg, r) <==>
      (q == r || (q.Reverse? && r.Reverse? && cfg.codec.format(q.lat) == cfg.codec.format(r.lat)
                  && cfg.codec.format(q.lon) == cfg.codec.format(r.lon)))
  {
    var (k, l, n) := (KeyOf(cfg, q), KeyOf(cfg, r), |cfg.keyPrefix|);
    assert k[n] == if q.Forward? then 'f' else 'r';
    assert l[n] == if r.Forward? then 'f' else 'r';
    if q.Forward? && r.Forward? {
      assert k[n + 4..] == cfg.codec.hash(q.text) && l[n + 4..] == cfg.codec.hash(r.text);
    }
    if q.Reverse? && r.Reverse? {
      var (a, b) := (cfg.codec.format(q.lat), cfg.codec.format(q.lon));
      var (c, d) := (cfg.codec.format(r.lat), cfg.codec.format(r.lon));
      assert k[n + 4..] == a + "," + b && l[n + 4..] == c + "," + d;
      if k == l { SplitAtComma(a, b, c, d); }
    }
  }

  /** What an entry says; `None` for one that cannot be read. */
  function Meaning(cfg: Config, raw: string): Option<Answer> {
    if raw == NEGATIVE_MARKER then Some(NoMatch)
    else if cfg.codec.decode(raw).Some? then Some(Match(cfg.codec.decode(raw).value))
    else None
  }

  /** What the cache answers; a failed read is a miss. */
  function Hit(cfg: Config, cache: map<string, string>, key: string, readable: bool): Option<Answer> {
    if readable && key in cache then Meaning(cfg, cache[key]) else None
  }

  /** What is written for an answer; nothing for an error, nor for a no-match when those are
      not kept, nor for a place that has no JSON. */
  function Entry(cfg: Config, answer: Answer): Option<string> {
    match answer
    case Match(place) => cfg.codec.encode(place)
    case NoMatch => if cfg.negativeTtl > 0 then Some(NEGATIVE_MARKER) else None
    case Failed => None
  }

  function Written(cfg: Config, cache: map<string, string>, key: string, answer: Answer, writable: bool): map<string, string> {
    if writable && Entry(cfg, answer).Some? then cache[key := Entry(cfg, answer).value] else cache
  }

  /** The cache is shared with the environment: entries expire or are damaged at any time, and
      any read or write may fail. `provider` is what the provider says if it is asked. */
  datatype Step =
    | Ask(query: Query, provider: Answer, readable: bool, writable: bool)
    | Expire(key: string)
    | Damage(key: string, raw: string)

  function Output(cfg: Config, cache: map<string, string>, query: Query, provider: Answer, readable: bool): Answer {
    var hit := Hit(cfg, cache, KeyOf(cfg, query), readable);
    if hit.Some? then hit.value else provider
  }

  function Next(cfg: Config, cache: map<string, string>, step: Step): map<string, string> {
    match step
    case Ask(query, provider, readable, writable) =>
      var key := KeyOf(cfg, query);
      if Hit(cfg, cache, key, readable).Some? then cache else Written(cfg, cache, key, provider, writable)
    case Expire(key) => cache - {key}
    case Damage(key, raw) => cache[key := raw]
  }

  function Exec(cfg: Config, steps: seq<Step>): map<string, string> {
    if steps == [] then map[] else Next(cfg, Exec(cfg, steps[..|steps| - 1]), steps[|steps| - 1])
  }

  /** The provider's own view of the world. */
  type Truth = Query -> Option<Place>

  predicate Agrees(answer: Answer, truth: Option<Place>) {
    match answer
    case Match(place) => truth == Some(place)
    case NoMatch => truth == None
    case Failed => false
  }

  /** The provider is a function of its query, though it may fail; damage makes an entry
      unreadable. */
  ghost predicate Honest(cfg: Config, step: Step, truth: Truth) {
    match step
    case Ask(query, provider, _, _) => provider == Failed || Agrees(provider, truth(query))
    case Expire(_) => true
    case Damage(_, raw) => Meaning(cfg, raw) == None
  }

  /** What a readable entry says is the provider's answer to some query with its key. */
  ghost predicate Backed(cfg: Config, key: string, raw: string, truth: Truth) {
    Meaning(cfg, raw).Some? ==> exists q: Query :: KeyOf(cfg, q) == key && Agrees(Meaning(cfg, raw).value, truth(q))
  }

  ghost predicate AllBacked(cfg: Config, cache: map<string, string>, truth: Truth) {
    forall key :: key in cache ==> Backed(cfg, key, cache[key], truth)
  }

  /** A stored place is read back as that place, never as a no-match, and the other way round. */
  lemma EntryMeaning(cfg: Config, answer: Answer)
    requires cfg.codec.Valid()
    ensures Entry(cfg, answer).Some? ==> Meaning(cfg, Entry(cfg, answer).value) == Some(answer)
  {
  }

  lemma StepIsBacked(cfg: Config, cache: map<string, string>, step: Step, truth: Truth)
    requires cfg.codec.Valid() && AllBacked(cfg, cache, truth) && Honest(cfg, step, truth)
    ensures AllBacked(cfg, Next(cfg, cache, step), truth)
  {
    if step.Ask? {
      EntryMeaning(cfg, step.provider);
      hide KeyOf, Meaning, Entry;
      var key := KeyOf(cfg, step.query);
      if Entry(cfg, step.provider).Some? {
        assert Backed(cfg, key, Entry(cfg, step.provider).value, truth);
      }
    }
    hide KeyOf, Meaning, Entry;
  }

  lemma {:induction false} AlwaysBacked(cfg: Config, steps: seq<Step>, truth: Truth)
    requires cfg.codec.Valid() && forall s :: s in steps ==> Honest(cfg, s, truth)
    ensures AllBacked(cfg, Exec(cfg, steps), truth)
  {
    if steps != [] {
      AlwaysBacked(cfg, steps[..|steps| - 1], truth);
      StepIsBacked(cfg, Exec(cfg, steps[..|steps| - 1]), steps[|steps| - 1], truth);
    }
  }

  /** On every run an answer to a text is the provider's, or the provider failed just now. */
  lemma ForwardAgrees(cfg: Config, steps: seq<Step>, truth: Truth, text: string, provider: Answer, readable: bool)
    requires cfg.codec.Valid() && forall s :: s in steps ==> Honest(cfg, s, truth)
    requires provider == Failed || Agrees(provider, truth(Forward(text)))
    ensures (
      var answer := Output(cfg, Exec(cfg, steps), Forward(text), provider, readable);
      Agrees(answer, truth(Forward(text))) || (answer == Failed && provider == Failed))
  {
    AlwaysBacked(cfg, steps, truth);
    var key := KeyOf(cfg, Forward(text));
    forall q | KeyOf(cfg, q) == key ensures q == Forward(text) { SharedKeyIff(cfg, q, Forward(text)); }
    hide Exec, KeyOf, Meaning;
  }

  /** On every run an answer to a point is the provider's for some point that rounds to the
      same digits. */
  lemma ReverseAgreesNearby(
      cfg: Config, steps: seq<Step>, truth: Truth, lat: real, lon: real, provider: Answer, readable: bool)
    requires cfg.codec.Valid() && forall s :: s in steps ==> Honest(cfg, s, truth)
    requires provider == Failed || Agrees(provider, truth(Reverse(lat, lon)))
    ensures (
      var answer := Output(cfg, Exec(cfg, steps), Reverse(lat, lon), provider, readable);
      || (answer == Failed && provider == Failed)
      || exists y, x :: cfg.codec.format(y) == cfg.codec.format(lat) && cfg.codec.format(x) == cfg.codec.format(lon)
           && Agrees(answer, truth(Reverse(y, x))))
  {
    AlwaysBacked(cfg, steps, truth);
    var cache := Exec(cfg, steps);
    var key := KeyOf(cfg, Reverse(lat, lon));
    var answer := Output(cfg, cache, Reverse(lat, lon), provider, readable);
    if Hit(cfg, cache, key, readable).Some? {
      assert Backed(cfg, key, cache[key], truth);
      var q :| KeyOf(cfg, q) == key && Agrees(answer, truth(q));
      SharedKeyIff(cfg, q, Reverse(lat, lon));
      assert q == Reverse(q.lat, q.lon);
    }
    hide Exec, KeyOf, Meaning;
  }

  /** A run without the calls in which the provider failed. */
  function WithoutFailures(steps: seq<Step>): seq<Step> {
    if steps == [] then []
    else
      var last := steps[|steps| - 1];
      WithoutFailures(steps[..|steps| - 1]) + if last.Ask? && last.provider == Failed then [] else [last]
  }

  /** Errors are never cached: the calls in which the provider failed leave no trace in any run. */
  lemma {:induction false} ErrorsAreNotCached(cfg: Config, steps: seq<Step>)
    ensures Exec(cfg, WithoutFailures(steps)) == Exec(cfg, steps)
  {
    if steps != [] {
      var before, last := steps[..|steps| - 1], steps[|steps| - 1];
      ErrorsAreNotCached(cfg, before);
      var kept := WithoutFailures(before);
      hide KeyOf, Meaning;
      assert (kept + [last])[..|kept|] == kept;
      if last.Ask? && last.provider == Failed {
        assert Next(cfg, Exec(cfg, before), last) == Exec(cfg, before);
        assert WithoutFailures(steps) == kept;
      } else {
        assert WithoutFailures(steps) == kept + [last];
      }
    }
  }

  /** The provider is not asked again for what was answered and kept: the same query gets the
      same answer whatever the provider would say now. A match is kept if it has a JSON form, a
      no-match only with a TTL, and neither when the write fails; a failed read asks again. */
  lemma KeptIsServed(cfg: Config, cache: map<string, string>, query: Query, provider: Answer, readable: bool,
                     writable: bool, later: Answer, readableLater: bool)
    requires cfg.codec.Valid() && Hit(cfg, cache, KeyOf(cfg, query), true).None?
    ensures (
      var after := Next(cfg, cache, Ask(query, provider, readable, writable));
      var kept := writable && match provider
                              case Match(place) => cfg.codec.encode(place).Some?
                              case NoMatch => cfg.negativeTtl > 0
                              case Failed => false;
      Output(cfg, after, query, later, readableLater) == if kept && readableLater then provider else later)
  {
    EntryMeaning(cfg, provider);
    hide KeyOf;
  }

  class CachedGeocoder {
    const cfg: Config
    var cache: map<string, string>

    constructor (cfg: Config)
      ensures this.cfg == cfg && cache == Exec(cfg, [])
    {
      this.cfg := cfg;
      cache := map[];
    }

    method Lookup(key: string, readable: bool) returns (answer: Answer, ok: bool)
      ensures ok == Hit(cfg, cache, key, readable).Some?
      ensures ok ==> Some(answer) == Hit(cfg, cache, key, readable)
    {
      if !readable || key !in cache { return Failed, false; }
      var raw := cache[key];
      if raw == NEGATIVE_MARKER { return NoMatch, true; }
      var place := cfg.codec.decode(raw);
      if place.None? { return Failed, false; }
      return Match(place.value), true;
    }

    method Store(key: string, answer: Answer, writable: bool)
      requires answer != Failed
      modifies this`cache
      ensures cache == Written(cfg, old(cache), key, answer, writable)
    {
      if answer.NoMatch? {
        if cfg.negativeTtl > 0 { Set(key, NEGATIVE_MARKER, writable); }
        return;
      }
      var data := cfg.codec.encode(answer.place);
      if data.None? { return; }
      Set(key, data.value, writable);
    }

    method Set(key: string, value: string, writable: bool)
      modifies this`cache
      ensures cache == if writable then old(cache)[key := value] else old(cache)
    {
      if writable { cache := cache[key := value]; }
    }

    /** Both directions; `provider` is asked only on a miss. */
    method Geocode(query: Query, provider: Answer, readable: bool, writable: bool) returns (answer: Answer)
      modifies this`cache
      ensures answer == Output(cfg, old(cache), query, provider, readable)
      ensures cache == Next(cfg, old(cache), Ask(query, provider, readable, writable))
    {
      var key := KeyOf(cfg, query);
      var cached, ok := Lookup(key, readable);
      if ok { return cached; }
      answer := provider;
      if provider == Failed { return; }
      Store(key, provider, writable);
    }
  }
}
