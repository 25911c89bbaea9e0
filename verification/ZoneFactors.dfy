/** The cache of emissions factors by date and zone, shared by calls that wait for the network. */
module ZoneFactors {
  import opened Options

  type Factors = map<string, real>

  type Cache = map<string, Factors>

  /** What the configuration says: whether there is a token, the zone of each mapped region, and the
      factors to fall back on. */
  datatype Setup = Setup(hasToken: bool, zones: map<string, string>, defaults: Factors) {
    function ZoneOf(region: string): Option<string> {
      if hasToken && region in zones && zones[region] != "" then Some(zones[region]) else None
    }
  }

  /** Every call brings its own setup; only the cache is shared. */
  datatype Call = Call(region: string, dateTime: string, setup: Setup) {
    function Zone(): Option<string> { setup.ZoneOf(region) }
  }

  datatype Reply = Unreachable | NoIntensity | Intensity(gramsPerKilowattHour: real)

  datatype Answer = Answer(factors: Factors) | Failed

  function ConvertGramsToMetricTons(grams: real): real { grams / 1_000_000.0 }

  // ----- A call up to its request, and from the reply on -----

  function Cached(cache: Cache, dateTime: string, zone: string): Option<real> {
    if dateTime in cache && zone in cache[dateTime] then Some(cache[dateTime][zone]) else None
  }

  /** The answer of a call that needs no request; none if it has to wait.  A cached zero is no answer. */
  function Before(cache: Cache, call: Call): Option<Answer> {
    match call.Zone()
    case None => Some(Answer(call.setup.defaults))
    case Some(zone) =>
      match Cached(cache, call.dateTime, zone)
      case Some(f) => if f != 0.0 then Some(Answer(map[call.region := f])) else None
      case None => None
  }

  function Remember(cache: Cache, dateTime: string, zone: string, factor: real): Cache {
    cache[dateTime := (if dateTime in cache then cache[dateTime] else map[])[zone := factor]]
  }

  function After(cache: Cache, call: Call, zone: string, reply: Reply): (Cache, Answer) {
    match reply
    case Unreachable => (cache, Failed)
    case NoIntensity => (cache, Answer(call.setup.defaults))
    case Intensity(g) =>
      if g == 0.0 then (cache, Answer(call.setup.defaults))
      else
        var f := ConvertGramsToMetricTons(g);
        (Remember(cache, call.dateTime, zone, f), Answer(map[call.region := f]))
  }

  class ElectricityMaps {
    var zoneIntensityFactors: Cache

    constructor ()
      ensures zoneIntensityFactors == map[]
    {
      zoneIntensityFactors := map[];
    }

    method BeforeRequest(call: Call) returns (answer: Option<Answer>)
      ensures answer == Before(zoneIntensityFactors, call)
    {
      var zone := call.Zone();
      if zone.None? {
        return Some(Answer(call.setup.defaults));
      }
      if call.dateTime in zoneIntensityFactors && zone.value in zoneIntensityFactors[call.dateTime] {
        var f := zoneIntensityFactors[call.dateTime][zone.value];
        if f != 0.0 {
          return Some(Answer(map[call.region := f]));
        }
      }
      return None;
    }

    /** Other calls may have changed the cache since the request: it is looked at again here. */
    method AfterReply(call: Call, zone: string, reply: Reply) returns (answer: Answer)
      modifies this
      ensures (zoneIntensityFactors, answer) == After(old(zoneIntensityFactors), call, zone, reply)
    {
      if reply.Unreachable? {
        return Failed;
      }
      if reply.NoIntensity? || reply.gramsPerKilowattHour == 0.0 {
        return Answer(call.setup.defaults);
      }
      var f := ConvertGramsToMetricTons(reply.gramsPerKilowattHour);
      if call.dateTime in zoneIntensityFactors {
        var zones := zoneIntensityFactors[call.dateTime];
        zoneIntensityFactors := zoneIntensityFactors[call.dateTime := zones[zone := f]];
      } else {
        zoneIntensityFactors := zoneIntensityFactors[call.dateTime := map[zone := f]];
      }
      return Answer(map[call.region := zoneIntensityFactors[call.dateTime][zone]]);
    }
  }

  // ----- Any number of calls at once -----

  datatype State = State(cache: Cache, waiting: map<nat, Call>, answered: map<nat, (Call, Answer)>)

  datatype Event = Start(id: nat, call: Call) | Arrive(id: nat, reply: Reply)

  /** A source without a random element: what it says of a zone and a date. */
  type Source = (string, string) -> Reply

  predicate Possible(st: State, event: Event, source: Source) {
    match event
    case Start(id, _) => id !in st.waiting && id !in st.answered
    case Arrive(id, reply) =>
      && id in st.waiting
      && var call := st.waiting[id];
         var zone := call.Zone();
         zone.Some? && (reply == Unreachable || reply == source(zone.value, call.dateTime))
  }

  function Next(st: State, event: Event, source: Source): State
    requires Possible(st, event, source)
  {
    match event
    case Start(id, call) =>
      (match Before(st.cache, call)
       case Some(answer) => st.(answered := st.answered[id := (call, answer)])
       case None => st.(waiting := st.waiting[id := call]))
    case Arrive(id, reply) =>
      var call := st.waiting[id];
      var (cache, answer) := After(st.cache, call, call.Zone().value, reply);
      State(cache, st.waiting - {id}, st.answered[id := (call, answer)])
  }

  /** What a call answers if nothing is cached and the source can be reached: metric tons for a known
      intensity that is not zero, and the defaults without a token, without a zone or without an intensity. */
  function Uncached(call: Call, source: Source): Answer {
    var setup, region := call.setup, call.region;
    if setup.hasToken && region in setup.zones && setup.zones[region] != "" then
      match source(setup.zones[region], call.dateTime)
      case Unreachable => Failed
      case NoIntensity => Answer(setup.defaults)
      case Intensity(grams) =>
        if grams == 0.0 then Answer(setup.defaults) else Answer(map[region := grams / 1_000_000.0])
    else Answer(setup.defaults)
  }

  ghost predicate Correct(cache: Cache, source: Source) {
    forall dateTime, zone :: dateTime in cache && zone in cache[dateTime] ==>
      && source(zone, dateTime).Intensity?
      && source(zone, dateTime).gramsPerKilowattHour != 0.0
      && cache[dateTime][zone] == source(zone, dateTime).gramsPerKilowattHour / 1_000_000.0
  }

  ghost predicate Inv(st: State, source: Source) {
    && Correct(st.cache, source)
    && (forall id :: id in st.waiting ==> st.waiting[id].Zone().Some?)
    && (forall id :: id in st.answered ==>
          st.answered[id].1 == Failed || st.answered[id].1 == Uncached(st.answered[id].0, source))
  }

  /** Every entry is still there, with its value. */
  ghost predicate Extends(cache: Cache, cache': Cache) {
    forall dateTime, zone :: Cached(cache, dateTime, zone).Some? ==>
      Cached(cache', dateTime, zone) == Cached(cache, dateTime, zone)
  }

  lemma RememberIsCorrect(cache: Cache, dateTime: string, zone: string, source: Source)
    requires Correct(cache, source)
    requires source(zone, dateTime).Intensity? && source(zone, dateTime).gramsPerKilowattHour != 0.0
    ensures var cache' := Remember(cache, dateTime, zone,
                                   ConvertGramsToMetricTons(source(zone, dateTime).gramsPerKilowattHour));
            Correct(cache', source) && Extends(cache, cache')
  {}

  lemma CachedAnswersAgree(cache: Cache, call: Call, source: Source)
    requires Correct(cache, source)
    ensures Before(cache, call).Some? ==> Before(cache, call) == Some(Uncached(call, source))
    ensures Before(cache, call).None? ==> call.Zone().Some?
  {}

  lemma RepliesAgree(cache: Cache, call: Call, source: Source)
    requires call.Zone().Some?
    requires source(call.Zone().value, call.dateTime) != Unreachable
    ensures After(cache, call, call.Zone().value, source(call.Zone().value, call.dateTime)).1 == Uncached(call, source)
  {}

  lemma RepliesAreCached(cache: Cache, call: Call, zone: string, source: Source)
    requires Correct(cache, source)
    ensures var cache' := After(cache, call, zone, source(zone, call.dateTime)).0;
            Correct(cache', source) && Extends(cache, cache')
  {
    var reply := source(zone, call.dateTime);
    if reply.Intensity? && reply.gramsPerKilowattHour != 0.0 {
      RememberIsCorrect(cache, call.dateTime, zone, source);
    }
  }

  lemma StepKeepsInv(st: State, event: Event, source: Source)
    requires forall z, d :: source(z, d) != Unreachable
    requires Inv(st, source) && Possible(st, event, source)
    ensures Inv(Next(st, event, source), source)
    ensures Extends(st.cache, Next(st, event, source).cache)
  {
    match event
    case Start(id, call) =>
      CachedAnswersAgree(st.cache, call, source);
    case Arrive(id, reply) =>
      var call := st.waiting[id];
      if reply != Unreachable {
        RepliesAgree(st.cache, call, source);
        RepliesAreCached(st.cache, call, call.Zone().value, source);
      }
  }

  // ----- Whole runs -----

  predicate PossibleRun(st: State, events: seq<Event>, source: Source)
    decreases |events|
  {
    events == [] ||
      (Possible(st, events[0], source) && PossibleRun(Next(st, events[0], source), events[1..], source))
  }

  function Run(st: State, events: seq<Event>, source: Source): State
    requires PossibleRun(st, events, source)
    decreases |events|
  {
    if events == [] then st else Run(Next(st, events[0], source), events[1..], source)
  }

  const INITIAL := State(map[], map[], map[])

  lemma {:induction false} RunKeepsInv(st: State, events: seq<Event>, source: Source)
    requires forall z, d :: source(z, d) != Unreachable
    requires Inv(st, source) && PossibleRun(st, events, source)
    ensures Inv(Run(st, events, source), source)
    ensures Extends(st.cache, Run(st, events, source).cache)
    decreases |events|
  {
    if events == [] {
    } else {
      StepKeepsInv(st, events[0], source);
      RunKeepsInv(Next(st, events[0], source), events[1..], source);
    }
  }

  /** However calls and replies are interleaved: every cached factor is the source's, converted, and
      every call that did not fail answers what it would have answered without a cache. */
  lemma ConcurrentCallsAgreeWithTheSource(events: seq<Event>, source: Source)
    requires forall z, d :: source(z, d) != Unreachable
    requires PossibleRun(INITIAL, events, source)
    ensures var st := Run(INITIAL, events, source);
            && Correct(st.cache, source)
            && forall id :: id in st.answered ==>
                 st.answered[id].1 == Failed || st.answered[id].1 == Uncached(st.answered[id].0, source)
  {
    RunKeepsInv(INITIAL, events, source);
  }

  ghost predicate Apart(st: State) {
    forall id :: id in st.waiting ==> id !in st.answered
  }

  /** A reply arrives once. */
  lemma {:induction false} AnsweredOnce(st: State, events: seq<Event>, source: Source, id: nat)
    requires Apart(st) && PossibleRun(st, events, source) && id in st.answered
    ensures Arrive(id, Unreachable) !in events
    ensures id in Run(st, events, source).answered && Run(st, events, source).answered[id] == st.answered[id]
    decreases |events|
  {
    if events == [] {
    } else {
      AnsweredOnce(Next(st, events[0], source), events[1..], source, id);
      assert events == [events[0]] + events[1..];
    }
  }

  /** A call fails exactly when the reply to its request is that the source cannot be reached. */
  lemma {:induction false} FailsIffUnreachable(st: State, events: seq<Event>, source: Source, id: nat)
    requires Apart(st) && PossibleRun(st, events, source)
    requires id !in st.answered && id in Run(st, events, source).answered
    ensures Run(st, events, source).answered[id].1 == Failed <==> Arrive(id, Unreachable) in events
    decreases |events|
  {
    if events == [] {
    } else {
      var next := Next(st, events[0], source);
      assert events == [events[0]] + events[1..];
      if id in next.answered {
        AnsweredOnce(next, events[1..], source, id);
        assert next.answered[id].1 == Failed <==> events[0] == Arrive(id, Unreachable);
      } else {
        FailsIffUnreachable(next, events[1..], source, id);
      }
    }
  }

  /** The call that an answer is filed with is the one that was started. */
  lemma {:induction false} AnswersTheCallStarted(st: State, events: seq<Event>, source: Source, id: nat)
    requires Apart(st) && PossibleRun(st, events, source)
    requires id !in st.answered && id in Run(st, events, source).answered
    ensures var call := Run(st, events, source).answered[id].0;
            if id in st.waiting then call == st.waiting[id] else Start(id, call) in events
    decreases |events|
  {
    if events == [] {
    } else {
      var next := Next(st, events[0], source);
      assert events == [events[0]] + events[1..];
      if id in next.answered {
        AnsweredOnce(next, events[1..], source, id);
      } else {
        AnswersTheCallStarted(next, events[1..], source, id);
      }
    }
  }

  lemma {:induction false} RunAppend(st: State, a: seq<Event>, b: seq<Event>, source: Source)
    requires PossibleRun(st, a + b, source)
    ensures PossibleRun(st, a, source)
    ensures PossibleRun(Run(st, a, source), b, source)
    ensures Run(st, a + b, source) == Run(Run(st, a, source), b, source)
    decreases |a|
  {
    if a == [] {
      assert a + b == b;
    } else {
      assert (a + b)[0] == a[0] && (a + b)[1..] == a[1..] + b;
      RunAppend(Next(st, a[0], source), a[1..], b, source);
    }
  }

  /** Once a reply with an intensity has arrived, the entry stays whatever else happens, and every
      later call for the zone and date is answered from it without a request. */
  lemma EntriesAreNeverLost(before: seq<Event>, id: nat, reply: Reply, after: seq<Event>, later: Call, source: Source)
    requires forall z, d :: source(z, d) != Unreachable
    requires PossibleRun(INITIAL, before + ([Arrive(id, reply)] + after), source)
    requires reply.Intensity? && reply.gramsPerKilowattHour != 0.0
    requires PossibleRun(INITIAL, before, source) && id in Run(INITIAL, before, source).waiting
    requires var call := Run(INITIAL, before, source).waiting[id];
             later.dateTime == call.dateTime && later.Zone() == call.Zone()
    ensures var st := Run(INITIAL, before + ([Arrive(id, reply)] + after), source);
            Before(st.cache, later) == Some(Uncached(later, source))
  {
    var mid := Run(INITIAL, before, source);
    RunAppend(INITIAL, before, [Arrive(id, reply)] + after, source);
    assert ([Arrive(id, reply)] + after)[1..] == after;
    RunKeepsInv(INITIAL, before, source);
    StepKeepsInv(mid, Arrive(id, reply), source);
    var next := Next(mid, Arrive(id, reply), source);
    RunKeepsInv(next, after, source);
    var zone := later.Zone().value;
    assert Cached(next.cache, later.dateTime, zone).Some?;
  }
}
