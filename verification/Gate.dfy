/** The single-flight admission gate of `tools/curator-embed/bench-scheduler.go`. */
module Gate {
  datatype Reply = Joined | TooMany | Cache | Cold

  datatype Call =
    | Admit(key: string)
    | ReleaseCache
    | ReleaseJoin
    | Finish(key: string, success: bool)
    | Forget(key: string)

  datatype State = State(running: bool, key: string, attached: nat, cached: set<string>, cacheReaders: nat)

  function Initial(cached: set<string>): State {
    State(false, "", 0, cached, 0)
  }

  function ReplyOf(s: State, key: string): Reply {
    if s.running && s.key == key then (if s.attached < 4 then Joined else TooMany)
    else if key in s.cached then (if s.cacheReaders >= 2 then TooMany else Cache)
    else if s.running then TooMany
    else Cold
  }

  predicate Panics(s: State, call: Call) {
    match call
    case Admit(_) => false
    case Forget(_) => false
    case ReleaseCache => s.cacheReaders == 0
    case ReleaseJoin => !s.running || s.attached < 2
    case Finish(key, _) => !s.running || s.key != key
  }

  function Apply(s: State, call: Call): State
    requires !Panics(s, call)
  {
    match call
    case Admit(key) =>
      (match ReplyOf(s, key)
       case Joined => s.(attached := s.attached + 1)
       case Cache => s.(cacheReaders := s.cacheReaders + 1)
       case Cold => s.(running := true, key := key, attached := 1)
       case TooMany => s)
    case ReleaseCache => s.(cacheReaders := s.cacheReaders - 1)
    case ReleaseJoin => s.(attached := s.attached - 1)
    case Finish(key, success) =>
      s.(running := false, attached := 0, cached := if success then s.cached + {key} else s.cached)
    case Forget(key) => s.(cached := s.cached - {key})
  }

  class Gate {
    var running: bool
    var key: string
    var attached: int
    var cached: set<string>
    var cacheReaders: int

    ghost predicate Valid()
      reads this
    {
      attached >= 0 && cacheReaders >= 0
    }

    ghost function View(): State
      reads this
      requires Valid()
    {
      State(running, key, attached, cached, cacheReaders)
    }

    constructor (cached: set<string>)
      ensures Valid() && View() == Initial(cached)
    {
      running, key, attached, this.cached, cacheReaders := false, "", 0, cached, 0;
    }

    method Admit(wanted: string) returns (reply: Reply)
      requires Valid()
      modifies this
      ensures Valid() && View() == Apply(old(View()), Call.Admit(wanted)) && reply == ReplyOf(old(View()), wanted)
    {
      if running && key == wanted {
        if attached < 4 {
          attached := attached + 1;
          return Joined;
        }
        return TooMany;
      }
      if wanted in cached {
        if cacheReaders >= 2 {
          return TooMany;
        }
        cacheReaders := cacheReaders + 1;
        return Cache;
      }
      if running {
        return TooMany;
      }
      running, key, attached := true, wanted, 1;
      return Cold;
    }

    /** The three releases report a panic as `false`; a panicking call changes nothing. */
    method ReleaseCache() returns (ok: bool)
      requires Valid()
      modifies this
      ensures Valid() && ok == !Panics(old(View()), Call.ReleaseCache)
      ensures View() == if ok then Apply(old(View()), Call.ReleaseCache) else old(View())
    {
      if cacheReaders == 0 {
        return false;
      }
      cacheReaders := cacheReaders - 1;
      return true;
    }

    method ReleaseJoin() returns (ok: bool)
      requires Valid()
      modifies this
      ensures Valid() && ok == !Panics(old(View()), Call.ReleaseJoin)
      ensures View() == if ok then Apply(old(View()), Call.ReleaseJoin) else old(View())
    {
      if !running || attached < 2 {
        return false;
      }
      attached := attached - 1;
      return true;
    }

    method Finish(finished: string, success: bool) returns (ok: bool)
      requires Valid()
      modifies this
      ensures Valid() && ok == !Panics(old(View()), Call.Finish(finished, success))
      ensures View() == if ok then Apply(old(View()), Call.Finish(finished, success)) else old(View())
    {
      if !running || key != finished {
        return false;
      }
      running, attached := false, 0;
      if success {
        cached := cached + {finished};
      }
      return true;
    }
  }

  // ---------- the reference: what is outstanding according to the replies alone ----------

  /** What callers were told and have not given back. `flight` is the key of the cold query that
      has not finished, `joins` the callers attached to it, `readers` the cache reads under way. */
  datatype Ledger = Ledger(cold: bool, flight: string, joins: nat, readers: nat, stored: set<string>)

  datatype Event = Event(call: Call, reply: Reply)

  /** Callers end only what they were admitted to; a finish ends every joiner of its flight. */
  predicate Honest(l: Ledger, call: Call) {
    match call
    case Admit(_) => true
    case Forget(_) => true
    case ReleaseCache => l.readers > 0
    case ReleaseJoin => l.joins > 0
    case Finish(key, _) => l.cold && l.flight == key
  }

  function Book(l: Ledger, e: Event): Ledger
    requires Honest(l, e.call)
  {
    match e.call
    case Admit(key) =>
      (match e.reply
       case Joined => l.(joins := l.joins + 1)
       case Cache => l.(readers := l.readers + 1)
       case Cold => l.(cold := true, flight := key, joins := 0)
       case TooMany => l)
    case ReleaseCache => l.(readers := l.readers - 1)
    case ReleaseJoin => l.(joins := l.joins - 1)
    case Finish(key, success) =>
      l.(cold := false, joins := 0, stored := if success then l.stored + {key} else l.stored)
    case Forget(key) => l.(stored := l.stored - {key})
  }

  datatype Run = Run(gate: State, ledger: Ledger)

  /** The gate after a history of honest calls, with the ledger its replies make. */
  ghost predicate Reaches(cached: set<string>, events: seq<Event>, r: Run) {
    if events == [] then r == Run(Initial(cached), Ledger(false, "", 0, 0, cached))
    else
      var e := events[|events| - 1];
      exists q: Run :: Reaches(cached, events[..|events| - 1], q) && Extends(q, e, r)
  }

  predicate Extends(q: Run, e: Event, r: Run) {
    && Honest(q.ledger, e.call) && !Panics(q.gate, e.call)
    && (e.call.Admit? ==> e.reply == ReplyOf(q.gate, e.call.key))
    && r == Run(Apply(q.gate, e.call), Book(q.ledger, e))
  }

  /** The counters of the gate are exactly what is outstanding, within the caps. */
  predicate Agrees(r: Run) {
    var s, l := r.gate, r.ledger;
    && s.running == l.cold && (s.running ==> s.key == l.flight)
    && s.attached == (if l.cold then 1 + l.joins else 0) && (!l.cold ==> l.joins == 0) && s.attached <= 4
    && s.cacheReaders == l.readers <= 2
    && s.cached == l.stored
  }

  lemma {:induction false} CountersAreOutstanding(cached: set<string>, events: seq<Event>, r: Run)
    requires Reaches(cached, events, r)
    ensures Agrees(r)
  {
    if events != [] {
      var e := events[|events| - 1];
      var q: Run :| Reaches(cached, events[..|events| - 1], q) && Extends(q, e, r);
      CountersAreOutstanding(cached, events[..|events| - 1], q);
      StepKeepsAgreement(q, e, r);
    }
  }

  lemma StepKeepsAgreement(q: Run, e: Event, r: Run)
    requires Agrees(q) && Extends(q, e, r)
    ensures Agrees(r)
  {
  }

  /** The underflow panics are reached exactly by callers ending what they do not hold. */
  lemma PanicsExactlyOnMisuse(cached: set<string>, events: seq<Event>, r: Run, call: Call)
    requires Reaches(cached, events, r)
    ensures Panics(r.gate, call) <==> !Honest(r.ledger, call)
  {
    CountersAreOutstanding(cached, events, r);
  }

  /** A query runs cold only when none else does and its key is not cached; a key is served from
      the cache only if a successful finish, not forgotten since, put it there. */
  lemma AdmissionIsSound(cached: set<string>, events: seq<Event>, r: Run, key: string)
    requires Reaches(cached, events, r)
    ensures match ReplyOf(r.gate, key)
      case Cold => !r.ledger.cold && key !in r.ledger.stored
      case Joined => r.ledger.cold && r.ledger.flight == key && r.ledger.joins < 3
      case Cache => key in r.ledger.stored && r.ledger.readers < 2
      case TooMany =>
        || (r.ledger.cold && r.ledger.flight == key && r.ledger.joins == 3)
        || (key in r.ledger.stored && r.ledger.readers == 2)
        || (r.ledger.cold && r.ledger.flight != key && key !in r.ledger.stored)
  {
    CountersAreOutstanding(cached, events, r);
  }

  // ---------- the counters counted ----------

  function Count(events: seq<Event>, what: Event -> bool): nat {
    if events == [] then 0
    else Count(events[..|events| - 1], what) + (if what(events[|events| - 1]) then 1 else 0)
  }

  const WENT_COLD := (e: Event) => e.call.Admit? && e.reply == Cold
  const JOINED := (e: Event) => e.call.Admit? && e.reply == Joined
  const READ_CACHE := (e: Event) => e.call.Admit? && e.reply == Cache
  const ENDED_READ := (e: Event) => e.call.ReleaseCache?
  const LEFT := (e: Event) => e.call.ReleaseJoin?
  const FINISHED := (e: Event) => e.call.Finish?

  /** What happened since the last query that was told to run cold. */
  function SinceCold(events: seq<Event>): seq<Event> {
    if events == [] then []
    else if WENT_COLD(events[|events| - 1]) then []
    else SinceCold(events[..|events| - 1]) + [events[|events| - 1]]
  }

  /** Whether the last word on the key was a successful finish rather than a removal. */
  function LastStored(cached: set<string>, events: seq<Event>, key: string): bool {
    if events == [] then key in cached
    else
      match events[|events| - 1].call
      case Finish(k, success) => (k == key && success) || LastStored(cached, events[..|events| - 1], key)
      case Forget(k) => k != key && LastStored(cached, events[..|events| - 1], key)
      case _ => LastStored(cached, events[..|events| - 1], key)
  }

  /** The gate's counters counted from the replies and releases alone: a query runs while one more
      was told to run cold than finished, it is attached to by those who joined it since and have
      not left, and the cache is read by those told to read it who have not ended. */
  ghost predicate CountsUp(cached: set<string>, events: seq<Event>, s: State) {
    && Count(events, WENT_COLD) == Count(events, FINISHED) + (if s.running then 1 else 0)
    && (s.running ==> Count(SinceCold(events), FINISHED) == 0)
    && (s.running ==> s.attached == 1 + Count(SinceCold(events), JOINED) - Count(SinceCold(events), LEFT))
    && s.cacheReaders == Count(events, READ_CACHE) - Count(events, ENDED_READ)
    && (forall key :: key in s.cached <==> LastStored(cached, events, key))
  }

  lemma CountSnoc(events: seq<Event>, e: Event, what: Event -> bool)
    ensures Count(events + [e], what) == Count(events, what) + (if what(e) then 1 else 0)
  {
    assert (events + [e])[..|events|] == events;
  }

  lemma {:induction false} CountersAreCounts(cached: set<string>, events: seq<Event>, r: Run)
    requires Reaches(cached, events, r)
    ensures CountsUp(cached, events, r.gate)
  {
    if events != [] {
      var front, e := events[..|events| - 1], events[|events| - 1];
      var q: Run :| Reaches(cached, front, q) && Extends(q, e, r);
      CountersAreCounts(cached, front, q);
      CountersAreOutstanding(cached, front, q);
      CountStep(cached, front, e, q, r);
      assert front + [e] == events;
    }
  }

  lemma CountStep(cached: set<string>, front: seq<Event>, e: Event, q: Run, r: Run)
    requires Agrees(q) && Extends(q, e, r) && CountsUp(cached, front, q.gate)
    ensures CountsUp(cached, front + [e], r.gate)
  {
    hide Count;
    assert (front + [e])[..|front|] == front;
    CountSnoc(front, e, WENT_COLD);
    CountSnoc(front, e, FINISHED);
    CountSnoc(front, e, READ_CACHE);
    CountSnoc(front, e, ENDED_READ);
    CountSnoc(SinceCold(front), e, FINISHED);
    CountSnoc(SinceCold(front), e, JOINED);
    CountSnoc(SinceCold(front), e, LEFT);
    CountNothing();
  }

  lemma CountNothing()
    ensures Count([], FINISHED) == Count([], JOINED) == Count([], LEFT) == 0
  {
  }
}
