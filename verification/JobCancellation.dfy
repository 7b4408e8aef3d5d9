/**
 * The registry of cooperative job cancellation.  Each call holds the lock for one section and may afterwards,
 * outside the lock, cancel one token; sections and late cancellations of different threads interleave freely.
 */
module JobCancellation {
  import opened Prelude

  /** What the lock protects. */
  datatype Registry<T> = Registry(tokens: map<string, T>, pending: set<string>)

  // ---- The locked sections ----

  function Enter<T>(r: Registry<T>, job: string, token: T): Registry<T> {
    Registry(r.tokens[job := token], r.pending - {job})
  }

  function Leave<T(==)>(r: Registry<T>, job: string, token: T): Registry<T> {
    if job in r.tokens && r.tokens[job] == token then Registry(r.tokens - {job}, r.pending - {job}) else r
  }

  function Mark<T>(r: Registry<T>, job: string, allowPending: bool): Registry<T> {
    if job !in r.tokens && allowPending then r.(pending := r.pending + {job}) else r
  }

  function Unmark<T>(r: Registry<T>, job: string): Registry<T> {
    r.(pending := r.pending - {job})
  }

  // ---- The protocol ----

  /** A token's identity: serial numbers are handed out in order of registration. */
  datatype Token = Token(job: string, serial: nat)

  /** `sent` holds the cancellations decided under the lock and not yet carried out. */
  datatype State = State(registry: Registry<Token>, next: nat, cancelled: set<Token>, sent: multiset<Token>)

  datatype Event =
    | Register(job: string)
    | Unregister(job: string, token: Token)
    | RequestCancel(job: string, allowPending: bool)
    | ClearPending(job: string)
    | Deliver(token: Token)

  const START := State(Registry(map[], {}), 0, {}, multiset{})

  /** One locked section, or one late `token.cancel()`. */
  function Step(s: State, e: Event): State {
    match e
    case Register(job) =>
      var token := Token(job, s.next);
      State(Enter(s.registry, job, token), s.next + 1, s.cancelled,
            if job in s.registry.pending then s.sent + multiset{token} else s.sent)
    case Unregister(job, token) => s.(registry := Leave(s.registry, job, token))
    case RequestCancel(job, allow) =>
      if job in s.registry.tokens then s.(sent := s.sent + multiset{s.registry.tokens[job]})
      else s.(registry := Mark(s.registry, job, allow))
    case ClearPending(job) => s.(registry := Unmark(s.registry, job))
    case Deliver(token) =>
      if token in s.sent then s.(cancelled := s.cancelled + {token}, sent := s.sent - multiset{token}) else s
  }

  function Run(s: State, es: seq<Event>): State
    decreases |es|
  {
    if es == [] then s else Run(Step(s, es[0]), es[1..])
  }

  lemma {:induction false} RunSplits(s: State, es: seq<Event>, more: seq<Event>)
    ensures Run(s, es + more) == Run(Run(s, es), more)
    decreases |es|
  {
    if es == [] {
      assert es + more == more;
    } else {
      assert (es + more)[0] == es[0] && (es + more)[1..] == es[1..] + more;
      RunSplits(Step(s, es[0]), es[1..], more);
    }
  }

  predicate Hit(s: State, token: Token) {
    token in s.cancelled || token in s.sent
  }

  predicate Current(s: State, token: Token) {
    token.job in s.registry.tokens && s.registry.tokens[token.job] == token
  }

  /** No job is both registered and pending; tokens sit under their own job; identities are old. */
  ghost predicate Valid(s: State) {
    && s.registry.tokens.Keys !! s.registry.pending
    && (forall job | job in s.registry.tokens :: s.registry.tokens[job].job == job && s.registry.tokens[job].serial < s.next)
    && (forall token | Hit(s, token) :: token.serial < s.next)
  }

  lemma RegisterKeepsValid(s: State, job: string)
    requires Valid(s)
    ensures Valid(Step(s, Register(job)))
  {
    var s' := Step(s, Register(job));
    forall token | Hit(s', token) ensures token.serial < s'.next {
      assert Hit(s, token) || token == Token(job, s.next);
    }
  }

  lemma RequestKeepsValid(s: State, job: string, allow: bool)
    requires Valid(s)
    ensures Valid(Step(s, RequestCancel(job, allow)))
  {
    var s' := Step(s, RequestCancel(job, allow));
    forall token | Hit(s', token) ensures token.serial < s'.next {
      assert Hit(s, token) || (job in s.registry.tokens && token == s.registry.tokens[job]);
    }
  }

  lemma DeliverKeepsValid(s: State, token: Token)
    requires Valid(s)
    ensures Valid(Step(s, Deliver(token)))
  {
    forall other | Hit(Step(s, Deliver(token)), other) ensures Hit(s, other) { }
  }

  lemma StepKeepsValid(s: State, e: Event)
    requires Valid(s)
    ensures Valid(Step(s, e)) && s.next <= Step(s, e).next
  {
    match e
    case Register(job) => RegisterKeepsValid(s, job);
    case RequestCancel(job, allow) => RequestKeepsValid(s, job, allow);
    case Deliver(token) => DeliverKeepsValid(s, token);
    case _ => assert forall token | Hit(Step(s, e), token) :: Hit(s, token);
  }

  lemma {:induction false} RunKeepsValid(s: State, es: seq<Event>)
    requires Valid(s)
    ensures Valid(Run(s, es)) && s.next <= Run(s, es).next
    decreases |es|
  {
    if es != [] {
      StepKeepsValid(s, es[0]);
      RunKeepsValid(Step(s, es[0]), es[1..]);
    }
  }

  /** In every interleaving, no job id is both registered and pending. */
  lemma NeverRegisteredAndPending(es: seq<Event>, job: string)
    ensures !(job in Run(START, es).registry.tokens && job in Run(START, es).registry.pending)
  {
    RunKeepsValid(START, es);
  }

  /** So `unregister` never drops a pending request, although its code discards one. */
  lemma UnregisterKeepsPending(s: State, job: string, token: Token)
    requires Valid(s)
    ensures Step(s, Unregister(job, token)).registry.pending == s.registry.pending
  {
  }

  /** Unregistering the current token leaves no trace of the job, and everything else as it was. */
  lemma UnregisterRemovesCurrent(s: State, job: string, token: Token)
    requires Valid(s) && job in s.registry.tokens && s.registry.tokens[job] == token
    ensures var s' := Step(s, Unregister(job, token));
      && job !in s'.registry.tokens && job !in s'.registry.pending
      && s'.registry.pending == s.registry.pending && s'.cancelled == s.cancelled && s'.sent == s.sent
      && forall other | other != job ::
           (other in s'.registry.tokens <==> other in s.registry.tokens)
           && (other in s.registry.tokens ==> s'.registry.tokens[other] == s.registry.tokens[other])
  {
  }

  /** An event about one job leaves the token and the mark of every other job alone. */
  lemma StepLeavesOthers(s: State, e: Event, other: string)
    requires e.Deliver? || e.job != other
    ensures var s' := Step(s, e);
      && (other in s'.registry.tokens <==> other in s.registry.tokens)
      && (other in s.registry.tokens ==> s'.registry.tokens[other] == s.registry.tokens[other])
      && (other in s'.registry.pending <==> other in s.registry.pending)
  {
  }

  // ---- Stale tokens ----

  lemma {:induction false} StaleStaysStale(s: State, es: seq<Event>, token: Token)
    requires token.serial < s.next && !Current(s, token)
    ensures !Current(Run(s, es), token)
    decreases |es|
  {
    if es != [] { StaleStaysStale(Step(s, es[0]), es[1..], token); }
  }

  /** Once a token has been replaced or removed, no `unregister` with it ever changes anything, under any job id. */
  lemma StaleNeverUnregisters(s: State, es: seq<Event>, token: Token, job: string)
    requires Valid(s) && token.serial < s.next && !Current(s, token)
    ensures Step(Run(s, es), Unregister(job, token)) == Run(s, es)
  {
    RunKeepsValid(s, es);
    StaleStaysStale(s, es, token);
  }

  lemma StepNeverHitsStale(s: State, e: Event, token: Token)
    requires Valid(s) && token.serial < s.next && !Current(s, token) && !Hit(s, token)
    ensures !Hit(Step(s, e), token)
  {
    if e.RequestCancel? && e.job in s.registry.tokens { assert s.registry.tokens[e.job].job == e.job; }
  }

  /** Nor does any later request cancel it. */
  lemma {:induction false} StaleIsNeverHit(s: State, es: seq<Event>, token: Token)
    requires Valid(s) && token.serial < s.next && !Current(s, token) && !Hit(s, token)
    ensures !Hit(Run(s, es), token)
    decreases |es|
  {
    if es != [] {
      StepNeverHitsStale(s, es[0], token);
      StepKeepsValid(s, es[0]);
      StaleStaysStale(s, [es[0]], token);
      assert [es[0]][1..] == [] && Run(s, [es[0]]) == Run(Step(s, es[0]), []);
      StaleIsNeverHit(Step(s, es[0]), es[1..], token);
    }
  }

  /** Once a job has unregistered its token in time, no request, however many follow, cancels that token. */
  lemma UnregisteredIsNeverHit(s: State, es: seq<Event>, token: Token)
    requires Valid(s) && Current(s, token) && !Hit(s, token)
    ensures !Hit(Run(Step(s, Unregister(token.job, token)), es), token)
  {
    UnregisterRemovesCurrent(s, token.job, token);
    StepKeepsValid(s, Unregister(token.job, token));
    StaleIsNeverHit(Step(s, Unregister(token.job, token)), es, token);
  }

  // ---- Fates of requests ----

  lemma {:induction false} HitStays(s: State, es: seq<Event>, token: Token)
    requires Hit(s, token)
    ensures Hit(Run(s, es), token)
    decreases |es|
  {
    if es != [] { HitStays(Step(s, es[0]), es[1..], token); }
  }

  /** A mark waits for the next registration, unless it is cleared. */
  lemma {:induction false} MarkWaits(s: State, es: seq<Event>, job: string)
    requires Valid(s) && job in s.registry.pending && Register(job) !in es && ClearPending(job) !in es
    ensures job in Run(s, es).registry.pending && Valid(Run(s, es))
    decreases |es|
  {
    if es != [] {
      assert es[0] != Register(job) && es[0] != ClearPending(job);
      StepKeepsValid(s, es[0]);
      MarkWaits(Step(s, es[0]), es[1..], job);
    }
  }

  /** A request for a registered job cancels exactly the token registered when it was made. */
  lemma RequestHitsCurrent(s: State, allow: bool, es: seq<Event>, job: string)
    requires job in s.registry.tokens
    ensures Hit(Run(Step(s, RequestCancel(job, allow)), es), s.registry.tokens[job])
  {
    HitStays(Step(s, RequestCancel(job, allow)), es, s.registry.tokens[job]);
  }

  /** A request that comes first cancels the next token registered for the job, unless it is cleared before that. */
  lemma EarlyRequestHitsNext(s: State, waiting: seq<Event>, later: seq<Event>, job: string)
    requires Valid(s) && job !in s.registry.tokens && Register(job) !in waiting && ClearPending(job) !in waiting
    ensures var token := Token(job, Run(Step(s, RequestCancel(job, true)), waiting).next);
      Hit(Run(Step(s, RequestCancel(job, true)), waiting + [Register(job)] + later), token)
  {
    var s1 := Step(s, RequestCancel(job, true));
    StepKeepsValid(s, RequestCancel(job, true));
    MarkWaits(s1, waiting, job);
    var s2 := Run(s1, waiting);
    assert waiting + [Register(job)] + later == waiting + ([Register(job)] + later);
    RunSplits(s1, waiting, [Register(job)] + later);
    assert ([Register(job)] + later)[1..] == later;
    HitStays(Step(s2, Register(job)), later, Token(job, s2.next));
  }

  /** Where the first occurrence of an event is. */
  lemma {:induction false} FirstOccurrence(es: seq<Event>, e: Event) returns (i: nat)
    requires e in es
    ensures i < |es| && es[i] == e && e !in es[..i]
  {
    if es[0] == e {
      i := 0;
    } else {
      assert e in es[1..];
      i := FirstOccurrence(es[1..], e);
      assert es[..i + 1] == [es[0]] + es[1..][..i];
      i := i + 1;
    }
  }

  /**
   * Every accepted request has one of three fates: a token of its job is cancelled or about to be, namely
   * the one registered at the time or one registered afterwards; it is still pending; or it was cleared.
   */
  lemma RequestFate(s: State, es: seq<Event>, job: string)
    requires Valid(s) && ClearPending(job) !in es
    ensures var s' := Run(Step(s, RequestCancel(job, true)), es);
      || job in s'.registry.pending
      || exists token :: Hit(s', token) && token.job == job && (Current(s, token) || s.next <= token.serial)
  {
    var s1 := Step(s, RequestCancel(job, true));
    var s' := Run(s1, es);
    StepKeepsValid(s, RequestCancel(job, true));
    if job in s.registry.tokens {
      RequestHitsCurrent(s, true, es, job);
      assert Current(s, s.registry.tokens[job]);
    } else if Register(job) in es {
      var i := FirstOccurrence(es, Register(job));
      assert es == es[..i] + [Register(job)] + es[i + 1..];
      forall e | e in es[..i] ensures e in es { }
      EarlyRequestHitsNext(s, es[..i], es[i + 1..], job);
      RunKeepsValid(s1, es[..i]);
    } else {
      MarkWaits(s1, es, job);
    }
  }

  // ---- No cancellation without a request ----

  predicate Requested(es: seq<Event>, job: string) {
    exists e | e in es :: e.RequestCancel? && e.job == job
  }

  /** The registry owes this token nothing: not cancelled, not about to be, and its job is not marked. */
  predicate Clean(s: State, token: Token) {
    !Hit(s, token) && token.job !in s.registry.pending
  }

  lemma StepStaysClean(s: State, e: Event, token: Token)
    requires Valid(s) && Clean(s, token) && !(e.RequestCancel? && e.job == token.job)
    ensures Clean(Step(s, e), token)
  {
  }

  lemma {:induction false} RunStaysClean(s: State, es: seq<Event>, token: Token)
    requires Valid(s) && Clean(s, token) && !Requested(es, token.job)
    ensures Clean(Run(s, es), token)
    decreases |es|
  {
    if es != [] {
      assert es[0] in es;
      forall e | e in es[1..] ensures e in es { }
      StepStaysClean(s, es[0], token);
      StepKeepsValid(s, es[0]);
      RunStaysClean(Step(s, es[0]), es[1..], token);
    }
  }

  /** The registry cancels no token whose job nobody asked to cancel. */
  lemma NoUncalledCancellation(es: seq<Event>, token: Token)
    requires Hit(Run(START, es), token)
    ensures Requested(es, token.job)
  {
    if !Requested(es, token.job) { RunStaysClean(START, es, token); }
  }

  lemma {:induction false} Unmarked(s: State, es: seq<Event>, job: string)
    requires Valid(s) && job !in s.registry.pending && !Requested(es, job)
    ensures Valid(Run(s, es)) && job !in Run(s, es).registry.pending
    decreases |es|
  {
    if es != [] {
      assert es[0] in es;
      forall e | e in es[1..] ensures e in es { }
      StepKeepsValid(s, es[0]);
      Unmarked(Step(s, es[0]), es[1..], job);
    }
  }

  /** A mark that is cleared before the next registration hits no token of it, unless somebody asks again. */
  lemma ClearedMarkHitsNothing(s: State, waiting: seq<Event>, later: seq<Event>, job: string)
    requires Valid(s) && !Requested(waiting, job) && !Requested(later, job)
    ensures var s1 := Step(s, ClearPending(job));
      !Hit(Run(s1, waiting + [Register(job)] + later), Token(job, Run(s1, waiting).next))
  {
    var s1 := Step(s, ClearPending(job));
    StepKeepsValid(s, ClearPending(job));
    Unmarked(s1, waiting, job);
    var s2 := Run(s1, waiting);
    var token := Token(job, s2.next);
    assert waiting + [Register(job)] + later == waiting + ([Register(job)] + later);
    RunSplits(s1, waiting, [Register(job)] + later);
    assert ([Register(job)] + later)[1..] == later;
    assert !Hit(s2, token);
    StepKeepsValid(s2, Register(job));
    RunStaysClean(Step(s2, Register(job)), later, token);
  }

  /** A mark is used up by one registration: later tokens of the job need a request of their own. */
  lemma MarkIsSpent(s: State, es: seq<Event>, job: string, token: Token)
    requires Valid(s) && token.job == job && token.serial > s.next
    requires Hit(Run(Step(s, Register(job)), es), token)
    ensures Requested(es, job)
  {
    var s1 := Step(s, Register(job));
    StepKeepsValid(s, Register(job));
    if !Requested(es, job) { RunStaysClean(s1, es, token); }
  }

  // ---- The objects ----

  class JobCancellationToken {
    const jobId: string
    var cancelled: bool

    constructor (jobId: string)
      ensures this.jobId == jobId && !cancelled
    {
      this.jobId := jobId;
      cancelled := false;
    }

    method Cancel()
      modifies this
      ensures cancelled
    {
      cancelled := true;
    }

    /** Whether the job must stop at this checkpoint. */
    method RaiseIfCancelled() returns (r: Result<()>)
      ensures r.Failure? <==> cancelled
    {
      return if cancelled then Failure else Success(());
    }
  }

  /** Calls with nothing in between: each does its locked section and then its late cancellation. */
  class JobCancellationRegistry {
    var tokens: map<string, JobCancellationToken>
    var pending: set<string>

    ghost function View(): Registry<JobCancellationToken>
      reads this
    {
      Registry(tokens, pending)
    }

    ghost predicate Valid()
      reads this, tokens.Values
    {
      tokens.Keys !! pending && forall job | job in tokens :: tokens[job].jobId == job
    }

    constructor ()
      ensures Valid() && View() == Registry(map[], {})
    {
      tokens, pending := map[], {};
    }

    method Register(jobId: string) returns (token: JobCancellationToken)
      requires Valid()
      modifies this
      ensures Valid() && fresh(token) && token.jobId == jobId
      ensures View() == Enter(old(View()), jobId, token)
      ensures tokens == old(tokens)[jobId := token] && pending == old(pending) - {jobId}
      ensures token.cancelled <==> jobId in old(pending)
    {
      token := new JobCancellationToken(jobId);
      tokens := tokens[jobId := token];
      var shouldCancel := jobId in pending;
      pending := pending - {jobId};
      if shouldCancel { token.Cancel(); }
    }

    method Unregister(jobId: string, token: JobCancellationToken)
      requires Valid()
      modifies this
      ensures Valid() && View() == Leave(old(View()), jobId, token) && pending == old(pending)
      ensures old(jobId in tokens && tokens[jobId] == token) ==>
        jobId !in pending && tokens.Keys == old(tokens).Keys - {jobId}
        && forall job | job in tokens :: tokens[job] == old(tokens)[job]
      ensures !old(jobId in tokens && tokens[jobId] == token) ==> tokens == old(tokens)
    {
      if jobId in tokens && tokens[jobId] == token {
        tokens := tokens - {jobId};
        pending := pending - {jobId};
      }
    }

    method RequestCancel(jobId: string, allowPending: bool) returns (r: bool)
      requires Valid()
      modifies this, if jobId in tokens then {tokens[jobId]} else {}
      ensures Valid() && View() == Mark(old(View()), jobId, allowPending)
      ensures r <==> jobId in old(tokens)
      ensures tokens == old(tokens) && (r ==> tokens[jobId].cancelled)
      ensures pending == if !r && allowPending then old(pending) + {jobId} else old(pending)
    {
      if jobId !in tokens {
        if allowPending { pending := pending + {jobId}; }
        return false;
      }
      tokens[jobId].Cancel();
      return true;
    }

    method ClearPending(jobId: string)
      requires Valid()
      modifies this
      ensures Valid() && View() == Unmark(old(View()), jobId)
      ensures tokens == old(tokens) && pending == old(pending) - {jobId}
    {
      pending := pending - {jobId};
    }
  }
}
