/** The Crossref DOI provider: it turns the lifecycle operations of one
    persistent identifier (register, update, delete, synchronise status) into
    local status changes and calls on the Crossref client.

    Every operation is specified twice over: a pure function (RegisterRun,
    UpdateRun, DeleteRun, SyncRun) gives the result and the new state as a
    function of the old state, and the Provider class's methods, which change
    the record and the client in place, are proved to agree with it. The
    lemmas below state the provider's promises about those functions. */
module CrossrefProvider {
  import opened Pids
  import opened Crossref

  /** One entry of the provider's log: a local mutator, or a remote call
      together with the answer it got. */
  datatype Event = Local(op: LocalOp) | Remote(call: Call, answer: Outcome)

  /** What an operation returns: True, or the client error it re-raises. */
  datatype Result = Success | Raised(error: ClientError)

  /** Everything an operation can observe or change: the record's status,
      the answers the remote service has still to give, and the log. */
  datatype World = World(status: PidStatus, pending: seq<Outcome>, events: seq<Event>)

  /** An operation's result and the state it leaves. */
  datatype Step = Step(result: Result, world: World)

  /** A remote call's answer and the state it leaves. */
  datatype Reply = Reply(answer: Outcome, world: World)

  /** The status a local mutator leaves the record in. */
  function Applied(s: PidStatus, op: LocalOp): (t: PidStatus)
  {
    match op
    case MarkRegistered => Registered
    case MarkDeleted => Deleted
    case SyncTo(t) => t
  }

  /** A local mutator applied to the record and logged. */
  function Mark(w: World, op: LocalOp): (w': World)
  {
    World(Applied(w.status, op), w.pending, w.events + [Local(op)])
  }

  /** A remote call: answered from the script and logged with its answer. */
  function Send(w: World, c: Call): (reply: Reply)
  {
    var a := NextAnswer(w.pending);
    Reply(a, World(w.status, LaterAnswers(w.pending), w.events + [Remote(c, a)]))
  }

  /** The remote calls in a log, in order. */
  function Calls(es: seq<Event>): (cs: seq<Call>)
    ensures |cs| <= |es|
    decreases |es|
  {
    if es == [] then []
    else Calls(es[..|es| - 1]) + (if es[|es| - 1].Remote? then [es[|es| - 1].call] else [])
  }

  /** The local mutators in a log, in order. */
  function Locals(es: seq<Event>): (ops: seq<LocalOp>)
    ensures |ops| <= |es|
    decreases |es|
  {
    if es == [] then []
    else Locals(es[..|es| - 1]) + (if es[|es| - 1].Local? then [es[|es| - 1].op] else [])
  }

  lemma LogAppend(es: seq<Event>, e: Event)
    ensures Calls(es + [e]) == Calls(es) + (if e.Remote? then [e.call] else [])
    ensures Locals(es + [e]) == Locals(es) + (if e.Local? then [e.op] else [])
  {
    assert (es + [e])[..|es|] == es;
  }

  /** The first and the second answer the remote service has in store. */
  function FirstAnswer(w: World): (a: Outcome)
  {
    NextAnswer(w.pending)
  }

  function SecondAnswer(w: World): (a: Outcome)
  {
    NextAnswer(LaterAnswers(w.pending))
  }

  // ---------------------------------------------------------------------
  // The four operations as functions of the state

  /** register(url, doc): mark registered locally, post the metadata, then
      mint the DOI; the first failing call is re-raised. */
  function RegisterRun(w: World, value: string, url: string, doc: Doc): (r: Step)
    ensures r.world.status == Registered
    ensures r.result.Success? <==> FirstAnswer(w) == Ok && SecondAnswer(w) == Ok
    ensures |w.events| + 2 <= |r.world.events| && r.world.events[..|w.events|] == w.events
    ensures r.world.events[|w.events|..|w.events| + 2]
            == [Local(MarkRegistered), Remote(MetadataPost(doc), FirstAnswer(w))]
  {
    var meta := Send(Mark(w, MarkRegistered), MetadataPost(doc));
    if meta.answer.Fail? then Step(Raised(meta.answer.error), meta.world)
    else
      var mint := Send(meta.world, DoiPost(value, url));
      if mint.answer.Fail? then Step(Raised(mint.answer.error), mint.world)
      else Step(Success, mint.world)
  }

  /** update(url, doc): post the metadata, mint the DOI, and reactivate a
      deleted record once both calls have succeeded. */
  function UpdateRun(w: World, value: string, url: string, doc: Doc): (r: Step)
    ensures r.result.Success? <==> FirstAnswer(w) == Ok && SecondAnswer(w) == Ok
    ensures r.world.status == if w.status == Deleted && r.result.Success? then Registered else w.status
    ensures |w.events| + 1 <= |r.world.events| && r.world.events[..|w.events|] == w.events
  {
    var meta := Send(w, MetadataPost(doc));
    if meta.answer.Fail? then Step(Raised(meta.answer.error), meta.world)
    else
      var mint := Send(meta.world, DoiPost(value, url));
      if mint.answer.Fail? then Step(Raised(mint.answer.error), mint.world)
      else if mint.world.status == Deleted then Step(Success, Mark(mint.world, SyncTo(Registered)))
      else Step(Success, mint.world)
  }

  /** delete(): a new record is deleted locally only; any other is deleted
      locally and then its metadata is deleted remotely. */
  function DeleteRun(w: World, value: string): (r: Step)
    ensures r.world.status == Deleted
    ensures w.status == New ==> r.result == Success && r.world.pending == w.pending
    ensures r.result.Raised? ==> FirstAnswer(w).Fail? && r.result.error == FirstAnswer(w).error
    ensures |w.events| + 1 <= |r.world.events| && r.world.events[..|w.events|] == w.events
  {
    if w.status == New then Step(Success, Mark(w, MarkDeleted))
    else
      var del := Send(Mark(w, MarkDeleted), MetadataDelete(value));
      if del.answer.Fail? then Step(Raised(del.answer.error), del.world)
      else Step(Success, del.world)
  }

  /** What one probe's answer says: a status, nothing yet, or an error that
      aborts the synchronisation. */
  datatype Verdict = Conclusive(status: PidStatus) | Inconclusive | Abort(error: ClientError)

  /** An error other than the three distinguished conditions. */
  predicate IsHardError(o: Outcome)
  {
    o == Fail(CrossrefError) || o == Fail(HttpError)
  }

  /** The identifier probe (doi_get). */
  function DoiVerdict(o: Outcome): (v: Verdict)
    ensures v.Inconclusive? <==> o == Fail(NotFoundError)
    ensures v.Abort? <==> IsHardError(o)
    ensures v.Abort? ==> v.error == o.error
    ensures v.Conclusive? ==> v.status == Registered || v.status == Deleted
  {
    match o
    case Ok => Conclusive(Registered)
    case Fail(GoneError) => Conclusive(Deleted)
    case Fail(NoContentError) => Conclusive(Registered)
    case Fail(NotFoundError) => Inconclusive
    case Fail(e) => Abort(e)
  }

  /** The metadata probe (metadata_get). */
  function MetadataVerdict(o: Outcome): (v: Verdict)
    ensures v.Inconclusive? <==> o == Fail(NotFoundError)
    ensures v.Abort? <==> IsHardError(o)
    ensures v.Abort? ==> v.error == o.error
    ensures v.Conclusive? ==> v.status != New
    ensures v == Conclusive(Reserved) <==> o == Ok
  {
    match o
    case Ok => Conclusive(Reserved)
    case Fail(GoneError) => Conclusive(Deleted)
    case Fail(NoContentError) => Conclusive(Registered)
    case Fail(NotFoundError) => Inconclusive
    case Fail(e) => Abort(e)
  }

  /** The status inference as a pure rule over the two probe answers: the
      identifier probe decides when it can, the metadata probe otherwise,
      and New is the default. It never leaves the question open. */
  function Decide(first: Outcome, second: Outcome): (v: Verdict)
    ensures !v.Inconclusive?
  {
    match DoiVerdict(first)
    case Inconclusive =>
      (match MetadataVerdict(second)
       case Inconclusive => Conclusive(New)
       case other => other)
    case other => other
  }

  /** sync_status(): probe the identifier, then, only if that says nothing,
      the metadata; write the inferred status once, or re-raise. */
  function SyncRun(w: World, value: string): (r: Step)
    ensures r.result.Raised? ==> r.world.status == w.status && IsHardError(Fail(r.result.error))
    ensures r.world.pending == LaterAnswers(w.pending)
            || r.world.pending == LaterAnswers(LaterAnswers(w.pending))
    ensures |w.events| + 1 <= |r.world.events| && r.world.events[..|w.events|] == w.events
  {
    var doi := Send(w, DoiGet(value));
    match DoiVerdict(doi.answer)
    case Abort(e) => Step(Raised(e), doi.world)
    case Conclusive(s) => Step(Success, Mark(doi.world, SyncTo(s)))
    case Inconclusive =>
      var meta := Send(doi.world, MetadataGet(value));
      match MetadataVerdict(meta.answer)
      case Abort(e) => Step(Raised(e), meta.world)
      case Conclusive(s) => Step(Success, Mark(meta.world, SyncTo(s)))
      case Inconclusive => Step(Success, Mark(meta.world, SyncTo(New)))
  }

  /** The probes sync_status makes, with their answers. */
  function Probes(w: World, value: string): (probes: seq<Event>)
  {
    [Remote(DoiGet(value), FirstAnswer(w))]
    + (if DoiVerdict(FirstAnswer(w)).Inconclusive? then [Remote(MetadataGet(value), SecondAnswer(w))] else [])
  }

  // ---------------------------------------------------------------------
  // The status inference

  /** A conclusive identifier probe decides alone, whatever the metadata
      probe would have said. */
  lemma DecideByIdentifierProbe(first: Outcome, second: Outcome)
    requires !DoiVerdict(first).Inconclusive?
    ensures Decide(first, second) == DoiVerdict(first)
    ensures first == Ok || first == Fail(NoContentError) ==> Decide(first, second) == Conclusive(Registered)
    ensures first == Fail(GoneError) ==> Decide(first, second) == Conclusive(Deleted)
  {
  }

  /** After a not-found identifier probe the metadata probe decides. */
  lemma DecideAfterNotFound(second: Outcome)
    ensures second == Ok ==> Decide(Fail(NotFoundError), second) == Conclusive(Reserved)
    ensures second == Fail(GoneError) ==> Decide(Fail(NotFoundError), second) == Conclusive(Deleted)
    ensures second == Fail(NoContentError) ==> Decide(Fail(NotFoundError), second) == Conclusive(Registered)
    ensures second == Fail(NotFoundError) ==> Decide(Fail(NotFoundError), second) == Conclusive(New)
  {
  }

  /** New is inferred exactly when both probes report not found. */
  lemma DecideNewIff(first: Outcome, second: Outcome)
    ensures Decide(first, second) == Conclusive(New)
        <==> first == Fail(NotFoundError) && second == Fail(NotFoundError)
  {
  }

  /** Reserved is inferred exactly when the identifier is not found and the
      metadata is. */
  lemma DecideReservedIff(first: Outcome, second: Outcome)
    ensures Decide(first, second) == Conclusive(Reserved)
        <==> first == Fail(NotFoundError) && second == Ok
  {
  }

  /** The inference aborts exactly when a probe that is made raises an error
      other than the three distinguished conditions, and then with that error. */
  lemma DecideAbortIff(first: Outcome, second: Outcome)
    ensures Decide(first, second).Abort?
        <==> IsHardError(first) || (first == Fail(NotFoundError) && IsHardError(second))
    ensures IsHardError(first) ==> Decide(first, second) == Abort(first.error)
    ensures first == Fail(NotFoundError) && IsHardError(second) ==> Decide(first, second) == Abort(second.error)
  {
  }

  // ---------------------------------------------------------------------
  // The operations' promises

  /** sync_status follows the inference: on a conclusion it probes, writes
      that status once through the synchronisation mutator, and succeeds; on
      an abort it re-raises after the probes, writes nothing and leaves the
      status as it was. The metadata is probed only after an inconclusive
      identifier probe. */
  lemma SyncFollowsDecide(w: World, value: string)
    ensures var r := SyncRun(w, value);
      match Decide(FirstAnswer(w), SecondAnswer(w))
      case Conclusive(s) =>
        r.result == Success && r.world.status == s
        && r.world.events == w.events + Probes(w, value) + [Local(SyncTo(s))]
      case Abort(e) =>
        r.result == Raised(e) && r.world.status == w.status
        && r.world.events == w.events + Probes(w, value)
      case Inconclusive => false
  {
  }

  /** A successful or no-content identifier probe gives Registered and a
      gone one gives Deleted; the metadata is not probed. */
  lemma SyncIdentifierConclusive(w: World, value: string)
    requires !DoiVerdict(FirstAnswer(w)).Inconclusive? && !DoiVerdict(FirstAnswer(w)).Abort?
    ensures var r := SyncRun(w, value);
      var s := if FirstAnswer(w) == Fail(GoneError) then Deleted else Registered;
      r == Step(Success, World(s, LaterAnswers(w.pending),
                               w.events + [Remote(DoiGet(value), FirstAnswer(w)), Local(SyncTo(s))]))
  {
  }

  /** After a not-found identifier probe the metadata probe is made and its
      answer decides: found gives Reserved, gone Deleted, no content
      Registered, not found New. */
  lemma SyncAfterNotFound(w: World, value: string)
    requires FirstAnswer(w) == Fail(NotFoundError)
    ensures var r := SyncRun(w, value);
      var probes := [Remote(DoiGet(value), Fail(NotFoundError)), Remote(MetadataGet(value), SecondAnswer(w))];
      match SecondAnswer(w)
      case Ok => r.result == Success && r.world.status == Reserved
                 && r.world.events == w.events + probes + [Local(SyncTo(Reserved))]
      case Fail(GoneError) => r.result == Success && r.world.status == Deleted
                 && r.world.events == w.events + probes + [Local(SyncTo(Deleted))]
      case Fail(NoContentError) => r.result == Success && r.world.status == Registered
                 && r.world.events == w.events + probes + [Local(SyncTo(Registered))]
      case Fail(NotFoundError) => r.result == Success && r.world.status == New
                 && r.world.events == w.events + probes + [Local(SyncTo(New))]
      case Fail(e) => (r.result == Raised(e) && r.world.status == w.status
                 && r.world.events == w.events + probes)
  {
  }

  /** sync_status succeeds leaving New exactly when both probes report not
      found. */
  lemma SyncNewIff(w: World, value: string)
    ensures var r := SyncRun(w, value);
      (r.result.Success? && r.world.status == New)
      <==> FirstAnswer(w) == Fail(NotFoundError) && SecondAnswer(w) == Fail(NotFoundError)
  {
  }

  /** register marks the record registered before any remote call, posts
      the metadata, and mints the DOI only if that succeeded. The record
      stays registered whatever the service answers. */
  lemma RegisterOrder(w: World, value: string, url: string, doc: Doc)
    ensures var r := RegisterRun(w, value, url, doc);
      var a1, a2 := FirstAnswer(w), SecondAnswer(w);
      r.world.status == Registered
      && r.world.events == w.events + [Local(MarkRegistered), Remote(MetadataPost(doc), a1)]
                           + (if a1.Ok? then [Remote(DoiPost(value, url), a2)] else [])
      && r.result == (if a1.Fail? then Raised(a1.error) else if a2.Fail? then Raised(a2.error) else Success)
  {
  }

  /** update always posts the metadata first and mints only after that
      succeeded; it reactivates a deleted record exactly when both calls
      succeeded, and otherwise leaves the status alone. */
  lemma UpdateReactivates(w: World, value: string, url: string, doc: Doc)
    ensures var r := UpdateRun(w, value, url, doc);
      var a1, a2 := FirstAnswer(w), SecondAnswer(w);
      var calls := [Remote(MetadataPost(doc), a1)] + (if a1.Ok? then [Remote(DoiPost(value, url), a2)] else []);
      var both := a1 == Ok && a2 == Ok;
      r.result == (if a1.Fail? then Raised(a1.error) else if a2.Fail? then Raised(a2.error) else Success)
      && r.world.status == (if w.status == Deleted && both then Registered else w.status)
      && r.world.events == w.events + calls + (if w.status == Deleted && both then [Local(SyncTo(Registered))] else [])
  {
  }

  /** delete on a new record is local only: no remote call, the script is
      untouched. On any other record the local deletion comes first, then
      exactly one metadata deletion for the identifier's value. */
  lemma DeleteLocalOrRemote(w: World, value: string)
    ensures var r := DeleteRun(w, value);
      r.world.status == Deleted
      && (w.status == New ==>
            r.result == Success && r.world.pending == w.pending
            && r.world.events == w.events + [Local(MarkDeleted)])
      && (w.status != New ==>
            r.result == (if FirstAnswer(w).Fail? then Raised(FirstAnswer(w).error) else Success)
            && r.world.pending == LaterAnswers(w.pending)
            && r.world.events == w.events + [Local(MarkDeleted), Remote(MetadataDelete(value), FirstAnswer(w))])
  {
  }

  // ---------------------------------------------------------------------
  // The provider object

  class Provider {
    const pid: Pid
    const api: Client
    /** The log of local mutators and remote calls, in the order made. */
    ghost var events: seq<Event>
    /** The calls the client had received before this provider was made. */
    ghost const prior: seq<Call>
    /** The mutators called on the record before this provider was made. */
    ghost const priorOps: seq<LocalOp>

    /** The client has received exactly the remote calls of the log, and
        the record has undergone exactly the local mutators of the log, in
        order and with the logged arguments, after those from before. */
    ghost predicate Valid()
      reads this, pid, api
    {
      && api.received == prior + Calls(events)
      && pid.applied == priorOps + Locals(events)
    }

    ghost function State(): (w: World)
      reads this, pid, api
    {
      World(pid.status, api.pending, events)
    }

    constructor (pid: Pid, api: Client)
      ensures this.pid == pid && this.api == api && events == []
      ensures prior == api.received && priorOps == pid.applied && Valid()
    {
      this.pid := pid;
      this.api := api;
      events := [];
      prior := api.received;
      priorOps := pid.applied;
    }

    /** Passes one call to the client operation of the same name. */
    method Dispatch(c: Call) returns (o: Outcome)
      modifies api
      ensures api.received == old(api.received) + [c]
      ensures o == NextAnswer(old(api.pending)) && api.pending == LaterAnswers(old(api.pending))
    {
      match c {
        case MetadataPost(doc) => o := api.MetadataPost(doc);
        case DoiPost(value, url) => o := api.DoiPost(value, url);
        case DoiGet(value) => o := api.DoiGet(value);
        case MetadataGet(value) => o := api.MetadataGet(value);
        case MetadataDelete(value) => o := api.MetadataDelete(value);
      }
    }

    /** Issues one remote call through the client and logs it. */
    method Invoke(c: Call) returns (o: Outcome)
      requires Valid()
      modifies this, api
      ensures Valid() && pid.applied == old(pid.applied)
      ensures api.received == old(api.received) + [c]
      ensures Reply(o, State()) == Send(old(State()), c)
    {
      o := Dispatch(c);
      LogAppend(events, Remote(c, o));
      events := events + [Remote(c, o)];
    }

    /** Logs the local mutator just called on the record: the record's
        mutators are those of the log followed by op. */
    ghost method Note(op: LocalOp)
      requires api.received == prior + Calls(events)
      requires pid.applied == priorOps + Locals(events) + [op]
      modifies this
      ensures Valid() && events == old(events) + [Local(op)]
    {
      LogAppend(events, Local(op));
      events := events + [Local(op)];
    }

    method Register(url: string, doc: Doc) returns (r: Result)
      requires Valid()
      modifies this, pid, api
      ensures Valid()
      ensures Step(r, State()) == RegisterRun(old(State()), pid.value, url, doc)
    {
      pid.Register();
      Note(MarkRegistered);
      var o := Invoke(MetadataPost(doc));
      if o.Fail? {
        return Raised(o.error);
      }
      o := Invoke(DoiPost(pid.value, url));
      if o.Fail? {
        return Raised(o.error);
      }
      return Success;
    }

    method Update(url: string, doc: Doc) returns (r: Result)
      requires Valid()
      modifies this, pid, api
      ensures Valid()
      ensures Step(r, State()) == UpdateRun(old(State()), pid.value, url, doc)
    {
      var o := Invoke(MetadataPost(doc));
      if o.Fail? {
        return Raised(o.error);
      }
      o := Invoke(DoiPost(pid.value, url));
      if o.Fail? {
        return Raised(o.error);
      }
      if pid.IsDeleted() {
        pid.SyncStatus(Registered);
        Note(SyncTo(Registered));
      }
      return Success;
    }

    method Delete() returns (r: Result)
      requires Valid()
      modifies this, pid, api
      ensures Valid()
      ensures Step(r, State()) == DeleteRun(old(State()), pid.value)
    {
      if pid.IsNew() {
        pid.Delete();
        Note(MarkDeleted);
      } else {
        pid.Delete();
        Note(MarkDeleted);
        var o := Invoke(MetadataDelete(pid.value));
        if o.Fail? {
          return Raised(o.error);
        }
      }
      return Success;
    }

    method SyncStatus() returns (r: Result)
      requires Valid()
      modifies this, pid, api
      ensures Valid()
      ensures Step(r, State()) == SyncRun(old(State()), pid.value)
    {
      var status: PidStatus;
      var decided := false;
      var o := Invoke(DoiGet(pid.value));
      match o {
        case Ok => status, decided := Registered, true;
        case Fail(GoneError) => status, decided := Deleted, true;
        case Fail(NoContentError) => status, decided := Registered, true;
        case Fail(NotFoundError) =>
        case Fail(e) => return Raised(e);
      }
      if !decided {
        o := Invoke(MetadataGet(pid.value));
        match o {
          case Ok => status, decided := Reserved, true;
          case Fail(GoneError) => status, decided := Deleted, true;
          case Fail(NoContentError) => status, decided := Registered, true;
          case Fail(NotFoundError) =>
          case Fail(e) => return Raised(e);
        }
      }
      if !decided {
        status := New;
      }
      pid.SyncStatus(status);
      Note(SyncTo(status));
      return Success;
    }
  }
}
