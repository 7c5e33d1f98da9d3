/** Properties of the provider over any sequence of operations on one
    identifier: the log always obeys the provider's call discipline, and the
    record's status is always what the logged local mutators make of the
    initial status. */
module Lifecycle {
  import opened Pids
  import opened Crossref
  import opened CrossrefProvider

  /** One provider operation, as a caller issues it. */
  datatype Op = RegisterOp(url: string, doc: Doc) | UpdateOp(url: string, doc: Doc) | DeleteOp | SyncOp

  function Apply(w: World, value: string, op: Op): (r: Step)
  {
    match op
    case RegisterOp(url, doc) => RegisterRun(w, value, url, doc)
    case UpdateOp(url, doc) => UpdateRun(w, value, url, doc)
    case DeleteOp => DeleteRun(w, value)
    case SyncOp => SyncRun(w, value)
  }

  /** The state after the operations, made one after the other. A raised
      error does not stop the caller from issuing the next one. */
  function RunAll(w: World, value: string, ops: seq<Op>): (w': World)
    decreases |ops|
  {
    if ops == [] then w else RunAll(Apply(w, value, ops[0]).world, value, ops[1..])
  }

  // ---------------------------------------------------------------------
  // The call discipline

  /** Every call that takes an identifier is made with this one. */
  predicate Names(e: Event, value: string)
  {
    match e
    case Remote(DoiPost(v, _), _) => v == value
    case Remote(DoiGet(v), _) => v == value
    case Remote(MetadataGet(v), _) => v == value
    case Remote(MetadataDelete(v), _) => v == value
    case _ => true
  }

  /** The events an operation may begin with. */
  predicate Opens(e: Event)
  {
    e == Local(MarkRegistered) || e == Local(MarkDeleted)
    || (e.Remote? && (e.call.MetadataPost? || e.call.DoiGet?))
  }

  /** The probe answer or remote success that licenses writing status s. */
  predicate Justifies(prev: Event, s: PidStatus)
  {
    match prev
    case Remote(DoiGet(_), a) => DoiVerdict(a) == Conclusive(s)
    case Remote(MetadataGet(_), a) => MetadataVerdict(a) == Conclusive(s) || (a == Fail(NotFoundError) && s == New)
    case Remote(DoiPost(_, _), a) => a == Ok && s == Registered
    case _ => false
  }

  /** Whether event e may come straight after prev: a DOI is minted only
      right after a successful metadata post, the metadata is probed only
      right after a not-found identifier probe, the metadata is deleted only
      right after the local deletion, and a status is synchronised only
      right after the answer that licenses it. */
  predicate Follows(prev: Event, e: Event)
  {
    match e
    case Remote(DoiPost(_, _), _) => prev.Remote? && prev.call.MetadataPost? && prev.answer == Ok
    case Remote(MetadataGet(v), _) => prev == Remote(DoiGet(v), Fail(NotFoundError))
    case Remote(MetadataDelete(_), _) => prev == Local(MarkDeleted)
    case Local(SyncTo(s)) => Justifies(prev, s)
    case _ => false
  }

  predicate Protocol(es: seq<Event>, value: string)
  {
    && (forall i :: 0 <= i < |es| ==> Names(es[i], value))
    && (forall i :: 0 <= i < |es| && !Opens(es[i]) ==> 0 < i && Follows(es[i - 1], es[i]))
  }

  lemma Extend(es: seq<Event>, e: Event, value: string)
    requires Protocol(es, value) && Names(e, value)
    requires Opens(e) || (es != [] && Follows(es[|es| - 1], e))
    ensures Protocol(es + [e], value)
  {
  }

  lemma ApplyKeepsProtocol(w: World, value: string, op: Op)
    requires Protocol(w.events, value)
    ensures Protocol(Apply(w, value, op).world.events, value)
  {
    match op
    case RegisterOp(url, doc) =>
      var marked := Mark(w, MarkRegistered);
      Extend(w.events, Local(MarkRegistered), value);
      var meta := Send(marked, MetadataPost(doc));
      Extend(marked.events, Remote(MetadataPost(doc), meta.answer), value);
      if meta.answer.Ok? {
        Extend(meta.world.events, Remote(DoiPost(value, url), Send(meta.world, DoiPost(value, url)).answer), value);
      }
    case UpdateOp(url, doc) =>
      var meta := Send(w, MetadataPost(doc));
      Extend(w.events, Remote(MetadataPost(doc), meta.answer), value);
      if meta.answer.Ok? {
        var mint := Send(meta.world, DoiPost(value, url));
        Extend(meta.world.events, Remote(DoiPost(value, url), mint.answer), value);
        if mint.answer.Ok? && mint.world.status == Deleted {
          Extend(mint.world.events, Local(SyncTo(Registered)), value);
        }
      }
    case DeleteOp =>
      var deleted := Mark(w, MarkDeleted);
      Extend(w.events, Local(MarkDeleted), value);
      if w.status != New {
        Extend(deleted.events, Remote(MetadataDelete(value), Send(deleted, MetadataDelete(value)).answer), value);
      }
    case SyncOp =>
      var doi := Send(w, DoiGet(value));
      Extend(w.events, Remote(DoiGet(value), doi.answer), value);
      match DoiVerdict(doi.answer)
      case Abort(_) =>
      case Conclusive(s) =>
        Extend(doi.world.events, Local(SyncTo(s)), value);
      case Inconclusive =>
        var meta := Send(doi.world, MetadataGet(value));
        Extend(doi.world.events, Remote(MetadataGet(value), meta.answer), value);
        match MetadataVerdict(meta.answer)
        case Abort(_) =>
        case Conclusive(s) =>
          Extend(meta.world.events, Local(SyncTo(s)), value);
        case Inconclusive =>
          Extend(meta.world.events, Local(SyncTo(New)), value);
  }

  lemma {:induction false} RunKeepsProtocol(w: World, value: string, ops: seq<Op>)
    requires Protocol(w.events, value)
    ensures Protocol(RunAll(w, value, ops).events, value)
    decreases |ops|
  {
    if ops != [] {
      ApplyKeepsProtocol(w, value, ops[0]);
      RunKeepsProtocol(Apply(w, value, ops[0]).world, value, ops[1..]);
    }
  }

  /** In a log that obeys the discipline, New is written only right after
      two not-found probes, in order. */
  lemma NewOnlyAfterTwoNotFound(es: seq<Event>, value: string, i: int)
    requires Protocol(es, value) && 0 <= i < |es| && es[i] == Local(SyncTo(New))
    ensures 2 <= i
    ensures es[i - 1] == Remote(MetadataGet(value), Fail(NotFoundError))
    ensures es[i - 2] == Remote(DoiGet(value), Fail(NotFoundError))
  {
    assert !Opens(es[i]);
    assert Names(es[i - 1], value);
    assert !Opens(es[i - 1]);
  }

  /** In a log that obeys the discipline, Reserved is written only right
      after a not-found identifier probe and a successful metadata probe. */
  lemma ReservedOnlyAfterMetadataHit(es: seq<Event>, value: string, i: int)
    requires Protocol(es, value) && 0 <= i < |es| && es[i] == Local(SyncTo(Reserved))
    ensures 2 <= i
    ensures es[i - 1] == Remote(MetadataGet(value), Ok)
    ensures es[i - 2] == Remote(DoiGet(value), Fail(NotFoundError))
  {
    assert !Opens(es[i]);
    assert Names(es[i - 1], value);
    assert !Opens(es[i - 1]);
  }

  /** In a log that obeys the discipline, every DOI mint comes right after
      a successful metadata post, and every remote deletion right after
      the local one. */
  lemma MintAndRemoteDeleteOrder(es: seq<Event>, value: string, i: int)
    requires Protocol(es, value) && 0 <= i < |es| && es[i].Remote?
    ensures es[i].call.DoiPost? ==>
      0 < i && es[i - 1].Remote? && es[i - 1].call == MetadataPost(es[i - 1].call.doc) && es[i - 1].answer == Ok
    ensures es[i].call.MetadataDelete? ==> 0 < i && es[i - 1] == Local(MarkDeleted)
  {
  }

  // ---------------------------------------------------------------------
  // The record's status

  /** The status that the logged local mutators make of the status s. */
  function Replay(s: PidStatus, es: seq<Event>): (t: PidStatus)
    decreases |es|
  {
    if es == [] then s
    else
      var before := Replay(s, es[..|es| - 1]);
      var last := es[|es| - 1];
      if last.Local? then Applied(before, last.op) else before
  }

  /** The record's status is what the log makes of the initial status. */
  predicate Tracks(init: PidStatus, w: World)
  {
    w.status == Replay(init, w.events)
  }

  lemma MarkTracks(init: PidStatus, w: World, op: LocalOp)
    requires Tracks(init, w)
    ensures Tracks(init, Mark(w, op))
  {
  }

  lemma SendTracks(init: PidStatus, w: World, c: Call)
    requires Tracks(init, w)
    ensures Tracks(init, Send(w, c).world)
  {
  }

  lemma ApplyTracks(init: PidStatus, w: World, value: string, op: Op)
    requires Tracks(init, w)
    ensures Tracks(init, Apply(w, value, op).world)
  {
    match op
    case RegisterOp(url, doc) =>
      var marked := Mark(w, MarkRegistered);
      MarkTracks(init, w, MarkRegistered);
      var meta := Send(marked, MetadataPost(doc));
      SendTracks(init, marked, MetadataPost(doc));
      SendTracks(init, meta.world, DoiPost(value, url));
    case UpdateOp(url, doc) =>
      var meta := Send(w, MetadataPost(doc));
      SendTracks(init, w, MetadataPost(doc));
      var mint := Send(meta.world, DoiPost(value, url));
      SendTracks(init, meta.world, DoiPost(value, url));
      MarkTracks(init, mint.world, SyncTo(Registered));
    case DeleteOp =>
      var deleted := Mark(w, MarkDeleted);
      MarkTracks(init, w, MarkDeleted);
      SendTracks(init, deleted, MetadataDelete(value));
    case SyncOp =>
      var doi := Send(w, DoiGet(value));
      SendTracks(init, w, DoiGet(value));
      var meta := Send(doi.world, MetadataGet(value));
      SendTracks(init, doi.world, MetadataGet(value));
      if DoiVerdict(doi.answer).Conclusive? {
        MarkTracks(init, doi.world, SyncTo(DoiVerdict(doi.answer).status));
      }
      if MetadataVerdict(meta.answer).Conclusive? {
        MarkTracks(init, meta.world, SyncTo(MetadataVerdict(meta.answer).status));
      }
      MarkTracks(init, meta.world, SyncTo(New));
  }

  lemma {:induction false} RunTracks(init: PidStatus, w: World, value: string, ops: seq<Op>)
    requires Tracks(init, w)
    ensures Tracks(init, RunAll(w, value, ops))
    decreases |ops|
  {
    if ops != [] {
      ApplyTracks(init, w, value, ops[0]);
      RunTracks(init, Apply(w, value, ops[0]).world, value, ops[1..]);
    }
  }

  /** The position of the last local mutator in a log, or -1 if there is none. */
  function LastLocal(es: seq<Event>): (i: int)
    ensures -1 <= i < |es|
    ensures 0 <= i ==> es[i].Local?
    ensures forall j :: i < j < |es| ==> es[j].Remote?
    decreases |es|
  {
    if es == [] then -1
    else if es[|es| - 1].Local? then |es| - 1
    else LastLocal(es[..|es| - 1])
  }

  /** Replaying a log leaves the status the last local mutator set, or the
      initial one when there is none. */
  lemma {:induction false} ReplayIsLastLocal(s: PidStatus, es: seq<Event>)
    ensures var i := LastLocal(es);
      Replay(s, es) == if i < 0 then s else Applied(s, es[i].op)
    decreases |es|
  {
    if es != [] && !es[|es| - 1].Local? {
      var before := es[..|es| - 1];
      ReplayIsLastLocal(s, before);
      var i := LastLocal(before);
      assert 0 <= i ==> before[i] == es[i];
    }
  }

  /** In a disciplined log, a status Reserved or New that replaying makes
      of a different initial status was written last, by the
      synchronisation mutator, right after the two probes for this
      identifier answered not found and then found (for Reserved) or not
      found twice (for New). */
  lemma LogProvenance(s: PidStatus, es: seq<Event>, value: string)
    requires Protocol(es, value) && Replay(s, es) != s
    ensures var i := LastLocal(es);
      (Replay(s, es) == Reserved ==>
         2 <= i && es[i] == Local(SyncTo(Reserved))
         && es[i - 1] == Remote(MetadataGet(value), Ok)
         && es[i - 2] == Remote(DoiGet(value), Fail(NotFoundError)))
      && (Replay(s, es) == New ==>
         2 <= i && es[i] == Local(SyncTo(New))
         && es[i - 1] == Remote(MetadataGet(value), Fail(NotFoundError))
         && es[i - 2] == Remote(DoiGet(value), Fail(NotFoundError)))
  {
    ReplayIsLastLocal(s, es);
    var i := LastLocal(es);
    if Replay(s, es) == Reserved {
      ReservedOnlyAfterMetadataHit(es, value, i);
    } else if Replay(s, es) == New {
      NewOnlyAfterTwoNotFound(es, value, i);
    }
  }

  /** From a fresh provider, a status Reserved or New that the record did
      not start with can only come from status synchronisation, as
      LogProvenance describes. */
  lemma StatusProvenance(s: PidStatus, script: seq<Outcome>, value: string, ops: seq<Op>)
    requires RunAll(World(s, script, []), value, ops).status != s
    ensures var w := RunAll(World(s, script, []), value, ops);
      var i := LastLocal(w.events);
      (w.status == Reserved ==>
         2 <= i && w.events[i] == Local(SyncTo(Reserved))
         && w.events[i - 1] == Remote(MetadataGet(value), Ok)
         && w.events[i - 2] == Remote(DoiGet(value), Fail(NotFoundError)))
      && (w.status == New ==>
         2 <= i && w.events[i] == Local(SyncTo(New))
         && w.events[i - 1] == Remote(MetadataGet(value), Fail(NotFoundError))
         && w.events[i - 2] == Remote(DoiGet(value), Fail(NotFoundError)))
  {
    var w := RunAll(World(s, script, []), value, ops);
    Lifetime(s, script, value, ops);
    LogProvenance(s, w.events, value);
  }

  /** From a fresh provider (empty log), any sequence of operations leaves a
      log that obeys the call discipline and a status that the logged local
      mutators account for: no remote answer changes the status except
      through a logged mutator. */
  lemma Lifetime(s: PidStatus, script: seq<Outcome>, value: string, ops: seq<Op>)
    ensures var w := RunAll(World(s, script, []), value, ops);
      Protocol(w.events, value) && w.status == Replay(s, w.events)
  {
    RunKeepsProtocol(World(s, script, []), value, ops);
    RunTracks(s, World(s, script, []), value, ops);
  }
}
