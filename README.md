# Crossref DOI provider — verified model

This project models the Crossref provider of invenio-pidstore: the adapter
that turns the lifecycle operations of one persistent identifier (a DOI) —
register, update, delete and status synchronisation — into local status
changes on the identifier record and calls on a Crossref client, and that
infers the identifier's status from which error the client's two probes
raise.

Layout:

- `pid.dfy`, module `Pids`: the status enumeration and the record class
  (`Pid`) with its value, its status, the three mutators the provider
  calls and a ghost list of the mutator calls made on it.
- `client.dfy`, module `Crossref`: the client's errors, an `Outcome` per
  call (a normal return or a raised error), the five calls, and a `Client`
  class that answers each call from a script of outcomes.
- `provider.dfy`, module `CrossrefProvider`: the provider. Each operation is
  a pure function of the state (`RegisterRun`, `UpdateRun`, `DeleteRun`,
  `SyncRun`), and the `Provider` class's methods, which change the record and
  the client in place and keep a ghost log of every local mutator and remote
  call, are proved equal to those functions. Their invariant `Valid` ties the
  log to both collaborators. The client has received exactly the logged
  remote calls, and the record has undergone exactly the logged mutator
  calls, in order and with the logged arguments. The probe-to-status rule is the
  pure function `Decide`; lemmas state each operation's promises.
- `lifecycle.dfy`, module `Lifecycle`: any sequence of operations. The log
  is shown to obey the provider's call discipline (`Protocol`), by induction.
  The status is always what the logged local mutators make of the initial
  status (`Replay`). That second fact is bookkeeping: it holds of any state
  built from logged mutators and calls. Combined with the discipline, it
  gives `StatusProvenance`. From a fresh provider, a final `Reserved` or
  `New` that the record did not start with was written last by the
  synchronisation mutator, right after the two probes that license it.

Modelling choices:

- A raised exception is an `Outcome` of `Fail(error)`. An operation returns
  `Success` (the source's `True`) or `Raised(error)`, the error it re-raises.
- `CrossrefError` stands for every client error other than the three
  distinguished conditions (gone, no content, not found). `HttpError` is a
  transport failure.
- The remote service is a script of answers, one consumed per call. An
  exhausted script answers every further call normally.
- The record's mutators are plain status assignments.
- `register` marks the record registered before either remote call, so a
  failed registration leaves the record `Registered` (`RegisterOrder`). The
  model keeps that order.

## Model

| member | source | states |
|---|---|---|
| `CrossrefProvider.Provider.Register` | invenio_pidstore/providers/crossref.py:91-108 | the method's result and the new status, script and log equal `RegisterRun` of the old state, the client has received exactly the logged remote calls, and the record has undergone exactly the logged mutator calls |
| `CrossrefProvider.Provider.Update` | invenio_pidstore/providers/crossref.py:110-132 | the method's result and new state equal `UpdateRun` of the old state, the client has received exactly the logged remote calls, and the record has undergone exactly the logged mutator calls |
| `CrossrefProvider.Provider.Delete` | invenio_pidstore/providers/crossref.py:134-152 | the method's result and new state equal `DeleteRun` of the old state, the client has received exactly the logged remote calls, and the record has undergone exactly the logged mutator calls |
| `CrossrefProvider.Provider.SyncStatus` | invenio_pidstore/providers/crossref.py:154-196 | the method's result and new state equal `SyncRun` of the old state (so on success `pid.sync_status` is called exactly once, last, and on an abort never), the client has received exactly the logged remote calls, and the record has undergone exactly the logged mutator calls |
| `CrossrefProvider.Provider.Invoke` | invenio_pidstore/providers/crossref.py:101-174 | carries every remote call (lines 101, 103, 123, 124, 147, 163, 174): the client receives exactly that call, with its arguments, the call consumes the next scripted answer, and the call is logged with that answer; the client's received calls stay equal to the logged ones |
| `CrossrefProvider.Decide` | invenio_pidstore/providers/crossref.py:159-189 | the inference always reaches a status or an abort, never an open question |
| `CrossrefProvider.DecideByIdentifierProbe` | invenio_pidstore/providers/crossref.py:161-172 | a conclusive identifier probe decides alone (success or no content gives Registered, gone gives Deleted), whatever the metadata probe would say |
| `CrossrefProvider.DecideAfterNotFound` | invenio_pidstore/providers/crossref.py:169-189 | after a not-found identifier probe the metadata probe decides: found Reserved, gone Deleted, no content Registered, not found New |
| `CrossrefProvider.DecideNewIff` | invenio_pidstore/providers/crossref.py:169-189 | New is inferred if and only if both probes report not found |
| `CrossrefProvider.DecideReservedIff` | invenio_pidstore/providers/crossref.py:169-175 | Reserved is inferred if and only if the identifier is not found and the metadata is found |
| `CrossrefProvider.DecideAbortIff` | invenio_pidstore/providers/crossref.py:182-186 | the inference aborts if and only if a probe that is made raises a non-distinguished error, and then with that very error |
| `CrossrefProvider.SyncFollowsDecide` | invenio_pidstore/providers/crossref.py:159-196 | sync_status makes exactly the probes the rule needs (the metadata probe only after a not-found identifier probe); on a conclusion it writes that status exactly once, last, and succeeds; on an abort it re-raises, writes nothing and leaves the status unchanged |
| `CrossrefProvider.SyncIdentifierConclusive` | invenio_pidstore/providers/crossref.py:161-172 | a successful, no-content or gone identifier probe yields Registered, Registered or Deleted with the log holding only that probe and the one write; metadata_get is never called |
| `CrossrefProvider.SyncAfterNotFound` | invenio_pidstore/providers/crossref.py:169-191 | after a not-found identifier probe metadata_get is called once and its answer gives Reserved, Deleted, Registered or New, or re-raises with the status unchanged |
| `CrossrefProvider.SyncNewIff` | invenio_pidstore/providers/crossref.py:169-191 | sync_status succeeds leaving New if and only if both probes report not found |
| `CrossrefProvider.RegisterOrder` | invenio_pidstore/providers/crossref.py:98-108 | register marks the record registered before any remote call, then posts the metadata, and mints the DOI only when the post succeeded; it re-raises the first failure and the record stays Registered on every path |
| `CrossrefProvider.UpdateReactivates` | invenio_pidstore/providers/crossref.py:118-132 | update always posts the metadata first and mints only after it succeeded; it moves the record to Registered exactly when it was Deleted and both calls succeeded; on an error it re-raises and the status is untouched |
| `CrossrefProvider.DeleteLocalOrRemote` | invenio_pidstore/providers/crossref.py:142-152 | a New record is deleted locally with no remote call and the script untouched; any other is deleted locally first, then exactly one metadata_delete of its value follows, whose failure is re-raised |
| `Lifecycle.ApplyKeepsProtocol` | invenio_pidstore/providers/crossref.py:91-196 | every operation, whatever the service answers, keeps the log within the call discipline |
| `Lifecycle.RunKeepsProtocol` | invenio_pidstore/providers/crossref.py:91-196 | any sequence of operations keeps the log within the call discipline |
| `Lifecycle.NewOnlyAfterTwoNotFound` | invenio_pidstore/providers/crossref.py:169-191 | in a disciplined log, New is written only right after a not-found identifier probe followed by a not-found metadata probe, both for this identifier |
| `Lifecycle.ReservedOnlyAfterMetadataHit` | invenio_pidstore/providers/crossref.py:169-175 | in a disciplined log, Reserved is written only right after a not-found identifier probe followed by a successful metadata probe |
| `Lifecycle.MintAndRemoteDeleteOrder` | invenio_pidstore/providers/crossref.py:101-147 | in a disciplined log, every DOI mint comes right after a successful metadata post and every remote metadata deletion right after the local deletion |
| `Lifecycle.ApplyTracks` | invenio_pidstore/providers/crossref.py:91-196 | bookkeeping: every operation keeps the status equal to the replay of the logged local mutators |
| `Lifecycle.RunTracks` | invenio_pidstore/providers/crossref.py:91-196 | bookkeeping: any sequence of operations keeps the status equal to the replay of the logged local mutators |
| `Lifecycle.Lifetime` | invenio_pidstore/providers/crossref.py:91-196 | from a fresh provider, any sequence of operations leaves a disciplined log and a status that only the logged local mutators account for |
| `Pids.Pid.Register` | invenio_pidstore/providers/crossref.py:99 | the local registration leaves the record Registered and is recorded as one MarkRegistered call |
| `Pids.Pid.Delete` | invenio_pidstore/providers/crossref.py:143-146 | the local deletion leaves the record Deleted and is recorded as one MarkDeleted call |
| `Pids.Pid.SyncStatus` | invenio_pidstore/providers/crossref.py:191 | the synchronisation mutator gives the record the status passed and is recorded as one SyncTo call with that status |
| `CrossrefProvider.Provider.Dispatch` | invenio_pidstore/providers/crossref.py:101-174 | each call goes to the client operation of the same name with the same arguments: the client's received calls grow by exactly that call |
| `CrossrefProvider.RegisterRun` | invenio_pidstore/providers/crossref.py:98-108 | the record ends Registered on every path; register succeeds if and only if both the metadata post and the mint succeed; it only appends to the log, and the first two entries it appends are the local mark and then the metadata post with its answer |
| `CrossrefProvider.UpdateRun` | invenio_pidstore/providers/crossref.py:118-132 | update succeeds if and only if both remote calls succeed; the status becomes Registered exactly when the record was Deleted and update succeeded, and is otherwise untouched; it only appends to the log |
| `CrossrefProvider.DeleteRun` | invenio_pidstore/providers/crossref.py:142-152 | the record ends Deleted; a New record is deleted without consuming any remote answer and always succeeds; a raised error is the failing answer of the one remote call |
| `CrossrefProvider.SyncRun` | invenio_pidstore/providers/crossref.py:159-196 | on a raised error the status is unchanged and the error is a non-distinguished one; at most two remote answers are consumed; it only appends to the log |
| `CrossrefProvider.DoiVerdict` | invenio_pidstore/providers/crossref.py:162-170 | the identifier probe leaves the question open exactly on not found, aborts exactly on a non-distinguished error (with that error), and otherwise concludes Registered or Deleted only |
| `CrossrefProvider.MetadataVerdict` | invenio_pidstore/providers/crossref.py:173-181 | the metadata probe leaves the question open exactly on not found, aborts exactly on a non-distinguished error (with that error), never concludes New, and concludes Reserved exactly when it is answered normally |
| `Lifecycle.ReplayIsLastLocal` | invenio_pidstore/providers/crossref.py:99-191 | replaying a log leaves the status set by its last local mutator, or the initial status when there is none |
| `Lifecycle.LogProvenance` | invenio_pidstore/providers/crossref.py:169-191 | in a disciplined log, a replayed Reserved or New that differs from the initial status was written last by the synchronisation mutator, right after a not-found identifier probe and a found (Reserved) or not-found (New) metadata probe |
| `Lifecycle.StatusProvenance` | invenio_pidstore/providers/crossref.py:169-191 | from a fresh provider, after any sequence of operations, a Reserved or New status the record did not start with was written last by sync_status, right after the two probes that license it |
| `Pids.Pid.IsNew` | invenio_pidstore/providers/crossref.py:143 | the record's is-new query, defined as status == New |
| `Pids.Pid.IsDeleted` | invenio_pidstore/providers/crossref.py:129 | the record's is-deleted query, defined as status == Deleted |
| `Crossref.Client.MetadataPost` | invenio_pidstore/providers/crossref.py:101 | the client records that it received this call with these arguments, and returns and consumes the next scripted answer |
| `Crossref.Client.DoiPost` | invenio_pidstore/providers/crossref.py:103 | the client records that it received this call with these arguments, and returns and consumes the next scripted answer |
| `Crossref.Client.DoiGet` | invenio_pidstore/providers/crossref.py:163 | the client records that it received this call with these arguments, and returns and consumes the next scripted answer |
| `Crossref.Client.MetadataGet` | invenio_pidstore/providers/crossref.py:174 | the client records that it received this call with these arguments, and returns and consumes the next scripted answer |
| `Crossref.Client.MetadataDelete` | invenio_pidstore/providers/crossref.py:147 | the client records that it received this call with these arguments, and returns and consumes the next scripted answer |

## Left out

- Client construction from the application configuration (crossref.py:78-89): a factory for a foreign object reading ambient configuration. The provider here is built from a given record and client.
- The `create` class method and the `pid_type`, `pid_provider` and `default_status` constants: `create` only delegates to the base provider.
- The Crossref client's internals (HTTP transport, XML deposit format, credentials, prefixes, test mode): each call is one scripted answer. An exhausted script answers normally. The document and URL are passed through unexamined.
- The record's own transition-legality rules inside its register, delete and sync_status mutators, and the errors they may raise: the record model is not part of this model, so each mutator is a plain assignment. In particular, deleting a New record is modelled as the status Deleted, not as removing the record.
- Exceptions other than client errors (anything not a Crossref or HTTP error) are not modelled.
- Logging: it does not affect behaviour.
- Concurrency between providers on the same record: the source does not coordinate it.
