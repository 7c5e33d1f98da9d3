/** The local persistent-identifier record that the Crossref provider drives.
    Only what the provider touches is modelled: the value, the status and the
    three status mutators. The legality rules that the record itself applies
    inside its mutators are not part of this model: each mutator is a plain
    assignment of the status it leads to. */
module Pids {

  /** Lifecycle states of a persistent identifier. */
  datatype PidStatus = New | Reserved | Registered | Deleted

  /** A call of one of the record's status mutators. */
  datatype LocalOp = MarkRegistered | MarkDeleted | SyncTo(status: PidStatus)

  class Pid {
    /** The identifier itself (the DOI string). It never changes. */
    const value: string
    var status: PidStatus
    /** The mutators called on the record, in order. */
    ghost var applied: seq<LocalOp>

    constructor (value: string, status: PidStatus)
      ensures this.value == value && this.status == status && applied == []
    {
      this.value := value;
      this.status := status;
      applied := [];
    }

    /** The record's is-new query. */
    predicate IsNew()
      reads this
    {
      status == New
    }

    /** The record's is-deleted query. */
    predicate IsDeleted()
      reads this
    {
      status == Deleted
    }

    /** Local registration: the record becomes Registered. */
    method Register()
      modifies this
      ensures status == Registered
      ensures applied == old(applied) + [MarkRegistered]
    {
      status := Registered;
      applied := applied + [MarkRegistered];
    }

    /** Local deletion: the record becomes Deleted. */
    method Delete()
      modifies this
      ensures status == Deleted
      ensures applied == old(applied) + [MarkDeleted]
    {
      status := Deleted;
      applied := applied + [MarkDeleted];
    }

    /** The synchronisation mutator: the record takes the given status. */
    method SyncStatus(s: PidStatus)
      modifies this
      ensures status == s
      ensures applied == old(applied) + [SyncTo(s)]
    {
      status := s;
      applied := applied + [SyncTo(s)];
    }
  }
}
