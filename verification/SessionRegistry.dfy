/** The live-session registry: one session reference per connector. */
module SessionRegistries {
  import opened SessionTypes

  type Refs = map<string, SessionRef>

  datatype Attached = Attached(refs: Refs, replaced: Option<SessionRef>, err: Error)

  function AttachRef(refs: Refs, ref: SessionRef): Attached {
    if !ref.Valid() then Attached(refs, None, ErrInvalidInput)
    else if ref.connector !in refs then Attached(refs[ref.connector := ref], None, Ok)
    else if refs[ref.connector].tunnel != ref.tunnel then Attached(refs, None, ErrIdentityMismatch)
    else if ref.process <= refs[ref.connector].process then Attached(refs, None, ErrSessionConflict)
    else Attached(refs[ref.connector := ref], Some(refs[ref.connector]), Ok)
  }

  /** Every reference is a valid one, stored under its own connector. */
  predicate Keyed(refs: Refs) { forall k :: k in refs ==> refs[k].connector == k && refs[k].Valid() }

  datatype Operation = DoAttach(ref: SessionRef) | DoDisconnect(ref: SessionRef, reason: Reason)

  function Applied(refs: Refs, o: Operation): Refs {
    if o.DoAttach? then AttachRef(refs, o.ref).refs else DisconnectRef(refs, o.ref, o.reason).0
  }

  function After(refs: Refs, operations: seq<Operation>): Refs
    decreases |operations|
  {
    if operations == [] then refs else After(Applied(refs, operations[0]), operations[1..])
  }

  /** Whatever operations a registry has seen, refused ones included, it is keyed. */
  lemma {:induction false} RegistryStaysKeyed(refs: Refs, operations: seq<Operation>)
    requires Keyed(refs)
    ensures Keyed(After(refs, operations))
    decreases |operations|
  {
    if operations != [] { RegistryStaysKeyed(Applied(refs, operations[0]), operations[1..]); }
  }

  predicate Current(refs: Refs, ref: SessionRef) { ref.connector in refs && refs[ref.connector] == ref }

  function DisconnectRef(refs: Refs, ref: SessionRef, reason: Reason): (Refs, Error) {
    if !ref.Valid() || !ValidReason(reason) then (refs, ErrInvalidInput)
    else if ref.connector !in refs then (refs, Ok)
    else if refs[ref.connector] != ref then (refs, ErrStaleSession)
    else (refs - {ref.connector}, Ok)
  }

  class SessionRegistry {
    var current: map<string, SessionRef>

    constructor ()
      ensures current == map[]
    {
      current := map[];
    }

    method Attach(ref: SessionRef) returns (replaced: Option<SessionRef>, err: Error)
      modifies this
      ensures Attached(current, replaced, err) == AttachRef(old(current), ref)
    {
      replaced := None;
      if !ref.Valid() { return None, ErrInvalidInput; }
      var registered := ref.connector in current;
      if registered {
        var previous := current[ref.connector];
        if previous.tunnel != ref.tunnel { return None, ErrIdentityMismatch; }
        if ref.process <= previous.process { return None, ErrSessionConflict; }
        replaced := Some(previous);
      }
      current := current[ref.connector := ref];
      err := Ok;
    }

    method Disconnect(ref: SessionRef, reason: Reason) returns (err: Error)
      modifies this
      ensures (current, err) == DisconnectRef(old(current), ref, reason)
    {
      if !ref.Valid() || !ValidReason(reason) { return ErrInvalidInput; }
      if ref.connector !in current { return Ok; }
      if current[ref.connector] != ref { return ErrStaleSession; }
      current := current - {ref.connector};
      err := Ok;
    }

    method Active(connector: string) returns (ref: Option<SessionRef>)
      ensures Keyed(current) ==> forall r: SessionRef :: r.connector == connector ==>
              (ref == Some(r) <==> Current(current, r))
      ensures ref == (if ValidIdentifier(connector) && connector in current then Some(current[connector]) else None)
    {
      if !ValidIdentifier(connector) || connector !in current { return None; }
      ref := Some(current[connector]);
    }
  }
}
