/** The identity of one authenticated carrier session and the key it is stored under. */
module CarrierIdentities {
  import Strings

  datatype Identity = Identity(account: string, host: string, tunnel: string, connector: string, session: string,
      process: nat, generation: nat) {
    /** Identifiers never contain the separator. */
    predicate Valid() { Strings.NoNul([account, host, tunnel, connector, session]) }
  }

  function Parts(i: Identity): seq<string> {
    [i.account, i.host, i.tunnel, i.connector, i.session, Strings.Decimal(i.process), Strings.Decimal(i.generation)]
  }

  function Key(i: Identity): string { Strings.Join(Parts(i)) }

  lemma PartsHaveNoNul(i: Identity)
    requires i.Valid()
    ensures Strings.NoNul(Parts(i))
  {
    Strings.DecimalHasNoNul(i.process);
    Strings.DecimalHasNoNul(i.generation);
    var five := [i.account, i.host, i.tunnel, i.connector, i.session];
    assert forall k :: 0 <= k < 5 ==> Parts(i)[k] == five[k];
  }

  /** Different sessions never share a key. */
  lemma KeyInjective(i: Identity, j: Identity)
    requires i.Valid() && j.Valid() && Key(i) == Key(j)
    ensures i == j
  {
    PartsHaveNoNul(i);
    PartsHaveNoNul(j);
    Strings.JoinInjective(Parts(i), Parts(j));
    var p, q := Parts(i), Parts(j);
    assert p[0] == q[0] && p[1] == q[1] && p[2] == q[2] && p[3] == q[3] && p[4] == q[4] && p[5] == q[5] && p[6] == q[6];
    Strings.DecimalInjective(i.process, j.process);
    Strings.DecimalInjective(i.generation, j.generation);
  }
}
