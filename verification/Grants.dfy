/**
Which client may open which account of a scope (domain/src/scope_ledger.rs): grants are prefixes, checked
when they are loaded so that a label never has two possible openers.
 */
module Grants {
  import opened Base
  import opened Ledger
  import opened Keys

  type ClientId = string

  datatype Grant = Grant(client: ClientId, scope: ScopeId, labelPrefix: string, compartments: bool) {
    predicate Covers(name: Label) {
      labelPrefix <= name
    }

    /** What a grant alone must satisfy. */
    predicate Allowed() {
      client != "banking" && scope != MAIN && IsLabel(labelPrefix)
    }
  }

  predicate Overlap(g: Grant, h: Grant) {
    g.scope == h.scope && (g.labelPrefix <= h.labelPrefix || h.labelPrefix <= g.labelPrefix)
  }

  /** Every grant allowed, and no two of one scope with one prefix at the start of the other. */
  predicate Sound(grants: seq<Grant>) {
    && (forall i :: 0 <= i < |grants| ==> grants[i].Allowed())
    && (forall i, j :: 0 <= j < i < |grants| ==> !Overlap(grants[i], grants[j]))
  }

  lemma SoundSoFar(grants: seq<Grant>, i: nat)
    requires i < |grants|
    ensures Sound(grants[..i + 1]) <==>
              Sound(grants[..i]) && grants[i].Allowed() && forall j :: 0 <= j < i ==> !Overlap(grants[i], grants[j])
    ensures Sound(grants) ==> Sound(grants[..i + 1])
  {
    var longer := grants[..i + 1];
    assert forall k :: 0 <= k < i ==> longer[k] == grants[..i][k];
  }

  method NewGrants(grants: seq<Grant>) returns (r: Result<seq<Grant>, DomainError>)
    ensures r == if Sound(grants) then Ok(grants) else Err(Validation)
  {
    for i := 0 to |grants|
      invariant Sound(grants[..i])
    {
      SoundSoFar(grants, i);
      var grant := grants[i];
      if grant.client == "banking" {
        return Err(Validation);
      }
      if grant.scope == MAIN {
        return Err(Validation);
      }
      if grant.labelPrefix == [] || !IsLabel(grant.labelPrefix) {
        return Err(Validation);
      }
      for j := 0 to i
        invariant forall k :: 0 <= k < j ==> !Overlap(grant, grants[k])
      {
        var other := grants[j];
        if other.scope == grant.scope && (grant.labelPrefix <= other.labelPrefix || other.labelPrefix <= grant.labelPrefix) {
          assert Overlap(grants[i], grants[j]);
          return Err(Validation);
        }
      }
    }
    assert grants[..|grants|] == grants;
    return Ok(grants);
  }

  predicate MayOpen(grants: seq<Grant>, client: ClientId, scope: ScopeId, name: Label) {
    !IsReserved(name) && exists i :: 0 <= i < |grants| && grants[i].client == client && grants[i].scope == scope && grants[i].Covers(name)
  }

  // ----- one opener a label -----

  lemma PrefixesOfOneText(p: string, q: string, s: string)
    requires p <= s && q <= s
    ensures p <= q || q <= p
  {
    if |p| <= |q| {
      assert q[..|p|] == s[..|p|] == p;
    } else {
      assert p[..|q|] == s[..|q|] == q;
    }
  }

  /** Two allowed grants of a scope overlap exactly when there is a label both cover. */
  lemma OverlapIsASharedLabel(g: Grant, h: Grant)
    requires g.Allowed() && h.Allowed() && g.scope == h.scope
    ensures Overlap(g, h) <==> exists name :: IsLabel(name) && g.Covers(name) && h.Covers(name)
  {
    if Overlap(g, h) {
      var name := if g.labelPrefix <= h.labelPrefix then h.labelPrefix else g.labelPrefix;
      assert IsLabel(name) && g.Covers(name) && h.Covers(name);
    }
    if name :| IsLabel(name) && g.Covers(name) && h.Covers(name) {
      PrefixesOfOneText(g.labelPrefix, h.labelPrefix, name);
    }
  }

  /** At most one of the grants covers any label of any scope. */
  ghost predicate OneGrantALabel(grants: seq<Grant>) {
    forall i, j, name ::
      0 <= j < i < |grants| && grants[i].scope == grants[j].scope && IsLabel(name) && grants[i].Covers(name)
      ==> !grants[j].Covers(name)
  }

  /**
  The check is exact: grants are accepted exactly when each is allowed and no label of any scope is
  covered by two of them.
   */
  lemma AcceptedMeansOneGrantALabel(grants: seq<Grant>)
    requires forall i :: 0 <= i < |grants| ==> grants[i].Allowed()
    ensures Sound(grants) <==> OneGrantALabel(grants)
  {
    forall i, j | 0 <= j < i < |grants| && grants[i].scope == grants[j].scope
      ensures Overlap(grants[i], grants[j]) <==> exists name :: IsLabel(name) && grants[i].Covers(name) && grants[j].Covers(name)
    {
      OverlapIsASharedLabel(grants[i], grants[j]);
    }
  }

  /** A client may open a label exactly when it is not the platform's own and a grant of the client's covers it. */
  lemma MayOpenIff(grants: seq<Grant>, client: ClientId, scope: ScopeId, name: Label)
    requires Sound(grants) && IsLabel(name)
    ensures MayOpen(grants, client, scope, name) <==>
              && name != "fee" && name != "treasury" && client != "banking" && scope != "main"
              && exists i :: 0 <= i < |grants| && grants[i].client == client && grants[i].scope == scope
                             && exists rest :: name == grants[i].labelPrefix + rest
  {
    forall i | 0 <= i < |grants| ensures grants[i].Covers(name) <==> exists rest :: name == grants[i].labelPrefix + rest {
      if grants[i].Covers(name) {
        assert name == grants[i].labelPrefix + name[|grants[i].labelPrefix|..];
      }
    }
    assert forall i :: 0 <= i < |grants| ==> grants[i].Allowed();
  }

  /** So whoever asks first, a label has one possible opener. */
  lemma OneOpenerALabel(grants: seq<Grant>, one: ClientId, other: ClientId, scope: ScopeId, name: Label)
    requires Sound(grants) && IsLabel(name)
    requires MayOpen(grants, one, scope, name) && MayOpen(grants, other, scope, name)
    ensures one == other && one != "banking" && scope != MAIN
  {
    AcceptedMeansOneGrantALabel(grants);
    var i :| 0 <= i < |grants| && grants[i].client == one && grants[i].scope == scope && grants[i].Covers(name);
    var j :| 0 <= j < |grants| && grants[j].client == other && grants[j].scope == scope && grants[j].Covers(name);
    assert grants[i].Allowed();
    assert i == j;
  }
}
