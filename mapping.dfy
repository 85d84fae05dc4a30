/** getMapping(): the table that says which Magento field feeds each Inxmail attribute. It starts from
    the standard attribute table without its `email` entry and layers on the operator's overrides,
    keeping an override only when its Magento field is one the attribute catalog knows. */
module Mapping {

  /** A PHP array from Inxmail attribute name to Magento field name. Keys are assumed non-numeric,
      so array_merge() behaves as map union with the right-hand side winning. */
  type Table = map<string, string>

  /** One entry of the map configuration: `{magAttrib, inxAttrib}`. */
  datatype Override = Override(magAttrib: string, inxAttrib: string)

  const EMAIL: string := "email"

  /** The standard table with `email` unset. */
  function Defaults(standard: Table): Table {
    standard - {EMAIL}
  }

  /** The values in_array() searches: those of array_merge(mapable, defaults). A default shadows a
      mappable entry under the same key, so that entry's value is allowed only if it occurs elsewhere. */
  function AllowedValues(standard: Table, mapable: Table): (pool: set<string>)
    ensures forall k :: k in Defaults(standard) ==> Defaults(standard)[k] in pool
    ensures forall k :: k in mapable && k !in Defaults(standard) ==> mapable[k] in pool
    ensures forall v :: v in pool ==>
      (exists k :: k in Defaults(standard) && Defaults(standard)[k] == v)
      || (exists k :: k in mapable && k !in Defaults(standard) && mapable[k] == v)
  {
    var merged := mapable + Defaults(standard);
    assert forall k :: k in Defaults(standard) ==> merged[k] == Defaults(standard)[k];
    merged.Values
  }

  predicate Accepts(pool: set<string>, o: Override) {
    o.magAttrib in pool
  }

  /** The `$result` array the override loop builds: accepted overrides in configuration order, a later
      one replacing an earlier one with the same inxAttrib. */
  function Accepted(overrides: seq<Override>, pool: set<string>): (r: Table)
    ensures forall k :: k in r ==> r[k] in pool
    decreases |overrides|
  {
    if overrides == [] then map[]
    else
      var earlier := Accepted(overrides[..|overrides| - 1], pool);
      var o := overrides[|overrides| - 1];
      if Accepts(pool, o) then earlier[o.inxAttrib := o.magAttrib] else earlier
  }

  /** The resolved table: array_merge($defaults, $result). */
  function Resolve(standard: Table, mapable: Table, overrides: seq<Override>): (r: Table)
    ensures forall k :: k in r ==> r[k] in AllowedValues(standard, mapable)
  {
    Defaults(standard) + Accepted(overrides, AllowedValues(standard, mapable))
  }

  /** Override `j` is accepted and no later accepted override has the same inxAttrib. */
  predicate IsLastAccepted(overrides: seq<Override>, pool: set<string>, j: int) {
    && 0 <= j < |overrides|
    && Accepts(pool, overrides[j])
    && forall i :: j < i < |overrides| && Accepts(pool, overrides[i]) ==>
         overrides[i].inxAttrib != overrides[j].inxAttrib
  }

  /** getMapping() itself: the loop over the map configuration, then the merge over the defaults. */
  method GetMapping(standard: Table, mapable: Table, addMap: seq<Override>) returns (r: Table)
    ensures r == Resolve(standard, mapable, addMap)
  {
    var defaults := standard - {EMAIL};
    var merged := mapable + defaults;
    var allowed := merged.Values;
    var result: Table := map[];
    var i := 0;
    while i < |addMap|
      invariant 0 <= i <= |addMap|
      invariant result == Accepted(addMap[..i], allowed)
    {
      var attribute := addMap[i];
      if attribute.magAttrib in allowed {
        result := result[attribute.inxAttrib := attribute.magAttrib];
      }
      assert addMap[..i + 1][..i] == addMap[..i];
      i := i + 1;
    }
    assert addMap[..i] == addMap;
    r := defaults + result;
  }

  /** Among accepted overrides with the same inxAttrib, the last one in configuration order wins. */
  lemma {:induction false} LastAcceptedWins(overrides: seq<Override>, pool: set<string>, j: int)
    requires IsLastAccepted(overrides, pool, j)
    ensures overrides[j].inxAttrib in Accepted(overrides, pool)
    ensures Accepted(overrides, pool)[overrides[j].inxAttrib] == overrides[j].magAttrib
    decreases |overrides|
  {
    var n := |overrides| - 1;
    if j < n {
      var prefix := overrides[..n];
      assert prefix[j] == overrides[j];
      assert IsLastAccepted(prefix, pool, j) by {
        forall i | j < i < |prefix| && Accepts(pool, prefix[i])
          ensures prefix[i].inxAttrib != prefix[j].inxAttrib
        {
          assert prefix[i] == overrides[i];
        }
      }
      LastAcceptedWins(prefix, pool, j);
    }
  }

  /** Every key of the accepted overrides comes from an accepted override, the last of its kind. */
  lemma {:induction false} AcceptedKeyOrigin(overrides: seq<Override>, pool: set<string>, k: string)
    returns (j: int)
    requires k in Accepted(overrides, pool)
    ensures IsLastAccepted(overrides, pool, j) && overrides[j].inxAttrib == k
    decreases |overrides|
  {
    var n := |overrides| - 1;
    var prefix := overrides[..n];
    var o := overrides[n];
    if Accepts(pool, o) && o.inxAttrib == k {
      j := n;
    } else {
      j := AcceptedKeyOrigin(prefix, pool, k);
      assert prefix[j] == overrides[j];
      forall i | j < i < |overrides| && Accepts(pool, overrides[i])
        ensures overrides[i].inxAttrib != overrides[j].inxAttrib
      {
        if i < n { assert prefix[i] == overrides[i]; }
      }
    }
  }

  /** An override that is not accepted has no effect at all: it is dropped silently. */
  lemma {:induction false} RejectedOverrideIgnored(overrides: seq<Override>, pool: set<string>, i: int)
    requires 0 <= i < |overrides| && !Accepts(pool, overrides[i])
    ensures Accepted(overrides, pool) == Accepted(overrides[..i] + overrides[i + 1..], pool)
    decreases |overrides|
  {
    var n := |overrides| - 1;
    var without := overrides[..i] + overrides[i + 1..];
    if i == n {
      assert without == overrides[..n];
    } else {
      var prefix := overrides[..n];
      assert prefix[i] == overrides[i];
      RejectedOverrideIgnored(prefix, pool, i);
      assert without[..|without| - 1] == prefix[..i] + prefix[i + 1..];
      assert without[|without| - 1] == overrides[n];
    }
  }

  /** An accepted override's inxAttrib is always a key of the accepted overrides. */
  lemma {:induction false} AcceptedHasKey(overrides: seq<Override>, pool: set<string>, i: int)
    requires 0 <= i < |overrides| && Accepts(pool, overrides[i])
    ensures overrides[i].inxAttrib in Accepted(overrides, pool)
    decreases |overrides|
  {
    var n := |overrides| - 1;
    if i < n {
      var prefix := overrides[..n];
      assert prefix[i] == overrides[i];
      AcceptedHasKey(prefix, pool, i);
    }
  }

  /** The resolved table's keys: every default key except `email`, and the inxAttrib of every accepted
      override. In particular `email` is a key only when an accepted override names it. */
  lemma ResolvedKeys(standard: Table, mapable: Table, overrides: seq<Override>, k: string)
    ensures k in Resolve(standard, mapable, overrides) <==>
      || (k in standard && k != EMAIL)
      || exists i :: 0 <= i < |overrides| && Accepts(AllowedValues(standard, mapable), overrides[i])
                     && overrides[i].inxAttrib == k
  {
    var pool := AllowedValues(standard, mapable);
    if k in Accepted(overrides, pool) {
      var j := AcceptedKeyOrigin(overrides, pool, k);
    }
    if exists i :: 0 <= i < |overrides| && Accepts(pool, overrides[i]) && overrides[i].inxAttrib == k {
      var i :| 0 <= i < |overrides| && Accepts(pool, overrides[i]) && overrides[i].inxAttrib == k;
      AcceptedHasKey(overrides, pool, i);
    }
  }

  /** A default that no accepted override names keeps its standard value. */
  lemma DefaultKept(standard: Table, mapable: Table, overrides: seq<Override>, k: string)
    requires k in standard && k != EMAIL
    requires forall i :: 0 <= i < |overrides| && Accepts(AllowedValues(standard, mapable), overrides[i]) ==>
               overrides[i].inxAttrib != k
    ensures k in Resolve(standard, mapable, overrides)
    ensures Resolve(standard, mapable, overrides)[k] == standard[k]
  {
    var pool := AllowedValues(standard, mapable);
    if k in Accepted(overrides, pool) {
      var j := AcceptedKeyOrigin(overrides, pool, k);
      assert false;
    }
  }

  /** The last accepted override for an attribute replaces the default and every earlier override. */
  lemma OverrideWins(standard: Table, mapable: Table, overrides: seq<Override>, j: int)
    requires IsLastAccepted(overrides, AllowedValues(standard, mapable), j)
    ensures overrides[j].inxAttrib in Resolve(standard, mapable, overrides)
    ensures Resolve(standard, mapable, overrides)[overrides[j].inxAttrib] == overrides[j].magAttrib
  {
    LastAcceptedWins(overrides, AllowedValues(standard, mapable), j);
  }

  /** Dropping a rejected override from the configuration does not change the resolved table. */
  lemma RejectedOverrideHasNoEffect(standard: Table, mapable: Table, overrides: seq<Override>, i: int)
    requires 0 <= i < |overrides| && !Accepts(AllowedValues(standard, mapable), overrides[i])
    ensures Resolve(standard, mapable, overrides)
         == Resolve(standard, mapable, overrides[..i] + overrides[i + 1..])
  {
    RejectedOverrideIgnored(overrides, AllowedValues(standard, mapable), i);
  }
}
