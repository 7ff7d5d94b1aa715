/**
 * The token catalog: the records of the token list, indexed by their
 * address so that a mint typed by the user can be looked up.
 */
module Catalog {
  import opened Common

  /** The wrapped-SOL mint, the fixed reference leg of every quote. */
  const SOL_MINT: string := "So11111111111111111111111111111111111111112"

  /** A record of the token list; `decimals` is `None` when the record has no such field. */
  datatype TokenInfo = TokenInfo(address: string, symbol: string, decimals: Option<nat>)

  /** `token.decimals || 0`: a missing precision counts as zero. */
  function DecimalsOrZero(t: TokenInfo): nat
  {
    match t.decimals
    case Some(d) => d
    case None => 0
  }

  /** The addresses the records carry. */
  function Addresses(tokens: seq<TokenInfo>): set<string>
  {
    set i | 0 <= i < |tokens| :: tokens[i].address
  }

  /** Whether no record after the `i`-th carries the same address. */
  predicate LastWithAddress(tokens: seq<TokenInfo>, i: nat)
    requires i < |tokens|
  {
    forall j :: i < j < |tokens| ==> tokens[j].address != tokens[i].address
  }

  /**
   * The map the catalog build produces: each record stored under its own
   * address, in list order, so that a later record replaces an earlier one.
   */
  function Indexed(tokens: seq<TokenInfo>): (m: map<string, TokenInfo>)
    ensures m.Keys == Addresses(tokens)
    ensures forall a :: a in m ==> m[a].address == a
  {
    if tokens == [] then map[]
    else
      var init, last := tokens[..|tokens| - 1], tokens[|tokens| - 1];
      assert Addresses(tokens) == Addresses(init) + {last.address} by {
        assert forall i :: 0 <= i < |init| ==> init[i] == tokens[i];
      }
      Indexed(init)[last.address := last]
  }

  /** Every record is retrievable by its address unless a later record carries the same address. */
  lemma {:induction false} IndexedLastWins(tokens: seq<TokenInfo>, i: nat)
    requires i < |tokens| && LastWithAddress(tokens, i)
    ensures Indexed(tokens)[tokens[i].address] == tokens[i]
  {
    var init := tokens[..|tokens| - 1];
    if i < |tokens| - 1 {
      assert LastWithAddress(init, i) by {
        forall j | i < j < |init| ensures init[j].address != init[i].address {
          assert init[j] == tokens[j] && init[i] == tokens[i];
        }
      }
      IndexedLastWins(init, i);
      assert tokens[|tokens| - 1].address != tokens[i].address;
      assert init[i] == tokens[i];
    }
  }

  /** Every entry of the map is the last record that carries its key. */
  lemma {:induction false} IndexedFromCatalog(tokens: seq<TokenInfo>, a: string)
    requires a in Indexed(tokens)
    ensures exists i :: 0 <= i < |tokens| && tokens[i].address == a && LastWithAddress(tokens, i)
                        && Indexed(tokens)[a] == tokens[i]
  {
    var init, last := tokens[..|tokens| - 1], tokens[|tokens| - 1];
    if last.address == a {
      assert LastWithAddress(tokens, |tokens| - 1);
    } else {
      IndexedFromCatalog(init, a);
      var i :| 0 <= i < |init| && init[i].address == a && LastWithAddress(init, i)
               && Indexed(init)[a] == init[i];
      assert tokens[i] == init[i];
      assert Indexed(tokens)[a] == Indexed(init)[a];
      LastWithAddressExtends(tokens, i);
    }
  }

  /** A record last in all but the final record stays last when the final one carries another address. */
  lemma LastWithAddressExtends(tokens: seq<TokenInfo>, i: nat)
    requires i < |tokens| - 1 && LastWithAddress(tokens[..|tokens| - 1], i)
    requires tokens[|tokens| - 1].address != tokens[i].address
    ensures LastWithAddress(tokens, i)
  {
    var init := tokens[..|tokens| - 1];
    forall j | i < j < |tokens| ensures tokens[j].address != tokens[i].address {
      if j < |init| { assert init[j] == tokens[j] && init[i] == tokens[i]; }
    }
  }

  /** The catalog build: a loop that stores each record under its address. */
  method IndexCatalog(tokens: seq<TokenInfo>) returns (m: map<string, TokenInfo>)
    ensures m == Indexed(tokens)
    ensures m.Keys == Addresses(tokens)
    ensures forall i :: 0 <= i < |tokens| && LastWithAddress(tokens, i) ==> m[tokens[i].address] == tokens[i]
  {
    m := map[];
    for k := 0 to |tokens|
      invariant m == Indexed(tokens[..k])
    {
      assert tokens[..k + 1][..k] == tokens[..k];
      m := m[tokens[k].address := tokens[k]];
    }
    assert tokens[..|tokens|] == tokens;
    forall i | 0 <= i < |tokens| && LastWithAddress(tokens, i)
      ensures m[tokens[i].address] == tokens[i]
    {
      IndexedLastWins(tokens, i);
    }
  }

  /** `tokenMap[key]`: the record stored under `key`, if any. */
  function Lookup(tokenMap: map<string, TokenInfo>, key: string): (r: Option<TokenInfo>)
    ensures r.Some? <==> key in tokenMap
    ensures r.Some? ==> r.value == tokenMap[key]
  {
    if key in tokenMap then Some(tokenMap[key]) else None
  }
}
