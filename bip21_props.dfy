/** Properties of the BIP 21 model: query keys and the URI builder. */
module Bip21Properties {
  import opened Wrappers
  import opened Text
  import opened Hex
  import opened Decimals
  import opened Codecs
  import opened Schemes
  import opened Bip21
  import opened Bip21Amounts

  // ------------------------------------------------------------ query keys

  /** A key is listed exactly when some pair carries it. */
  lemma {:induction false} KeysOccur(p: Pairs, k: string)
    ensures k in Keys(p) <==> exists i :: 0 <= i < |p| && p[i].0 == k
  {
    if p != [] {
      var init := p[..|p| - 1];
      KeysOccur(init, k);
      if k in Keys(init) {
        var i :| 0 <= i < |init| && init[i].0 == k;
        assert p[i].0 == k;
      }
      if exists i :: 0 <= i < |p| && p[i].0 == k {
        var i :| 0 <= i < |p| && p[i].0 == k;
        if i < |init| { assert init[i].0 == k; }
      }
    }
  }

  /** `parse_qs` maps each listed key to all of its values, and only listed keys. */
  lemma {:induction false} GroupedIsValues(p: Pairs, k: string)
    ensures k in Grouped(p) <==> k in Keys(p)
    ensures k in Grouped(p) ==> Grouped(p)[k] == ValuesOf(p, k)
    ensures k !in Keys(p) ==> ValuesOf(p, k) == []
  {
    if p != [] {
      GroupedIsValues(p[..|p| - 1], k);
    }
  }

  /** A key that some pair carries has at least one value. */
  lemma {:induction false} ValuesPresent(p: Pairs, i: nat)
    requires i < |p|
    ensures |ValuesOf(p, p[i].0)| >= 1
  {
    var init := p[..|p| - 1];
    if i < |init| {
      assert init[i] == p[i];
      ValuesPresent(init, i);
    }
  }

  /** A key that two pairs carry has at least two values. */
  lemma {:induction false} ValuesTwice(p: Pairs, i: nat, j: nat)
    requires i < j < |p| && p[i].0 == p[j].0
    ensures |ValuesOf(p, p[i].0)| >= 2
  {
    var init := p[..|p| - 1];
    assert init[i] == p[i];
    if j == |p| - 1 {
      ValuesPresent(init, i);
    } else {
      assert init[j] == p[j];
      ValuesTwice(init, i, j);
    }
  }

  /** A key that only one pair carries has just that pair's value. */
  lemma {:induction false} ValuesOnce(p: Pairs, i: nat)
    requires i < |p| && forall j :: 0 <= j < |p| && j != i ==> p[j].0 != p[i].0
    ensures ValuesOf(p, p[i].0) == [p[i].1]
  {
    var k := p[i].0;
    var init := p[..|p| - 1];
    if i < |init| {
      assert init[i] == p[i];
      forall j | 0 <= j < |init| && j != i ensures init[j].0 != k {
        assert init[j] == p[j];
      }
      ValuesOnce(init, i);
    } else {
      forall j | 0 <= j < |init| ensures init[j].0 != k {
        assert init[j] == p[j];
      }
      KeysOccur(init, k);
      GroupedIsValues(init, k);
    }
  }

  /** The duplicate search finds nothing exactly when every listed key has one value. */
  lemma {:induction false} NoDuplicate(keys: seq<string>, g: map<string, seq<string>>)
    ensures FirstDuplicate(keys, g) == None <==> forall i :: 0 <= i < |keys| && keys[i] in g ==> |g[keys[i]]| == 1
  {
    if keys != [] {
      NoDuplicate(keys[1..], g);
      assert forall i :: 1 <= i < |keys| ==> keys[i] == keys[1..][i - 1];
    }
  }

  /** The reported duplicate is a listed key with more than one value. */
  lemma {:induction false} DuplicateFound(keys: seq<string>, g: map<string, seq<string>>)
    requires FirstDuplicate(keys, g).Some?
    ensures var k := FirstDuplicate(keys, g).value; k in keys && k in g && |g[k]| != 1
  {
    if !(keys[0] in g && |g[keys[0]]| != 1) {
      DuplicateFound(keys[1..], g);
    }
  }

  /** Two pairs with the same key make the duplicate search report some key. */
  lemma RepeatedKeyFound(p: Pairs, i: nat, j: nat)
    requires i < j < |p|
    ensures p[i].0 == p[j].0 ==> FirstDuplicate(Keys(p), Grouped(p)).Some?
  {
    if p[i].0 == p[j].0 {
      var k := p[i].0;
      KeysOccur(p, k);
      GroupedIsValues(p, k);
      ValuesTwice(p, i, j);
      var n :| 0 <= n < |Keys(p)| && Keys(p)[n] == k by {
        assert k in Keys(p);
      }
      NoDuplicate(Keys(p), Grouped(p));
    }
  }

  /** Without a reported duplicate, no two pairs share a key. */
  lemma UniqueKeys(p: Pairs, i: nat)
    requires FirstDuplicate(Keys(p), Grouped(p)).None? && i < |p|
    ensures forall j :: 0 <= j < |p| && j != i ==> p[j].0 != p[i].0
  {
    forall j | 0 <= j < |p| && j != i ensures p[j].0 != p[i].0 {
      if i < j { RepeatedKeyFound(p, i, j); } else { RepeatedKeyFound(p, j, i); }
    }
  }

  lemma SingleValue(p: Pairs, i: nat)
    requires FirstDuplicate(Keys(p), Grouped(p)).None? && i < |p|
    ensures ValuesOf(p, p[i].0) == [p[i].1]
  {
    UniqueKeys(p, i);
    ValuesOnce(p, i);
  }

  /** Without a duplicate, the first-value dict holds every pair as given. */
  lemma QueryFieldsOfUniquePairs(p: Pairs, i: nat)
    requires FirstDuplicate(Keys(p), Grouped(p)).None? && i < |p|
    ensures p[i].0 in FirstValues(Grouped(p)) && FirstValues(Grouped(p))[p[i].0] == Str(p[i].1)
  {
    SingleValue(p, i);
    OnlyValueIsField(p, i);
  }

  lemma OnlyValueIsField(p: Pairs, i: nat)
    requires i < |p| && ValuesOf(p, p[i].0) == [p[i].1]
    ensures p[i].0 in FirstValues(Grouped(p)) && FirstValues(Grouped(p))[p[i].0] == Str(p[i].1)
  {
    var k := p[i].0;
    assert k in Grouped(p) && Grouped(p)[k] == [p[i].1] by {
      KeysOccur(p, k);
      GroupedIsValues(p, k);
    }
    FirstValueOfSingle(Grouped(p), k, p[i].1);
  }

  lemma FirstValueOfSingle(g: map<string, seq<string>>, k: string, v: string)
    requires k in g && g[k] == [v]
    ensures k in FirstValues(g) && FirstValues(g)[k] == Str(v)
  {
  }

  /** The first-value dict has no key that no pair carries. */
  lemma QueryFieldsFromPairs(p: Pairs, k: string)
    requires k in FirstValues(Grouped(p))
    ensures exists i :: 0 <= i < |p| && p[i].0 == k
  {
    GroupedIsValues(p, k);
    KeysOccur(p, k);
  }

  // ------------------------------------------------------- create_bip21_uri

  /** An invalid address gives the empty string, whatever else is passed. */
  lemma CreateInvalidAddress(env: Env, addr: string, amountSat: Option<int>, message: Option<string>, extra: Pairs)
    requires !env.isAddress(addr)
    ensures CreateSpec(env, addr, amountSat, message, extra) == Success("")
  {
  }

  /** `amount=` is written exactly for a non-zero amount, `message=` exactly for a non-empty message. */
  lemma LeadingItemsPresent(env: Env, amountSat: Option<int>, message: Option<string>)
    ensures var items := LeadingItems(env, amountSat, message);
      ((amountSat.Some? && amountSat.value != 0) <==> exists i :: 0 <= i < |items| && StartsWith(items[i], "amount=")) &&
      ((message.Some? && message.value != []) <==> exists i :: 0 <= i < |items| && StartsWith(items[i], "message="))
  {
    var items := LeadingItems(env, amountSat, message);
    forall i | 0 <= i < |items|
      ensures StartsWith(items[i], "amount=") <==> items[i][0] == 'a'
      ensures StartsWith(items[i], "message=") <==> items[i][0] == 'm'
    {
      if items[i][0] == 'a' {
        assert items[i] == "amount=" + FormatSatoshisPlain(amountSat.value);
        assert items[i][..7] == "amount=";
      } else {
        assert items[i] == "message=" + env.quote(message.value);
        assert items[i][..8] == "message=";
      }
    }
    if amountSat.Some? && amountSat.value != 0 {
      assert items[0][0] == 'a';
    }
    if message.Some? && message.value != [] {
      assert items[|items| - 1][0] == 'm';
    }
  }

  /** The key reported as illegal is the first extra key that quoting changes; no report means quoting changes none. */
  lemma {:induction false} IllegalKeyFirst(env: Env, extra: Pairs)
    ensures IllegalKey(env, extra).None? <==> forall i :: 0 <= i < |extra| ==> env.quote(extra[i].0) == extra[i].0
    ensures IllegalKey(env, extra).Some? ==>
      exists i :: 0 <= i < |extra| && extra[i].0 == IllegalKey(env, extra).value && env.quote(extra[i].0) != extra[i].0 &&
        forall j :: 0 <= j < i ==> env.quote(extra[j].0) == extra[j].0
  {
    if extra != [] && env.quote(extra[0].0) == extra[0].0 {
      IllegalKeyFirst(env, extra[1..]);
      assert forall i :: 1 <= i < |extra| ==> extra[i] == extra[1..][i - 1];
      if IllegalKey(env, extra).Some? {
        var i :| 0 <= i < |extra[1..]| && extra[1..][i].0 == IllegalKey(env, extra).value &&
          env.quote(extra[1..][i].0) != extra[1..][i].0 &&
          forall j :: 0 <= j < i ==> env.quote(extra[1..][j].0) == extra[1..][j].0;
        assert extra[i + 1].0 == IllegalKey(env, extra).value;
      }
    }
  }

  /** An extra key that quoting would change makes `create_bip21_uri` raise, for a valid address. */
  lemma CreateRejectsKey(env: Env, addr: string, amountSat: Option<int>, message: Option<string>, extra: Pairs, i: nat)
    requires env.isAddress(addr) && i < |extra| && env.quote(extra[i].0) != extra[i].0
    ensures CreateSpec(env, addr, amountSat, message, extra).Failure?
  {
    IllegalKeyFirst(env, extra);
  }
}
