/**
 * The candidate keys under which a category's minimum level is looked up:
 * the full name, then the name cut before its last '.', again and again,
 * and "Default" once the walk reaches a non-empty name without a '.'.
 */
module CandidateKeys {

  /** The key consulted after every truncation of a dot-free name. */
  const DefaultKey: string := "Default"

  /** String.LastIndexOf(char): the index of the last c in s, or -1. */
  function LastIndexOf(s: string, c: char): (r: int)
    ensures -1 <= r < |s|
    ensures r == -1 <==> c !in s
    ensures r >= 0 ==> s[r] == c && forall j :: r < j < |s| ==> s[j] != c
  {
    if s == [] then -1
    else if s[|s| - 1] == c then |s| - 1
    else LastIndexOf(s[..|s| - 1], c)
  }

  /** One step of the walk: s truncated just before its last '.'. */
  function Cut(s: string): (r: string)
    requires '.' in s
    ensures |r| < |s| && r == s[..|r|]
    ensures s[|r|] == '.' && forall j :: |r| < j < |s| ==> s[j] != '.'
  {
    s[..LastIndexOf(s, '.')]
  }

  /** The key sequence GetKeyPrefixes yields for name, as a recursive definition. */
  function KeyPrefixes(name: string): seq<string>
    decreases |name|
  {
    if name == "" then []
    else
      var dot := LastIndexOf(name, '.');
      if dot == -1 then [name, DefaultKey]
      else [name] + KeyPrefixes(name[..dot])
  }

  /**
   * Whether the walk ends by yielding "Default": exactly when the name is
   * non-empty and does not start with '.' (a leading '.' makes the last
   * truncation the empty string, which ends the walk silently).
   */
  predicate ReachesDefault(name: string) {
    name != "" && name[0] != '.'
  }

  /** The number of keys before the trailing "Default" (all keys if there is none). */
  function WalkLength(name: string): nat {
    var keys := KeyPrefixes(name);
    if ReachesDefault(name) && |keys| > 0 then |keys| - 1 else |keys|
  }

  /** k is a non-empty prefix of name. */
  predicate IsPrefixKey(name: string, k: string) {
    k != "" && |k| <= |name| && k == name[..|k|]
  }

  /** Key i + 1 is key i cut before its last '.'. */
  predicate Step(keys: seq<string>, i: nat)
    requires i + 1 < |keys|
  {
    '.' in keys[i] && keys[i + 1] == Cut(keys[i])
  }

  /** Each of the first w keys after the first is the one before it cut before its last '.'. */
  predicate Chained(keys: seq<string>, w: nat)
    requires w <= |keys|
  {
    forall i: nat :: i + 1 < w ==> Step(keys, i)
  }

  /**
   * The key sequence is empty exactly for the empty name; otherwise it starts
   * with the name, and it ends with "Default" (after the walk keys) exactly
   * when ReachesDefault holds.
   */
  lemma {:induction false} KeyPrefixesLength(name: string)
    ensures KeyPrefixes(name) == [] <==> name == ""
    ensures name != "" ==> KeyPrefixes(name)[0] == name
    ensures |KeyPrefixes(name)| == WalkLength(name) + (if ReachesDefault(name) then 1 else 0)
    ensures ReachesDefault(name) ==> KeyPrefixes(name)[WalkLength(name)] == DefaultKey
    decreases |name|
  {
    if name != "" {
      var dot := LastIndexOf(name, '.');
      if dot == -1 {
        assert name[0] != '.';
      } else if dot > 0 {
        var sub := name[..dot];
        KeyPrefixesLength(sub);
        assert sub[0] == name[0];
        assert KeyPrefixes(name) == [name] + KeyPrefixes(sub);
      }
    }
  }

  /** Every walk key is a non-empty prefix of the name. */
  lemma {:induction false} KeyPrefixesArePrefixes(name: string)
    ensures forall i :: 0 <= i < WalkLength(name) ==> IsPrefixKey(name, KeyPrefixes(name)[i])
    decreases |name|
  {
    if name != "" {
      var dot := LastIndexOf(name, '.');
      if dot > 0 {
        var sub := name[..dot];
        KeyPrefixesArePrefixes(sub);
        KeyPrefixesLength(sub);
        KeyPrefixesLength(name);
        var keys, tail := KeyPrefixes(name), KeyPrefixes(sub);
        assert keys == [name] + tail;
        assert sub[0] == name[0];
        assert WalkLength(name) == WalkLength(sub) + 1;
        forall i | 0 < i < WalkLength(name)
          ensures IsPrefixKey(name, keys[i])
        {
          assert keys[i] == tail[i - 1];
          assert IsPrefixKey(sub, tail[i - 1]);
        }
      }
    }
  }

  /** Each walk key after the first is the previous one cut before its last '.'. */
  lemma {:induction false} KeyPrefixesChained(name: string)
    ensures WalkLength(name) <= |KeyPrefixes(name)|
    ensures Chained(KeyPrefixes(name), WalkLength(name))
    decreases |name|
  {
    if name != "" {
      var dot := LastIndexOf(name, '.');
      if dot > 0 {
        var sub := name[..dot];
        KeyPrefixesChained(sub);
        KeyPrefixesLength(sub);
        var keys, tail := KeyPrefixes(name), KeyPrefixes(sub);
        assert keys == [name] + tail;
        assert sub[0] == name[0];
        assert WalkLength(name) == WalkLength(sub) + 1;
        assert Cut(name) == sub;
        forall i: nat | i + 1 < WalkLength(name)
          ensures Step(keys, i)
        {
          if i > 0 {
            assert keys[i] == tail[i - 1] && keys[i + 1] == tail[i];
            assert Step(tail, i - 1);
          } else {
            assert keys[1] == tail[0] == sub;
          }
        }
        assert Chained(keys, WalkLength(name));
      }
    }
  }

  /**
   * How the walk ends: its last key has no '.' exactly when ReachesDefault
   * holds, and otherwise it cuts to the empty string.
   */
  lemma {:induction false} KeyPrefixesLastWalkKey(name: string)
    ensures WalkLength(name) <= |KeyPrefixes(name)|
    ensures WalkLength(name) > 0 ==>
              ('.' !in KeyPrefixes(name)[WalkLength(name) - 1] <==> ReachesDefault(name))
    ensures WalkLength(name) > 0 && '.' in KeyPrefixes(name)[WalkLength(name) - 1] ==>
              Cut(KeyPrefixes(name)[WalkLength(name) - 1]) == ""
    decreases |name|
  {
    if name != "" {
      var dot := LastIndexOf(name, '.');
      if dot == 0 {
        assert KeyPrefixes(name) == [name];
      } else if dot > 0 {
        var sub := name[..dot];
        KeyPrefixesLastWalkKey(sub);
        KeyPrefixesLength(sub);
        var keys, tail := KeyPrefixes(name), KeyPrefixes(sub);
        assert keys == [name] + tail;
        assert sub[0] == name[0];
        assert WalkLength(name) == WalkLength(sub) + 1;
        assert keys[WalkLength(name) - 1] == tail[WalkLength(sub) - 1];
      }
    }
  }

  /**
   * "Default" closes the sequence exactly when the walk reaches a non-empty
   * dot-free key, i.e. when the name is non-empty and does not start with '.'.
   */
  lemma {:induction false} EndsWithDefaultIff(name: string)
    ensures KeyPrefixes(name) != [] && KeyPrefixes(name)[|KeyPrefixes(name)| - 1] == DefaultKey
            <==> ReachesDefault(name)
  {
    KeyPrefixesLength(name);
    KeyPrefixesArePrefixes(name);
    var keys := KeyPrefixes(name);
    if !ReachesDefault(name) && keys != [] {
      var last := keys[|keys| - 1];
      assert IsPrefixKey(name, last);
      assert last[0] == '.';
    }
  }

  /** Every walk key after the first stops just before a '.' of the name. */
  lemma {:induction false} WalkKeysEndBeforeDot(name: string)
    ensures forall i :: 0 < i < WalkLength(name) ==>
              |KeyPrefixes(name)[i]| < |name| && name[|KeyPrefixes(name)[i]|] == '.'
  {
    KeyPrefixesLength(name);
    KeyPrefixesArePrefixes(name);
    KeyPrefixesChained(name);
    var keys := KeyPrefixes(name);
    forall i | 0 < i < WalkLength(name)
      ensures |keys[i]| < |name| && name[|keys[i]|] == '.'
    {
      assert Step(keys, i - 1);
      assert IsPrefixKey(name, keys[i - 1]);
    }
  }

  /** The name's first dot-segment is "Default" ("Default" itself, or "Default." followed by more). */
  predicate FirstSegmentIsDefault(name: string) {
    name == DefaultKey || (|name| > |DefaultKey| && name[..|DefaultKey| + 1] == DefaultKey + ".")
  }

  /**
   * Unless the name's first dot-segment is "Default", the key "Default"
   * occurs in the sequence at most once, and only as its last element.
   */
  lemma DefaultOnlyAtEnd(name: string, i: nat)
    requires !FirstSegmentIsDefault(name)
    requires i < |KeyPrefixes(name)| && KeyPrefixes(name)[i] == DefaultKey
    ensures ReachesDefault(name) && i == |KeyPrefixes(name)| - 1
  {
    KeyPrefixesLength(name);
    KeyPrefixesArePrefixes(name);
    WalkKeysEndBeforeDot(name);
  }

  /**
   * A name whose first segment is "Default" has "Default" looked up twice:
   * once as its last walk key and once more as the closing fallback.
   */
  lemma DefaultLookedUpTwiceExample()
    ensures KeyPrefixes("Default.X") == ["Default.X", "Default", "Default"]
  {
    assert LastIndexOf("Default.X", '.') == 7;
    assert "Default.X"[..7] == "Default";
    assert LastIndexOf("Default", '.') == -1;
  }

  /**
   * The candidate-key walk: the loop that reassigns the name until it is
   * empty, or until a dot-free name has been followed by "Default".
   */
  method GetKeyPrefixes(name: string) returns (keys: seq<string>)
    ensures keys == KeyPrefixes(name)
  {
    keys := [];
    var rest := name;
    while rest != ""
      invariant keys + KeyPrefixes(rest) == KeyPrefixes(name)
      decreases |rest|
    {
      var dot := LastIndexOf(rest, '.');
      if dot == -1 {
        assert KeyPrefixes(rest) == [rest, DefaultKey];
        keys := keys + [rest, DefaultKey];
        return;
      }
      assert KeyPrefixes(rest) == [rest] + KeyPrefixes(rest[..dot]);
      keys := keys + [rest];
      rest := rest[..dot];
    }
    assert KeyPrefixes(rest) == [];
  }
}
