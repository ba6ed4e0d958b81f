/**
 * Filter resolution (GetFilter): an explicit filter wins; otherwise the first
 * candidate key found in the settings' switch table gives "level >= L";
 * otherwise every level is rejected.
 */
module Filters {
  import opened Wrappers
  import opened Settings
  import opened CandidateKeys

  /** The caller-supplied Func<string, LogLevel, bool>. */
  type ExplicitFilter = (string, LogLevel) -> bool

  /** The filters GetFilter can hand to a logger. */
  datatype Filter =
    | Explicit(pred: ExplicitFilter)   // the provider's own explicit filter, verbatim
    | AtLeast(min: LogLevel)           // (n, l) => l >= min
    | DenyAll                          // (n, l) => false

  /** Whether filter f lets a record of the given category and level through. */
  predicate Eval(f: Filter, category: string, level: LogLevel) {
    match f
    case Explicit(pred) => pred(category, level)
    case AtLeast(min) => level >= min
    case DenyAll => false
  }

  /**
   * The first-match search over the candidate keys: "level >= L" for the
   * first key found in the switch table, deny-all when none is found.
   */
  function FirstMatch(keys: seq<string>, switches: map<string, LogLevel>): (f: Filter)
    ensures f.AtLeast? || f.DenyAll?
    ensures f.DenyAll? <==> forall i :: 0 <= i < |keys| ==> keys[i] !in switches
    ensures f.AtLeast? ==> f.min in switches.Values
  {
    if keys == [] then DenyAll
    else if keys[0] in switches then AtLeast(switches[keys[0]])
    else FirstMatch(keys[1..], switches)
  }

  /**
   * The key found first decides: if keys[i] is in the table and no earlier
   * key is, the result is "level >= the level of keys[i]"; later matches are
   * ignored.
   */
  lemma {:induction false} FirstMatchAt(keys: seq<string>, switches: map<string, LogLevel>, i: nat)
    requires i < |keys| && keys[i] in switches
    requires forall j :: 0 <= j < i ==> keys[j] !in switches
    ensures FirstMatch(keys, switches) == AtLeast(switches[keys[i]])
  {
    if i > 0 {
      assert keys[0] !in switches;
      forall j | 0 <= j < i - 1 ensures keys[1..][j] !in switches {
        assert keys[1..][j] == keys[j + 1];
      }
      FirstMatchAt(keys[1..], switches, i - 1);
    }
  }

  /**
   * GetFilter(name, settings) of a provider whose explicit filter is
   * `explicit` (None for a null filter) and whose settings are `settings`
   * (None for null).
   */
  function GetFilter(explicit: Option<ExplicitFilter>, name: string, settings: Option<Snapshot>): (f: Filter)
    ensures explicit.Some? ==> f == Explicit(explicit.value)
    ensures explicit.None? ==> f.AtLeast? || f.DenyAll?
    ensures explicit.None? && settings.None? ==> f == DenyAll
    ensures explicit.None? && settings.Some? ==>
              (f.DenyAll? <==> forall i :: 0 <= i < |KeyPrefixes(name)| ==>
                                 KeyPrefixes(name)[i] !in settings.value.switches)
  {
    if explicit.Some? then Explicit(explicit.value)
    else if settings.Some? then FirstMatch(KeyPrefixes(name), settings.value.switches)
    else DenyAll
  }

  /** A non-null explicit filter decides alone, whatever the name and the settings say. */
  lemma ExplicitFilterWins(pred: ExplicitFilter, name: string, settings: Option<Snapshot>, level: LogLevel)
    ensures Eval(GetFilter(Some(pred), name, settings), name, level) == pred(name, level)
  {
  }

  /**
   * The most specific configured key wins: with no explicit filter, the
   * filter is "level >= L" for the first candidate key of the name that the
   * switch table holds, and it accepts exactly the levels at or above L.
   */
  lemma MostSpecificKeyWins(name: string, s: Snapshot, i: nat, level: LogLevel)
    requires i < |KeyPrefixes(name)| && KeyPrefixes(name)[i] in s.switches
    requires forall j :: 0 <= j < i ==> KeyPrefixes(name)[j] !in s.switches
    ensures GetFilter(None, name, Some(s)) == AtLeast(s.switches[KeyPrefixes(name)[i]])
    ensures Eval(GetFilter(None, name, Some(s)), name, level) <==> level >= s.switches[KeyPrefixes(name)[i]]
  {
    FirstMatchAt(KeyPrefixes(name), s.switches, i);
  }

  /** A name configured by its full text gets that level, whatever its ancestors say. */
  lemma FullNameWins(name: string, s: Snapshot)
    requires name != "" && name in s.switches
    ensures GetFilter(None, name, Some(s)) == AtLeast(s.switches[name])
  {
    KeyPrefixesLength(name);
    FirstMatchAt(KeyPrefixes(name), s.switches, 0);
  }

  /**
   * Without an explicit filter, null settings or settings holding none of
   * the name's candidate keys reject every level.
   */
  lemma NoMatchDeniesAll(name: string, settings: Option<Snapshot>, level: LogLevel)
    requires settings.Some? ==>
               forall i :: 0 <= i < |KeyPrefixes(name)| ==> KeyPrefixes(name)[i] !in settings.value.switches
    ensures !Eval(GetFilter(None, name, settings), name, level)
  {
  }

  /** An empty name has no candidate keys, so without an explicit filter it is denied. */
  lemma EmptyNameDenied(settings: Option<Snapshot>)
    ensures GetFilter(None, "", settings) == DenyAll
  {
  }

  /** {"A.B": Information, "Default": Warning} gives "A.B.C" the level Information. */
  lemma AncestorBeforeDefaultExample()
    ensures GetFilter(None, "A.B.C",
              Some(Snapshot(200, map["A.B" := Information, "Default" := Warning], false, None)))
            == AtLeast(Information)
  {
    var s := Snapshot(200, map["A.B" := Information, "Default" := Warning], false, None);
    assert LastIndexOf("A.B.C", '.') == 3;
    assert "A.B.C"[..3] == "A.B";
    assert KeyPrefixes("A.B.C")[0] == "A.B.C" && KeyPrefixes("A.B.C")[1] == "A.B";
    MostSpecificKeyWins("A.B.C", s, 1, Information);
  }

  /** With an empty table and no "Default", "X.Y" rejects even Critical. */
  lemma DenyAllExample()
    ensures !Eval(GetFilter(None, "X.Y", Some(Snapshot(200, map[], false, None))), "X.Y", Critical)
  {
  }

  /** An explicit "level >= Warning" filter rejects Information for "X" even though "X" is set to Trace. */
  lemma ExplicitOverrideExample()
    ensures !Eval(GetFilter(Some((n: string, l: LogLevel) => l >= Warning), "X",
                            Some(Snapshot(200, map["X" := Trace], false, None))), "X", Information)
  {
  }
}
