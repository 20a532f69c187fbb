/**
  Redaction of query parameters: the loop walks the live list of name/value tuples by position
  (section 6.2 of the WHATWG URL Standard) while `set` shortens that list.
*/
module UrlRedaction {
  type Tuple = (string, string)

  const REDACTED: string := "[REDACTED]"

  // ---- which names are sensitive ----

  predicate EndsWith(s: string, suffix: string) {
    |suffix| <= |s| && s[|s| - |suffix|..] == suffix
  }

  predicate Includes(s: string, part: string) {
    exists k :: 0 <= k <= |s| && part <= s[k..]
  }

  /** `lower` is the language's toLowerCase. */
  predicate IsSensitiveQueryKey(lower: string -> string, key: string) {
    var normalized := lower(key);
    normalized == "runtime_token" || EndsWith(normalized, "_token") || Includes(normalized, "secret")
  }

  lemma EndsWithIff(s: string, suffix: string)
    ensures EndsWith(s, suffix) <==> exists a :: s == a + suffix
  {
    if EndsWith(s, suffix) {
      assert s == s[..|s| - |suffix|] + suffix;
    }
  }

  lemma IncludesIff(s: string, part: string)
    ensures Includes(s, part) <==> exists a, b :: s == a + part + b
  {
    if Includes(s, part) {
      var k :| 0 <= k <= |s| && part <= s[k..];
      assert s == s[..k] + part + s[k..][|part|..];
    }
    if a, b :| s == a + part + b {
      assert s[|a|..] == part + b;
    }
  }

  /** The sensitive names: those that end with "_token" or contain "secret" once in lower case. */
  lemma SensitiveNames(lower: string -> string, key: string)
    ensures IsSensitiveQueryKey(lower, key) <==>
      (exists a :: lower(key) == a + "_token") || (exists a, b :: lower(key) == a + "secret" + b)
  {
    assert "runtime_token" == "runtime" + "_token";
    hide EndsWith, Includes;
    EndsWithIff(lower(key), "_token");
    IncludesIff(lower(key), "secret");
  }

  // ---- the specification ----

  /** One pass that keeps the first tuple of each sensitive name, redacted, and every other tuple as it is. */
  function RedactedAfter(list: seq<Tuple>, seen: set<string>, sensitive: string -> bool): seq<Tuple> {
    if list == [] then []
    else
      var (name, value) := list[0];
      if !sensitive(name) then [list[0]] + RedactedAfter(list[1..], seen, sensitive)
      else if name in seen then RedactedAfter(list[1..], seen, sensitive)
      else [(name, REDACTED)] + RedactedAfter(list[1..], seen + {name}, sensitive)
  }

  function Redacted(list: seq<Tuple>, sensitive: string -> bool): seq<Tuple> {
    RedactedAfter(list, {}, sensitive)
  }

  function Without(list: seq<Tuple>, name: string): seq<Tuple> {
    if list == [] then []
    else (if list[0].0 == name then [] else [list[0]]) + Without(list[1..], name)
  }

  /** URLSearchParams.set */
  function SetValue(list: seq<Tuple>, name: string, value: string): seq<Tuple> {
    if list == [] then [(name, value)]
    else if list[0].0 == name then [(name, value)] + Without(list[1..], name)
    else [list[0]] + SetValue(list[1..], name, value)
  }

  // ---- the object and the loop ----

  class UrlSearchParams {
    var list: seq<Tuple>

    constructor (list: seq<Tuple>)
      ensures this.list == list
    {
      this.list := list;
    }

    /** Sets the first tuple of that name and removes the others; appends when there is none. */
    method Set(name: string, value: string)
      modifies this
      ensures list == SetValue(old(list), name, value)
    {
      var result: seq<Tuple> := [];
      var found := false;
      var i := 0;
      ghost var goal := SetValue(list, name, value);
      assert list[0..] == list;
      while i < |list|
        invariant i <= |list| && list == old(list)
        invariant result + SetRest(list[i..], name, value, found) == goal
      {
        hide *;
        SetRestStep(result, list, i, name, value, found);
        if list[i].0 != name {
          result := result + [list[i]];
        } else if !found {
          result := result + [(name, value)];
          found := true;
        }
        i := i + 1;
      }
      assert SetRest(list[i..], name, value, found) == if found then [] else [(name, value)];
      if !found {
        result := result + [(name, value)];
      }
      list := result;
    }
  }

  function SetRest(list: seq<Tuple>, name: string, value: string, found: bool): seq<Tuple> {
    if found then Without(list, name) else SetValue(list, name, value)
  }

  lemma SetRestStep(result: seq<Tuple>, list: seq<Tuple>, i: nat, name: string, value: string, found: bool)
    requires i < |list|
    ensures var more := if list[i].0 != name then result + [list[i]] else if found then result else result + [(name, value)];
      more + SetRest(list[i + 1..], name, value, found || list[i].0 == name) == result + SetRest(list[i..], name, value, found)
  {
    var here, rest := list[i], list[i + 1..];
    assert list[i..] == [here] + rest;
    NextInRest(here, rest, name, value, found);
    hide SetRest;
    var tail := SetRest(rest, name, value, found || here.0 == name);
    assert result + ([here] + tail) == result + [here] + tail;
    assert result + ([(name, value)] + tail) == result + [(name, value)] + tail;
  }

  lemma NextInRest(here: Tuple, rest: seq<Tuple>, name: string, value: string, found: bool)
    ensures SetRest([here] + rest, name, value, found) ==
      (if here.0 != name then [here] else if found then [] else [(name, value)]) + SetRest(rest, name, value, found || here.0 == name)
  {
    assert ([here] + rest)[1..] == rest;
  }

  lemma {:induction false} SetFirst(list: seq<Tuple>, i: nat, name: string, value: string)
    requires i < |list| && list[i].0 == name && forall k :: 0 <= k < i ==> list[k].0 != name
    ensures SetValue(list, name, value) == list[..i] + [(name, value)] + Without(list[i + 1..], name)
    decreases i
  {
    if i > 0 {
      SetFirst(list[1..], i - 1, name, value);
      assert list[..i] == [list[0]] + list[1..][..i - 1];
      assert list[1..][i..] == list[i + 1..];
    }
  }

  lemma {:induction false} SetAbsent(list: seq<Tuple>, name: string, value: string)
    requires forall k :: 0 <= k < |list| ==> list[k].0 != name
    ensures SetValue(list, name, value) == list + [(name, value)]
  {
    if list != [] {
      SetAbsent(list[1..], name, value);
    }
  }

  lemma {:induction false} WithoutIsSeen(list: seq<Tuple>, name: string, seen: set<string>, sensitive: string -> bool)
    requires sensitive(name)
    ensures RedactedAfter(Without(list, name), seen, sensitive) == RedactedAfter(list, seen + {name}, sensitive)
    decreases |list|
  {
    if list != [] {
      var rest := Without(list[1..], name);
      if list[0].0 == name {
        assert Without(list, name) == rest;
        WithoutIsSeen(list[1..], name, seen, sensitive);
      } else {
        assert Without(list, name)[1..] == rest;
        WithoutIsSeen(list[1..], name, seen, sensitive);
        WithoutIsSeen(list[1..], name, seen + {list[0].0}, sensitive);
        assert seen + {list[0].0} + {name} == seen + {name} + {list[0].0};
      }
    }
  }

  /** No name that was redacted at an earlier position is still ahead. */
  predicate NoneAhead(list: seq<Tuple>, i: nat, sensitive: string -> bool)
    requires i <= |list|
  {
    forall j, k :: 0 <= j < i <= k < |list| && sensitive(list[j].0) ==> list[k].0 != list[j].0
  }

  lemma {:induction false} WithoutShrinks(list: seq<Tuple>, name: string)
    ensures |Without(list, name)| <= |list|
    ensures forall k :: 0 <= k < |Without(list, name)| ==> Without(list, name)[k] in list && Without(list, name)[k].0 != name
    decreases |list|
  {
    if list != [] {
      WithoutShrinks(list[1..], name);
    }
  }

  /** What the loop will have made of the list when it stands at position i. */
  function Outcome(list: seq<Tuple>, i: nat, sensitive: string -> bool): seq<Tuple>
    requires i <= |list|
  {
    list[..i] + RedactedAfter(list[i..], {}, sensitive)
  }

  lemma PlainStep(list: seq<Tuple>, i: nat, sensitive: string -> bool)
    requires i < |list| && !sensitive(list[i].0) && NoneAhead(list, i, sensitive)
    ensures NoneAhead(list, i + 1, sensitive) && Outcome(list, i + 1, sensitive) == Outcome(list, i, sensitive)
  {
    assert list[i..][1..] == list[i + 1..];
    assert list[..i + 1] == list[..i] + [list[i]];
  }

  lemma NoneAheadAfterSet(list: seq<Tuple>, i: nat, sensitive: string -> bool)
    requires i < |list| && sensitive(list[i].0) && NoneAhead(list, i, sensitive)
    ensures var next := list[..i] + [(list[i].0, REDACTED)] + Without(list[i + 1..], list[i].0);
      |next| <= |list| && NoneAhead(next, i + 1, sensitive)
  {
    var name, rest := list[i].0, list[i + 1..];
    var next := list[..i] + [(name, REDACTED)] + Without(rest, name);
    WithoutShrinks(rest, name);
    hide Without;
    forall j, k | 0 <= j < i + 1 <= k < |next| && sensitive(next[j].0)
      ensures next[k].0 != next[j].0
    {
      var t := Without(rest, name)[k - i - 1];
      assert next[k] == t && t in rest;
      if j < i {
        assert next[j] == list[j];
      }
    }
  }

  /** One sensitive tuple at position i: its name is nowhere before, and `set` removes it everywhere after. */
  lemma RedactStep(list: seq<Tuple>, i: nat, sensitive: string -> bool)
    requires i < |list| && sensitive(list[i].0) && NoneAhead(list, i, sensitive)
    ensures var next := SetValue(list, list[i].0, REDACTED);
      && i < |next| <= |list| && NoneAhead(next, i + 1, sensitive)
      && Outcome(next, i + 1, sensitive) == Outcome(list, i, sensitive)
  {
    var name, rest := list[i].0, list[i + 1..];
    NoneAheadAfterSet(list, i, sensitive);
    SetFirst(list, i, name, REDACTED);
    WithoutIsSeen(rest, name, {}, sensitive);
    RedactOutcome(list, i, Without(rest, name), sensitive);
  }

  lemma RedactOutcome(list: seq<Tuple>, i: nat, left: seq<Tuple>, sensitive: string -> bool)
    requires i < |list| && sensitive(list[i].0)
    requires RedactedAfter(left, {}, sensitive) == RedactedAfter(list[i + 1..], {} + {list[i].0}, sensitive)
    ensures Outcome(list[..i] + [(list[i].0, REDACTED)] + left, i + 1, sensitive) == Outcome(list, i, sensitive)
  {
    var next := list[..i] + [(list[i].0, REDACTED)] + left;
    assert next[..i + 1] == list[..i] + [(list[i].0, REDACTED)];
    assert next[i + 1..] == left;
    assert list[i..][1..] == list[i + 1..];
  }

  /** Changing the list under its own iterator skips no tuple: the loop computes the specification. */
  method RedactParams(params: UrlSearchParams, sensitive: string -> bool)
    modifies params
    ensures params.list == Redacted(old(params.list), sensitive)
  {
    var i := 0;
    while i < |params.list|
      invariant i <= |params.list| && NoneAhead(params.list, i, sensitive)
      invariant Outcome(params.list, i, sensitive) == Redacted(old(params.list), sensitive)
      decreases |params.list| - i
    {
      hide *;
      var key := params.list[i].0;
      if sensitive(key) {
        RedactStep(params.list, i, sensitive);
        params.Set(key, REDACTED);
      } else {
        PlainStep(params.list, i, sensitive);
      }
      i := i + 1;
    }
    assert params.list[..i] == params.list;
  }

  // ---- what the specification promises ----

  function Plain(list: seq<Tuple>, sensitive: string -> bool): seq<Tuple> {
    if list == [] then []
    else (if sensitive(list[0].0) then [] else [list[0]]) + Plain(list[1..], sensitive)
  }

  /** Every other tuple is unchanged and in order. */
  lemma {:induction false} OthersUnchanged(list: seq<Tuple>, seen: set<string>, sensitive: string -> bool)
    ensures Plain(RedactedAfter(list, seen, sensitive), sensitive) == Plain(list, sensitive)
    decreases |list|
  {
    if list != [] {
      var name := list[0].0;
      var r := RedactedAfter(list, seen, sensitive);
      if !sensitive(name) {
        OthersUnchanged(list[1..], seen, sensitive);
        assert r[1..] == RedactedAfter(list[1..], seen, sensitive);
      } else if name in seen {
        OthersUnchanged(list[1..], seen, sensitive);
      } else {
        OthersUnchanged(list[1..], seen + {name}, sensitive);
        assert r[1..] == RedactedAfter(list[1..], seen + {name}, sensitive);
      }
    }
  }

  /** The sensitive names, in order of first occurrence, each once. */
  function SensitiveOnce(list: seq<Tuple>, seen: set<string>, sensitive: string -> bool): seq<string> {
    if list == [] then []
    else if sensitive(list[0].0) && list[0].0 !in seen
    then [list[0].0] + SensitiveOnce(list[1..], seen + {list[0].0}, sensitive)
    else SensitiveOnce(list[1..], seen, sensitive)
  }

  function SensitiveTuples(list: seq<Tuple>, sensitive: string -> bool): seq<Tuple> {
    if list == [] then []
    else (if sensitive(list[0].0) then [list[0]] else []) + SensitiveTuples(list[1..], sensitive)
  }

  function AsRedacted(names: seq<string>): seq<Tuple> {
    seq(|names|, i requires 0 <= i < |names| => (names[i], REDACTED))
  }

  /** The sensitive tuples of the result are exactly the sensitive names, once each, all with the same value. */
  lemma {:induction false} SensitiveKeptOnce(list: seq<Tuple>, seen: set<string>, sensitive: string -> bool)
    ensures SensitiveTuples(RedactedAfter(list, seen, sensitive), sensitive) == AsRedacted(SensitiveOnce(list, seen, sensitive))
    decreases |list|
  {
    if list != [] {
      var name := list[0].0;
      var r := RedactedAfter(list, seen, sensitive);
      if !sensitive(name) {
        SensitiveKeptOnce(list[1..], seen, sensitive);
        assert r[1..] == RedactedAfter(list[1..], seen, sensitive);
      } else if name in seen {
        SensitiveKeptOnce(list[1..], seen, sensitive);
      } else {
        SensitiveKeptOnce(list[1..], seen + {name}, sensitive);
        assert r[1..] == RedactedAfter(list[1..], seen + {name}, sensitive);
      }
    }
  }

  /** Redacting twice is redacting once. */
  lemma {:induction false} Idempotent(list: seq<Tuple>, seen: set<string>, sensitive: string -> bool)
    ensures var once := RedactedAfter(list, seen, sensitive); RedactedAfter(once, seen, sensitive) == once
    decreases |list|
  {
    if list != [] {
      var name := list[0].0;
      var r := RedactedAfter(list, seen, sensitive);
      if !sensitive(name) {
        Idempotent(list[1..], seen, sensitive);
        assert r[1..] == RedactedAfter(list[1..], seen, sensitive);
      } else if name in seen {
        Idempotent(list[1..], seen, sensitive);
      } else {
        Idempotent(list[1..], seen + {name}, sensitive);
        assert r[1..] == RedactedAfter(list[1..], seen + {name}, sensitive);
      }
    }
  }

  lemma {:induction false} SensitiveIsRedacted(list: seq<Tuple>, seen: set<string>, sensitive: string -> bool)
    ensures forall t :: t in RedactedAfter(list, seen, sensitive) && sensitive(t.0) ==> t.1 == REDACTED
    decreases |list|
  {
    if list != [] {
      SensitiveIsRedacted(list[1..], seen, sensitive);
      SensitiveIsRedacted(list[1..], seen + {list[0].0}, sensitive);
    }
  }

  /** With the names of the logger: no value of a token or secret is left, and the rest is as the specification says. */
  method RedactSensitive(params: UrlSearchParams, lower: string -> string)
    modifies params
    ensures params.list == Redacted(old(params.list), key => IsSensitiveQueryKey(lower, key))
    ensures forall t :: t in params.list && (EndsWith(lower(t.0), "_token") || Includes(lower(t.0), "secret")) ==> t.1 == "[REDACTED]"
    ensures Plain(params.list, key => IsSensitiveQueryKey(lower, key)) == Plain(old(params.list), key => IsSensitiveQueryKey(lower, key))
  {
    var sensitive := key => IsSensitiveQueryKey(lower, key);
    SensitiveIsRedacted(params.list, {}, sensitive);
    OthersUnchanged(params.list, {}, sensitive);
    RedactParams(params, sensitive);
    hide Includes, EndsWith;
  }

  /** Lists with the same names that differ only in values of sensitive names. */
  predicate SameButSecrets(a: seq<Tuple>, b: seq<Tuple>, sensitive: string -> bool) {
    && |a| == |b|
    && forall i :: 0 <= i < |a| ==> a[i].0 == b[i].0 && (a[i].1 == b[i].1 || sensitive(a[i].0))
  }

  /** No value of a sensitive name influences the result. */
  lemma {:induction false} SecretsDoNotMatter(a: seq<Tuple>, b: seq<Tuple>, seen: set<string>, sensitive: string -> bool)
    requires SameButSecrets(a, b, sensitive)
    ensures RedactedAfter(a, seen, sensitive) == RedactedAfter(b, seen, sensitive)
    decreases |a|
  {
    if a != [] {
      var name := a[0].0;
      assert SameButSecrets(a[1..], b[1..], sensitive);
      SecretsDoNotMatter(a[1..], b[1..], seen, sensitive);
      SecretsDoNotMatter(a[1..], b[1..], seen + {name}, sensitive);
    }
  }
}
